/**
  Sequence-numbered replay reconciliation (src/server/events.rs, src/server/history.rs).

  The backend's frames form one log; the frame with sequence number s is `log[s - 1]`. A session's
  worker handles the frames of its own thread and of the threads that descend from it, each thread's
  in order but not always one thread's after the other's, while history pages, each read at a later
  sequence number, are written over the client's transcript. `historyCutoff` and `snapshotCutoffs`
  decide which queued frames a page already contains.
 */
module Reconcile {
  import opened Prelude

  type Thread = string

  /** An entity of the transcript; a descendant's items are projected under identities of their own. */
  datatype Id = Id(thread: Thread, item: string)

  type History = map<Id, string>

  /** A delta appends to the entity it names; a snapshot replaces it. */
  datatype Op = Delta(text: string) | Snapshot(content: string)

  datatype Frame =
    | Item(id: Id, op: Op)               // the notifications whose effect is part of item history
    | Progress(id: Id, text: string)     // activity that item history does not record
    | Reverted(history: History)         // "thread/reverted"
    | Reply(mutation: Option<History>)   // a response; a history mutation replaces the history
    | Other

  /** The thread in whose order a frame is handled; responses are not handled by the worker. */
  function ThreadOf(root: Thread, f: Frame): Option<Thread> {
    match f
    case Item(id, _) => Some(id.thread)
    case Progress(id, _) => Some(id.thread)
    case Reverted(_) => Some(root)
    case Reply(_) => None
    case Other => None
  }

  /** What the adapter sends to the client. */
  datatype Update =
    | Append(id: Id, text: string)
    | Replace(id: Id, content: string)
    | Activity(id: Id, text: string)
    | ResetStart(revision: nat)
    | ResetComplete(revision: nat)
    | Diagnostic

  // ---------------------------------------------------------------- the backend's side

  function ApplyOp(h: History, id: Id, op: Op): History {
    match op
    case Delta(text) => h[id := (if id in h then h[id] else "") + text]
    case Snapshot(content) => h[id := content]
  }

  function Advance(h: History, f: Frame): History {
    match f
    case Item(id, op) => ApplyOp(h, id, op)
    case Reverted(history) => history
    case Reply(Some(history)) => history
    case _ => h
  }

  /** The backend's item history once the first n frames have been emitted. */
  function Auth(base: History, log: seq<Frame>, n: nat): History
    requires n <= |log|
  {
    if n == 0 then base else Advance(Auth(base, log, n - 1), log[n - 1])
  }

  /** Frame k, which is no item frame, changes the entity by exchanging the history. */
  predicate Exchanges(base: History, log: seq<Frame>, id: Id, k: nat)
    requires k < |log|
  {
    !log[k].Item? && Get(Auth(base, log, k + 1), id) != Get(Auth(base, log, k), id)
  }

  ghost predicate NoExchange(base: History, log: seq<Frame>, id: Id, from: nat, to: nat)
    requires to <= |log|
  {
    forall k | from <= k < to :: !Exchanges(base, log, id, k)
  }

  function ApplyEntity(content: Option<string>, op: Op): Option<string> {
    match op
    case Delta(text) => Some((if content.Some? then content.value else "") + text)
    case Snapshot(whole) => Some(whole)
  }

  predicate Names(f: Frame, id: Id) { f.Item? && f.id == id }

  /** What the item frames `from` to `end` make of one entity. */
  function Fold(log: seq<Frame>, id: Id, from: nat, end: nat, content: Option<string>): Option<string>
    requires end <= |log|
    decreases end
  {
    if end <= from then content
    else
      var before := Fold(log, id, from, end - 1, content);
      if Names(log[end - 1], id) then ApplyEntity(before, log[end - 1].op) else before
  }

  // ---------------------------------------------------------------- the client's side

  function ApplyUpdate(view: History, u: Update): History {
    match u
    case Append(id, text) => view[id := (if id in view then view[id] else "") + text]
    case Replace(id, content) => view[id := content]
    case ResetStart(_) => map[]
    case _ => view
  }

  /** The transcript of a client that started from `start` and received `sent`. */
  function ClientView(start: History, sent: seq<Update>): History {
    if sent == [] then start
    else ApplyUpdate(ClientView(start, sent[..|sent| - 1]), sent[|sent| - 1])
  }

  /** The activity of one thread that the client was shown. */
  function Activities(sent: seq<Update>, t: Thread): seq<(Id, string)> {
    if sent == [] then []
    else
      var u := sent[|sent| - 1];
      Activities(sent[..|sent| - 1], t) + if u.Activity? && u.id.thread == t then [(u.id, u.text)] else []
  }

  function ProgressFrames(log: seq<Frame>, t: Thread, n: nat): seq<(Id, string)>
    requires n <= |log|
  {
    if n == 0 then []
    else
      var f := log[n - 1];
      ProgressFrames(log, t, n - 1) + if f.Progress? && f.id.thread == t then [(f.id, f.text)] else []
  }

  function ResetStarts(sent: seq<Update>): nat {
    if sent == [] then 0
    else ResetStarts(sent[..|sent| - 1]) + if sent[|sent| - 1].ResetStart? then 1 else 0
  }

  // ---------------------------------------------------------------- the session's data

  datatype Data = Data(
    historyCutoff: nat,
    snapshotCutoffs: map<Id, nat>,
    historyRevision: nat,
    reconciledRevert: bool,   // reconciled_revert_notification
    sent: seq<Update>)

  function Cutoff(d: Data, id: Id): nat {
    if id in d.snapshotCutoffs then Max(d.historyCutoff, d.snapshotCutoffs[id]) else d.historyCutoff
  }

  predicate SnapshotCovered(d: Data, sequence: nat, f: Frame) {
    f.Item? && (sequence <= d.historyCutoff
                || (f.id in d.snapshotCutoffs && sequence <= d.snapshotCutoffs[f.id]))
  }

  function Project(id: Id, op: Op): Update {
    match op
    case Delta(text) => Append(id, text)
    case Snapshot(content) => Replace(id, content)
  }

  /** The part of reset_history before the replay. */
  function BeginReset(d: Data, cutoff: nat): Data {
    Data(cutoff, map[], d.historyRevision + 1, d.reconciledRevert, d.sent + [ResetStart(d.historyRevision + 1)])
  }

  /** One notification, handled under the delivery lock. */
  function Notify(d: Data, sequence: nat, f: Frame, sessionReset: bool): Data {
    match f
    case Item(id, op) =>
      if SnapshotCovered(d, sequence, f) then d else d.(sent := d.sent + [Project(id, op)])
    case Progress(id, text) => d.(sent := d.sent + [Activity(id, text)])
    case Reverted(_) =>
      if d.reconciledRevert then d.(reconciledRevert := false)
      else if sessionReset then BeginReset(d, sequence)
      else d.(sent := d.sent + [Diagnostic])
    case _ => d
  }

  /** One page of history answered at `sequence`: cutoff first, replacement next, entry by entry. */
  function ReplayEntries(d: Data, sequence: nat, entries: seq<(Id, string)>): Data {
    if entries == [] then d
    else
      var before := ReplayEntries(d, sequence, entries[..|entries| - 1]);
      var (id, content) := entries[|entries| - 1];
      before.(snapshotCutoffs := before.snapshotCutoffs[id := sequence],
              sent := before.sent + [Replace(id, content)])
  }

  /** The mutable session data; every method is one region under the delivery lock. */
  class Session {
    var historyCutoff: nat
    var snapshotCutoffs: map<Id, nat>
    var historyRevision: nat
    var reconciledRevert: bool
    var sent: seq<Update>

    function Model(): Data
      reads this
    {
      Data(historyCutoff, snapshotCutoffs, historyRevision, reconciledRevert, sent)
    }

    constructor ()
      ensures Model() == Data(0, map[], 0, false, [])
    {
      historyCutoff, snapshotCutoffs, historyRevision, reconciledRevert, sent := 0, map[], 0, false, [];
    }

    method ResetHistory(cutoff: nat)
      modifies this
      ensures Model() == BeginReset(old(Model()), cutoff)
    {
      historyRevision := historyRevision + 1;
      snapshotCutoffs := map[];
      historyCutoff := cutoff;
      sent := sent + [ResetStart(historyRevision)];
    }

    method Notification(sequence: nat, f: Frame, sessionReset: bool)
      modifies this
      ensures Model() == Notify(old(Model()), sequence, f, sessionReset)
    {
      if f.Reverted? {
        var alreadyReconciled := reconciledRevert;
        reconciledRevert := false;
        if !alreadyReconciled {
          if sessionReset {
            ResetHistory(sequence);
          } else {
            sent := sent + [Diagnostic];
          }
        }
      }
      var covered := f.Item? && (sequence <= historyCutoff
                                 || (f.id in snapshotCutoffs && sequence <= snapshotCutoffs[f.id]));
      if !covered {
        match f {
          case Item(id, Delta(text)) => sent := sent + [Append(id, text)];
          case Item(id, Snapshot(content)) => sent := sent + [Replace(id, content)];
          case Progress(id, text) => sent := sent + [Activity(id, text)];
          case _ =>
        }
      }
    }

    method ReplayPage(sequence: nat, entries: seq<(Id, string)>)
      modifies this
      ensures Model() == ReplayEntries(old(Model()), sequence, entries)
    {
      for i := 0 to |entries|
        invariant Model() == ReplayEntries(old(Model()), sequence, entries[..i])
      {
        var (id, content) := entries[i];
        snapshotCutoffs := snapshotCutoffs[id := sequence];
        sent := sent + [Replace(id, content)];
        assert entries[..i + 1][..i] == entries[..i];
      }
      assert entries[..|entries|] == entries;
    }
  }

  // ---------------------------------------------------------------- runs

  /** A fence that was requested when `seen` frames had been read, and one that has returned since. */
  datatype Fence = NoFence | Requested(seen: nat) | Returned(seen: nat)

  /**
    `handled[t]` is the position behind the last frame of thread t that the worker has handled; `held` means
    that a replay owns the delivery lock; a page applied now was requested after frame `horizon`. `top` is the
    last page read since the reset. `owed` holds the entities that existed at the reset boundary, or had been
    changed by frames handled beyond it (or, at the start, that the client did not have), and that no page or
    live snapshot has supplied since; clearing the cutoffs adds those whose page covers frames that the worker
    has yet to handle. `supplied` remembers which page an entity came from, also when the cutoffs are cleared.
   */
  datatype World = World(
    root: Thread,
    base: History,
    start: History,
    log: seq<Frame>,
    handled: map<Thread, nat>,
    held: bool,
    horizon: nat,
    top: nat,
    supplied: map<Id, nat>,
    owed: set<Id>,
    sessionReset: bool,
    fence: Fence,
    data: Data)

  function View(w: World): History { ClientView(w.start, w.data.sent) }

  datatype Step =
    | Read(f: Frame)                                        // the backend emits a frame
    | Deliver(t: Thread)                                    // the worker handles the next frame of a thread
    | Hold                                                  // a replay or mutation takes the delivery lock
    | Page(sequence: nat, entries: seq<(Id, string)>)       // a page answered at `sequence` is written
    | MutationReset(sequence: nat, ownRevert: bool)         // reset after our own mutation's reply
    | Complete                                              // "_codex/sessionReset" complete
    | Release                                               // the delivery lock is released, replay finished or not
    | RequestFence
    | FenceReturns                                          // the root's frames read before it have been handled
    | ClearCutoffs                                          // resume with replay, behind its fence and under the lock

  /** A page answered at s shows each listed entity as it was when frame s was emitted. */
  predicate Truthful(w: World, sequence: nat, entries: seq<(Id, string)>)
    requires sequence <= |w.log|
  {
    forall e <- entries :: Get(Auth(w.base, w.log, sequence), e.0) == Some(e.1)
  }

  function Handled(w: World, t: Thread): nat { if t in w.handled then w.handled[t] else 0 }

  /** The next frame of a thread at or behind a position, or the end of the log. */
  function NextOf(root: Thread, log: seq<Frame>, t: Thread, from: nat): (n: nat)
    requires from <= |log|
    ensures from <= n <= |log| && (forall k | from <= k < n :: ThreadOf(root, log[k]) != Some(t))
    ensures n < |log| ==> ThreadOf(root, log[n]) == Some(t)
    decreases |log| - from
  {
    if from == |log| || ThreadOf(root, log[from]) == Some(t) then from else NextOf(root, log, t, from + 1)
  }

  /** Every frame of the thread in front of this position has been handled. */
  function Position(w: World, t: Thread): (n: nat)
    requires Handled(w, t) <= |w.log|
    ensures Handled(w, t) <= n <= |w.log|
  {
    NextOf(w.root, w.log, t, Handled(w, t))
  }

  lemma AtPosition(w: World, t: Thread)
    requires Handled(w, t) <= |w.log|
    ensures forall k | Handled(w, t) <= k < Position(w, t) :: ThreadOf(w.root, w.log[k]) != Some(t)
    ensures Position(w, t) < |w.log| ==> ThreadOf(w.root, w.log[Position(w, t)]) == Some(t)
  {
  }

  predicate Enabled(w: World, step: Step) {
    match step
    case Read(_) => true
    case Deliver(t) => !w.held && Handled(w, t) <= |w.log| && Position(w, t) < |w.log|
    case Hold => !w.held
    case Page(sequence, entries) =>
      w.held && w.horizon < sequence <= |w.log| && w.log[sequence - 1] == Reply(None)
      && Truthful(w, sequence, entries)
    case MutationReset(sequence, _) =>
      w.held && w.sessionReset && w.horizon < sequence <= |w.log| && w.log[sequence - 1].Reply?
    case Complete => w.held
    case Release => w.held
    case RequestFence => true
    case FenceReturns => w.fence.Requested? && Handled(w, w.root) <= |w.log| && Position(w, w.root) >= w.fence.seen
    case ClearCutoffs => w.held && w.fence.Returned?
  }

  function Ids(entries: seq<(Id, string)>): set<Id> { set e <- entries :: e.0 }

  /** The entities that a reset to frame n owes: those of the history, and those changed by frames handled beyond it. */
  function OwedAt(w: World, handled: map<Thread, nat>, n: nat): set<Id>
    requires n <= |w.log|
  {
    Auth(w.base, w.log, n).Keys
    + set k | n <= k < |w.log| && w.log[k].Item? && w.log[k].id.thread in handled && k < handled[w.log[k].id.thread] :: w.log[k].id
  }

  /** What is cleared although frames below it have yet to be handled. */
  function Uncovered(w: World): set<Id> {
    set id | id in w.data.snapshotCutoffs && Handled(w, id.thread) <= |w.log|
             && w.data.snapshotCutoffs[id] > Max(Position(w, id.thread), w.data.historyCutoff)
  }

  function Cleared(w: World): World {
    w.(data := w.data.(snapshotCutoffs := map[]), supplied := w.supplied - Uncovered(w), owed := w.owed + Uncovered(w), fence := NoFence)
  }

  function DeliverOf(w: World, t: Thread): World
    requires Handled(w, t) <= |w.log| && Position(w, t) < |w.log|
  {
    var f, sequence := w.log[Position(w, t)], Position(w, t) + 1;
    var data, handled := Notify(w.data, sequence, f, w.sessionReset), w.handled[t := sequence];
    if data.historyRevision != w.data.historyRevision then
      w.(handled := handled, data := data, held := true, horizon := |w.log|, top := sequence, supplied := map[],
         owed := OwedAt(w, handled, sequence))
    else if f.Item? && f.op.Snapshot? && !SnapshotCovered(w.data, sequence, f) then
      w.(handled := handled, data := data, owed := w.owed - {f.id})
    else
      w.(handled := handled, data := data)
  }

  function Apply(w: World, step: Step): World
    requires Enabled(w, step)
  {
    match step
    case Read(f) => w.(log := w.log + [f])
    case Deliver(t) => DeliverOf(w, t)
    case Hold => w.(held := true, horizon := |w.log|)
    case Page(sequence, entries) =>
      w.(data := ReplayEntries(w.data, sequence, entries), top := sequence, horizon := sequence,
         supplied := w.supplied + map id | id in Ids(entries) :: sequence, owed := w.owed - Ids(entries))
    case MutationReset(sequence, ownRevert) =>
      w.(data := BeginReset(w.data.(reconciledRevert := ownRevert || w.data.reconciledRevert), sequence),
         horizon := sequence, top := sequence, supplied := map[], owed := OwedAt(w, w.handled, sequence))
    case Complete => w.(data := w.data.(sent := w.data.sent + [ResetComplete(w.data.historyRevision)]))
    case Release => w.(held := false)
    case RequestFence => w.(fence := Requested(|w.log|))
    case FenceReturns => w.(fence := Returned(w.fence.seen))
    case ClearCutoffs => Cleared(w)
  }

  ghost predicate Legal(w: World, steps: seq<Step>)
    decreases |steps|
  {
    steps == [] || (Enabled(w, steps[0]) && Legal(Apply(w, steps[0]), steps[1..]))
  }

  ghost function Execute(w: World, steps: seq<Step>): World
    requires Legal(w, steps)
    decreases |steps|
  {
    if steps == [] then w else Execute(Apply(w, steps[0]), steps[1..])
  }

  /** A session whose client holds `start` of the persisted history `base`. */
  predicate Initial(w: World) {
    && w.log == [] && w.handled == map[] && !w.held && w.horizon == 0 && w.top == 0 && w.supplied == map[] && w.fence == NoFence
    && w.data == Data(0, map[], 0, false, [])
    && forall id | id in w.base.Keys + w.start.Keys :: id in w.owed || Get(w.base, id) == Get(w.start, id)
  }

  predicate Bounded(w: World) {
    && (forall t <- w.handled :: w.handled[t] <= |w.log|)
    && w.top <= |w.log| && w.horizon <= |w.log| && w.data.historyCutoff <= |w.log|
    && (w.held ==> w.data.historyCutoff <= w.horizon && w.top <= w.horizon && forall t <- w.handled :: w.handled[t] <= w.horizon)
    && (forall id <- w.data.snapshotCutoffs :: id in w.supplied && w.data.snapshotCutoffs[id] == w.supplied[id])
    && (forall id <- w.supplied :: w.data.historyCutoff <= w.supplied[id] <= w.top && id !in w.owed)
  }

  /** Where the client's copy of an entity comes from: a page, or the boundary of the last reset. */
  function Anchor(w: World, id: Id): nat { if id in w.supplied then w.supplied[id] else w.data.historyCutoff }

  /** The frame up to which the client's copy of an entity is current. */
  function Horizon(w: World, id: Id): (n: nat)
    requires Bounded(w)
    ensures n <= |w.log|
  {
    Max(Position(w, id.thread), Cutoff(w.data, id))
  }

  lemma CutoffIsRead(w: World, id: Id)
    requires Bounded(w)
    ensures Cutoff(w.data, id) <= |w.log| && Handled(w, id.thread) <= |w.log|
  {
  }

  /** The client's copy is what the item frames since its anchor have made of it. */
  ghost predicate Folded(w: World, id: Id)
    requires Bounded(w)
  {
    && Anchor(w, id) <= Horizon(w, id)
    && Get(View(w), id) == Fold(w.log, id, Anchor(w, id), Horizon(w, id), Get(Auth(w.base, w.log, Anchor(w, id)), id))
  }

  /** No frame since its anchor exchanged the entity. */
  ghost predicate Stable(w: World, id: Id)
    requires Bounded(w)
  {
    NoExchange(w.base, w.log, id, Anchor(w, id), Horizon(w, id))
  }

  /** The client's copy of the entity is the backend's at its horizon. */
  predicate Current(w: World, id: Id)
    requires Bounded(w)
  {
    Get(View(w), id) == Get(Auth(w.base, w.log, Horizon(w, id)), id)
  }

  ghost predicate Tracked(w: World)
    requires Bounded(w)
  {
    && (forall t :: Activities(w.data.sent, t) == ProgressFrames(w.log, t, Handled(w, t)))
    && w.data.historyRevision == ResetStarts(w.data.sent)
  }

  ghost predicate Inv(w: World) {
    Bounded(w) && Tracked(w) && forall id :: id !in w.owed ==> Folded(w, id)
  }

  // ---------------------------------------------------------------- lemmas about logs and transcripts

  lemma {:induction false} AuthPrefix(base: History, log: seq<Frame>, f: Frame, n: nat)
    requires n <= |log|
    ensures Auth(base, log + [f], n) == Auth(base, log, n)
  {
    if n > 0 {
      AuthPrefix(base, log, f, n - 1);
    }
  }

  lemma {:induction false} ProgressPrefix(log: seq<Frame>, f: Frame, t: Thread, n: nat)
    requires n <= |log|
    ensures ProgressFrames(log + [f], t, n) == ProgressFrames(log, t, n)
  {
    if n > 0 {
      ProgressPrefix(log, f, t, n - 1);
    }
  }

  /** Only the thread's own frames add to its activity. */
  lemma {:induction false} ProgressSkips(root: Thread, log: seq<Frame>, t: Thread, from: nat, n: nat)
    requires from <= n <= |log| && forall k | from <= k < n :: ThreadOf(root, log[k]) != Some(t)
    ensures ProgressFrames(log, t, n) == ProgressFrames(log, t, from)
    decreases n
  {
    if from < n {
      ProgressSkips(root, log, t, from, n - 1);
    }
  }

  lemma SentOne(start: History, sent: seq<Update>, u: Update)
    ensures ClientView(start, sent + [u]) == ApplyUpdate(ClientView(start, sent), u)
    ensures forall t :: Activities(sent + [u], t) == Activities(sent, t) + if u.Activity? && u.id.thread == t then [(u.id, u.text)] else []
    ensures ResetStarts(sent + [u]) == ResetStarts(sent) + if u.ResetStart? then 1 else 0
  {
    assert (sent + [u])[..|sent|] == sent;
  }

  // ---------------------------------------------------------------- one entity along the log

  /** Without an exchange the backend's entity is what the item frames make of it. */
  lemma {:induction false} FoldIsAuth(base: History, log: seq<Frame>, id: Id, from: nat, end: nat)
    requires from <= end <= |log| && NoExchange(base, log, id, from, end)
    ensures Get(Auth(base, log, end), id) == Fold(log, id, from, end, Get(Auth(base, log, from), id))
    decreases end
  {
    if from < end {
      NoExchangeUpTo(base, log, id, from, end - 1);
      FoldIsAuth(base, log, id, from, end - 1);
      assert !Exchanges(base, log, id, end - 1);
    }
  }

  lemma NoExchangeUpTo(base: History, log: seq<Frame>, id: Id, from: nat, to: nat)
    requires to < |log| && NoExchange(base, log, id, from, to + 1)
    ensures NoExchange(base, log, id, from, to) && (from <= to ==> !Exchanges(base, log, id, to))
  {
  }

  lemma {:induction false} FoldUnnamed(log: seq<Frame>, id: Id, from: nat, end: nat, content: Option<string>)
    requires end <= |log| && forall k | from <= k < end :: !Names(log[k], id)
    ensures Fold(log, id, from, end, content) == content
    decreases end
  {
    if from < end {
      FoldUnnamed(log, id, from, end - 1, content);
    }
  }

  lemma {:induction false} FoldSplit(log: seq<Frame>, id: Id, from: nat, middle: nat, end: nat, content: Option<string>)
    requires from <= middle <= end <= |log|
    ensures Fold(log, id, from, end, content) == Fold(log, id, middle, end, Fold(log, id, from, middle, content))
    decreases end
  {
    if middle < end {
      FoldSplit(log, id, from, middle, end - 1, content);
    }
  }

  lemma {:induction false} FoldPrefix(log: seq<Frame>, f: Frame, id: Id, from: nat, end: nat, content: Option<string>)
    requires end <= |log|
    ensures Fold(log + [f], id, from, end, content) == Fold(log, id, from, end, content)
    decreases end
  {
    if from < end {
      FoldPrefix(log, f, id, from, end - 1, content);
    }
  }

  /** Frames of other threads do not name an entity. */
  lemma ForeignUnnamed(root: Thread, f: Frame, id: Id)
    requires ThreadOf(root, f) != Some(id.thread)
    ensures !Names(f, id)
  {
  }

  /** No item frame of the entity lies between where its thread has been handled and where it stands. */
  lemma GapUnnamed(w: World, id: Id)
    requires Handled(w, id.thread) <= |w.log|
    ensures forall k | Handled(w, id.thread) <= k < Position(w, id.thread) :: !Names(w.log[k], id)
  {
    AtPosition(w, id.thread);
  }

  /** Writing a page records its sequence for exactly the entries it lists. */
  lemma {:induction false} ReplayCutoffs(d: Data, sequence: nat, entries: seq<(Id, string)>)
    ensures var d' := ReplayEntries(d, sequence, entries);
            && d'.historyCutoff == d.historyCutoff
            && d'.historyRevision == d.historyRevision && d'.reconciledRevert == d.reconciledRevert
            && d'.snapshotCutoffs.Keys == d.snapshotCutoffs.Keys + Ids(entries)
            && (forall id <- d'.snapshotCutoffs :: d'.snapshotCutoffs[id]
                  == if id in Ids(entries) then sequence else d.snapshotCutoffs[id])
  {
    if entries != [] {
      var init, last := entries[..|entries| - 1], entries[|entries| - 1];
      ReplayCutoffs(d, sequence, init);
      IdsLast(init, last);
      assert entries == init + [last];
    }
  }

  lemma IdsLast(init: seq<(Id, string)>, last: (Id, string))
    ensures Ids(init + [last]) == Ids(init) + {last.0}
  {
    assert forall e :: e in init + [last] <==> e in init || e == last;
    forall id | id in Ids(init) + {last.0} ensures id in Ids(init + [last]) {
      if id == last.0 {
        assert last in init + [last];
      }
    }
  }

  /** Writing a page replaces the entities it lists by their page content, and nothing else. */
  lemma {:induction false} ReplayView(start: History, h: History, d: Data, sequence: nat, entries: seq<(Id, string)>)
    requires forall e <- entries :: Get(h, e.0) == Some(e.1)
    ensures var sent := ReplayEntries(d, sequence, entries).sent;
            && (forall t :: Activities(sent, t) == Activities(d.sent, t))
            && ResetStarts(sent) == ResetStarts(d.sent)
            && forall id :: Get(ClientView(start, sent), id)
                 == if id in Ids(entries) then Get(h, id) else Get(ClientView(start, d.sent), id)
  {
    hide ClientView, Activities, ResetStarts;
    if entries != [] {
      var init, last := entries[..|entries| - 1], entries[|entries| - 1];
      assert entries == init + [last];
      assert forall e <- init :: e in entries;
      assert last in entries;
      ReplayView(start, h, d, sequence, init);
      IdsLast(init, last);
      SentOne(start, ReplayEntries(d, sequence, init).sent, Replace(last.0, last.1));
    }
  }

  /** A notification without a reset moves at most the entity it names, and no cutoff. */
  lemma NotifyView(start: History, d: Data, n: nat, f: Frame, sessionReset: bool, id: Id)
    requires Notify(d, n, f, sessionReset).historyRevision == d.historyRevision
    ensures var d' := Notify(d, n, f, sessionReset);
            && d'.historyCutoff == d.historyCutoff && d'.snapshotCutoffs == d.snapshotCutoffs
            && (forall t :: Activities(d'.sent, t) == Activities(d.sent, t) + (if f.Progress? && f.id.thread == t then [(f.id, f.text)] else []))
            && ResetStarts(d'.sent) == ResetStarts(d.sent)
            && Get(ClientView(start, d'.sent), id)
               == if f.Item? && f.id == id && !SnapshotCovered(d, n, f)
                  then Get(ApplyOp(ClientView(start, d.sent), id, f.op), id)
                  else Get(ClientView(start, d.sent), id)
  {
    hide ClientView, Activities, ResetStarts;
    match f
    case Item(i, op) => SentOne(start, d.sent, Project(i, op));
    case Progress(i, text) => SentOne(start, d.sent, Activity(i, text));
    case Reverted(_) => SentOne(start, d.sent, Diagnostic);
    case _ =>
  }

  lemma CutoffBounds(d: Data, id: Id)
    ensures Cutoff(d, id) >= d.historyCutoff
    ensures forall n: nat, f: Frame :: f.Item? && f.id == id ==> (SnapshotCovered(d, n, f) <==> n <= Cutoff(d, id))
  {
  }

  /**
    The heart of the reconciliation: a delivered frame moves the client's copy of an entity exactly as it moves
    the fold of the log, once if no page covers it and not at all otherwise.
   */
  lemma DeliverOne(log: seq<Frame>, n: nat, d: Data, view: History, view': History, id: Id, anchor: nat, content: Option<string>, owed: bool)
    requires n < |log| && anchor <= Max(n, Cutoff(d, id)) <= |log|
    requires owed || Get(view, id) == Fold(log, id, anchor, Max(n, Cutoff(d, id)), content)
    requires owed ==> Names(log[n], id) && log[n].op.Snapshot? && !SnapshotCovered(d, n + 1, log[n])
    requires Get(view', id) == if Names(log[n], id) && !SnapshotCovered(d, n + 1, log[n])
                               then Get(ApplyOp(view, id, log[n].op), id) else Get(view, id)
    ensures Max(n + 1, Cutoff(d, id)) <= |log|
    ensures Get(view', id) == Fold(log, id, anchor, Max(n + 1, Cutoff(d, id)), content)
  {
    CutoffBounds(d, id);
  }

  /** And on over frames that do not name the entity. */
  lemma DeliverOnwards(log: seq<Frame>, n: nat, d: Data, view: History, view': History, id: Id, anchor: nat, content: Option<string>,
                       owed: bool, end: nat)
    requires n < |log| && anchor <= Max(n, Cutoff(d, id)) <= |log|
    requires owed || Get(view, id) == Fold(log, id, anchor, Max(n, Cutoff(d, id)), content)
    requires owed ==> Names(log[n], id) && log[n].op.Snapshot? && !SnapshotCovered(d, n + 1, log[n])
    requires Get(view', id) == if Names(log[n], id) && !SnapshotCovered(d, n + 1, log[n])
                               then Get(ApplyOp(view, id, log[n].op), id) else Get(view, id)
    requires Max(n + 1, Cutoff(d, id)) <= end <= |log|
    requires forall k | Max(n + 1, Cutoff(d, id)) <= k < end :: !Names(log[k], id)
    ensures Get(view', id) == Fold(log, id, anchor, end, content)
  {
    hide Fold, SnapshotCovered, ApplyOp, Cutoff;
    DeliverOne(log, n, d, view, view', id, anchor, content, owed);
    var from := Max(n + 1, Cutoff(d, id));
    FoldUnnamed(log, id, from, end, Fold(log, id, anchor, from, content));
    FoldSplit(log, id, anchor, from, end, content);
  }

  // ---------------------------------------------------------------- every step keeps the invariant

  lemma {:induction false} NextOfPrefix(root: Thread, log: seq<Frame>, f: Frame, t: Thread, from: nat)
    requires from <= |log|
    ensures NextOf(root, log + [f], t, from)
            == (if NextOf(root, log, t, from) < |log| || ThreadOf(root, f) == Some(t) then NextOf(root, log, t, from) else |log| + 1)
    decreases |log| - from
  {
    if from < |log| && ThreadOf(root, log[from]) != Some(t) {
      NextOfPrefix(root, log, f, t, from + 1);
    }
  }

  /** How a frame that is read moves the position of a thread. */
  lemma ReadMoves(w: World, f: Frame, t: Thread)
    requires Handled(w, t) <= |w.log|
    ensures Position(Apply(w, Read(f)), t)
            == if Position(w, t) < |w.log| || ThreadOf(w.root, f) == Some(t) then Position(w, t) else |w.log| + 1
  {
    NextOfPrefix(w.root, w.log, f, t, Handled(w, t));
  }

  lemma ReadFolded(w: World, f: Frame, id: Id)
    requires Inv(w) && Bounded(Apply(w, Read(f))) && id !in w.owed
    ensures Folded(Apply(w, Read(f)), id)
  {
    hide Tracked, ClientView, Auth, NextOf, Position, Fold;
    assert Folded(w, id);
    var w' := Apply(w, Read(f));
    ReadMoves(w, f, id.thread);
    AuthPrefix(w.base, w.log, f, Anchor(w, id));
    var content := Get(Auth(w.base, w.log, Anchor(w, id)), id);
    FoldPrefix(w.log, f, id, Anchor(w, id), Horizon(w, id), content);
    if Horizon(w', id) != Horizon(w, id) {
      ForeignUnnamed(w.root, f, id);
      FoldLast(w'.log, id, Anchor(w, id), |w.log| + 1, content);
    }
  }

  lemma FoldLast(log: seq<Frame>, id: Id, from: nat, end: nat, content: Option<string>)
    requires from < end <= |log|
    ensures Fold(log, id, from, end, content)
            == var before := Fold(log, id, from, end - 1, content);
               if Names(log[end - 1], id) then ApplyEntity(before, log[end - 1].op) else before
  {
  }

  lemma ReadKeeps(w: World, f: Frame)
    requires Inv(w)
    ensures Inv(Apply(w, Read(f)))
  {
    var w' := Apply(w, Read(f));
    assert Bounded(w');
    forall t ensures Activities(w'.data.sent, t) == ProgressFrames(w'.log, t, Handled(w', t)) {
      ProgressPrefix(w.log, f, t, Handled(w, t));
    }
    forall id | id !in w'.owed ensures Folded(w', id) {
      ReadFolded(w, f, id);
    }
  }

  /** What a delivery without a reset leaves alone. */
  lemma DeliverShape(w: World, t: Thread)
    requires Enabled(w, Deliver(t)) && Apply(w, Deliver(t)).data.historyRevision == w.data.historyRevision
    ensures var n := Position(w, t);
            var w', f := Apply(w, Deliver(t)), w.log[n];
            && w' == w.(handled := w.handled[t := n + 1], owed := w'.owed, data := w'.data)
            && w'.data == Notify(w.data, n + 1, f, w.sessionReset)
            && w'.data.historyCutoff == w.data.historyCutoff
            && w'.data.snapshotCutoffs == w.data.snapshotCutoffs
            && w'.owed == w.owed - if f.Item? && f.op.Snapshot? && !SnapshotCovered(w.data, n + 1, f) then {f.id} else {}
  {
    hide Position, Enabled, OwedAt, SnapshotCovered;
    InReach(w, t);
  }

  lemma DeliverPlainBounded(w: World, t: Thread)
    requires Inv(w) && Enabled(w, Deliver(t)) && Apply(w, Deliver(t)).data.historyRevision == w.data.historyRevision
    ensures Bounded(Apply(w, Deliver(t))) && Tracked(Apply(w, Deliver(t)))
  {
    hide Auth, ClientView, Folded, Apply, Enabled, Notify, Position, Activities, ProgressFrames, ResetStarts, ThreadOf;
    InReach(w, t);
    var w', n := Apply(w, Deliver(t)), Position(w, t);
    DeliverShape(w, t);
    AtPosition(w, t);
    ProgressAt(w.log, t, n);
    forall i: Thread ensures Activities(w'.data.sent, i) == ProgressFrames(w'.log, i, Handled(w', i)) {
      NotifyView(w.start, w.data, n + 1, w.log[n], w.sessionReset, Id(i, ""));
      if i == t {
        ProgressSkips(w.root, w.log, t, Handled(w, t), n);
      } else {
        OthersProgress(w.root, w.log[n], t, i);
      }
    }
    NotifyView(w.start, w.data, n + 1, w.log[n], w.sessionReset, Id(t, ""));
  }

  lemma InReach(w: World, t: Thread)
    requires Enabled(w, Deliver(t))
    ensures !w.held && Handled(w, t) <= |w.log| && Position(w, t) < |w.log|
  {
  }

  lemma ProgressAt(log: seq<Frame>, t: Thread, n: nat)
    requires n < |log|
    ensures ProgressFrames(log, t, n + 1)
            == ProgressFrames(log, t, n) + if log[n].Progress? && log[n].id.thread == t then [(log[n].id, log[n].text)] else []
  {
  }

  lemma OthersProgress(root: Thread, f: Frame, t: Thread, other: Thread)
    requires ThreadOf(root, f) == Some(t) && other != t
    ensures f.Progress? ==> f.id.thread != other
  {
  }

  lemma OthersUnnamed(root: Thread, f: Frame, t: Thread, id: Id)
    requires ThreadOf(root, f) == Some(t) && id.thread != t
    ensures !Names(f, id)
  {
  }

  /** The copies of the other threads' entities, and how they stand, are not touched. */
  lemma DeliverOthers(w: World, t: Thread, id: Id)
    requires Inv(w) && Enabled(w, Deliver(t)) && Apply(w, Deliver(t)).data.historyRevision == w.data.historyRevision
    requires id.thread != t && id !in Apply(w, Deliver(t)).owed && Bounded(Apply(w, Deliver(t)))
    ensures Folded(Apply(w, Deliver(t)), id)
  {
    hide Auth, ClientView, Tracked, Apply, Enabled, Notify, NextOf, ThreadOf, Fold;
    InReach(w, t);
    var w', n := Apply(w, Deliver(t)), Position(w, t);
    DeliverShape(w, t);
    AtPosition(w, t);
    OthersUnnamed(w.root, w.log[n], t, id);
    NotifyView(w.start, w.data, n + 1, w.log[n], w.sessionReset, id);
    assert Position(w', id.thread) == Position(w, id.thread) && Cutoff(w'.data, id) == Cutoff(w.data, id);
    assert id !in w.owed && Folded(w, id);
  }

  lemma DeliverOwn(w: World, t: Thread, id: Id)
    requires Inv(w) && Enabled(w, Deliver(t)) && Apply(w, Deliver(t)).data.historyRevision == w.data.historyRevision
    requires id.thread == t && id !in Apply(w, Deliver(t)).owed && Bounded(Apply(w, Deliver(t)))
    ensures Folded(Apply(w, Deliver(t)), id)
  {
    hide Auth, ClientView, Tracked, Apply, Enabled, Notify, NextOf, ThreadOf, Fold, ApplyOp;
    InReach(w, t);
    var w', n, d := Apply(w, Deliver(t)), Position(w, t), w.data;
    DeliverShape(w, t);
    NotifyView(w.start, d, n + 1, w.log[n], w.sessionReset, id);
    var anchor := Anchor(w, id);
    OwedAnchored(w, t, id);
    assert id !in w.owed ==> Folded(w, id);
    GapUnnamed(w', id);
    hide Folded;
    DeliverOnwards(w.log, n, d, View(w), View(w'), id, anchor, Get(Auth(w.base, w.log, anchor), id), id in w.owed, Horizon(w', id));
    OwnFolded(w, w', id);
  }

  lemma OwnFolded(w: World, w': World, id: Id)
    requires Bounded(w') && w'.log == w.log && w'.base == w.base && Anchor(w', id) == Anchor(w, id) <= Horizon(w', id)
    requires Get(View(w'), id) == Fold(w.log, id, Anchor(w, id), Horizon(w', id), Get(Auth(w.base, w.log, Anchor(w, id)), id))
    ensures Folded(w', id)
  {
    hide Fold, Auth, ClientView, Anchor, Horizon;
  }

  /** The anchor of an entity that a live snapshot rewrites lies in front of that snapshot. */
  lemma OwedAnchored(w: World, t: Thread, id: Id)
    requires Inv(w) && Enabled(w, Deliver(t)) && Apply(w, Deliver(t)).data.historyRevision == w.data.historyRevision
    requires id.thread == t && id !in Apply(w, Deliver(t)).owed
    ensures Anchor(w, id) <= Max(Position(w, t), Cutoff(w.data, id))
    ensures id in w.owed ==> var f := w.log[Position(w, t)];
              Names(f, id) && f.op.Snapshot? && !SnapshotCovered(w.data, Position(w, t) + 1, f)
  {
    hide Auth, ClientView, Tracked, NextOf, ThreadOf, Fold, Apply, Enabled, SnapshotCovered, Notify;
    InReach(w, t);
    DeliverShape(w, t);
    if id !in w.owed {
      assert Folded(w, id);
    }
  }

  lemma DeliverPlainKeeps(w: World, t: Thread)
    requires Inv(w) && Enabled(w, Deliver(t)) && Apply(w, Deliver(t)).data.historyRevision == w.data.historyRevision
    ensures Inv(Apply(w, Deliver(t)))
  {
    hide Auth, ClientView, Apply, Enabled, Folded;
    DeliverPlainBounded(w, t);
    var w' := Apply(w, Deliver(t));
    forall id | id !in w'.owed ensures Folded(w', id) {
      if id.thread == t {
        DeliverOwn(w, t, id);
      } else {
        DeliverOthers(w, t, id);
      }
    }
  }

  /** A reset owes all that its empty transcript lacks. */
  lemma ResetFolded(w: World, w': World, n: nat, id: Id)
    requires Bounded(w') && w'.log == w.log && w'.base == w.base && n <= |w.log|
    requires w'.data.historyCutoff == n && w'.data.snapshotCutoffs == map[] && w'.supplied == map[] && View(w') == map[]
    requires w'.owed == OwedAt(w, w'.handled, n) && id !in w'.owed
    ensures Folded(w', id)
  {
    hide ClientView, Auth, NextOf, Position, Fold;
    var end := Horizon(w', id);
    AtPosition(w', id.thread);
    forall k | n <= k < end ensures !Names(w.log[k], id) {
      assert k < Handled(w', id.thread) && w.log[k].Item? ==> w.log[k].id in w'.owed || w.log[k].id.thread != id.thread;
    }
    FoldUnnamed(w.log, id, n, end, None);
  }

  /** The reset for somebody else's revert. */
  lemma ResetShape(w: World, t: Thread)
    requires Enabled(w, Deliver(t)) && Apply(w, Deliver(t)).data.historyRevision != w.data.historyRevision
    ensures var n := Position(w, t);
            var handled := w.handled[t := n + 1];
            && Handled(w, t) <= n < |w.log| && w.log[n].Reverted? && t == w.root && !w.data.reconciledRevert && w.sessionReset
            && (forall k | Handled(w, t) <= k < n :: ThreadOf(w.root, w.log[k]) != Some(t))
            && Apply(w, Deliver(t))
               == w.(handled := handled, data := BeginReset(w.data, n + 1), held := true, horizon := |w.log|, top := n + 1,
                     supplied := map[], owed := OwedAt(w, handled, n + 1))
  {
    hide NextOf, OwedAt;
    AtPosition(w, t);
  }

  lemma ResetBounded(w: World, t: Thread)
    requires Bounded(w) && Enabled(w, Deliver(t)) && Apply(w, Deliver(t)).data.historyRevision != w.data.historyRevision
    ensures Bounded(Apply(w, Deliver(t)))
  {
    hide OwedAt, Apply, Enabled, Position;
    ResetShape(w, t);
  }

  lemma DeliverResetKeeps(w: World, t: Thread)
    requires Inv(w) && Enabled(w, Deliver(t)) && Apply(w, Deliver(t)).data.historyRevision != w.data.historyRevision
    ensures Inv(Apply(w, Deliver(t)))
  {
    hide Auth, Folded, Activities, ProgressFrames, ClientView, ResetStarts, NextOf, OwedAt, Apply, Enabled;
    ResetShape(w, t);
    var w', n := Apply(w, Deliver(t)), Position(w, t);
    ResetBounded(w, t);
    SentOne(w.start, w.data.sent, ResetStart(w.data.historyRevision + 1));
    forall i: Thread ensures Activities(w'.data.sent, i) == ProgressFrames(w'.log, i, Handled(w', i)) {
      if i == t {
        ProgressSkips(w.root, w.log, t, Handled(w, t), n);
        RevertIsNoProgress(w.log, t, n);
      }
    }
    forall id | id !in w'.owed ensures Folded(w', id) {
      ResetFolded(w, w', n + 1, id);
    }
  }

  lemma RevertIsNoProgress(log: seq<Frame>, t: Thread, n: nat)
    requires n < |log| && log[n].Reverted?
    ensures ProgressFrames(log, t, n + 1) == ProgressFrames(log, t, n)
  {
  }

  lemma MutationResetKeeps(w: World, sequence: nat, ownRevert: bool)
    requires Inv(w) && Enabled(w, MutationReset(sequence, ownRevert))
    ensures Inv(Apply(w, MutationReset(sequence, ownRevert)))
  {
    hide Auth, Folded, Activities, ProgressFrames, ClientView, ResetStarts;
    var w' := Apply(w, MutationReset(sequence, ownRevert));
    SentOne(w.start, w.data.sent, ResetStart(w.data.historyRevision + 1));
    forall id | id !in w'.owed ensures Folded(w', id) {
      ResetFolded(w, w', sequence, id);
    }
  }

  lemma PageShape(w: World, sequence: nat, entries: seq<(Id, string)>, id: Id)
    requires Enabled(w, Page(sequence, entries)) && Handled(w, id.thread) <= |w.log|
    ensures var w', listed := Apply(w, Page(sequence, entries)), id in Ids(entries);
            && w'.log == w.log && w'.base == w.base && sequence <= |w.log| && (id in w'.owed <==> id in w.owed && !listed)
            && Position(w', id.thread) == Position(w, id.thread)
            && Anchor(w', id) == (if listed then sequence else Anchor(w, id))
            && (!listed ==> Cutoff(w'.data, id) == Cutoff(w.data, id))
            && (listed ==> id in w'.data.snapshotCutoffs && w'.data.snapshotCutoffs[id] == sequence)
            && Get(View(w'), id) == if listed then Get(Auth(w.base, w.log, sequence), id) else Get(View(w), id)
  {
    hide Auth, ClientView, NextOf, ReplayEntries;
    ReplayCutoffs(w.data, sequence, entries);
    ReplayView(w.start, Auth(w.base, w.log, sequence), w.data, sequence, entries);
  }

  lemma PageFolded(w: World, sequence: nat, entries: seq<(Id, string)>, id: Id)
    requires Inv(w) && Enabled(w, Page(sequence, entries)) && Bounded(Apply(w, Page(sequence, entries)))
    requires id !in Apply(w, Page(sequence, entries)).owed
    ensures Folded(Apply(w, Page(sequence, entries)), id)
  {
    hide Auth, ClientView, Tracked, NextOf, ThreadOf, Fold, Apply, Enabled, Position;
    var w' := Apply(w, Page(sequence, entries));
    PageShape(w, sequence, entries, id);
    if id in Ids(entries) {
      GapUnnamed(w', id);
      PageBeyond(w, sequence, entries, id.thread);
      FoldUnnamed(w.log, id, sequence, Horizon(w', id), Get(Auth(w.base, w.log, sequence), id));
    } else {
      assert id !in w.owed && Folded(w, id);
    }
  }

  /** A page written now was answered after every frame that has been handled. */
  lemma PageBeyond(w: World, sequence: nat, entries: seq<(Id, string)>, t: Thread)
    requires Bounded(w) && Enabled(w, Page(sequence, entries))
    ensures Handled(Apply(w, Page(sequence, entries)), t) == Handled(w, t) <= sequence
  {
    hide Auth, ReplayEntries;
  }

  lemma PageBounded(w: World, sequence: nat, entries: seq<(Id, string)>)
    requires Inv(w) && Enabled(w, Page(sequence, entries))
    ensures Bounded(Apply(w, Page(sequence, entries)))
  {
    hide Auth, Folded, Tracked, ReplayEntries, Truthful;
    ReplayCutoffs(w.data, sequence, entries);
  }

  lemma PageTracked(w: World, sequence: nat, entries: seq<(Id, string)>)
    requires Inv(w) && Enabled(w, Page(sequence, entries)) && Bounded(Apply(w, Page(sequence, entries)))
    ensures Tracked(Apply(w, Page(sequence, entries)))
  {
    hide Auth, ClientView, Folded, Activities, ProgressFrames, ResetStarts, ReplayEntries, Bounded;
    ReplayCutoffs(w.data, sequence, entries);
    ReplayView(w.start, Auth(w.base, w.log, sequence), w.data, sequence, entries);
  }

  lemma PageKeeps(w: World, sequence: nat, entries: seq<(Id, string)>)
    requires Inv(w) && Enabled(w, Page(sequence, entries))
    ensures Inv(Apply(w, Page(sequence, entries)))
  {
    hide Auth, ClientView, Folded, Tracked, Bounded, ReplayEntries, Apply, Enabled;
    var w' := Apply(w, Page(sequence, entries));
    PageBounded(w, sequence, entries);
    PageTracked(w, sequence, entries);
    forall id | id !in w'.owed ensures Folded(w', id) {
      PageFolded(w, sequence, entries, id);
    }
  }

  lemma ClearFolded(w: World, id: Id)
    requires Inv(w) && Bounded(Cleared(w)) && id !in Cleared(w).owed
    ensures Folded(Cleared(w), id)
  {
    hide Auth, ClientView, Tracked, NextOf, Fold;
    assert Position(Cleared(w), id.thread) == Position(w, id.thread);
    hide Position;
    assert Horizon(Cleared(w), id) == Horizon(w, id) && Anchor(Cleared(w), id) == Anchor(w, id);
    assert Folded(w, id);
  }

  lemma ClearKeeps(w: World)
    requires Inv(w)
    ensures Inv(Cleared(w))
  {
    hide Auth, ClientView, Activities, ProgressFrames, ResetStarts, Folded, Uncovered;
    forall id | id !in Cleared(w).owed ensures Folded(Cleared(w), id) {
      ClearFolded(w, id);
    }
  }

  lemma OthersKeep(w: World, w': World)
    requires Inv(w) && Bounded(w')
    requires w' == w.(held := w'.held, horizon := w'.horizon, fence := w'.fence, data := w.data.(sent := w'.data.sent))
    requires View(w') == View(w) && forall t :: Activities(w'.data.sent, t) == Activities(w.data.sent, t)
    requires ResetStarts(w'.data.sent) == ResetStarts(w.data.sent)
    ensures Inv(w')
  {
    hide Auth, ClientView, Activities, ProgressFrames, ResetStarts, Fold;
    forall id | id !in w'.owed ensures Folded(w', id) {
      assert Position(w', id.thread) == Position(w, id.thread);
      assert Folded(w, id) && Horizon(w', id) == Horizon(w, id);
    }
  }

  lemma QuietKeeps(w: World, step: Step)
    requires Inv(w) && Enabled(w, step)
    requires step.Complete? || step.Hold? || step.Release? || step.RequestFence? || step.FenceReturns?
    ensures Inv(Apply(w, step))
  {
    hide Folded, Auth, ClientView, Activities, ProgressFrames, ResetStarts, Tracked, NextOf;
    SentOne(w.start, w.data.sent, ResetComplete(w.data.historyRevision));
    OthersKeep(w, Apply(w, step));
  }

  lemma StepKeeps(w: World, step: Step)
    requires Inv(w) && Enabled(w, step)
    ensures Inv(Apply(w, step))
  {
    hide Inv, Apply, Enabled;
    match step
    case Read(f) => ReadKeeps(w, f);
    case Deliver(t) =>
      if Apply(w, step).data.historyRevision != w.data.historyRevision {
        DeliverResetKeeps(w, t);
      } else {
        DeliverPlainKeeps(w, t);
      }
    case Page(sequence, entries) => PageKeeps(w, sequence, entries);
    case MutationReset(sequence, own) => MutationResetKeeps(w, sequence, own);
    case ClearCutoffs =>
      ClearKeeps(w);
      ClearIs(w);
    case _ => QuietKeeps(w, step);
  }

  lemma ClearIs(w: World)
    requires Enabled(w, ClearCutoffs)
    ensures Apply(w, ClearCutoffs) == Cleared(w)
  {
  }

  lemma {:induction false} RunKeeps(w: World, steps: seq<Step>)
    requires Inv(w) && Legal(w, steps)
    ensures Inv(Execute(w, steps))
    decreases |steps|
  {
    hide Inv, Apply, Enabled;
    if steps != [] {
      StepKeeps(w, steps[0]);
      RunKeeps(Apply(w, steps[0]), steps[1..]);
    }
  }

  /** Whether a copy is current is a question about the log alone. */
  lemma CurrentExactly(w: World, id: Id)
    requires Bounded(w) && Folded(w, id)
    ensures Current(w, id) <==>
              Get(Auth(w.base, w.log, Horizon(w, id)), id)
              == Fold(w.log, id, Anchor(w, id), Horizon(w, id), Get(Auth(w.base, w.log, Anchor(w, id)), id))
    ensures Stable(w, id) ==> Current(w, id)
  {
    hide Fold, Auth, Position;
    if Stable(w, id) {
      FoldIsAuth(w.base, w.log, id, Anchor(w, id), Horizon(w, id));
    }
  }

  /**
    Main theorem. However backend frames, deliveries, replays, resets, fences and cutoff clears interleave, and
    in whatever order the threads of a session are handled, an entity that is no longer owed to the client is what
    the item frames have made of it between the page or reset it comes from and
    max(position of its thread, history cutoff, its snapshot cutoff). That is the backend's entity there exactly
    if exchanges of the history have left it so, in particular if there was none. Each thread's activity
    outside item history is delivered exactly once, in its order.
   */
  lemma ReplayIsReconciled(w: World, steps: seq<Step>, id: Id)
    requires Initial(w) && Legal(w, steps)
    ensures var w' := Execute(w, steps);
            && Bounded(w')
            && (id !in w'.owed ==>
                  && Folded(w', id)
                  && (Stable(w', id) ==> Current(w', id))
                  && (Current(w', id) <==>
                        Get(Auth(w'.base, w'.log, Horizon(w', id)), id)
                        == Fold(w'.log, id, Anchor(w', id), Horizon(w', id), Get(Auth(w'.base, w'.log, Anchor(w', id)), id))))
            && Activities(w'.data.sent, id.thread) == ProgressFrames(w'.log, id.thread, Handled(w', id.thread))
            && ResetStarts(w'.data.sent) == w'.data.historyRevision
  {
    hide Apply, Enabled, Current, Stable, Folded;
    InitialInv(w);
    RunKeeps(w, steps);
    var w' := Execute(w, steps);
    if id !in w'.owed {
      CurrentExactly(w', id);
    }
  }

  lemma InitialInv(w: World)
    requires Initial(w)
    ensures Inv(w)
  {
    forall i | i !in w.owed ensures Folded(w, i) {
      assert i in w.base.Keys + w.start.Keys || (i !in w.base && i !in w.start);
    }
  }

  lemma SameLookups(a: History, b: History)
    requires forall id :: Get(a, id) == Get(b, id)
    ensures a == b
  {
    forall id ensures id in a <==> id in b {
      assert Get(a, id) == Get(b, id);
    }
    forall id | id in a ensures a[id] == b[id] {
      assert Get(a, id) == Get(b, id);
    }
  }
}
