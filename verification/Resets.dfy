/**
  Replays, resets and cutoff clears over whole runs (src/server/history.rs, src/server/events.rs,
  src/server/lifecycle.rs): when a replay makes the client's transcript complete again, and exactly when a
  late revert, a swallowed revert or a clear behind resume's fence leaves it wrong.
 */
module Resets {
  import opened Prelude
  import opened Reconcile

  // ---------------------------------------------------------------- one entity along the log

  /** An absent entity stays absent exactly if no frame names it. */
  lemma {:induction false} FoldFromNone(log: seq<Frame>, id: Id, from: nat, end: nat)
    requires from <= end <= |log|
    ensures Fold(log, id, from, end, None).None? <==> (forall k | from <= k < end :: !Names(log[k], id))
    decreases end
  {
    if from < end {
      FoldFromNone(log, id, from, end - 1);
    }
  }

  predicate Appends(f: Frame, id: Id) { Names(f, id) && f.op.Delta? && f.op.text != "" }

  predicate Rewrites(f: Frame, id: Id) { Names(f, id) && f.op.Snapshot? }

  /** From the first snapshot on the old content does not matter. */
  lemma {:induction false} FoldRewritten(log: seq<Frame>, id: Id, from: nat, end: nat, a: Option<string>, b: Option<string>)
    requires from <= end <= |log| && exists k :: from <= k < end && Rewrites(log[k], id)
    ensures Fold(log, id, from, end, a) == Fold(log, id, from, end, b)
    decreases end
  {
    if !Rewrites(log[end - 1], id) {
      FoldRewritten(log, id, from, end - 1, a, b);
    }
  }

  /** Without one the content only grows. */
  lemma {:induction false} FoldAppended(log: seq<Frame>, id: Id, from: nat, end: nat, content: string)
    requires from <= end <= |log| && forall k | from <= k < end :: !Rewrites(log[k], id)
    ensures var r := Fold(log, id, from, end, Some(content));
            && r.Some? && |r.value| >= |content|
            && (r.value == content <==> (forall k | from <= k < end :: !Appends(log[k], id)))
    decreases end
  {
    if from < end {
      FoldAppended(log, id, from, end - 1, content);
    }
  }

  // ---------------------------------------------------------------- several deliveries

  /** The worker hands frames on, of any threads in any order, without a reset. */
  ghost predicate PlainRun(w: World, steps: seq<Step>): (r: bool)
    ensures r ==> Legal(w, steps)
    decreases |steps|
  {
    steps == []
    || (steps[0].Deliver? && Enabled(w, steps[0]) && !w.log[Position(w, steps[0].t)].Reverted?
        && PlainRun(Apply(w, steps[0]), steps[1..]))
  }

  /** What deliveries without a reset leave alone. */
  predicate SameButDelivered(w: World, w': World) {
    && w' == w.(handled := w'.handled, owed := w'.owed, data := w'.data) && w'.owed <= w.owed
    && w'.data.historyCutoff == w.data.historyCutoff && w'.data.snapshotCutoffs == w.data.snapshotCutoffs
    && w'.data.historyRevision == w.data.historyRevision
  }

  lemma NoReset(w: World, t: Thread)
    requires Enabled(w, Deliver(t)) && !w.log[Position(w, t)].Reverted?
    ensures Apply(w, Deliver(t)).data.historyRevision == w.data.historyRevision
  {
    hide NextOf;
  }

  lemma DeliverPlain(w: World, t: Thread, id: Id)
    requires Inv(w) && Enabled(w, Deliver(t)) && !w.log[Position(w, t)].Reverted?
    ensures var w', c := Apply(w, Deliver(t)), Cutoff(w.data, id);
            && Inv(w') && SameButDelivered(w, w') && w'.data.reconciledRevert == w.data.reconciledRevert
            && Handled(w, id.thread) <= Handled(w', id.thread) <= |w.log| && c <= |w.log|
            && Get(View(w'), id) == Fold(w.log, id, Max(Handled(w, id.thread), c), Max(Handled(w', id.thread), c), Get(View(w), id))
  {
    hide Inv, ClientView, Auth, Apply, Notify, Enabled, NextOf, Fold;
    StepKeeps(w, Deliver(t));
    NoReset(w, t);
    DeliverShape(w, t);
    InvParts(w);
    InReach(w, t);
    var w', n := Apply(w, Deliver(t)), Position(w, t);
    NotifyView(w.start, w.data, n + 1, w.log[n], w.sessionReset, id);
    CutoffIsRead(w, id);
    NotifyFlag(w.data, n + 1, w.log[n], w.sessionReset);
    if t == id.thread {
      GapUnnamed(w, id);
      OneFold(w.log, n, w.data, View(w), View(w'), id, Handled(w, t));
    } else {
      OthersUnnamed(w.root, w.log[n], t, id);
      FoldNothing(w.log, id, Max(Handled(w, id.thread), Cutoff(w.data, id)), Get(View(w), id));
    }
  }

  lemma NotifyFlag(d: Data, n: nat, f: Frame, sessionReset: bool)
    requires !f.Reverted?
    ensures Notify(d, n, f, sessionReset).reconciledRevert == d.reconciledRevert
  {
  }

  lemma FoldNothing(log: seq<Frame>, id: Id, from: nat, content: Option<string>)
    requires from <= |log|
    ensures Fold(log, id, from, from, content) == content
  {
  }

  /** The frame that is handled next, with the frames of other threads in front of it. */
  lemma OneFold(log: seq<Frame>, n: nat, d: Data, view: History, view': History, id: Id, from: nat)
    requires from <= n < |log| && Cutoff(d, id) <= |log| && forall k | from <= k < n :: !Names(log[k], id)
    requires Get(view', id) == if Names(log[n], id) && !SnapshotCovered(d, n + 1, log[n])
                               then Get(ApplyOp(view, id, log[n].op), id) else Get(view, id)
    ensures Get(view', id) == Fold(log, id, Max(from, Cutoff(d, id)), Max(n + 1, Cutoff(d, id)), Get(view, id))
  {
    var c := Cutoff(d, id);
    CutoffBounds(d, id);
    if c <= n {
      FoldUnnamed(log, id, Max(from, c), n, Get(view, id));
    }
  }

  /** Deliveries without a reset fold the frames after the entity's cutoff into the client's copy. */
  lemma {:induction false} PlainRunFolds(w: World, steps: seq<Step>, id: Id)
    requires Inv(w) && PlainRun(w, steps)
    ensures var w', c := Execute(w, steps), Cutoff(w.data, id);
            && Inv(w') && SameButDelivered(w, w') && w'.data.reconciledRevert == w.data.reconciledRevert
            && Handled(w, id.thread) <= Handled(w', id.thread) <= |w.log| && c <= |w.log|
            && Get(View(w'), id) == Fold(w.log, id, Max(Handled(w, id.thread), c), Max(Handled(w', id.thread), c), Get(View(w), id))
    decreases |steps|
  {
    hide Inv, Apply, View, Enabled, Fold, Position;
    if steps == [] {
      InvParts(w);
      CutoffIsRead(w, id);
      FoldNothing(w.log, id, Max(Handled(w, id.thread), Cutoff(w.data, id)), Get(View(w), id));
    } else {
      var next, w' := Apply(w, steps[0]), Execute(w, steps);
      DeliverPlain(w, steps[0].t, id);
      PlainRunFolds(next, steps[1..], id);
      var c := Cutoff(w.data, id);
      FoldSplit(w.log, id, Max(Handled(w, id.thread), c), Max(Handled(next, id.thread), c), Max(Handled(w', id.thread), c), Get(View(w), id));
    }
  }

  /** The worker has handled what was read up to frame n, and nothing behind it. */
  ghost predicate Reached(w: World, n: nat) {
    n <= |w.log| && forall t :: Handled(w, t) <= n <= Position(w, t)
  }

  /** An entity is not named between the last handled frame of its thread and a position that the worker has reached. */
  lemma ReachedUnnamed(w: World, n: nat, id: Id)
    requires Handled(w, id.thread) <= n <= |w.log| && n <= Position(w, id.thread)
    ensures forall k | Handled(w, id.thread) <= k < n :: !Names(w.log[k], id)
  {
    GapUnnamed(w, id);
  }

  // ---------------------------------------------------------------- a replay and what it supplies

  predicate ReplayStep(s: Step) { s.Read? || s.Page? || s.Complete? }

  function PagedIds(steps: seq<Step>): set<Id> {
    set i, e | 0 <= i < |steps| && steps[i].Page? && e in steps[i].entries :: e.0
  }

  lemma PagedFirst(steps: seq<Step>)
    requires steps != []
    ensures PagedIds(steps) == (if steps[0].Page? then Ids(steps[0].entries) else {}) + PagedIds(steps[1..])
  {
    var rest := steps[1..];
    assert forall i | 0 <= i < |rest| :: rest[i] == steps[i + 1];
    forall id | id in PagedIds(rest) ensures id in PagedIds(steps) {
      var i, e :| 0 <= i < |rest| && rest[i].Page? && e in rest[i].entries && e.0 == id;
      assert steps[i + 1].Page? && e in steps[i + 1].entries;
    }
    if steps[0].Page? {
      forall id | id in Ids(steps[0].entries) ensures id in PagedIds(steps) {
        var e :| e in steps[0].entries && e.0 == id;
        assert steps[0].Page? && e in steps[0].entries;
      }
    }
  }

  /** What a step of a replay that lists `listed` does. */
  predicate Replays(w: World, w': World, listed: set<Id>, id: Id) {
    && w'.owed == w.owed - listed
    && w'.root == w.root && w'.handled == w.handled && w'.held == w.held && w.log <= w'.log && w'.base == w.base
    && w'.sessionReset == w.sessionReset && w'.data.reconciledRevert == w.data.reconciledRevert
    && w'.data.historyCutoff == w.data.historyCutoff && w'.data.historyRevision == w.data.historyRevision
    && w'.data.snapshotCutoffs.Keys == w.data.snapshotCutoffs.Keys + listed
    && (id !in listed ==> Get(View(w'), id) == Get(View(w), id)
                          && Get(w'.data.snapshotCutoffs, id) == Get(w.data.snapshotCutoffs, id))
    && (id in listed ==> w'.data.snapshotCutoffs[id] > w.horizon)
    && w'.horizon >= w.horizon && w'.top >= w.top
  }

  lemma PageOne(w: World, sequence: nat, entries: seq<(Id, string)>, id: Id)
    requires Bounded(w) && Enabled(w, Page(sequence, entries))
    ensures Replays(w, Apply(w, Page(sequence, entries)), Ids(entries), id)
  {
    hide Auth, ClientView, ReplayEntries, NextOf;
    ReplayCutoffs(w.data, sequence, entries);
    ReplayView(w.start, Auth(w.base, w.log, sequence), w.data, sequence, entries);
    assert w.top <= w.horizon < sequence;
  }

  /** One step of a replay. */
  lemma ReplayOne(w: World, step: Step, id: Id)
    requires Bounded(w) && Enabled(w, step) && ReplayStep(step)
    ensures Replays(w, Apply(w, step), if step.Page? then Ids(step.entries) else {}, id)
  {
    hide Bounded, Apply, Enabled, Replays;
    match step
    case Read(f) => ReadOne(w, f, id);
    case Page(sequence, entries) => PageOne(w, sequence, entries, id);
    case Complete => CompleteOne(w, id);
  }

  lemma ReadOne(w: World, f: Frame, id: Id)
    ensures Enabled(w, Read(f)) && Replays(w, Apply(w, Read(f)), {}, id)
  {
    hide ClientView;
  }

  lemma CompleteOne(w: World, id: Id)
    requires Enabled(w, Complete)
    ensures Replays(w, Apply(w, Complete), {}, id)
  {
    hide ClientView;
    SentOne(w.start, w.data.sent, ResetComplete(w.data.historyRevision));
  }

  lemma ReplaysNothing(w: World, id: Id)
    ensures Replays(w, w, {}, id)
  {
  }

  lemma ReplaysJoin(w: World, w': World, w'': World, listed: set<Id>, more: set<Id>, id: Id)
    requires Replays(w, w', listed, id) && Replays(w', w'', more, id)
    ensures Replays(w, w'', listed + more, id)
  {
    hide View;
    assert id !in listed + more ==> Get(w''.data.snapshotCutoffs, id) == Get(w.data.snapshotCutoffs, id);
    assert id in listed && id !in more ==> Get(w''.data.snapshotCutoffs, id) == Get(w'.data.snapshotCutoffs, id);
  }

  /** A replay takes exactly the ids of its pages out of what is owed, and leaves every other entity alone. */
  lemma {:induction false} ReplaySupplies(w: World, steps: seq<Step>, id: Id)
    requires Inv(w) && Legal(w, steps) && forall s <- steps :: ReplayStep(s)
    ensures Inv(Execute(w, steps)) && Replays(w, Execute(w, steps), PagedIds(steps), id)
    decreases |steps|
  {
    hide Inv, Apply, Enabled, View, ReplayStep, Replays;
    if steps == [] {
      assert PagedIds(steps) == {};
      ReplaysNothing(w, id);
    } else {
      PagedFirst(steps);
      assert steps[0] in steps && forall s <- steps[1..] :: s in steps;
      InvParts(w);
      StepKeeps(w, steps[0]);
      ReplayOne(w, steps[0], id);
      ReplaySupplies(Apply(w, steps[0]), steps[1..], id);
      ReplaysJoin(w, Apply(w, steps[0]), Execute(w, steps), if steps[0].Page? then Ids(steps[0].entries) else {}, PagedIds(steps[1..]), id);
    }
  }

  // ---------------------------------------------------------------- fence, clear, replay

  lemma InvParts(w: World)
    requires Inv(w)
    ensures Bounded(w) && forall id :: id !in w.owed ==> Folded(w, id)
  {
  }

  /** Every stored cutoff has been passed, by the worker or by the history cutoff. */
  predicate CutoffsPassed(w: World)
    requires Bounded(w)
  {
    forall id <- w.data.snapshotCutoffs :: w.data.snapshotCutoffs[id] <= Max(Position(w, id.thread), w.data.historyCutoff)
  }

  /**
    What the clear behind resume's fence costs: it leaves every entity's horizon and what is owed unchanged
    exactly if every stored cutoff has been passed. The fence alone does not see to that.
   */
  lemma FencedClearExactly(w: World, steps: seq<Step>)
    requires Initial(w) && Legal(w, steps) && Enabled(Execute(w, steps), ClearCutoffs)
    ensures var fenced := Execute(w, steps);
            var cleared := Apply(fenced, ClearCutoffs);
            && Bounded(fenced) && Bounded(cleared) && View(cleared) == View(fenced)
            && (CutoffsPassed(fenced) <==> cleared.owed == fenced.owed)
            && (CutoffsPassed(fenced) <==> (forall id :: Horizon(cleared, id) == Horizon(fenced, id)))
  {
    hide Inv, ClientView, Apply, Enabled, CutoffsPassed, Uncovered, Horizon;
    InitialInv(w);
    RunKeeps(w, steps);
    var fenced := Execute(w, steps);
    StepKeeps(fenced, ClearCutoffs);
    ClearIs(fenced);
    InvParts(fenced);
    InvParts(Cleared(fenced));
    ClearExactly(fenced);
  }

  lemma ClearExactly(w: World)
    requires Bounded(w) && Bounded(Cleared(w))
    ensures CutoffsPassed(w) <==> Cleared(w).owed == w.owed
    ensures CutoffsPassed(w) <==> (forall id :: Horizon(Cleared(w), id) == Horizon(w, id))
  {
    hide NextOf;
    if !CutoffsPassed(w) {
      var id :| id in w.data.snapshotCutoffs && w.data.snapshotCutoffs[id] > Max(Position(w, id.thread), w.data.historyCutoff);
      CutoffIsRead(w, id);
      assert id in Uncovered(w) && id !in w.owed;
      assert Horizon(Cleared(w), id) != Horizon(w, id);
    } else {
      assert Uncovered(w) == {};
      forall id ensures Horizon(Cleared(w), id) == Horizon(w, id) {
        assert Position(Cleared(w), id.thread) == Position(w, id.thread);
      }
    }
  }

  /** What a returned fence does see to. */
  predicate FencePassed(w: World) {
    w.fence.Returned? ==> Handled(w, w.root) <= |w.log| && w.fence.seen <= Position(w, w.root)
  }

  /** Only reading and delivering move the worker's positions. */
  lemma OthersStay(w: World, step: Step)
    requires Enabled(w, step) && !step.Read? && !step.Deliver?
    ensures Apply(w, step).log == w.log && Apply(w, step).handled == w.handled && Apply(w, step).root == w.root
  {
    hide NextOf, OwedAt, Auth, ReplayEntries, Truthful;
  }

  lemma DeliverMoves(w: World, t: Thread)
    requires Bounded(w) && Enabled(w, Deliver(t))
    ensures var w' := Apply(w, Deliver(t));
            w'.log == w.log && w'.root == w.root && w'.handled == w.handled[t := Position(w, t) + 1] && Position(w, t) < |w.log|
  {
    hide Bounded, Position, OwedAt, Auth, Notify, SnapshotCovered;
  }

  /** The worker's position on a thread never falls. */
  lemma PositionGrows(w: World, step: Step, t: Thread)
    requires Bounded(w) && Enabled(w, step)
    ensures Handled(w, t) <= |w.log| && Handled(Apply(w, step), t) <= |Apply(w, step).log|
    ensures Position(w, t) <= Position(Apply(w, step), t)
  {
    hide Apply, Enabled, NextOf;
    if step.Read? {
      ReadMoves(w, step.f, t);
      ReadIs(w, step.f);
    } else if step.Deliver? {
      DeliverMoves(w, step.t);
    } else {
      OthersStay(w, step);
    }
  }

  lemma ReadIs(w: World, f: Frame)
    ensures Enabled(w, Read(f)) && Apply(w, Read(f)) == w.(log := w.log + [f])
  {
  }

  /** A fence is requested, returns behind the root's frames, and is used up by the clear. */
  lemma FenceIs(w: World, step: Step)
    requires Enabled(w, step)
    ensures var w' := Apply(w, step);
            && w'.root == w.root
            && (w'.fence.Returned? ==> w'.fence == w.fence
                                       || (step.FenceReturns? && w'.fence.seen == w.fence.seen <= Position(w, w.root)))
  {
    hide NextOf, OwedAt, Auth, ReplayEntries, Truthful, Notify, Uncovered;
  }

  lemma FenceStep(w: World, step: Step)
    requires Bounded(w) && Enabled(w, step) && FencePassed(w)
    ensures FencePassed(Apply(w, step))
  {
    hide Bounded, Apply, Enabled, NextOf;
    FenceIs(w, step);
    PositionGrows(w, step, w.root);
  }

  /** Between a request and the clear: no second request, nothing replayed and no reset after a mutation. */
  predicate Quiet(step: Step) { !step.RequestFence? && !step.ClearCutoffs? && !step.Page? && !step.MutationReset? }

  lemma QuietOne(w: World, step: Step, n: nat)
    requires Inv(w) && Enabled(w, step) && Quiet(step) && Apply(w, step).data.historyRevision == w.data.historyRevision
    requires !w.fence.NoFence? && w.fence.seen == n && w.top <= n
    ensures var w' := Apply(w, step); w'.root == w.root && !w'.fence.NoFence? && w'.fence.seen == n && w'.top <= n
  {
    hide Inv, NextOf, Notify, OwedAt;
  }

  lemma {:induction false} QuietRun(w: World, steps: seq<Step>, n: nat)
    requires Inv(w) && FencePassed(w) && !w.fence.NoFence? && w.fence.seen == n && w.top <= n
    requires Legal(w, steps) && (forall s <- steps :: Quiet(s)) && Execute(w, steps).data.historyRevision == w.data.historyRevision
    ensures var w' := Execute(w, steps);
            Inv(w') && FencePassed(w') && w'.root == w.root && !w'.fence.NoFence? && w'.fence.seen == n && w'.top <= n
    decreases |steps|
  {
    hide Inv, FencePassed, Apply, Enabled, Quiet;
    if steps != [] {
      assert steps[0] in steps && forall s <- steps[1..] :: s in steps;
      StepKeeps(w, steps[0]);
      InvParts(w);
      FenceStep(w, steps[0]);
      RevisionGrows(w, steps[0]);
      RevisionsGrow(Apply(w, steps[0]), steps[1..]);
      QuietOne(w, steps[0], n);
      QuietRun(Apply(w, steps[0]), steps[1..], n);
    }
  }

  lemma RevisionGrows(w: World, step: Step)
    requires Enabled(w, step)
    ensures Apply(w, step).data.historyRevision >= w.data.historyRevision
  {
    hide NextOf, OwedAt, Auth;
    if step.Page? {
      ReplayCutoffs(w.data, step.sequence, step.entries);
    }
  }

  lemma {:induction false} RevisionsGrow(w: World, steps: seq<Step>)
    requires Legal(w, steps)
    ensures Execute(w, steps).data.historyRevision >= w.data.historyRevision
    decreases |steps|
  {
    hide Apply, Enabled;
    if steps != [] {
      RevisionGrows(w, steps[0]);
      RevisionsGrow(Apply(w, steps[0]), steps[1..]);
    }
  }

  /** A run with a fence's request in it, up to the clear that the fence allows. */
  ghost predicate FencedRun(w: World, before: seq<Step>, between: seq<Step>): (r: bool)
    ensures r ==> Legal(w, before) && Legal(Apply(Execute(w, before), RequestFence), between)
  {
    && Initial(w) && Legal(w, before)
    && var requested := Apply(Execute(w, before), RequestFence);
       && Legal(requested, between) && Enabled(Execute(requested, between), ClearCutoffs)
  }

  /**
    When the fence is enough: no page has been written and no reset made since its request, and the worker has
    passed the cutoffs of the descendants' items, whose frames the fence need not cover.
   */
  lemma QuietFenceSuffices(w: World, before: seq<Step>, between: seq<Step>)
    requires FencedRun(w, before, between) && forall s <- between :: Quiet(s)
    requires var requested := Apply(Execute(w, before), RequestFence);
             var fenced := Execute(requested, between);
             && fenced.data.historyRevision == requested.data.historyRevision
             && forall id <- fenced.data.snapshotCutoffs ::
                  id.thread == w.root || (Handled(fenced, id.thread) <= |fenced.log|
                                          && fenced.data.snapshotCutoffs[id] <= Max(Position(fenced, id.thread), fenced.data.historyCutoff))
    ensures var fenced := Execute(Apply(Execute(w, before), RequestFence), between);
            && Inv(fenced) && CutoffsPassed(fenced) && Cleared(fenced).owed == fenced.owed
  {
    hide Inv, Apply, Enabled, Quiet, Cleared, Initial;
    InitialInv(w);
    RunKeeps(w, before);
    var asked := Execute(w, before);
    RequestShape(asked);
    StepKeeps(asked, RequestFence);
    InvParts(asked);
    var requested := Apply(asked, RequestFence);
    QuietRun(requested, between, |asked.log|);
    var fenced := Execute(requested, between);
    InvParts(fenced);
    RootStays(w, before);
    ClearAllowed(fenced);
    StepKeeps(fenced, ClearCutoffs);
    ClearIs(fenced);
    InvParts(Cleared(fenced));
    ClearExactly(fenced);
  }

  lemma RequestShape(w: World)
    ensures Enabled(w, RequestFence) && Apply(w, RequestFence) == w.(fence := Requested(|w.log|)) && FencePassed(Apply(w, RequestFence))
  {
  }

  lemma ClearAllowed(w: World)
    requires Enabled(w, ClearCutoffs)
    ensures w.fence.Returned? && w.held
  {
  }

  lemma RootStep(w: World, step: Step)
    requires Enabled(w, step)
    ensures Apply(w, step).root == w.root
  {
    hide NextOf, OwedAt, Auth;
  }

  lemma {:induction false} RootStays(w: World, steps: seq<Step>)
    requires Legal(w, steps)
    ensures Execute(w, steps).root == w.root
    decreases |steps|
  {
    hide Apply, Enabled;
    if steps != [] {
      RootStep(w, steps[0]);
      RootStays(Apply(w, steps[0]), steps[1..]);
    }
  }

  /** Every clear of the run takes place when the stored cutoffs have been passed. */
  ghost predicate ClearsPassed(w: World, steps: seq<Step>)
    requires Inv(w) && Legal(w, steps)
    decreases |steps|
  {
    StepsKeep(w, steps);
    steps == [] || ((steps[0].ClearCutoffs? ==> CutoffsPassed(w)) && ClearsPassed(Apply(w, steps[0]), steps[1..]))
  }

  lemma StepsKeep(w: World, steps: seq<Step>)
    requires Inv(w) && Legal(w, steps)
    ensures Bounded(w) && (steps != [] ==> Inv(Apply(w, steps[0])))
  {
    hide Inv, Apply, Enabled;
    InvParts(w);
    if steps != [] {
      StepKeeps(w, steps[0]);
    }
  }

  lemma OwedStep(w: World, step: Step)
    requires Bounded(w) && Enabled(w, step) && (step.ClearCutoffs? ==> CutoffsPassed(w))
    ensures Apply(w, step).data.historyRevision >= w.data.historyRevision
    ensures Apply(w, step).data.historyRevision == w.data.historyRevision ==> Apply(w, step).owed <= w.owed
  {
    hide Auth, ClientView, NextOf, OwedAt;
    if step.Page? {
      ReplayCutoffs(w.data, step.sequence, step.entries);
    }
  }

  /** Without a clear that comes too early only a reset ever adds to what is owed. */
  lemma {:induction false} OnlyResetsOwe(w: World, steps: seq<Step>)
    requires Inv(w) && Legal(w, steps) && ClearsPassed(w, steps)
    ensures var w' := Execute(w, steps);
            && w'.data.historyRevision >= w.data.historyRevision
            && (w'.data.historyRevision == w.data.historyRevision ==> w'.owed <= w.owed)
    decreases |steps|
  {
    hide Inv, Apply, Enabled, CutoffsPassed;
    if steps != [] {
      InvParts(w);
      StepKeeps(w, steps[0]);
      OwedStep(w, steps[0]);
      OnlyResetsOwe(Apply(w, steps[0]), steps[1..]);
    }
  }

  /** Everything that has been read has been handled, as far as the worker handles it. */
  ghost predicate Drained(w: World)
    requires Bounded(w)
  {
    forall t :: Position(w, t) == |w.log|
  }

  /** The transcript of a session that owes nothing. */
  ghost predicate Restored(w: World)
    requires Bounded(w)
  {
    && w.owed == {}
    && (forall id :: Folded(w, id) && (Stable(w, id) ==> Current(w, id)))
    && ((forall id :: Stable(w, id)) && Drained(w) ==> View(w) == Auth(w.base, w.log, |w.log|))
  }

  lemma OwesNothing(w: World)
    requires Inv(w) && w.owed == {}
    ensures Bounded(w) && Restored(w)
  {
    hide ClientView, Folded, Auth, Stable, Current, Tracked, Drained;
    forall id ensures Stable(w, id) ==> Current(w, id) {
      assert Folded(w, id);
      CurrentExactly(w, id);
    }
    if (forall id :: Stable(w, id)) && Drained(w) {
      AllCurrent(w);
    }
  }

  lemma AllCurrent(w: World)
    requires Bounded(w) && Drained(w) && forall id :: Current(w, id)
    ensures View(w) == Auth(w.base, w.log, |w.log|)
  {
    hide ClientView, Auth, NextOf;
    forall id ensures Get(View(w), id) == Get(Auth(w.base, w.log, |w.log|), id) {
      assert Current(w, id) && Position(w, id.thread) == |w.log|;
      CutoffIsRead(w, id);
    }
    SameLookups(View(w), Auth(w.base, w.log, |w.log|));
  }

  /**
    A complete replay makes the transcript complete. Let a replay's pages list every entity that is owed, at
    the boundary of a reset or after a resume's clear, and let no reset and no clear that comes too early follow:
    nothing is owed any more, every entity that no later frame exchanged is current, and once everything read has
    been handled the client's transcript is the backend's history.
   */
  lemma CompleteReplayRestores(w: World, replay: seq<Step>, after: seq<Step>)
    requires Inv(w) && Legal(w, replay) && (forall s <- replay :: ReplayStep(s)) && w.owed <= PagedIds(replay)
    requires Inv(Execute(w, replay)) ==>
               && Legal(Execute(w, replay), after) && ClearsPassed(Execute(w, replay), after)
               && Execute(Execute(w, replay), after).data.historyRevision == Execute(w, replay).data.historyRevision
    ensures Inv(Execute(w, replay)) && Legal(Execute(w, replay), after)
    ensures var end := Execute(Execute(w, replay), after);
            Bounded(end) && Restored(end)
  {
    hide Inv, Apply, Enabled, View, Restored;
    ReplaySupplies(w, replay, Anything);
    var done := Execute(w, replay);
    assert done.owed == {};
    OnlyResetsOwe(done, after);
    RunKeeps(done, after);
    OwesNothing(Execute(done, after));
  }

  const Anything: Id := Id("", "")

  /**
    Resume as one run: a fence is requested and returns with nothing replayed or reset meanwhile, the cutoffs are
    cleared behind it, a second fence follows (any run without a reset), and a replay lists all that was owed when
    the first fence had returned. The clear has added nothing to that, and the replay restores the transcript.
   */
  lemma ResumeRestores(w: World, before: seq<Step>, between: seq<Step>, second: seq<Step>, replay: seq<Step>, after: seq<Step>)
    requires FencedRun(w, before, between) && forall s <- between :: Quiet(s)
    requires var requested := Apply(Execute(w, before), RequestFence);
             var fenced := Execute(requested, between);
             && fenced.data.historyRevision == requested.data.historyRevision
             && (forall id <- fenced.data.snapshotCutoffs ::
                   id.thread == w.root || (Handled(fenced, id.thread) <= |fenced.log|
                                           && fenced.data.snapshotCutoffs[id] <= Max(Position(fenced, id.thread), fenced.data.historyCutoff)))
             && (Inv(Cleared(fenced)) ==>
                   && Legal(Cleared(fenced), second) && ClearsPassed(Cleared(fenced), second)
                   && var again := Execute(Cleared(fenced), second);
                      && again.data.historyRevision == fenced.data.historyRevision && Legal(again, replay)
                      && (forall s <- replay :: ReplayStep(s)) && fenced.owed <= PagedIds(replay)
                      && var done := Execute(again, replay);
                         Inv(done) ==> && Legal(done, after) && ClearsPassed(done, after)
                                       && Execute(done, after).data.historyRevision == done.data.historyRevision)
    ensures var fenced := Execute(Apply(Execute(w, before), RequestFence), between);
            && Inv(Cleared(fenced)) && Legal(Cleared(fenced), second)
            && var again := Execute(Cleared(fenced), second);
               && Legal(again, replay) && Legal(Execute(again, replay), after)
               && var end := Execute(Execute(again, replay), after);
                  Bounded(end) && Restored(end)
  {
    hide Inv, Apply, Enabled, Quiet, Cleared, Restored;
    RequestShape(Execute(w, before));
    QuietFenceSuffices(w, before, between);
    var fenced := Execute(Apply(Execute(w, before), RequestFence), between);
    ClearIs(fenced);
    StepKeeps(fenced, ClearCutoffs);
    ClearRevision(fenced);
    OnlyResetsOwe(Cleared(fenced), second);
    RunKeeps(Cleared(fenced), second);
    CompleteReplayRestores(Execute(Cleared(fenced), second), replay, after);
  }

  lemma ClearRevision(w: World)
    ensures Cleared(w).data.historyRevision == w.data.historyRevision
  {
  }

  /** An entity is not lost from the history without an exchange. */
  lemma {:induction false} EntitiesStay(base: History, log: seq<Frame>, id: Id, from: nat, end: nat)
    requires from <= end <= |log| && NoExchange(base, log, id, from, end)
    requires id in Auth(base, log, from) || exists k :: from <= k < end && Names(log[k], id)
    ensures id in Auth(base, log, end)
    decreases end
  {
    FoldIsAuth(base, log, id, from, end);
    if id in Auth(base, log, from) {
      FoldStays(log, id, from, end, Get(Auth(base, log, from), id));
    } else {
      FoldFromNone(log, id, from, end);
    }
  }

  lemma {:induction false} FoldStays(log: seq<Frame>, id: Id, from: nat, end: nat, content: Option<string>)
    requires from <= end <= |log| && content.Some?
    ensures Fold(log, id, from, end, content).Some?
    decreases end
  {
    if from < end {
      FoldStays(log, id, from, end - 1, content);
    }
  }

  /** Without an exchange, pages that list the history at their end list all that a reset at `from` owes. */
  lemma ListingCoversOwed(w: World, from: nat, end: nat, listed: set<Id>)
    requires Bounded(w) && from <= end <= |w.log| && forall id :: NoExchange(w.base, w.log, id, from, end)
    requires (forall t <- w.handled :: w.handled[t] <= end) && Auth(w.base, w.log, end).Keys <= listed
    ensures OwedAt(w, w.handled, from) <= listed
  {
    hide Auth, NoExchange;
    forall id | id in OwedAt(w, w.handled, from) ensures id in listed {
      if id !in Auth(w.base, w.log, from) {
        var k :| from <= k < |w.log| && w.log[k].Item? && w.log[k].id.thread in w.handled && k < w.handled[w.log[k].id.thread]
                 && w.log[k].id == id;
        assert Names(w.log[k], id);
      }
      EntitiesStay(w.base, w.log, id, from, end);
    }
  }

  /**
    In any run at all: once everything read has been handled, nothing is owed and no handled frame exchanged
    an entity after the page or reset it comes from, no entity is missing, extra or out of date.
   */
  lemma QuiescentViewIsHistory(w: World, steps: seq<Step>)
    requires Initial(w) && Legal(w, steps)
    ensures var end := Execute(w, steps);
            && Bounded(end)
            && ((forall id :: Stable(end, id)) && end.owed == {} && Drained(end) ==> View(end) == Auth(end.base, end.log, |end.log|))
  {
    hide Apply, Enabled, View, Stable, Inv;
    InitialInv(w);
    RunKeeps(w, steps);
    var end := Execute(w, steps);
    InvParts(end);
    if end.owed == {} {
      OwesNothing(end);
    }
  }

  // ---------------------------------------------------------------- a late revert, exactly

  ghost predicate LateRevert(w: World) {
    && Inv(w) && Enabled(w, Deliver(w.root)) && w.log[Position(w, w.root)].Reverted? && !w.data.reconciledRevert && w.sessionReset
  }

  /** The reset with the revert's own sequence, however long the log has become meanwhile. */
  lemma LateReset(w: World)
    requires LateRevert(w)
    ensures var reset := Apply(w, Deliver(w.root));
            && Inv(reset) && reset.held && reset.log == w.log && reset.base == w.base && reset.root == w.root && View(reset) == map[]
            && reset.data.historyCutoff == Position(w, w.root) + 1 == reset.top && reset.horizon == |w.log|
            && reset.data.snapshotCutoffs == map[]
  {
    StepKeeps(w, Deliver(w.root));
    LateResets(w, w.root);
    ResetShape(w, w.root);
    hide Auth, Inv, OwedAt, NextOf;
    SentOne(w.start, w.data.sent, ResetStart(w.data.historyRevision + 1));
  }

  lemma LateResets(w: World, t: Thread)
    requires Enabled(w, Deliver(t)) && w.log[Position(w, t)].Reverted? && !w.data.reconciledRevert && w.sessionReset
    ensures Apply(w, Deliver(t)).data.historyRevision != w.data.historyRevision
  {
    hide NextOf, OwedAt;
  }

  /** A reset for a late revert, its replay, the release of the lock and some deliveries without a reset. */
  ghost predicate LateRun(w: World, replay: seq<Step>, catchUp: seq<Step>) {
    && LateRevert(w) && Legal(Apply(w, Deliver(w.root)), replay) && (forall s <- replay :: ReplayStep(s))
    && Execute(Apply(w, Deliver(w.root)), replay).held
    && PlainRun(Freed(Execute(Apply(w, Deliver(w.root)), replay)), catchUp)
  }

  /** The lock is released. */
  function Freed(w: World): World { w.(held := false) }

  /** The state when the replay is done. */
  ghost function Done(w: World, replay: seq<Step>, catchUp: seq<Step>): World
    requires LateRun(w, replay, catchUp)
  {
    Execute(Apply(w, Deliver(w.root)), replay)
  }

  /** The state when the worker has caught up. */
  ghost function Final(w: World, replay: seq<Step>, catchUp: seq<Step>): World
    requires LateRun(w, replay, catchUp)
  {
    Execute(Freed(Done(w, replay, catchUp)), catchUp)
  }

  lemma Replayed(w: World, replay: seq<Step>, catchUp: seq<Step>, id: Id)
    requires LateRun(w, replay, catchUp)
    ensures var done := Done(w, replay, catchUp);
            && Inv(done) && done.held && PlainRun(Freed(done), catchUp) && done.base == w.base && done.root == w.root
            && w.log <= done.log && Handled(w, w.root) <= |w.log| && Position(w, w.root) < |w.log|
            && done.data.historyCutoff == Position(w, w.root) + 1 <= done.top <= |done.log|
            && done.data.snapshotCutoffs.Keys == PagedIds(replay)
            && (id in PagedIds(replay) ==> |w.log| < done.data.snapshotCutoffs[id] <= done.top && id !in done.owed
                                           && Anchor(done, id) == Cutoff(done.data, id) == done.data.snapshotCutoffs[id])
            && (id !in PagedIds(replay) ==> Get(View(done), id) == None && Cutoff(done.data, id) == Position(w, w.root) + 1)
  {
    hide View, Auth, Apply, Enabled, Tracked, Folded, NextOf, PlainRun;
    LateReset(w);
    var reset := Apply(w, Deliver(w.root));
    ReplaySupplies(reset, replay, id);
    var done := Execute(reset, replay);
    InvParts(done);
    LateEnabled(w);
  }

  lemma LateEnabled(w: World)
    requires LateRevert(w)
    ensures Enabled(w, Deliver(w.root)) && Handled(w, w.root) <= |w.log| && Position(w, w.root) < |w.log|
  {
  }

  lemma FreedIs(w: World)
    requires Inv(w) && w.held
    ensures Enabled(w, Release) && Apply(w, Release) == Freed(w) && Inv(Freed(w)) && View(Freed(w)) == View(w)
  {
    StepKeeps(w, Release);
  }

  /** What the deliveries after the release make of an entity. */
  lemma CaughtUp(done: World, catchUp: seq<Step>, id: Id)
    requires Inv(done) && done.held && PlainRun(Freed(done), catchUp)
    ensures var final, c := Execute(Freed(done), catchUp), Cutoff(done.data, id);
            && Inv(final) && final.log == done.log && final.base == done.base && final.owed <= done.owed && final.root == done.root
            && Anchor(final, id) == Anchor(done, id) && Cutoff(final.data, id) == c <= |done.log|
            && Handled(done, id.thread) <= Handled(final, id.thread) <= |done.log|
            && Get(View(final), id)
               == Fold(done.log, id, Max(Handled(done, id.thread), c), Max(Handled(final, id.thread), c), Get(View(done), id))
  {
    hide Inv, View, Apply, Fold;
    FreedIs(done);
    PlainRunFolds(Freed(done), catchUp, id);
  }

  /** An entity that the pages list ends as the history has it. */
  lemma ListedIsRight(w: World, replay: seq<Step>, catchUp: seq<Step>, id: Id)
    requires LateRun(w, replay, catchUp) && id in PagedIds(replay)
    requires var done := Done(w, replay, catchUp);
             && Reached(Final(w, replay, catchUp), done.top)
             && done.top <= |done.log| && NoExchange(done.base, done.log, id, |w.log|, done.top)
    ensures var done := Done(w, replay, catchUp);
            Get(View(Final(w, replay, catchUp)), id) == Get(Auth(done.base, done.log, done.top), id)
  {
    hide View, Auth, LateRun, Done, Inv, Apply, Enabled, Fold, Position, PlainRun;
    Replayed(w, replay, catchUp, id);
    var done, final := Done(w, replay, catchUp), Final(w, replay, catchUp);
    CaughtUp(done, catchUp, id);
    InvParts(final);
    var c := Cutoff(done.data, id);
    hide Final;
    assert Folded(final, id);
    GapUnnamed(final, id);
    var content := Get(Auth(done.base, done.log, c), id);
    FoldUnnamed(done.log, id, done.top, Horizon(final, id), Fold(done.log, id, c, done.top, content));
    FoldSplit(done.log, id, c, done.top, Horizon(final, id), content);
    FoldIsAuth(done.base, done.log, id, c, done.top);
  }

  /** One that they do not list stays absent exactly if no queued frame names it. */
  lemma UnlistedIsAbsent(w: World, replay: seq<Step>, catchUp: seq<Step>, id: Id)
    requires LateRun(w, replay, catchUp) && id !in PagedIds(replay)
    requires Reached(Final(w, replay, catchUp), Done(w, replay, catchUp).top)
    ensures var done := Done(w, replay, catchUp);
            && done.top <= |done.log|
            && (Get(View(Final(w, replay, catchUp)), id) == None
                <==> (forall k | Max(done.data.historyCutoff, Handled(done, id.thread)) <= k < done.top :: !Names(done.log[k], id)))
  {
    hide View, Auth, LateRun, Done, Inv, Apply, Enabled, Fold, Position, PlainRun;
    Replayed(w, replay, catchUp, id);
    var done, final := Done(w, replay, catchUp), Final(w, replay, catchUp);
    CaughtUp(done, catchUp, id);
    var c := Cutoff(done.data, id);
    ReachedUnnamed(final, done.top, id);
    FoldFromNone(done.log, id, Max(Handled(done, id.thread), c), Max(Handled(final, id.thread), c));
  }

  /** An item frame that the worker has yet to handle when the replay is done, behind the revert. */
  predicate Queued(w: World, k: nat)
    requires k < |w.log|
  {
    w.data.historyCutoff <= k && w.log[k].Item? && Handled(w, w.log[k].id.thread) <= k
  }

  /**
    A revert by somebody else resets the session with its own, older sequence, below that of a mutation whose
    reset has already taken place. After a complete replay, whose pages nobody exchanged meanwhile, and the frames
    up to its last page, the transcript is right exactly if no item frame that was queued behind the revert names
    an entity that the pages do not list.
   */
  lemma LateRevertExact(w: World, replay: seq<Step>, catchUp: seq<Step>)
    requires LateRun(w, replay, catchUp)
    requires var done := Done(w, replay, catchUp);
             && Reached(Final(w, replay, catchUp), done.top) && done.top <= |done.log|
             && (forall id :: NoExchange(done.base, done.log, id, |w.log|, done.top))
             && Auth(done.base, done.log, done.top).Keys <= PagedIds(replay)
    ensures var done := Done(w, replay, catchUp);
            View(Final(w, replay, catchUp)) == Auth(done.base, done.log, done.top)
            <==> forall k | 0 <= k < done.top && Queued(done, k) :: done.log[k].id in PagedIds(replay)
  {
    hide View, Auth, LateRun, Done, Final, Reached, NoExchange;
    var done := Done(w, replay, catchUp);
    var view, history := View(Final(w, replay, catchUp)), Auth(done.base, done.log, done.top);
    forall id ensures Get(view, id) == Get(history, id)
                      <==> id in PagedIds(replay)
                           || (forall k | Max(done.data.historyCutoff, Handled(done, id.thread)) <= k < done.top :: !Names(done.log[k], id))
    {
      if id in PagedIds(replay) {
        ListedIsRight(w, replay, catchUp, id);
      } else {
        UnlistedIsAbsent(w, replay, catchUp, id);
      }
    }
    if view == history {
      forall k | 0 <= k < done.top && Queued(done, k) ensures done.log[k].id in PagedIds(replay) {
        assert Names(done.log[k], done.log[k].id);
      }
    } else if forall k | 0 <= k < done.top && Queued(done, k) :: done.log[k].id in PagedIds(replay) {
      SameLookups(view, history);
    }
  }

  // ---------------------------------------------------------------- a swallowed revert, exactly

  /** No cutoff lies behind the page or reset that an entity comes from; before it is reached they are the same. */
  lemma AnchorAtCutoff(w: World, id: Id)
    requires Bounded(w) && Folded(w, id)
    ensures Cutoff(w.data, id) <= Anchor(w, id) <= Max(Position(w, id.thread), Cutoff(w.data, id)) <= |w.log|
  {
    hide ClientView, Fold, Auth, Position;
  }

  lemma SkippedShape(w: World)
    requires Inv(w) && Enabled(w, Deliver(w.root)) && w.log[Position(w, w.root)].Reverted? && w.data.reconciledRevert
    ensures var w' := Apply(w, Deliver(w.root));
            && Inv(w') && w' == w.(handled := w.handled[w.root := Position(w, w.root) + 1], data := w.data.(reconciledRevert := false))
            && View(w') == View(w)
  {
    StepKeeps(w, Deliver(w.root));
  }

  /**
    A "thread/reverted" taken for the echo of our own revert is skipped. For every entity of the session's own
    thread that was current, its copy is the backend's behind the revert exactly if the revert lies at or below the
    entity's cutoff, as an echo read before the reply does, or if it leaves the entity as the item frames have
    made it since the page or reset that it comes from.
   */
  lemma SkippedRevertExact(w: World, id: Id)
    requires Inv(w) && Enabled(w, Deliver(w.root)) && w.log[Position(w, w.root)].Reverted? && w.data.reconciledRevert
    requires id !in w.owed && id.thread == w.root && Stable(w, id)
    ensures var cutoff, n, anchor := Cutoff(w.data, id), Position(w, w.root), Anchor(w, id);
            && Max(n + 1, cutoff) <= |w.log| && anchor <= Max(n, cutoff)
            && (Get(View(Apply(w, Deliver(w.root))), id) == Get(Auth(w.base, w.log, Max(n + 1, cutoff)), id)
                <==> n < cutoff || Get(w.log[n].history, id) == Fold(w.log, id, anchor, n, Get(Auth(w.base, w.log, anchor), id)))
  {
    hide ClientView, Fold, Apply, Enabled, Tracked, Auth, NextOf;
    SkippedShape(w);
    InReach(w, w.root);
    assert Folded(w, id);
    AnchorAtCutoff(w, id);
    var cutoff, n := Cutoff(w.data, id), Position(w, w.root);
    FoldIsAuth(w.base, w.log, id, Anchor(w, id), Max(n, cutoff));
    AuthNext(w.base, w.log, n);
  }

  lemma AuthNext(base: History, log: seq<Frame>, n: nat)
    requires n < |log|
    ensures Auth(base, log, n + 1) == Advance(Auth(base, log, n), log[n])
  {
  }

  /** An echo of our own mutation, with the history of its reply and nothing of the entity between, is skipped rightly. */
  lemma EchoSkippedRightly(w: World, reply: nat, id: Id)
    requires Inv(w) && Enabled(w, Deliver(w.root)) && w.log[Position(w, w.root)].Reverted? && w.data.reconciledRevert
    requires id !in w.owed && id.thread == w.root && 1 <= reply <= w.data.historyCutoff
    requires var n := Position(w, w.root);
             reply <= n ==>
               && w.log[reply - 1] == Reply(Some(w.log[n].history))
               && forall k | reply <= k < n :: !Names(w.log[k], id) && !Exchanges(w.base, w.log, id, k)
    ensures var n, cutoff := Position(w, w.root), Cutoff(w.data, id);
            Max(n + 1, cutoff) <= |w.log| && Get(View(Apply(w, Deliver(w.root))), id) == Get(Auth(w.base, w.log, Max(n + 1, cutoff)), id)
  {
    hide ClientView, Fold, Apply, Enabled, Tracked, Auth, NextOf, Exchanges;
    InReach(w, w.root);
    var n, cutoff, anchor := Position(w, w.root), Cutoff(w.data, id), Anchor(w, id);
    assert Folded(w, id);
    AnchorAtCutoff(w, id);
    CutoffBounds(w.data, id);
    assert Stable(w, id);
    SkippedRevertExact(w, id);
    if cutoff <= n {
      AuthNext(w.base, w.log, reply - 1);
      FoldIsAuth(w.base, w.log, id, reply, anchor);
      FoldUnnamed(w.log, id, reply, anchor, Get(Auth(w.base, w.log, reply), id));
      FoldUnnamed(w.log, id, anchor, n, Get(Auth(w.base, w.log, anchor), id));
    }
  }

  // ---------------------------------------------------------------- a clear that comes too early, exactly

  /** The clear, the release of the lock and some deliveries without a reset. */
  ghost predicate ClearRun(w: World, catchUp: seq<Step>) {
    Inv(w) && Enabled(w, ClearCutoffs) && PlainRun(Freed(Cleared(w)), catchUp)
  }

  lemma ClearRunParts(w: World, catchUp: seq<Step>)
    requires ClearRun(w, catchUp)
    ensures Inv(w) && Inv(Cleared(w)) && Cleared(w).held && PlainRun(Freed(Cleared(w)), catchUp)
  {
    hide Inv, Apply, Enabled, PlainRun, Uncovered;
    StepKeeps(w, ClearCutoffs);
    ClearIs(w);
    ClearAllowed(w);
  }

  /**
    Clearing an entity's cutoff while frames below it wait, which a returned fence does not rule out, applies them
    again. Once they have been handled the copy is right exactly if none of them appends anything, or one of them
    rewrites the entity.
   */
  lemma EarlyClearExact(w: World, catchUp: seq<Step>, id: Id)
    requires ClearRun(w, catchUp) && id in Uncovered(w)
    requires var cutoff, final := w.data.snapshotCutoffs[id], Execute(Freed(Cleared(w)), catchUp);
             && Handled(final, id.thread) <= cutoff <= |final.log| && cutoff <= Position(final, id.thread)
             && cutoff <= |w.log| && NoExchange(w.base, w.log, id, Max(Position(w, id.thread), w.data.historyCutoff), cutoff)
    ensures var cutoff, from := w.data.snapshotCutoffs[id], Max(Position(w, id.thread), w.data.historyCutoff);
            Get(View(Execute(Freed(Cleared(w)), catchUp)), id) == Get(Auth(w.base, w.log, cutoff), id)
            <==> || (forall k | from <= k < cutoff :: !Appends(w.log[k], id))
                 || (exists k :: from <= k < cutoff && Rewrites(w.log[k], id))
  {
    hide ClientView, Fold, ClearRun, Tracked, Auth, NextOf, PlainRun, NoExchange;
    ClearRunParts(w, catchUp);
    var cutoff, from, cleared := w.data.snapshotCutoffs[id], Max(Position(w, id.thread), w.data.historyCutoff), Cleared(w);
    ClearedAnchor(w, id);
    FoldNothing(w.log, id, cutoff, Get(Auth(w.base, w.log, cutoff), id));
    CaughtUp(cleared, catchUp, id);
    EarlyClearFolds(w, Execute(Freed(cleared), catchUp), id, cutoff, Get(View(w), id));
    FoldIsAuth(w.base, w.log, id, from, cutoff);
    RepeatedExactly(w.log, id, from, cutoff, Get(Auth(w.base, w.log, from), id));
  }

  /** The page that is about to be forgotten. */
  lemma ClearedAnchor(w: World, id: Id)
    requires Inv(w) && id in Uncovered(w)
    ensures var cutoff := w.data.snapshotCutoffs[id];
            && Handled(w, id.thread) <= Position(w, id.thread) < cutoff <= |w.log| && w.data.historyCutoff < cutoff
            && Get(View(w), id) == Fold(w.log, id, cutoff, cutoff, Get(Auth(w.base, w.log, cutoff), id))
            && View(Cleared(w)) == View(w)
  {
    hide ClientView, Fold, Auth, NextOf, Tracked;
    assert Folded(w, id);
  }

  /** What is handled after the clear are the item frames up to the cutoff. */
  lemma EarlyClearFolds(w: World, final: World, id: Id, cutoff: nat, content: Option<string>)
    requires Handled(w, id.thread) <= Handled(final, id.thread) <= cutoff <= |w.log| && w.data.historyCutoff <= cutoff
    requires final.log == w.log && cutoff <= Position(final, id.thread) && Position(w, id.thread) <= cutoff
    ensures var c := w.data.historyCutoff;
            Fold(w.log, id, Max(Handled(w, id.thread), c), Max(Handled(final, id.thread), c), content)
            == Fold(w.log, id, Max(Position(w, id.thread), c), cutoff, content)
  {
    hide Fold, Position;
    var c := w.data.historyCutoff;
    var h, p, end := Max(Handled(w, id.thread), c), Max(Position(w, id.thread), c), Max(Handled(final, id.thread), c);
    GapUnnamed(w, id);
    GapUnnamed(final, id);
    FoldUnnamed(w.log, id, end, cutoff, Fold(w.log, id, h, end, content));
    FoldSplit(w.log, id, h, end, cutoff, content);
    FoldUnnamed(w.log, id, h, p, content);
    FoldSplit(w.log, id, h, p, cutoff, content);
  }

  /** Item frames never remove an entity. */
  lemma {:induction false} FoldNone(log: seq<Frame>, id: Id, from: nat, end: nat, content: Option<string>)
    requires from <= end <= |log| && Fold(log, id, from, end, content).None?
    ensures forall k | from <= k < end :: !Names(log[k], id)
    decreases end
  {
    if from < end {
      FoldNone(log, id, from, end - 1, content);
    }
  }

  /** Applying the item frames of a stretch a second time. */
  lemma RepeatedExactly(log: seq<Frame>, id: Id, from: nat, end: nat, before: Option<string>)
    requires from <= end <= |log|
    ensures var after := Fold(log, id, from, end, before);
            Fold(log, id, from, end, after) == after
            <==> || (forall k | from <= k < end :: !Appends(log[k], id))
                 || (exists k :: from <= k < end && Rewrites(log[k], id))
  {
    var after := Fold(log, id, from, end, before);
    if exists k :: from <= k < end && Rewrites(log[k], id) {
      FoldRewritten(log, id, from, end, before, after);
    } else if after.Some? {
      FoldAppended(log, id, from, end, after.value);
    } else {
      FoldNone(log, id, from, end, before);
      FoldUnnamed(log, id, from, end, after);
    }
  }

  // ---------------------------------------------------------------- when the flag for our own revert is set

  /** The worker handles a revert. */
  predicate HandlesRevert(w: World, step: Step)
    requires Enabled(w, step)
  {
    step.Deliver? && w.log[Position(w, step.t)].Reverted?
  }

  ghost predicate NoneHandled(w: World, steps: seq<Step>)
    requires Legal(w, steps)
    decreases |steps|
  {
    steps == [] || (!HandlesRevert(w, steps[0]) && NoneHandled(Apply(w, steps[0]), steps[1..]))
  }

  /** A reset for a revert of our own has taken place, and the worker has handled no revert since. */
  ghost predicate EchoAwaited(w: World, steps: seq<Step>)
    requires Legal(w, steps)
    decreases |steps|
  {
    steps != []
    && ((steps[0].MutationReset? && steps[0].ownRevert && NoneHandled(Apply(w, steps[0]), steps[1..]))
        || EchoAwaited(Apply(w, steps[0]), steps[1..]))
  }

  lemma FlagStep(w: World, step: Step)
    requires Enabled(w, step)
    ensures Apply(w, step).data.reconciledRevert
            <==> (step.MutationReset? && step.ownRevert) || (w.data.reconciledRevert && !HandlesRevert(w, step))
  {
    hide NextOf, OwedAt, Auth, Truthful, ReplayEntries, SnapshotCovered, Uncovered;
    if step.Page? {
      ReplayCutoffs(w.data, step.sequence, step.entries);
    }
  }

  lemma {:induction false} FlagRuns(w: World, steps: seq<Step>)
    requires Legal(w, steps)
    ensures Execute(w, steps).data.reconciledRevert
            <==> EchoAwaited(w, steps) || (w.data.reconciledRevert && NoneHandled(w, steps))
    decreases |steps|
  {
    hide Apply, Enabled, HandlesRevert;
    if steps != [] {
      FlagStep(w, steps[0]);
      FlagRuns(Apply(w, steps[0]), steps[1..]);
    }
  }

  /**
    In every run a revert would be skipped exactly if a reset for our own has taken place and no revert has been handled
    since; other resets in between make no difference.
   */
  lemma FlagExactly(w: World, steps: seq<Step>)
    requires Initial(w) && Legal(w, steps)
    ensures Execute(w, steps).data.reconciledRevert <==> EchoAwaited(w, steps)
  {
    hide Apply, Enabled, HandlesRevert;
    FlagRuns(w, steps);
  }

  // ---------------------------------------------------------------- a client that does not understand resets

  function Diagnostics(sent: seq<Update>): nat {
    if sent == [] then 0 else Diagnostics(sent[..|sent| - 1]) + if sent[|sent| - 1].Diagnostic? then 1 else 0
  }

  function Reverts(log: seq<Frame>, n: nat): nat
    requires n <= |log|
  {
    if n == 0 then 0 else Reverts(log, n - 1) + if log[n - 1].Reverted? then 1 else 0
  }

  lemma {:induction false} RevertsPrefix(log: seq<Frame>, f: Frame, n: nat)
    requires n <= |log|
    ensures Reverts(log + [f], n) == Reverts(log, n)
  {
    if n > 0 {
      RevertsPrefix(log, f, n - 1);
    }
  }

  lemma {:induction false} RevertsSkip(root: Thread, log: seq<Frame>, from: nat, n: nat)
    requires from <= n <= |log| && forall k | from <= k < n :: ThreadOf(root, log[k]) != Some(root)
    ensures Reverts(log, n) == Reverts(log, from)
    decreases n
  {
    if from < n {
      RevertsSkip(root, log, from, n - 1);
    }
  }

  lemma DiagnosticsOne(sent: seq<Update>, u: Update)
    ensures Diagnostics(sent + [u]) == Diagnostics(sent) + if u.Diagnostic? then 1 else 0
  {
    assert (sent + [u])[..|sent|] == sent;
  }

  lemma {:induction false} DiagnosticsPage(d: Data, sequence: nat, entries: seq<(Id, string)>)
    ensures var d' := ReplayEntries(d, sequence, entries);
            Diagnostics(d'.sent) == Diagnostics(d.sent) && d'.reconciledRevert == d.reconciledRevert
  {
    hide Diagnostics;
    if entries != [] {
      DiagnosticsPage(d, sequence, entries[..|entries| - 1]);
      var (id, content) := entries[|entries| - 1];
      DiagnosticsOne(ReplayEntries(d, sequence, entries[..|entries| - 1]).sent, Replace(id, content));
    }
  }

  /** One diagnostic for each revert that the worker has handled, if the client has not negotiated resets. */
  predicate Told(w: World) {
    && Handled(w, w.root) <= |w.log|
    && if w.sessionReset then Diagnostics(w.data.sent) == 0
       else !w.data.reconciledRevert && Diagnostics(w.data.sent) == Reverts(w.log, Handled(w, w.root))
  }

  lemma ToldDelivered(w: World, t: Thread)
    requires Bounded(w) && Told(w) && Enabled(w, Deliver(t))
    ensures Told(Apply(w, Deliver(t)))
  {
    hide NextOf, Reverts, Diagnostics, Apply, Enabled, Notify;
    InReach(w, t);
    DeliverMoves(w, t);
    ResetsFixed(w, Deliver(t));
    DeliveredIs(w, t);
    var n := Position(w, t);
    AtPosition(w, t);
    ToldNotified(w.data, n + 1, w.log[n], w.sessionReset);
    RevertsNext(w.log, n);
    if t == w.root {
      RevertsSkip(w.root, w.log, Handled(w, t), n);
    }
  }

  lemma DeliveredIs(w: World, t: Thread)
    requires Handled(w, t) <= |w.log| && Enabled(w, Deliver(t))
    ensures Position(w, t) < |w.log| && Apply(w, Deliver(t)).data == Notify(w.data, Position(w, t) + 1, w.log[Position(w, t)], w.sessionReset)
    ensures w.log[Position(w, t)].Reverted? ==> ThreadOf(w.root, w.log[Position(w, t)]) == Some(w.root)
  {
    hide Position, Notify, OwedAt, SnapshotCovered;
  }

  lemma RevertsNext(log: seq<Frame>, n: nat)
    requires n < |log|
    ensures Reverts(log, n + 1) == Reverts(log, n) + if log[n].Reverted? then 1 else 0
  {
  }

  lemma ToldNotified(d: Data, n: nat, f: Frame, sessionReset: bool)
    ensures var d' := Notify(d, n, f, sessionReset);
            && (f.Reverted? && !d.reconciledRevert && !sessionReset ==> Diagnostics(d'.sent) == Diagnostics(d.sent) + 1)
            && (!(f.Reverted? && !d.reconciledRevert && !sessionReset) ==> Diagnostics(d'.sent) == Diagnostics(d.sent))
            && (!d.reconciledRevert ==> !d'.reconciledRevert)
  {
    hide Diagnostics, SnapshotCovered;
    DiagnosticsOne(d.sent, Diagnostic);
    DiagnosticsOne(d.sent, ResetStart(d.historyRevision + 1));
    if f.Item? {
      DiagnosticsOne(d.sent, Project(f.id, f.op));
    } else if f.Progress? {
      DiagnosticsOne(d.sent, Activity(f.id, f.text));
    }
  }

  lemma ToldStep(w: World, step: Step)
    requires Bounded(w) && Told(w) && Enabled(w, step)
    ensures Told(Apply(w, step))
  {
    hide NextOf, Reverts, Diagnostics, OwedAt, Bounded, ReplayEntries, Truthful, DeliverOf, Uncovered;
    match step
    case Read(f) => RevertsPrefix(w.log, f, Handled(w, w.root));
    case Deliver(t) => ToldDelivered(w, t);
    case Page(sequence, entries) => DiagnosticsPage(w.data, sequence, entries);
    case MutationReset(_, _) => DiagnosticsOne(w.data.sent, ResetStart(w.data.historyRevision + 1));
    case Complete => DiagnosticsOne(w.data.sent, ResetComplete(w.data.historyRevision));
    case _ =>
  }

  lemma {:induction false} ToldRuns(w: World, steps: seq<Step>)
    requires Inv(w) && Told(w) && Legal(w, steps)
    ensures Told(Execute(w, steps))
    decreases |steps|
  {
    hide Inv, Told, Apply, Enabled;
    if steps != [] {
      InvParts(w);
      StepKeeps(w, steps[0]);
      ToldStep(w, steps[0]);
      ToldRuns(Apply(w, steps[0]), steps[1..]);
    }
  }

  lemma ResetsFixed(w: World, step: Step)
    requires Enabled(w, step)
    ensures Apply(w, step).sessionReset == w.sessionReset
  {
    hide NextOf, OwedAt, Auth, ReplayEntries, Truthful;
  }

  lemma {:induction false} ResetsStayFixed(w: World, steps: seq<Step>)
    requires Legal(w, steps)
    ensures Execute(w, steps).sessionReset == w.sessionReset
    decreases |steps|
  {
    hide Apply, Enabled;
    if steps != [] {
      ResetsFixed(w, steps[0]);
      ResetsStayFixed(Apply(w, steps[0]), steps[1..]);
    }
  }

  /**
    A client that has not negotiated resets is told of every revert that the worker handles, by one diagnostic each,
    and its transcript is never reset; any other is told by resets alone.
   */
  lemma DiagnosticsExactly(w: World, steps: seq<Step>)
    requires Initial(w) && Legal(w, steps)
    ensures var w' := Execute(w, steps);
            && Handled(w', w.root) <= |w'.log|
            && Diagnostics(w'.data.sent) == (if w.sessionReset then 0 else Reverts(w'.log, Handled(w', w.root)))
            && (!w.sessionReset ==> ResetStarts(w'.data.sent) == w'.data.historyRevision == 0)
  {
    hide Apply, Enabled, Reverts, Diagnostics, Inv;
    NothingTold(w);
    InitialInv(w);
    ToldRuns(w, steps);
    ResetsStayFixed(w, steps);
    RootStays(w, steps);
    RunKeeps(w, steps);
    if !w.sessionReset {
      NeverReset(w, steps);
    }
    RevisionIsCounted(Execute(w, steps));
  }

  lemma NothingTold(w: World)
    requires Initial(w)
    ensures Told(w)
  {
  }

  lemma RevisionIsCounted(w: World)
    requires Inv(w)
    ensures ResetStarts(w.data.sent) == w.data.historyRevision
  {
  }

  lemma NeverResetStep(w: World, step: Step)
    requires Enabled(w, step) && !w.sessionReset
    ensures Apply(w, step).data.historyRevision == w.data.historyRevision
  {
    hide NextOf, OwedAt, Auth, ReplayEntries, Truthful;
    if step.Page? {
      ReplayCutoffs(w.data, step.sequence, step.entries);
    }
  }

  lemma {:induction false} NeverReset(w: World, steps: seq<Step>)
    requires Legal(w, steps) && !w.sessionReset
    ensures Execute(w, steps).data.historyRevision == w.data.historyRevision
    decreases |steps|
  {
    hide Apply, Enabled;
    if steps != [] {
      NeverResetStep(w, steps[0]);
      ResetsFixed(w, steps[0]);
      NeverReset(Apply(w, steps[0]), steps[1..]);
    }
  }

  // ---------------------------------------------------------------- runs that end wrong

  lemma {:induction false} RunsJoin(w: World, before: seq<Step>, after: seq<Step>)
    requires Legal(w, before) && Legal(Execute(w, before), after)
    ensures Legal(w, before + after) && Execute(w, before + after) == Execute(Execute(w, before), after)
    decreases |before|
  {
    hide Apply, Enabled;
    if before == [] {
      assert before + after == after;
    } else {
      assert (before + after)[1..] == before[1..] + after;
      RunsJoin(Apply(w, before[0]), before[1..], after);
    }
  }

  /** One more step of a run. */
  lemma Then(w: World, steps: seq<Step>, step: Step) returns (more: seq<Step>)
    requires Legal(w, steps) && Enabled(Execute(w, steps), step)
    ensures more == steps + [step] && Legal(w, more) && Execute(w, more) == Apply(Execute(w, steps), step)
  {
    hide Apply, Enabled;
    more := steps + [step];
    assert [step][1..] == [];
    RunsJoin(w, steps, [step]);
  }

  lemma NothingYet(w: World)
    ensures Legal(w, []) && Execute(w, []) == w
  {
  }

  const Root: Thread := "root"

  /** A client and a backend without history, and a client that understands resets. */
  const Fresh: World :=
    World(Root, map[], map[], [], map[], false, 0, 0, map[], {}, true, NoFence, Data(0, map[], 0, false, []))

  const X: Id := Id(Root, "x")

  lemma FreshInv()
    ensures Initial(Fresh) && Inv(Fresh)
  {
    InitialInv(Fresh);
  }

  /** The worker's next frame. */
  lemma NextIs(w: World, n: nat)
    requires Handled(w, Root) <= n <= |w.log| && w.root == Root
    requires forall k | Handled(w, Root) <= k < n :: ThreadOf(Root, w.log[k]) != Some(Root)
    requires n < |w.log| ==> ThreadOf(Root, w.log[n]) == Some(Root)
    ensures Position(w, Root) == n
  {
    AtPosition(w, Root);
  }

  /** What has been read when our rollback has been answered and replayed: an older revert is still queued. */
  const RolledBack: seq<Frame> := [Reverted(map[]), Item(X, Delta("y")), Reply(Some(map[])), Reply(None)]

  lemma MutationRun() returns (steps: seq<Step>)
    ensures Legal(Fresh, steps) && Execute(Fresh, steps) == Fresh.(log := ThreeRead, held := true, horizon := 1)
  {
    hide Legal, Execute, Auth;
    NothingYet(Fresh);
    steps := Then(Fresh, [], Read(Reverted(map[])));
    steps := Then(Fresh, steps, Hold);
    steps := Then(Fresh, steps, Read(Item(X, Delta("y"))));
    steps := Then(Fresh, steps, Read(Reply(Some(map[]))));
  }

  lemma RollbackRun() returns (steps: seq<Step>)
    ensures Legal(Fresh, steps)
    ensures Execute(Fresh, steps)
            == Fresh.(log := RolledBack, horizon := 4, top := 4, data := Data(3, map[], 1, false, [ResetStart(1), ResetComplete(1)]))
  {
    hide Legal, Execute, Auth, OwedAt, NextOf;
    steps := MutationRun();
    var w := Execute(Fresh, steps);
    RolledBackHistory();
    OwesAt(w, 3);
    steps := Then(Fresh, steps, MutationReset(3, false));
    steps := Then(Fresh, steps, Read(Reply(None)));
    steps := Then(Fresh, steps, Page(4, []));
    steps := Then(Fresh, steps, Complete);
    steps := Then(Fresh, steps, Release);
  }

  /** What a reset owes when the worker has handled nothing behind it. */
  lemma OwesAt(w: World, n: nat)
    requires n <= |w.log| && Auth(w.base, w.log, n) == map[] && forall t <- w.handled :: w.handled[t] <= n
    ensures OwedAt(w, w.handled, n) == {}
  {
    hide Auth;
  }

  const ThreeRead: seq<Frame> := [Reverted(map[]), Item(X, Delta("y")), Reply(Some(map[]))]

  lemma RolledBackHistory()
    ensures Auth(map[], ThreeRead, 3) == map[] && Auth(map[], RolledBack, 1) == map[]
    ensures var log := RolledBack + [Reply(None)]; Auth(map[], log, 5) == map[]
  {
    var log := RolledBack + [Reply(None)];
    assert Auth(map[], log, 3) == map[];
    assert Auth(map[], log, 4) == map[];
  }

  /**
    A late revert that does harm: somebody reverts, a delta follows, we roll back to the empty history and
    replay it; then the queued revert resets the session once more and lets the delta through.
   */
  lemma LateRevertHappens() returns (steps: seq<Step>)
    ensures Initial(Fresh) && Legal(Fresh, steps)
    ensures var end := Execute(Fresh, steps);
            && Handled(end, Root) <= |end.log| && Position(end, Root) == |end.log| && !end.held && end.owed == {}
            && View(end) == map[X := "y"] != Auth(end.base, end.log, |end.log|) == map[]
  {
    hide Legal, Execute, Auth, NextOf, ClientView;
    FreshInv();
    steps := LateResetRun();
    RolledBackHistory();
    steps := Then(Fresh, steps, Read(Reply(None)));
    steps := Then(Fresh, steps, Page(5, []));
    steps := Then(Fresh, steps, Complete);
    steps := Then(Fresh, steps, Release);
    NextIs(Execute(Fresh, steps), 1);
    steps := Then(Fresh, steps, Deliver(Root));
    NextIs(Execute(Fresh, steps), 5);
    LateTranscript();
    var end := Execute(Fresh, steps);
    assert end.data.sent == [ResetStart(1), ResetComplete(1), ResetStart(2), ResetComplete(2), Append(X, "y")];
  }

  lemma LateResetRun() returns (steps: seq<Step>)
    ensures Legal(Fresh, steps)
    ensures Execute(Fresh, steps)
            == Fresh.(log := RolledBack, handled := map[Root := 1], held := true, horizon := 4, top := 1,
                      data := Data(1, map[], 2, false, [ResetStart(1), ResetComplete(1), ResetStart(2)]))
  {
    hide Legal, Execute, Auth, NextOf, OwedAt;
    steps := RollbackRun();
    NextIs(Execute(Fresh, steps), 0);
    LateOwes(Execute(Fresh, steps));
    steps := Then(Fresh, steps, Deliver(Root));
  }

  lemma LateOwes(w: World)
    requires w.log == RolledBack && w.base == map[] && w.handled == map[]
    ensures OwedAt(w, map[Root := 1], 1) == {}
  {
    hide Auth;
    RolledBackHistory();
  }

  lemma LateTranscript()
    ensures ClientView(map[], [ResetStart(1), ResetComplete(1), ResetStart(2), ResetComplete(2), Append(X, "y")]) == map[X := "y"]
  {
    var sent := [ResetStart(1), ResetComplete(1), ResetStart(2), ResetComplete(2)];
    assert ClientView(map[], sent) == map[] by {
      assert sent[..3] == [ResetStart(1), ResetComplete(1), ResetStart(2)];
    }
    SentOne(map[], sent, Append(X, "y"));
    assert "" + "y" == "y" && sent + [Append(X, "y")] == [ResetStart(1), ResetComplete(1), ResetStart(2), ResetComplete(2), Append(X, "y")];
  }

  /** A fence that is requested behind a queued revert, and returns when the revert has led to a reset and a replay. */
  const Fenced: seq<Frame> := [Reverted(map[]), Item(X, Delta("y")), Reply(None)]

  const AfterFence: World :=
    Fresh.(log := Fenced, handled := map[Root := 1], held := true, horizon := 3, top := 3, supplied := map[X := 3],
           fence := Returned(1), data := Data(1, map[X := 3], 1, false, [ResetStart(1), Replace(X, "y"), ResetComplete(1)]))

  const AfterReset: World :=
    Fresh.(log := Fenced, handled := map[Root := 1], held := true, horizon := 1, top := 1, fence := Requested(1),
           data := Data(1, map[], 1, false, [ResetStart(1)]))

  lemma FencedResetRun() returns (steps: seq<Step>)
    ensures Legal(Fresh, steps) && Execute(Fresh, steps) == AfterFence
  {
    hide Legal, Execute, Auth, NextOf, ReplayEntries;
    steps := RequestedResetRun();
    FencedHistory();
    OnePage(AfterReset);
    steps := Then(Fresh, steps, Page(3, [(X, "y")]));
    steps := Then(Fresh, steps, Complete);
    steps := Then(Fresh, steps, Release);
    NextIs(Execute(Fresh, steps), 1);
    steps := Then(Fresh, steps, FenceReturns);
    steps := Then(Fresh, steps, Hold);
  }

  lemma RequestedResetRun() returns (steps: seq<Step>)
    ensures Legal(Fresh, steps) && Execute(Fresh, steps) == AfterReset
  {
    hide Legal, Execute, Auth, NextOf, OwedAt;
    NothingYet(Fresh);
    steps := Then(Fresh, [], Read(Reverted(map[])));
    steps := Then(Fresh, steps, RequestFence);
    NextIs(Execute(Fresh, steps), 0);
    FencedOwes(Execute(Fresh, steps));
    steps := Then(Fresh, steps, Deliver(Root));
    steps := Then(Fresh, steps, Read(Item(X, Delta("y"))));
    steps := Then(Fresh, steps, Read(Reply(None)));
  }

  lemma FencedHistory()
    ensures Auth(map[], [Reverted(map[])], 1) == map[] && Auth(map[], Fenced, 3) == map[X := "y"]
  {
    assert "" + "y" == "y";
    assert Auth(map[], Fenced, 1) == map[];
    assert Auth(map[], Fenced, 2) == ApplyOp(map[], X, Delta("y"));
    assert map[][X := "y"] == map[X := "y"];
  }

  lemma FencedOwes(w: World)
    requires w.log == [Reverted(map[])] && w.base == map[]
    ensures OwedAt(w, map[Root := 1], 1) == {}
  {
    hide Auth;
    FencedHistory();
  }

  lemma OnePage(w: World)
    ensures ReplayEntries(w.data, 3, [(X, "y")])
            == w.data.(snapshotCutoffs := w.data.snapshotCutoffs[X := 3], sent := w.data.sent + [Replace(X, "y")])
    ensures Ids([(X, "y")]) == {X}
  {
    assert (X, "y") in [(X, "y")];
  }

  /**
    A clear behind a returned fence that does harm: the fence is requested while a revert is queued in front of it,
    which makes the worker reset and replay; the page covers a delta that waits behind the fence, and when its
    cutoff has been cleared the delta is applied a second time.
   */
  lemma FencedClearHappens() returns (before: seq<Step>, after: seq<Step>)
    ensures Initial(Fresh) && Legal(Fresh, before) && Legal(Execute(Fresh, before), after)
    ensures after == [ClearCutoffs, Release, Deliver(Root)]
    ensures var fenced := Execute(Fresh, before);
            && Bounded(fenced) && fenced.fence == Returned(1) && !CutoffsPassed(fenced) && fenced.owed == {}
            && View(fenced) == Auth(fenced.base, fenced.log, |fenced.log|) == map[X := "y"]
            && var end := Execute(fenced, after);
               && end.log == fenced.log && end.base == fenced.base && end.owed == {X}
               && Handled(end, Root) <= |end.log| && Position(end, Root) == |end.log| && View(end) == map[X := "yy"]
  {
    hide Legal, Execute, Auth, NextOf, ClientView;
    FreshInv();
    before := FencedResetRun();
    var fenced := Execute(Fresh, before);
    FencedHistory();
    FencedTranscripts();
    NextIs(fenced, 1);
    after := FencedClearRun(fenced);
  }

  lemma FencedClearRun(fenced: World) returns (after: seq<Step>)
    requires fenced == AfterFence
    ensures after == [ClearCutoffs, Release, Deliver(Root)] && Legal(fenced, after)
    ensures var end := Execute(fenced, after);
            && end.log == fenced.log && end.base == fenced.base && end.owed == {X}
            && Handled(end, Root) <= |end.log| && Position(end, Root) == |end.log| && View(end) == map[X := "yy"]
  {
    hide Legal, Execute, Auth, NextOf, ClientView, Uncovered;
    FencedTranscripts();
    NextIs(fenced, 1);
    ClearsX(fenced);
    NothingYet(fenced);
    after := Then(fenced, [], ClearCutoffs);
    after := Then(fenced, after, Release);
    NextIs(Execute(fenced, after), 1);
    after := Then(fenced, after, Deliver(Root));
    NextIs(Execute(fenced, after), 3);
    assert Execute(fenced, after).data.sent == [ResetStart(1), Replace(X, "y"), ResetComplete(1), Append(X, "y")];
  }

  lemma ClearsX(w: World)
    requires w.root == Root && w.log == Fenced && w.handled == map[Root := 1] && Position(w, Root) == 1
    requires w.data.snapshotCutoffs == map[X := 3] && w.data.historyCutoff == 1
    ensures Uncovered(w) == {X}
  {
    hide NextOf;
    assert X in Uncovered(w);
  }

  lemma FencedTranscripts()
    ensures ClientView(map[], [ResetStart(1), Replace(X, "y"), ResetComplete(1)]) == map[X := "y"]
    ensures ClientView(map[], [ResetStart(1), Replace(X, "y"), ResetComplete(1), Append(X, "y")]) == map[X := "yy"]
  {
    var one, two := [ResetStart(1)], [ResetStart(1), Replace(X, "y")];
    var three := two + [ResetComplete(1)];
    assert two == one + [Replace(X, "y")] && three + [Append(X, "y")] == [ResetStart(1), Replace(X, "y"), ResetComplete(1), Append(X, "y")];
    SentOne(map[], one, Replace(X, "y"));
    assert ClientView(map[], two) == map[X := "y"];
    SentOne(map[], two, ResetComplete(1));
    SentOne(map[], three, Append(X, "y"));
    assert three == [ResetStart(1), Replace(X, "y"), ResetComplete(1)] && "y" + "y" == "yy";
  }

  lemma OwnReplyRun() returns (steps: seq<Step>)
    ensures Legal(Fresh, steps)
    ensures var w := Execute(Fresh, steps);
            w == Fresh.(log := [Reply(Some(map[]))], held := true) && OwedAt(w, w.handled, 1) == {}
  {
    hide Legal, Execute, Auth;
    NothingYet(Fresh);
    steps := Then(Fresh, [], Hold);
    steps := Then(Fresh, steps, Read(Reply(Some(map[]))));
    var w := Execute(Fresh, steps);
    LastExchange(w.base, w.log, map[]);
    OwesAt(w, 1);
  }

  /** Our own revert, answered and replayed, before its echo. */
  lemma OwnRevertRun() returns (steps: seq<Step>)
    ensures Legal(Fresh, steps)
    ensures Execute(Fresh, steps)
            == Fresh.(log := [Reply(Some(map[])), Reply(None)], horizon := 2, top := 2,
                      data := Data(1, map[], 1, true, [ResetStart(1), ResetComplete(1)]))
  {
    hide Legal, Execute, Auth, OwedAt, NextOf;
    steps := OwnReplyRun();
    steps := Then(Fresh, steps, MutationReset(1, true));
    steps := Then(Fresh, steps, Read(Reply(None)));
    steps := Then(Fresh, steps, Page(2, []));
    steps := Then(Fresh, steps, Complete);
    steps := Then(Fresh, steps, Release);
  }

  /**
    A swallowed revert that does harm: after our own revert to the empty history somebody brings an entity
    back; the flag that waits for our echo is spent on that notification.
   */
  lemma ForeignRevertSwallowed() returns (steps: seq<Step>)
    ensures Initial(Fresh) && Legal(Fresh, steps)
    ensures var end := Execute(Fresh, steps);
            && Handled(end, Root) <= |end.log| && Position(end, Root) == |end.log| && !end.held && end.owed == {}
            && View(end) == map[] != Auth(end.base, end.log, |end.log|) == map[X := "a"]
  {
    hide Legal, Execute, Auth, ClientView, NextOf;
    FreshInv();
    steps := OwnRevertRun();
    steps := Then(Fresh, steps, Read(Reverted(map[X := "a"])));
    NextIs(Execute(Fresh, steps), 2);
    steps := Then(Fresh, steps, Deliver(Root));
    NextIs(Execute(Fresh, steps), 3);
    var end := Execute(Fresh, steps);
    assert end.data.sent == [ResetStart(1), ResetComplete(1)];
    TwoUpdates();
    LastExchange(end.base, end.log, map[X := "a"]);
    assert X in map[X := "a"];
  }

  lemma TwoUpdates()
    ensures ClientView(map[], [ResetStart(1), ResetComplete(1)]) == map[]
  {
  }

  lemma LastExchange(base: History, log: seq<Frame>, history: History)
    requires log != [] && (log[|log| - 1] == Reverted(history) || log[|log| - 1] == Reply(Some(history)))
    ensures Auth(base, log, |log|) == history
  {
  }
}
