/**
  Request identities of one native MCP endpoint (src/mcp/http.rs, src/mcp/mod.rs).

  Forward requests come from Codex over HTTP under ids it chose; reverse requests come from the client
  under ids the adapter counts. Guards remove an id from its map on every way out.
 */
module McpRequests {
  import opened Prelude

  type ForwardId = string
  type Task = nat
  type ReverseId = nat

  const MAX_PENDING: nat := 32

  datatype Message = Request(id: ReverseId) | Cancelled(id: ReverseId)

  /** A forward request being relayed; `tracked` is false for initialize, which no map entry represents. */
  datatype Forward = Forward(id: ForwardId, tracked: bool, signals: nat)

  /** Where a reverse request stands: its reply slot, and whether its guard still lives. */
  datatype Reverse = Reverse(guarded: bool, answered: bool, removals: nat)

  /** What the endpoint keeps, and what it has published to its event stream. */
  datatype Endpoint = Endpoint(
    live: bool,
    forwardPending: map<ForwardId, Option<Task>>,
    pending: set<ReverseId>,
    nextId: nat,
    queue: seq<Message>)

  datatype World = World(endpoint: Endpoint, forwards: map<Task, Forward>, reverses: map<ReverseId, Reverse>)

  // ---------------------------------------------------------------- regions under the endpoint's locks

  datatype Admission = Admitted | Duplicate | TooMany

  function Admit(e: Endpoint, id: ForwardId): Admission {
    if id in e.forwardPending then Duplicate
    else if |e.forwardPending| >= MAX_PENDING then TooMany
    else Admitted
  }

  /** The cancel sender for an id, which only the first cancellation finds. */
  function CancelTarget(e: Endpoint, id: ForwardId): Option<Task> {
    if id in e.forwardPending then e.forwardPending[id] else None
  }

  function TakeCancel(e: Endpoint, id: ForwardId): Endpoint {
    if id in e.forwardPending then e.(forwardPending := e.forwardPending[id := None]) else e
  }

  function EndForward(e: Endpoint, id: ForwardId): Endpoint { e.(forwardPending := e.forwardPending - {id}) }

  /** publish; `fits` says that the frame is small enough and the stream has room. */
  function Publish(e: Endpoint, m: Message, fits: bool): Endpoint {
    if !e.live then e else if fits then e.(queue := e.queue + [m]) else e.(live := false)
  }

  class EndpointMaps {
    var live: bool
    var forwardPending: map<ForwardId, Option<Task>>
    var pending: set<ReverseId>
    var nextId: nat
    var outgoing: seq<Message>

    function Model(): Endpoint
      reads this
    {
      Endpoint(live, forwardPending, pending, nextId, outgoing)
    }

    constructor ()
      ensures Model() == Endpoint(true, map[], {}, 1, [])
    {
      live, forwardPending, pending, nextId, outgoing := true, map[], {}, 1, [];
    }

    method ForwardRequest(id: ForwardId, task: Task) returns (admission: Admission)
      modifies this`forwardPending
      ensures admission == Admit(old(Model()), id)
      ensures Model() == if admission.Admitted? then old(Model()).(forwardPending := old(forwardPending)[id := Some(task)])
                         else old(Model())
    {
      if id in forwardPending {
        return Duplicate;
      }
      if |forwardPending| >= MAX_PENDING {
        return TooMany;
      }
      forwardPending := forwardPending[id := Some(task)];
      return Admitted;
    }

    method Cancel(id: ForwardId) returns (target: Option<Task>)
      modifies this`forwardPending
      ensures target == CancelTarget(old(Model()), id) && Model() == TakeCancel(old(Model()), id)
    {
      target := None;
      if id in forwardPending {
        target := forwardPending[id];
        forwardPending := forwardPending[id := None];
      }
    }

    method PublishMessage(m: Message, fits: bool) returns (ok: bool)
      modifies this`live, this`outgoing
      ensures Model() == Publish(old(Model()), m, fits) && ok == (old(live) && fits)
    {
      if !live {
        return false;
      }
      if fits {
        outgoing := outgoing + [m];
      } else {
        live := false;
      }
      return fits;
    }

    /** The drop of a reverse request's guard. */
    method DropPending(id: ReverseId, fits: bool)
      modifies this`pending, this`live, this`outgoing
      ensures Model() == if id in old(pending) then Publish(old(Model()).(pending := old(pending) - {id}), Cancelled(id), fits)
                         else old(Model())
    {
      if id in pending {
        pending := pending - {id};
        var _ := PublishMessage(Cancelled(id), fits);
      }
    }
  }

  // ---------------------------------------------------------------- runs

  datatype Step =
    | StartForward(task: Task, id: ForwardId, initialize: bool)
    | CancelForward(id: ForwardId)
    | FinishForward(task: Task)                  // response, timeout, cancellation or shutdown: the guard drops
    | StartReverse(fits: bool)                   // entry, guard, publish
    | Reply(reverse: ReverseId)                  // an HTTP response for a reverse request
    | DropGuard(reverse: ReverseId, fits: bool)    // answered, timed out, cancelled or shut down
    | ClearPending                               // provider cleanup
    | Close

  predicate Enabled(w: World, step: Step) {
    match step
    case StartForward(task, _, _) => task !in w.forwards
    case FinishForward(task) => task in w.forwards
    case DropGuard(id, _) => id in w.reverses && w.reverses[id].guarded
    case _ => true
  }

  /** Removing a reverse id from `pending`. */
  function Settle(w: World, id: ReverseId, answered: bool): (w': World)
    ensures w'.reverses.Keys == w.reverses.Keys
  {
    if id !in w.endpoint.pending || id !in w.reverses then w
    else
      var r := w.reverses[id];
      w.(endpoint := w.endpoint.(pending := w.endpoint.pending - {id}),
         reverses := w.reverses[id := r.(answered := answered, removals := r.removals + 1)])
  }

  function Apply(w: World, step: Step): World
    requires Enabled(w, step)
  {
    var e := w.endpoint;
    match step
    case StartForward(task, id, initialize) =>
      if initialize then w.(forwards := w.forwards[task := Forward(id, false, 0)])
      else if Admit(e, id).Admitted? then
        w.(endpoint := e.(forwardPending := e.forwardPending[id := Some(task)]),
           forwards := w.forwards[task := Forward(id, true, 0)])
      else w
    case CancelForward(id) =>
      var target := CancelTarget(e, id);
      var w' := w.(endpoint := TakeCancel(e, id));
      if target.Some? && target.value in w.forwards
      then w'.(forwards := w.forwards[target.value := w.forwards[target.value].(signals := w.forwards[target.value].signals + 1)])
      else w'
    case FinishForward(task) =>
      var f := w.forwards[task];
      w.(forwards := w.forwards - {task}, endpoint := if f.tracked then EndForward(e, f.id) else e)
    case StartReverse(fits) =>
      var id, counted := e.nextId, e.(nextId := e.nextId + 1);
      if |e.pending| >= MAX_PENDING then w.(endpoint := counted)
      else
        w.(endpoint := Publish(counted.(pending := e.pending + {id}), Request(id), fits),
           reverses := w.reverses[id := Reverse(true, false, 0)])
    case Reply(id) => Settle(w, id, true)
    case DropGuard(id, fits) =>
      var w' := Settle(w, id, false);
      var unguarded := w'.(reverses := w'.reverses[id := w'.reverses[id].(guarded := false)]);
      if id in e.pending then unguarded.(endpoint := Publish(unguarded.endpoint, Cancelled(id), fits)) else unguarded
    case ClearPending =>
      w.(endpoint := e.(pending := {}),
         reverses := map id | id in w.reverses ::
           if id in e.pending then w.reverses[id].(removals := w.reverses[id].removals + 1) else w.reverses[id])
    case Close => w.(endpoint := e.(live := false))
  }

  ghost predicate Legal(w: World, steps: seq<Step>)
    decreases |steps|
  {
    steps == [] || (Enabled(w, steps[0]) && Legal(Apply(w, steps[0]), steps[1..]))
  }

  ghost function Execute(w: World, steps: seq<Step>): World
    requires Legal(w, steps)
    decreases |steps|
  {
    if steps == [] then w else Execute(Apply(w, steps[0]), steps[1..])
  }

  const Initial: World := World(Endpoint(true, map[], {}, 1, []), map[], map[])

  // ---------------------------------------------------------------- invariants

  /** The forward map has one entry per tracked request, still armed exactly until it is signalled. */
  ghost predicate ForwardFine(w: World) {
    && |w.endpoint.forwardPending| <= MAX_PENDING
    && (forall task <- w.forwards ::
          var f := w.forwards[task];
          if f.tracked then
            && f.id in w.endpoint.forwardPending
            && w.endpoint.forwardPending[f.id] == (if f.signals == 0 then Some(task) else None)
            && f.signals <= 1
          else f.signals == 0)
    && (forall a <- w.forwards, b <- w.forwards ::
          w.forwards[a].tracked && w.forwards[b].tracked && w.forwards[a].id == w.forwards[b].id ==> a == b)
    && (forall id <- w.endpoint.forwardPending ::
          w.endpoint.forwardPending[id].Some? ==>
            var task := w.endpoint.forwardPending[id].value;
            task in w.forwards && w.forwards[task].tracked && w.forwards[task].id == id)
  }

  ghost predicate QueueFine(w: World) {
    var q := w.endpoint.queue;
    && (forall m <- q :: m.id in w.reverses)
    && (forall m <- q :: m.Cancelled? ==>
          m.id !in w.endpoint.pending && !w.reverses[m.id].answered && !w.reverses[m.id].guarded)
    && (forall i, j :: 0 <= i < j < |q| ==> q[i] != q[j])
  }

  ghost predicate PendingFine(w: World) {
    && |w.endpoint.pending| <= MAX_PENDING
    && (forall id <- w.endpoint.pending :: id in w.reverses && w.reverses[id].guarded)
    && (forall id <- w.reverses ::
          && id < w.endpoint.nextId
          && w.reverses[id].removals == (if id in w.endpoint.pending then 0 else 1)
          && (w.reverses[id].answered ==> id !in w.endpoint.pending))
  }

  ghost predicate ReverseFine(w: World) { PendingFine(w) && QueueFine(w) }

  lemma CardinalityBound<T>(a: set<T>, b: set<T>)
    requires a <= b
    ensures |a| <= |b|
  {
    assert b == a + (b - a);
  }

  lemma StartForwardKeeps(w: World, task: Task, id: ForwardId, initialize: bool)
    requires ForwardFine(w) && Enabled(w, StartForward(task, id, initialize))
    ensures ForwardFine(Apply(w, StartForward(task, id, initialize)))
  {
  }

  lemma CancelForwardKeeps(w: World, id: ForwardId)
    requires ForwardFine(w)
    ensures ForwardFine(Apply(w, CancelForward(id)))
  {
    hide Settle, Publish, EndForward, Admit;
    var w' := Apply(w, CancelForward(id));
    SameSize(w.endpoint.forwardPending, w'.endpoint.forwardPending);
  }

  lemma SameSize<K, V>(a: map<K, V>, b: map<K, V>)
    requires a.Keys == b.Keys
    ensures |a| == |b|
  {
    assert |a| == |a.Keys| && |b| == |b.Keys|;
  }

  lemma FinishForwardKeeps(w: World, task: Task)
    requires ForwardFine(w) && Enabled(w, FinishForward(task))
    ensures ForwardFine(Apply(w, FinishForward(task)))
  {
    var w' := Apply(w, FinishForward(task));
    CardinalityBound(w'.endpoint.forwardPending.Keys, w.endpoint.forwardPending.Keys);
    assert |w'.endpoint.forwardPending| == |w'.endpoint.forwardPending.Keys|;
    assert |w.endpoint.forwardPending| == |w.endpoint.forwardPending.Keys|;
  }

  predicate ForwardStep(step: Step) { step.StartForward? || step.CancelForward? || step.FinishForward? }

  lemma ReverseStepForwards(w: World, step: Step)
    requires Enabled(w, step) && !ForwardStep(step)
    ensures Apply(w, step).forwards == w.forwards
    ensures Apply(w, step).endpoint.forwardPending == w.endpoint.forwardPending
  {
  }

  lemma ForwardStepReverses(w: World, step: Step)
    requires Enabled(w, step) && ForwardStep(step)
    ensures Apply(w, step).reverses == w.reverses
    ensures Apply(w, step).endpoint == w.endpoint.(forwardPending := Apply(w, step).endpoint.forwardPending)
  {
    hide Settle, Publish, Admit, CancelTarget;
  }

  lemma ForwardKeeps(w: World, step: Step)
    requires ForwardFine(w) && Enabled(w, step)
    ensures ForwardFine(Apply(w, step))
  {
    match step
    case StartForward(task, id, initialize) => StartForwardKeeps(w, task, id, initialize);
    case CancelForward(id) => CancelForwardKeeps(w, id);
    case FinishForward(task) => FinishForwardKeeps(w, task);
    case _ => ReverseStepForwards(w, step);
  }

  lemma StartReverseKeeps(w: World, fits: bool)
    requires ReverseFine(w)
    ensures ReverseFine(Apply(w, StartReverse(fits)))
  {
    hide PendingFine;
    PendingGrows(w, fits);
    var w', n := Apply(w, StartReverse(fits)), w.endpoint.nextId;
    NewIdUnused(w);
    assert forall m <- w'.endpoint.queue :: m in w.endpoint.queue || m == Request(n);
    assert w'.endpoint.pending <= w.endpoint.pending + {n};
  }

  lemma PendingGrows(w: World, fits: bool)
    requires PendingFine(w)
    ensures PendingFine(Apply(w, StartReverse(fits)))
  {
    hide Apply;
    StartIs(w, fits);
    CardinalityOne(w.endpoint.pending, w.endpoint.nextId);
  }

  /** The table under a request: full, or with one entry more. */
  lemma StartIs(w: World, fits: bool)
    ensures var e, e', w' := w.endpoint, Apply(w, StartReverse(fits)).endpoint, Apply(w, StartReverse(fits));
            && e'.nextId == e.nextId + 1
            && (|e.pending| >= MAX_PENDING ==> e'.pending == e.pending && w'.reverses == w.reverses)
            && (|e.pending| < MAX_PENDING ==>
                  e'.pending == e.pending + {e.nextId} && w'.reverses == w.reverses[e.nextId := Reverse(true, false, 0)])
  {
    hide Settle, EndForward, Admit, CancelTarget, TakeCancel;
  }

  lemma CardinalityOne<T>(s: set<T>, x: T)
    ensures |s + {x}| <= |s| + 1
  {
  }

  /** The next id is that of no reverse request and no queued message. */
  lemma NewIdUnused(w: World)
    requires ReverseFine(w)
    ensures w.endpoint.nextId !in w.reverses && w.endpoint.nextId !in w.endpoint.pending
    ensures forall m <- w.endpoint.queue :: m.id != w.endpoint.nextId && m.id in w.reverses
  {
  }

  lemma ReplyKeeps(w: World, id: ReverseId)
    requires ReverseFine(w)
    ensures ReverseFine(Apply(w, Reply(id)))
  {
    CardinalityBound(Apply(w, Reply(id)).endpoint.pending, w.endpoint.pending);
  }

  lemma DropGuardKeeps(w: World, id: ReverseId, fits: bool)
    requires ReverseFine(w) && Enabled(w, DropGuard(id, fits))
    ensures ReverseFine(Apply(w, DropGuard(id, fits)))
  {
    CardinalityBound(Apply(w, DropGuard(id, fits)).endpoint.pending, w.endpoint.pending);
    assert id in w.endpoint.pending ==> Cancelled(id) !in w.endpoint.queue;
  }

  lemma ReverseKeeps(w: World, step: Step)
    requires ReverseFine(w) && Enabled(w, step)
    ensures ReverseFine(Apply(w, step))
  {
    match step
    case StartReverse(fits) => StartReverseKeeps(w, fits);
    case Reply(id) => ReplyKeeps(w, id);
    case DropGuard(id, fits) => DropGuardKeeps(w, id, fits);
    case ClearPending =>
    case Close =>
    case _ => ForwardStepReverses(w, step);
  }

  lemma {:induction false} RunKeeps(w: World, steps: seq<Step>)
    requires ForwardFine(w) && ReverseFine(w) && Legal(w, steps)
    ensures ForwardFine(Execute(w, steps)) && ReverseFine(Execute(w, steps))
    decreases |steps|
  {
    hide ForwardFine, ReverseFine, Apply;
    if steps != [] {
      ForwardKeeps(w, steps[0]);
      ReverseKeeps(w, steps[0]);
      RunKeeps(Apply(w, steps[0]), steps[1..]);
    }
  }

  // ---------------------------------------------------------------- theorems about every run

  /**
    Ids of forward requests in flight are distinct and at most 32. A cancellation reaches the request with
    that id and no other, and no request is ever signalled twice.
   */
  lemma ForwardIdentity(steps: seq<Step>, id: ForwardId, task: Task)
    requires Legal(Initial, steps) && task in Execute(Initial, steps).forwards
    ensures var w := Execute(Initial, steps);
            var w', f := Apply(w, CancelForward(id)), w.forwards[task];
            && |w.endpoint.forwardPending| <= MAX_PENDING
            && f.signals <= 1
            && task in w'.forwards
            && w'.forwards[task] == f.(signals := if f.tracked && f.id == id then 1 else f.signals)
            && forall other <- w.forwards ::
                 f.tracked && w.forwards[other].tracked && w.forwards[other].id == f.id ==> other == task
  {
    RunKeeps(Initial, steps);
    var w := Execute(Initial, steps);
  }

  /**
    A reverse id leaves `pending` exactly once. A cancellation is published at most once, only after the
    guard itself removed the id, and never for an answered request.
   */
  lemma ReverseIdentity(steps: seq<Step>, id: ReverseId)
    requires Legal(Initial, steps) && id in Execute(Initial, steps).reverses
    ensures var w := Execute(Initial, steps);
            var q := w.endpoint.queue;
            && w.reverses[id].removals == (if id in w.endpoint.pending then 0 else 1)
            && |w.endpoint.pending| <= MAX_PENDING
            && (Cancelled(id) in q ==> !w.reverses[id].answered && !w.reverses[id].guarded)
            && (forall i, j :: 0 <= i < |q| && 0 <= j < |q| && q[i] == q[j] == Cancelled(id) ==> i == j)
  {
    RunKeeps(Initial, steps);
  }

  /** The guard publishes a cancellation exactly when it removed the id on a live endpoint that had room. */
  lemma CancellationExactly(steps: seq<Step>, id: ReverseId, fits: bool)
    requires Legal(Initial, steps) && Enabled(Execute(Initial, steps), DropGuard(id, fits))
    ensures var w := Execute(Initial, steps);
            Cancelled(id) in Apply(w, DropGuard(id, fits)).endpoint.queue
            <==> id in w.endpoint.pending && w.endpoint.live && fits
  {
    RunKeeps(Initial, steps);
    var w := Execute(Initial, steps);
    assert Cancelled(id) !in w.endpoint.queue;
  }

  // ---------------------------------------------------------------- when each request is admitted

  /** The forward requests in flight, initialize apart. */
  function InFlight(w: World): set<Task> { set task | task in w.forwards && w.forwards[task].tracked }

  /** Every entry of the forward map is that of a request in flight. */
  ghost predicate EntriesTracked(w: World) {
    forall id <- w.endpoint.forwardPending :: exists task <- w.forwards :: w.forwards[task].tracked && w.forwards[task].id == id
  }

  lemma TrackedStep(w: World, step: Step)
    requires ForwardFine(w) && EntriesTracked(w) && Enabled(w, step)
    ensures EntriesTracked(Apply(w, step))
  {
    hide Settle, Publish, Apply, Enabled;
    var w' := Apply(w, step);
    EntriesMove(w, step);
    forall id | id in w'.endpoint.forwardPending
      ensures exists task <- w'.forwards :: w'.forwards[task].tracked && w'.forwards[task].id == id
    {
      if id in w.endpoint.forwardPending {
        var task :| task in w.forwards && w.forwards[task].tracked && w.forwards[task].id == id;
        assert task in w'.forwards && w'.forwards[task].tracked && w'.forwards[task].id == id;
      } else {
        assert step.task in w'.forwards;
      }
    }
  }

  /** An entry that a step leaves is that of a request it leaves, and a new one that of the request it starts. */
  lemma EntriesMove(w: World, step: Step)
    requires ForwardFine(w) && Enabled(w, step)
    ensures var w' := Apply(w, step);
            && (forall task, id | task in w.forwards && w.forwards[task].tracked && w.forwards[task].id == id && id in w'.endpoint.forwardPending ::
                  task in w'.forwards && w'.forwards[task].tracked && w'.forwards[task].id == id)
            && forall id | id in w'.endpoint.forwardPending && id !in w.endpoint.forwardPending ::
                 step.StartForward? && step.task in w'.forwards && w'.forwards[step.task].tracked && w'.forwards[step.task].id == id
  {
    hide Settle, Publish;
    if !ForwardStep(step) {
      ReverseStepForwards(w, step);
    }
  }

  lemma {:induction false} TrackedRuns(w: World, steps: seq<Step>)
    requires ForwardFine(w) && ReverseFine(w) && EntriesTracked(w) && Legal(w, steps)
    ensures ForwardFine(Execute(w, steps)) && ReverseFine(Execute(w, steps)) && EntriesTracked(Execute(w, steps))
    decreases |steps|
  {
    hide ForwardFine, ReverseFine, EntriesTracked, Apply, Enabled;
    if steps != [] {
      ForwardKeeps(w, steps[0]);
      ReverseKeeps(w, steps[0]);
      TrackedStep(w, steps[0]);
      TrackedRuns(Apply(w, steps[0]), steps[1..]);
    }
  }

  /** Entries and requests in flight correspond, one to one. */
  lemma {:induction false} SameCount(ids: set<ForwardId>, tasks: set<Task>, idOf: map<Task, ForwardId>)
    requires tasks <= idOf.Keys
    requires forall id :: id in ids <==> exists task <- tasks :: idOf[task] == id
    requires forall a, b | a in tasks && b in tasks && idOf[a] == idOf[b] :: a == b
    ensures |ids| == |tasks|
    decreases |tasks|
  {
    if tasks == {} {
      assert ids == {};
    } else {
      var task :| task in tasks;
      var rest, others := ids - {idOf[task]}, tasks - {task};
      forall id ensures id in rest <==> exists t <- others :: idOf[t] == id {
        if id in rest {
          var t :| t in tasks && idOf[t] == id;
          assert t in others;
        }
        if t :| t in others && idOf[t] == id {
          assert t in tasks;
        }
      }
      SameCount(rest, others, idOf);
      assert idOf[task] in ids;
    }
  }

  lemma CountInFlight(w: World)
    requires ForwardFine(w) && EntriesTracked(w)
    ensures |w.endpoint.forwardPending| == |InFlight(w)|
    ensures forall id :: id in w.endpoint.forwardPending <==> exists task <- InFlight(w) :: w.forwards[task].id == id
  {
    var ids, tasks, idOf := w.endpoint.forwardPending.Keys, InFlight(w), map task | task in w.forwards :: w.forwards[task].id;
    forall id ensures id in ids <==> exists task <- tasks :: idOf[task] == id {
      if id in ids {
        var task :| task in w.forwards && w.forwards[task].tracked && w.forwards[task].id == id;
        assert task in tasks;
      }
    }
    SameCount(ids, tasks, idOf);
    assert |w.endpoint.forwardPending| == |ids|;
  }

  /**
    A forward request is relayed exactly if no request in flight has its id and fewer than 32 are in flight; when it
    has ended its id can be used again. An initialize always is.
   */
  lemma ForwardAdmittedExactly(steps: seq<Step>, task: Task, id: ForwardId, initialize: bool)
    requires Legal(Initial, steps) && Enabled(Execute(Initial, steps), StartForward(task, id, initialize))
    ensures var w := Execute(Initial, steps);
            var w' := Apply(w, StartForward(task, id, initialize));
            task in w'.forwards
            <==> initialize || (|InFlight(w)| < 32 && forall other <- InFlight(w) :: w.forwards[other].id != id)
  {
    hide ForwardFine, ReverseFine, EntriesTracked;
    NoEntries();
    TrackedRuns(Initial, steps);
    CountInFlight(Execute(Initial, steps));
  }

  lemma NoEntries()
    ensures ForwardFine(Initial) && ReverseFine(Initial) && EntriesTracked(Initial)
  {
  }

  /**
    A reverse request gets the next id and is published exactly if fewer than 32 wait for their answers, the endpoint is
    live and its stream has room. Without room the endpoint is closed, and stays closed.
   */
  lemma ReverseAdmittedExactly(steps: seq<Step>, fits: bool)
    requires Legal(Initial, steps)
    ensures var w := Execute(Initial, steps);
            var w', n := Apply(w, StartReverse(fits)), w.endpoint.nextId;
            && n !in w.reverses && w'.endpoint.nextId == n + 1
            && (n in w'.reverses <==> |w.endpoint.pending| < 32)
            && (n in w'.endpoint.pending <==> |w.endpoint.pending| < 32)
            && (Request(n) in w'.endpoint.queue <==> |w.endpoint.pending| < 32 && w.endpoint.live && fits)
            && (w'.endpoint.live <==> w.endpoint.live && (|w.endpoint.pending| >= 32 || fits))
  {
    hide ForwardFine;
    NoEntries();
    RunKeeps(Initial, steps);
    NewIdUnused(Execute(Initial, steps));
  }

  /** An answer is taken exactly if its request still waits, and it is then the only one. */
  lemma AnswerTakenExactly(steps: seq<Step>, id: ReverseId)
    requires Legal(Initial, steps) && id in Execute(Initial, steps).reverses
    ensures var w := Execute(Initial, steps);
            var w' := Apply(w, Reply(id));
            && id in w'.reverses && id !in w'.endpoint.pending
            && (w'.reverses[id].answered <==> w.reverses[id].answered || w.reverses[id].removals == 0)
            && w'.endpoint.queue == w.endpoint.queue
  {
    hide ForwardFine;
    NoEntries();
    RunKeeps(Initial, steps);
  }
  // ---------------------------------------------------------------- an endpoint that is closed

  lemma ClosedStep(w: World, step: Step)
    requires Enabled(w, step) && !w.endpoint.live
    ensures !Apply(w, step).endpoint.live && Apply(w, step).endpoint.queue == w.endpoint.queue
  {
    hide Admit, CancelTarget;
  }

  lemma {:induction false} ClosedRuns(w: World, steps: seq<Step>)
    requires Legal(w, steps) && !w.endpoint.live
    ensures !Execute(w, steps).endpoint.live && Execute(w, steps).endpoint.queue == w.endpoint.queue
    decreases |steps|
  {
    hide Apply, Enabled;
    if steps != [] {
      ClosedStep(w, steps[0]);
      ClosedRuns(Apply(w, steps[0]), steps[1..]);
    }
  }

  /** After an endpoint was closed nothing is ever published on it again. */
  lemma ClosedIsSilent(w: World, later: seq<Step>)
    requires Legal(Apply(w, Close), later)
    ensures var end := Execute(Apply(w, Close), later);
            !end.endpoint.live && end.endpoint.queue == w.endpoint.queue
  {
    hide Legal, Execute;
    ClosedRuns(Apply(w, Close), later);
  }
}
