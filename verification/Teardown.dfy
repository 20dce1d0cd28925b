/**
  Client callbacks and session teardown (src/server/events.rs, src/server/mod.rs,
  src/server/lifecycle.rs, src/server/resources.rs).

  A backend request becomes a pending interaction and a task that waits for the client, a cancellation or
  the backend's own resolution. Close cancels the interactions, stops the subscriptions and gives up the
  MCP leases in that order; `closing` and the gate keep everybody else from adding more.
 */
module Teardown {
  import opened Prelude

  type SessionId = string
  type RequestId = nat
  type Subscription = string

  const MAX_PENDING: nat := 128
  const MAX_SUBSCRIPTIONS: nat := 1024

  datatype Signal = Cancelled | Dismissed

  /** How far the handler of one backend request is. */
  datatype Task = Waiting(signal: Option<Signal>) | Decided(respond: bool) | Ended

  datatype Stage =
    | Marked                             // `closing` is set
    | Silenced                           // interactions cancelled
    | Stopping(todo: set<Subscription>)  // subscriptions being stopped
    | Stopped
    | Released                           // leases taken and closed
    | Shut                               // `open` is false

  datatype Gate = Free | Closing(stage: Stage) | Streaming(subscription: Subscription)
                | Resuming(added: bool, installed: bool)

  /** How a resume ends; a fence can fail before the backend's reply and after it. */
  datatype Outcome = Finished | FenceFailed | Refused | ReplayFailed

  /** `creating`: new_session has registered the session and not installed its leases yet. */
  datatype Session = Session(open: bool, closing: bool, gate: Gate, leases: bool, creating: bool)

  datatype World = World(
    registered: set<SessionId>,
    objects: map<SessionId, Session>,
    pending: map<RequestId, Option<SessionId>>,
    tasks: map<RequestId, Task>,
    answers: seq<RequestId>,   // every response sent to the backend, by request
    subscriptions: map<Subscription, SessionId>,
    quiet: set<SessionId>,     // sessions between a close's cancellation and a resume
    drained: set<SessionId>)   // sessions whose close has stopped every subscription

  // ---------------------------------------------------------------- regions under the state lock

  type Interactions = map<RequestId, Option<SessionId>>

  function Without(pending: Interactions, id: SessionId): Interactions {
    map r | r in pending && pending[r] != Some(id) :: pending[r]
  }

  /** The entry of an interaction, within the bound. */
  function Entered(pending: Interactions, request: RequestId, owner: Option<SessionId>): Option<Interactions> {
    if |pending| < MAX_PENDING then Some(pending[request := owner]) else None
  }

  /** The claim of a subscription id, which must be free. */
  function Claimed(claims: map<Subscription, SessionId>, subscription: Subscription, root: SessionId): Option<map<Subscription, SessionId>> {
    if subscription !in claims && |claims| < MAX_SUBSCRIPTIONS then Some(claims[subscription := root]) else None
  }

  function StreamsOf(claims: map<Subscription, SessionId>, root: SessionId): set<Subscription> {
    set x | x in claims && claims[x] == root
  }

  class Callbacks {
    var pending: Interactions
    var subscriptions: map<Subscription, SessionId>

    /** The end of server_request: the bound is checked and the entry inserted under one lock. */
    method Insert(request: RequestId, owner: Option<SessionId>) returns (accepted: bool)
      modifies this`pending
      ensures accepted == Entered(old(pending), request, owner).Some?
      ensures pending == if accepted then Entered(old(pending), request, owner).value else old(pending)
    {
      accepted := |pending| < MAX_PENDING;
      if accepted {
        pending := pending[request := owner];
      }
    }

    method CancelInteractions(id: SessionId) returns (cancelled: set<RequestId>)
      modifies this`pending
      ensures cancelled == (set r | r in old(pending) && old(pending)[r] == Some(id))
      ensures pending == Without(old(pending), id)
    {
      cancelled := set r | r in pending && pending[r] == Some(id);
      var keys := cancelled;
      ghost var before := pending;
      while keys != {}
        invariant keys <= cancelled
        invariant pending == map r | r in before && (r !in cancelled || r in keys) :: before[r]
        decreases |keys|
      {
        var key :| key in keys;
        pending := pending - {key};
        keys := keys - {key};
      }
      assert pending.Keys == Without(before, id).Keys;
    }

    method ClaimSubscription(subscription: Subscription, root: SessionId) returns (claimed: bool)
      modifies this`subscriptions
      ensures claimed == Claimed(old(subscriptions), subscription, root).Some?
      ensures subscriptions == if claimed then Claimed(old(subscriptions), subscription, root).value else old(subscriptions)
    {
      claimed := subscription !in subscriptions && |subscriptions| < MAX_SUBSCRIPTIONS;
      if claimed {
        subscriptions := subscriptions[subscription := root];
      }
    }
  }

  // ---------------------------------------------------------------- steps

  datatype RequestAction =
    | Arrive(target: Option<SessionId>, host: bool, translated: bool)
    | Resolve                 // serverRequest/resolved
    | Decide(bySignal: bool)  // the handler's select: the client, a timeout, or the signal
    | Finish                  // the entry is removed and the answer, if any, is sent

  datatype SessionAction =
    | Register
    | InstallLeases
    | BeginResume
    | Detach                  // a resumed session that was registered is unsubscribed first
    | InstallResume           // the reply to "thread/resume"
    | EndResume(outcome: Outcome)
    | StartStream(s: Subscription)
    | EndStream(rejected: bool)
    | StopStream(s: Subscription)

  datatype CloseAction =
    | BeginClose
    | CancelAll
    | CollectStreams
    | StopOne(s: Subscription)
    | StreamsDone
    | TakeLeases
    | MarkShut
    | Remove
    | Fail

  datatype Step =
    | OnRequest(request: RequestId, action: RequestAction)
    | OnSession(id: SessionId, change: SessionAction)
    | OnClose(id: SessionId, stage: CloseAction)
    | Cancel(id: SessionId)

  predicate RequestEnabled(w: World, request: RequestId, action: RequestAction) {
    match action
    case Arrive(_, _, _) => request !in w.tasks
    case Resolve => true
    case Decide(bySignal) => request in w.tasks && w.tasks[request].Waiting? && (bySignal ==> w.tasks[request].signal.Some?)
    case Finish => request in w.tasks && w.tasks[request].Decided?
  }

  predicate SessionEnabled(w: World, id: SessionId, action: SessionAction) {
    match action
    case Register => id !in w.registered
    case BeginResume => id in w.registered ==> id in w.objects && w.objects[id].gate.Free?
    case InstallLeases => id in w.objects && w.objects[id].creating
    case Detach => id in w.objects && w.objects[id].gate == Resuming(false, false)
    case InstallResume => id in w.objects && w.objects[id].gate.Resuming? && !w.objects[id].gate.installed
    case EndResume(outcome) =>
      && id in w.objects && w.objects[id].gate.Resuming?
      && (outcome.Refused? ==> !w.objects[id].gate.installed)
      && (outcome.Finished? || outcome.ReplayFailed? ==> w.objects[id].gate.installed)
    case StartStream(_) => id in w.objects && w.objects[id].gate.Free? && w.objects[id].open && !w.objects[id].closing
    case EndStream(_) => id in w.objects && w.objects[id].gate.Streaming?
    case StopStream(x) =>
      id in w.objects && (w.objects[id].gate.Free? || w.objects[id].gate.Resuming?) && Get(w.subscriptions, x) == Some(id)
  }

  predicate CloseEnabled(w: World, id: SessionId, action: CloseAction) {
    && id in w.objects
    && var gate := w.objects[id].gate;
       match action
       case BeginClose => id in w.registered && gate.Free?
       case CancelAll => gate == Closing(Marked)
       case CollectStreams => gate == Closing(Silenced)
       case StopOne(s) => gate.Closing? && gate.stage.Stopping? && s in gate.stage.todo
       case StreamsDone => gate == Closing(Stopping({}))
       case TakeLeases => gate == Closing(Stopped)
       case MarkShut => gate == Closing(Released)
       case Remove => gate == Closing(Shut)
       case Fail => gate.Closing?
  }

  predicate Enabled(w: World, step: Step) {
    match step
    case OnRequest(request, action) => RequestEnabled(w, request, action)
    case OnSession(id, change) => SessionEnabled(w, id, change)
    case OnClose(id, stage) => CloseEnabled(w, id, stage)
    case Cancel(_) => true
  }

  predicate Owned(w: World, id: SessionId) {
    id in w.registered && id in w.objects && w.objects[id].open && !w.objects[id].closing
  }

  function Put(w: World, id: SessionId, s: Session): World { w.(objects := w.objects[id := s]) }

  /** Signal the waiting tasks of the given requests; a task that has decided no longer looks. */
  function SignalAll(tasks: map<RequestId, Task>, requests: set<RequestId>, signal: Signal): (r: map<RequestId, Task>)
    ensures r.Keys == tasks.Keys
  {
    map r | r in tasks ::
      if r in requests && tasks[r].Waiting? && tasks[r].signal.None? then Waiting(Some(signal)) else tasks[r]
  }

  function CancelAllOf(w: World, id: SessionId): World {
    w.(pending := Without(w.pending, id),
       tasks := SignalAll(w.tasks, (set r | r in w.pending && w.pending[r] == Some(id)), Cancelled))
  }

  function ActOnRequest(w: World, request: RequestId, action: RequestAction): World
    requires RequestEnabled(w, request, action)
  {
    match action
    case Arrive(target, host, translated) =>
      var entered := Entered(w.pending, request, target);
      if (if target.Some? then Owned(w, target.value) else host) && entered.Some? && translated then
        w.(pending := entered.value, tasks := w.tasks[request := Waiting(None)])
      else w.(tasks := w.tasks[request := Ended], answers := w.answers + [request])
    case Resolve =>
      if request in w.pending then
        w.(pending := w.pending - {request}, tasks := SignalAll(w.tasks, {request}, Dismissed))
      else w
    case Decide(bySignal) =>
      w.(tasks := w.tasks[request := Decided(!(bySignal && w.tasks[request].signal == Some(Dismissed)))])
    case Finish =>
      w.(pending := w.pending - {request}, tasks := w.tasks[request := Ended],
         answers := if w.tasks[request].respond then w.answers + [request] else w.answers)
  }

  /** A session that is registered anew has no history of closes. */
  function Enlist(w: World, id: SessionId, s: Session): World {
    w.(objects := w.objects[id := s], registered := w.registered + {id}, quiet := w.quiet - {id},
       drained := w.drained - {id})
  }

  function ActOnSession(w: World, id: SessionId, action: SessionAction): World
    requires SessionEnabled(w, id, action)
  {
    match action
    case Register => Enlist(w, id, Session(true, false, Free, false, true))
    case BeginResume =>
      if id in w.registered then Put(w, id, w.objects[id].(gate := Resuming(false, false)))
      else Enlist(w, id, Session(true, false, Resuming(true, false), false, false))
    case Detach => Put(w, id, w.objects[id].(open := false))
    case InstallResume =>
      var s := w.objects[id];
      Enlist(w, id, s.(open := true, closing := false, gate := s.gate.(installed := true), leases := true))
    case InstallLeases =>
      Put(w, id, w.objects[id].(leases := true, creating := false))
    case EndResume(outcome) =>
      var s := w.objects[id];
      var lost := s.gate.added && (outcome.Refused? || outcome.ReplayFailed?);
      Put(w, id, s.(gate := Free, leases := s.leases && !outcome.Refused?))
        .(registered := if lost then w.registered - {id} else w.registered)
    case StartStream(x) =>
      var claimed := Claimed(w.subscriptions, x, id);
      if claimed.Some? then Put(w, id, w.objects[id].(gate := Streaming(x))).(subscriptions := claimed.value) else w
    case EndStream(rejected) =>
      var x := w.objects[id].gate.subscription;
      Put(w, id, w.objects[id].(gate := Free))
        .(subscriptions := if rejected then w.subscriptions - {x} else w.subscriptions)
    case StopStream(x) => w.(subscriptions := w.subscriptions - {x})
  }

  function ActOnClose(w: World, id: SessionId, action: CloseAction): World
    requires CloseEnabled(w, id, action)
  {
    var s := w.objects[id];
    match action
    case BeginClose => Put(w, id, s.(closing := true, gate := Closing(Marked)))
    case CancelAll => Put(CancelAllOf(w, id), id, s.(gate := Closing(Silenced))).(quiet := w.quiet + {id})
    case CollectStreams =>
      Put(w, id, s.(gate := Closing(Stopping(StreamsOf(w.subscriptions, id)))))
    case StopOne(x) =>
      Put(w, id, s.(gate := Closing(Stopping(s.gate.stage.todo - {x})))).(subscriptions := w.subscriptions - {x})
    case StreamsDone => Put(w, id, s.(gate := Closing(Stopped))).(drained := w.drained + {id})
    case TakeLeases => Put(w, id, s.(gate := Closing(Released), leases := false))
    case MarkShut => Put(w, id, s.(gate := Closing(Shut), open := false))
    case Remove => Put(w, id, s.(gate := Free)).(registered := w.registered - {id})
    case Fail => Put(w, id, s.(gate := Free))
  }

  function Apply(w: World, step: Step): World
    requires Enabled(w, step)
  {
    match step
    case OnRequest(request, action) => ActOnRequest(w, request, action)
    case OnSession(id, change) => ActOnSession(w, id, change)
    case OnClose(id, stage) => ActOnClose(w, id, stage)
    case Cancel(id) => CancelAllOf(w, id)
  }

  ghost predicate Legal(w: World, steps: seq<Step>)
    decreases |steps|
  {
    steps == [] || (Enabled(w, steps[0]) && Legal(Apply(w, steps[0]), steps[1..]))
  }

  ghost function Execute(w: World, steps: seq<Step>): World
    requires Legal(w, steps)
    decreases |steps|
  {
    if steps == [] then w else Execute(Apply(w, steps[0]), steps[1..])
  }

  const Initial: World := World({}, map[], map[], map[], [], map[], {}, {})

  // ---------------------------------------------------------------- callbacks

  ghost predicate TaskFine(task: Task, isPending: bool) {
    match task
    case Waiting(signal) => signal.None? <==> isPending
    case Decided(_) => true
    case Ended => !isPending
  }

  ghost predicate TasksFine(pending: Interactions, tasks: map<RequestId, Task>) {
    && |pending| <= MAX_PENDING
    && pending.Keys <= tasks.Keys
    && forall r <- tasks :: TaskFine(tasks[r], r in pending)
  }

  ghost predicate CallbacksFine(w: World) { TasksFine(w.pending, w.tasks) }

  lemma Smaller<K, V>(a: map<K, V>, b: map<K, V>)
    requires a.Keys <= b.Keys
    ensures |a| <= |b|
  {
    assert |a| == |a.Keys| && |b| == |b.Keys|;
    assert b.Keys == a.Keys + (b.Keys - a.Keys);
  }

  lemma ArriveKeeps(w: World, request: RequestId, action: RequestAction)
    requires action.Arrive? && CallbacksFine(w) && RequestEnabled(w, request, action)
    ensures CallbacksFine(ActOnRequest(w, request, action))
  {
    hide Owned, SignalAll;
    assert request !in w.pending;
    var w' := ActOnRequest(w, request, action);
    assert forall r <- w'.tasks :: r != request ==> TaskFine(w.tasks[r], r in w.pending);
  }

  lemma ResolveKeeps(w: World, request: RequestId)
    requires CallbacksFine(w)
    ensures CallbacksFine(ActOnRequest(w, request, Resolve))
  {
    Smaller(w.pending - {request}, w.pending);
  }

  /** A task that advances leaves every other task alone. */
  lemma AdvanceKeeps(pending: Interactions, tasks: map<RequestId, Task>, request: RequestId, task: Task, entries: Interactions)
    requires TasksFine(pending, tasks) && request in tasks
    requires entries == pending || entries == pending - {request}
    requires TaskFine(task, request in entries)
    ensures TasksFine(entries, tasks[request := task])
  {
    Smaller(entries, pending);
    forall r <- tasks[request := task] ensures TaskFine(tasks[request := task][r], r in entries) {
      assert r != request ==> TaskFine(tasks[r], r in pending);
    }
  }

  lemma AdvanceTaskKeeps(w: World, request: RequestId, action: RequestAction)
    requires (action.Decide? || action.Finish?) && CallbacksFine(w) && RequestEnabled(w, request, action)
    ensures CallbacksFine(ActOnRequest(w, request, action))
  {
    hide SignalAll, Owned;
    assert TaskFine(w.tasks[request], request in w.pending);
    var w' := ActOnRequest(w, request, action);
    AdvanceKeeps(w.pending, w.tasks, request, w'.tasks[request], w'.pending);
  }

  lemma RequestKeeps(w: World, request: RequestId, action: RequestAction)
    requires CallbacksFine(w) && RequestEnabled(w, request, action)
    ensures CallbacksFine(ActOnRequest(w, request, action))
  {
    hide ActOnRequest, CallbacksFine;
    match action
    case Arrive(_, _, _) => ArriveKeeps(w, request, action);
    case Resolve => ResolveKeeps(w, request);
    case Decide(_) => AdvanceTaskKeeps(w, request, action);
    case Finish => AdvanceTaskKeeps(w, request, action);
  }

  lemma CancelKeeps(w: World, id: SessionId)
    requires CallbacksFine(w)
    ensures CallbacksFine(CancelAllOf(w, id))
  {
    Smaller(Without(w.pending, id), w.pending);
  }

  lemma SessionLeavesCallbacks(w: World, id: SessionId, action: SessionAction)
    requires SessionEnabled(w, id, action)
    ensures ActOnSession(w, id, action).pending == w.pending && ActOnSession(w, id, action).tasks == w.tasks
  {
    hide Claimed;
  }

  lemma CloseLeavesCallbacks(w: World, id: SessionId, action: CloseAction)
    requires CloseEnabled(w, id, action)
    ensures var w' := ActOnClose(w, id, action);
            if action.CancelAll? then w'.pending == CancelAllOf(w, id).pending && w'.tasks == CancelAllOf(w, id).tasks
            else w'.pending == w.pending && w'.tasks == w.tasks
  {
    hide SignalAll, Without;
  }

  lemma CallbacksKeep(w: World, step: Step)
    requires CallbacksFine(w) && Enabled(w, step)
    ensures CallbacksFine(Apply(w, step))
  {
    hide ActOnSession, ActOnRequest, ActOnClose, CancelAllOf;
    match step
    case OnRequest(request, action) => RequestKeeps(w, request, action);
    case OnSession(id, change) => SessionLeavesCallbacks(w, id, change);
    case OnClose(id, stage) =>
      CancelKeeps(w, id);
      CloseLeavesCallbacks(w, id, stage);
    case Cancel(id) => CancelKeeps(w, id);
  }

  // ---------------------------------------------------------------- sessions

  /** What a close has achieved so far, while it holds the gate. */
  ghost predicate CloseFine(w: World, id: SessionId)
    requires id in w.objects
  {
    var s := w.objects[id];
    s.gate.Closing? ==>
      var stage := s.gate.stage;
      && s.closing
      && (!stage.Marked? ==> id in w.quiet)
      && (stage.Stopping? ==> forall x <- w.subscriptions :: w.subscriptions[x] == id ==> x in stage.todo)
      && (stage.Stopped? || stage.Released? || stage.Shut? ==> id in w.drained)
      && (stage.Shut? ==> !s.open)
  }

  ghost predicate SessionsFine(w: World) {
    && w.registered <= w.objects.Keys
    && (forall id <- w.objects :: CloseFine(w, id))
    && (forall id <- w.quiet :: id in w.objects && w.objects[id].closing
          && forall r <- w.pending :: w.pending[r] != Some(id))
    && (forall id <- w.drained :: id in w.objects && w.objects[id].closing
          && forall x <- w.subscriptions :: w.subscriptions[x] != id)
  }

  lemma CancelStageKeeps(w: World, id: SessionId)
    requires SessionsFine(w) && CloseEnabled(w, id, CancelAll)
    ensures SessionsFine(ActOnClose(w, id, CancelAll))
  {
    hide SignalAll;
    var w' := ActOnClose(w, id, CancelAll);
    assert CloseFine(w, id);
    forall i <- w'.objects ensures CloseFine(w', i) {
      assert CloseFine(w, i);
    }
  }

  /** A close changes its own session, and may only take away from what the others rely on. */
  lemma OthersKeep(w: World, id: SessionId, w': World)
    requires SessionsFine(w) && id in w.objects && id in w'.objects
    requires w'.objects == w.objects[id := w'.objects[id]] && w'.registered <= w.registered
    requires w'.pending == w.pending && w'.quiet == w.quiet && w'.objects[id].closing
    requires forall x <- w'.subscriptions :: x in w.subscriptions && w'.subscriptions[x] == w.subscriptions[x]
    requires w.drained <= w'.drained <= w.drained + {id}
    requires id in w'.drained && id !in w.drained ==> forall x <- w.subscriptions :: w.subscriptions[x] != id
    requires CloseFine(w', id)
    ensures SessionsFine(w')
  {
    forall i <- w'.objects ensures CloseFine(w', i) {
      assert CloseFine(w, i);
    }
  }

  lemma CloseKeeps(w: World, id: SessionId, action: CloseAction)
    requires SessionsFine(w) && CloseEnabled(w, id, action)
    ensures SessionsFine(ActOnClose(w, id, action))
  {
    hide SignalAll, CancelAllOf;
    if action.CancelAll? {
      CancelStageKeeps(w, id);
    } else {
      assert CloseFine(w, id);
      OthersKeep(w, id, ActOnClose(w, id, action));
    }
  }

  lemma EnlistKeeps(w: World, id: SessionId, s: Session)
    requires SessionsFine(w) && !s.gate.Closing?
    ensures SessionsFine(Enlist(w, id, s))
  {
    var w' := Enlist(w, id, s);
    forall i <- w'.objects ensures CloseFine(w', i) {
      assert i != id ==> CloseFine(w, i);
    }
  }

  /** Outside the gate of a close a session may change as long as a close that was begun stays begun. */
  lemma PutKeeps(w: World, id: SessionId, s: Session, w': World)
    requires SessionsFine(w) && id in w.objects
    requires w'.objects == w.objects[id := s] && w'.registered <= w.registered
    requires w'.pending == w.pending && w'.quiet == w.quiet && w'.drained == w.drained
    requires w.objects[id].closing ==> s.closing
    requires !s.gate.Closing? || s == w.objects[id].(leases := s.leases, creating := s.creating)
    requires forall x <- w'.subscriptions ::
               (x in w.subscriptions && w'.subscriptions[x] == w.subscriptions[x]) || (w'.subscriptions[x] == id && !s.closing)
    ensures SessionsFine(w')
  {
    forall i <- w'.objects ensures CloseFine(w', i) {
      assert CloseFine(w, i);
    }
  }

  lemma ChangeKeeps(w: World, id: SessionId, action: SessionAction)
    requires SessionsFine(w) && SessionEnabled(w, id, action)
    ensures SessionsFine(ActOnSession(w, id, action))
  {
    hide SessionsFine, CloseFine;
    SessionLeavesCallbacks(w, id, action);
    var w' := ActOnSession(w, id, action);
    match action
    case Register => EnlistKeeps(w, id, Session(true, false, Free, false, true));
    case BeginResume =>
      if id in w.registered {
        PutKeeps(w, id, w'.objects[id], w');
      } else {
        EnlistKeeps(w, id, Session(true, false, Resuming(true, false), false, false));
      }
    case InstallLeases =>
      InstallKeeps(w, id);
    case Detach => PutKeeps(w, id, w'.objects[id], w');
    case InstallResume => EnlistKeeps(w, id, w'.objects[id]);
    case EndResume(_) => PutKeeps(w, id, w'.objects[id], w');
    case StartStream(_) =>
      if w' != w {
        PutKeeps(w, id, w'.objects[id], w');
      }
    case EndStream(_) => PutKeeps(w, id, w'.objects[id], w');
    case StopStream(_) =>
      assert w'.objects == w.objects[id := w.objects[id]];
      PutKeeps(w, id, w.objects[id], w');
  }

  lemma InstallKeeps(w: World, id: SessionId)
    requires SessionsFine(w) && SessionEnabled(w, id, InstallLeases)
    ensures SessionsFine(ActOnSession(w, id, InstallLeases))
  {
    var w' := ActOnSession(w, id, InstallLeases);
    assert CloseFine(w, id);
    PutKeeps(w, id, w'.objects[id], w');
  }

  /** Interactions may go, and may come for a session that is open, registered and not closing. */
  lemma InteractionsKeep(w: World, pending: Interactions, tasks: map<RequestId, Task>, answers: seq<RequestId>)
    requires SessionsFine(w)
    requires forall r <- pending :: (r in w.pending && pending[r] == w.pending[r])
                                    || (pending[r].Some? ==> Owned(w, pending[r].value))
    ensures SessionsFine(w.(pending := pending, tasks := tasks, answers := answers))
  {
    var w' := w.(pending := pending, tasks := tasks, answers := answers);
    forall i <- w'.objects ensures CloseFine(w', i) {
      assert CloseFine(w, i);
    }
  }

  lemma RequestLeavesSessions(w: World, request: RequestId, action: RequestAction)
    requires SessionsFine(w) && RequestEnabled(w, request, action)
    ensures SessionsFine(ActOnRequest(w, request, action))
  {
    hide SessionsFine, SignalAll, Owned;
    var w' := ActOnRequest(w, request, action);
    InteractionsKeep(w, w'.pending, w'.tasks, w'.answers);
    assert w' == w.(pending := w'.pending, tasks := w'.tasks, answers := w'.answers);
  }

  lemma CancelLeavesSessions(w: World, id: SessionId)
    requires SessionsFine(w)
    ensures SessionsFine(CancelAllOf(w, id))
  {
    hide SessionsFine, SignalAll, Owned;
    InteractionsKeep(w, CancelAllOf(w, id).pending, CancelAllOf(w, id).tasks, w.answers);
  }

  lemma SessionsKeep(w: World, step: Step)
    requires SessionsFine(w) && Enabled(w, step)
    ensures SessionsFine(Apply(w, step))
  {
    hide SessionsFine;
    match step
    case OnRequest(request, action) => RequestLeavesSessions(w, request, action);
    case OnSession(id, change) => ChangeKeeps(w, id, change);
    case OnClose(id, stage) => CloseKeeps(w, id, stage);
    case Cancel(id) => CancelLeavesSessions(w, id);
  }

  lemma SubscriptionsBounded(w: World, step: Step)
    requires |w.subscriptions| <= MAX_SUBSCRIPTIONS && Enabled(w, step)
    ensures |Apply(w, step).subscriptions| <= MAX_SUBSCRIPTIONS
  {
    hide SignalAll, Without, Owned;
    match step
    case OnRequest(_, _) =>
    case OnSession(id, change) =>
      if change.EndStream? || change.StopStream? {
        Smaller(ActOnSession(w, id, change).subscriptions, w.subscriptions);
      } else if change.StartStream? {
        OneMore(w.subscriptions, change.s, id);
      }
    case OnClose(id, stage) =>
      if stage.StopOne? {
        Smaller(ActOnClose(w, id, stage).subscriptions, w.subscriptions);
      }
    case Cancel(_) =>
  }

  lemma OneMore<K, V>(m: map<K, V>, key: K, value: V)
    ensures |m[key := value]| <= |m| + 1
  {
    assert m[key := value].Keys == m.Keys + {key};
    assert |m.Keys + {key}| <= |m.Keys| + 1;
    assert |m[key := value]| == |m[key := value].Keys| && |m| == |m.Keys|;
  }

  lemma {:induction false} RunKeeps(w: World, steps: seq<Step>)
    requires CallbacksFine(w) && SessionsFine(w) && |w.subscriptions| <= MAX_SUBSCRIPTIONS && Legal(w, steps)
    ensures var w' := Execute(w, steps); CallbacksFine(w') && SessionsFine(w') && |w'.subscriptions| <= MAX_SUBSCRIPTIONS
    decreases |steps|
  {
    hide CallbacksFine, SessionsFine, Apply, Enabled;
    if steps != [] {
      SubscriptionsBounded(w, steps[0]);
      CallbacksKeep(w, steps[0]);
      SessionsKeep(w, steps[0]);
      RunKeeps(Apply(w, steps[0]), steps[1..]);
    }
  }

  // ---------------------------------------------------------------- how often a request is answered

  function Count(answers: seq<RequestId>, request: RequestId): nat { multiset(answers)[request] }

  /** The run resolves the request while it is pending, and its handler later takes the signal and not the client's answer. */
  ghost predicate DismissedIn(w: World, steps: seq<Step>, request: RequestId)
    requires Legal(w, steps)
    decreases |steps|
  {
    steps != [] &&
    (|| (steps[0] == OnRequest(request, Resolve) && request in w.pending && OnRequest(request, Decide(true)) in steps[1..])
     || DismissedIn(Apply(w, steps[0]), steps[1..], request))
  }

  predicate Concerns(step: Step, request: RequestId) { step.OnRequest? && step.request == request }

  /** What a step of somebody else does to a request: a cancellation of its session signals a waiting handler. */
  lemma OthersMove(w: World, step: Step, request: RequestId)
    requires CallbacksFine(w) && Enabled(w, step) && !Concerns(step, request)
    ensures var w' := Apply(w, step);
            var a, b := Get(w.tasks, request), Get(w'.tasks, request);
            && (b == a || (a == Some(Waiting(None)) && b == Some(Waiting(Some(Cancelled)))))
            && (request in w'.pending ==> request in w.pending)
            && Count(w'.answers, request) == Count(w.answers, request)
  {
    hide ActOnSession, ActOnRequest, ActOnClose, CancelAllOf, CloseEnabled, SessionEnabled, RequestEnabled;
    match step
    case OnRequest(other, action) => OtherRequestMoves(w, other, action, request);
    case OnSession(id, change) =>
      SessionLeavesCallbacks(w, id, change);
      SessionLeavesAnswers(w, id, change);
    case OnClose(id, stage) =>
      CancelMoves(w, id, request);
      CloseLeavesCallbacks(w, id, stage);
      CloseLeavesAnswers(w, id, stage);
    case Cancel(id) => CancelMoves(w, id, request);
  }

  lemma CancelMoves(w: World, id: SessionId, request: RequestId)
    requires CallbacksFine(w)
    ensures var w' := CancelAllOf(w, id);
            var a, b := Get(w.tasks, request), Get(w'.tasks, request);
            && (b == a || (a == Some(Waiting(None)) && b == Some(Waiting(Some(Cancelled)))))
            && (request in w'.pending ==> request in w.pending) && w'.answers == w.answers
  {
  }

  lemma OtherRequestMoves(w: World, other: RequestId, action: RequestAction, request: RequestId)
    requires RequestEnabled(w, other, action) && other != request
    ensures var w' := ActOnRequest(w, other, action);
            && Get(w'.tasks, request) == Get(w.tasks, request)
            && (request in w'.pending <==> request in w.pending)
            && Count(w'.answers, request) == Count(w.answers, request)
  {
    hide Owned;
  }

  lemma CloseLeavesAnswers(w: World, id: SessionId, action: CloseAction)
    requires CloseEnabled(w, id, action)
    ensures ActOnClose(w, id, action).answers == w.answers
  {
    hide SignalAll, Without;
  }

  lemma SessionLeavesAnswers(w: World, id: SessionId, action: SessionAction)
    requires SessionEnabled(w, id, action)
    ensures ActOnSession(w, id, action).answers == w.answers
  {
  }

  /** And what its own steps do. */
  lemma OwnMoves(w: World, request: RequestId, action: RequestAction)
    requires CallbacksFine(w) && RequestEnabled(w, request, action)
    ensures var w' := ActOnRequest(w, request, action);
            var a, b, more := Get(w.tasks, request), Get(w'.tasks, request), Count(w'.answers, request) - Count(w.answers, request);
            match action
            case Arrive(_, _, _) => a == None && ((b == Some(Waiting(None)) && more == 0) || (b == Some(Ended) && more == 1))
            case Resolve =>
              && b == (if request in w.pending && a == Some(Waiting(None)) then Some(Waiting(Some(Dismissed))) else a)
              && request !in w'.pending && more == 0
            case Decide(bySignal) =>
              && a.Some? && a.value.Waiting? && more == 0
              && b == Some(Decided(!(bySignal && a.value.signal == Some(Dismissed))))
            case Finish => a.Some? && a.value.Decided? && b == Some(Ended) && more == if a.value.respond then 1 else 0
  {
    hide Owned;
    assert forall r <- w.pending :: TaskFine(w.tasks[r], true);
  }

  lemma {:induction false} DismissedTakesSignal(w: World, steps: seq<Step>, request: RequestId)
    requires Legal(w, steps) && DismissedIn(w, steps, request)
    ensures OnRequest(request, Decide(true)) in steps
    decreases |steps|
  {
    hide Apply, Enabled;
    if !(steps[0] == OnRequest(request, Resolve) && request in w.pending && OnRequest(request, Decide(true)) in steps[1..]) {
      DismissedTakesSignal(Apply(w, steps[0]), steps[1..], request);
    }
  }

  predicate Over(task: Task) { task.Decided? || task.Ended? }

  /** A handler that has decided looks at no signal any more. */
  lemma {:induction false} OverTakesNoSignal(w: World, steps: seq<Step>, request: RequestId)
    requires CallbacksFine(w) && Legal(w, steps) && request in w.tasks && Over(w.tasks[request])
    ensures OnRequest(request, Decide(true)) !in steps && !DismissedIn(w, steps, request)
    decreases |steps|
  {
    hide Apply, CallbacksFine;
    if steps != [] {
      CallbacksKeep(w, steps[0]);
      if steps[0].OnRequest? && steps[0].request == request {
        OwnMoves(w, request, steps[0].action);
        ApplyOwn(w, request, steps[0].action);
      } else {
        OthersMove(w, steps[0], request);
      }
      OverTakesNoSignal(Apply(w, steps[0]), steps[1..], request);
    }
  }

  lemma ApplyOwn(w: World, request: RequestId, action: RequestAction)
    requires Enabled(w, OnRequest(request, action))
    ensures RequestEnabled(w, request, action) && Apply(w, OnRequest(request, action)) == ActOnRequest(w, request, action)
  {
  }

  /** A request that is not pending, and not new, is not resolved while pending. */
  lemma {:induction false} GoneNotDismissed(w: World, steps: seq<Step>, request: RequestId)
    requires CallbacksFine(w) && Legal(w, steps) && request in w.tasks && request !in w.pending
    ensures !DismissedIn(w, steps, request)
    decreases |steps|
  {
    hide Apply, CallbacksFine;
    if steps != [] {
      CallbacksKeep(w, steps[0]);
      if steps[0].OnRequest? && steps[0].request == request {
        OwnMoves(w, request, steps[0].action);
        ApplyOwn(w, request, steps[0].action);
        DecideLeavesPending(w, request, steps[0].action);
      } else {
        OthersMove(w, steps[0], request);
      }
      GoneNotDismissed(Apply(w, steps[0]), steps[1..], request);
    }
  }

  lemma DecideLeavesPending(w: World, request: RequestId, action: RequestAction)
    requires RequestEnabled(w, request, action) && !action.Arrive?
    ensures request in ActOnRequest(w, request, action).pending ==> request in w.pending
  {
    hide SignalAll;
  }

  /** How many answers a request still gets if its handler ends in the run. */
  ghost function Remaining(w: World, steps: seq<Step>, request: RequestId): nat
    requires Legal(w, steps)
  {
    if request !in w.tasks || w.tasks[request] == Waiting(None) then (if DismissedIn(w, steps, request) then 0 else 1)
    else
      match w.tasks[request]
      case Waiting(signal) =>
        if signal == Some(Dismissed) && OnRequest(request, Decide(true)) in steps then 0 else 1
      case Decided(respond) => if respond then 1 else 0
      case Ended => 0
  }

  ghost predicate EndedIn(w: World, request: RequestId) { request in w.tasks && w.tasks[request].Ended? }

  lemma OwnRemaining(w: World, steps: seq<Step>, request: RequestId)
    requires CallbacksFine(w) && Legal(w, steps) && steps != [] && Concerns(steps[0], request)
    requires CallbacksFine(Apply(w, steps[0]))
    ensures Count(Apply(w, steps[0]).answers, request) + Remaining(Apply(w, steps[0]), steps[1..], request)
            == Count(w.answers, request) + Remaining(w, steps, request)
    ensures EndedIn(w, request) ==> EndedIn(Apply(w, steps[0]), request)
    ensures !EndedIn(Apply(w, steps[0]), request) ==> Count(Apply(w, steps[0]).answers, request) == Count(w.answers, request)
  {
    hide Apply, CallbacksFine, ActOnRequest;
    var next, rest := Apply(w, steps[0]), steps[1..];
    OwnMoves(w, request, steps[0].action);
    ApplyOwn(w, request, steps[0].action);
    if request in next.tasks && Over(next.tasks[request]) {
      OverTakesNoSignal(next, rest, request);
    }
    if request in next.tasks && request !in next.pending {
      GoneNotDismissed(next, rest, request);
    }
    if DismissedIn(next, rest, request) {
      DismissedTakesSignal(next, rest, request);
    }
    PendingKnown(w, request);
    assert steps[0] in steps && (forall s <- rest :: s in steps) && forall s <- steps :: s == steps[0] || s in rest;
  }

  lemma PendingKnown(w: World, request: RequestId)
    requires CallbacksFine(w)
    ensures request in w.pending ==> request in w.tasks
    ensures request in w.tasks && w.tasks[request].Waiting? ==> (w.tasks[request].signal.None? <==> request in w.pending)
  {
    assert request in w.tasks ==> TaskFine(w.tasks[request], request in w.pending);
  }

  lemma OthersRemaining(w: World, steps: seq<Step>, request: RequestId)
    requires CallbacksFine(w) && Legal(w, steps) && steps != [] && !Concerns(steps[0], request)
    requires CallbacksFine(Apply(w, steps[0]))
    ensures Remaining(Apply(w, steps[0]), steps[1..], request) == Remaining(w, steps, request)
    ensures Count(Apply(w, steps[0]).answers, request) == Count(w.answers, request)
    ensures EndedIn(w, request) == EndedIn(Apply(w, steps[0]), request)
  {
    hide Apply, CallbacksFine;
    var next, rest := Apply(w, steps[0]), steps[1..];
    OthersMove(w, steps[0], request);
    PendingKnown(next, request);
    if request in next.tasks && request !in next.pending {
      GoneNotDismissed(next, rest, request);
    }
    assert (forall s <- rest :: s in steps) && forall s <- steps :: s == steps[0] || s in rest;
  }

  lemma {:induction false} AnswersRun(w: World, steps: seq<Step>, request: RequestId)
    requires CallbacksFine(w) && Legal(w, steps)
    ensures var w' := Execute(w, steps);
            && Count(w'.answers, request)
               == Count(w.answers, request) + (if EndedIn(w', request) then Remaining(w, steps, request) else 0)
            && (EndedIn(w, request) ==> EndedIn(w', request))
    decreases |steps|
  {
    hide Apply, CallbacksFine, Enabled, Count, EndedIn;
    if steps == [] {
      NothingRemains(w, request);
    } else {
      CallbacksKeep(w, steps[0]);
      if Concerns(steps[0], request) {
        OwnRemaining(w, steps, request);
      } else {
        OthersRemaining(w, steps, request);
      }
      AnswersRun(Apply(w, steps[0]), steps[1..], request);
    }
  }

  lemma NothingRemains(w: World, request: RequestId)
    ensures EndedIn(w, request) ==> Remaining(w, [], request) == 0
  {
  }

  // ---------------------------------------------------------------- theorems about every run

  /**
    Every backend request whose handler has ended was answered exactly once, or not at all exactly if the run
    resolved it while it was pending and its handler took that signal before the client's answer. Before its
    end it is not answered. Interactions and subscriptions are bounded.
   */
  lemma AnsweredOnce(steps: seq<Step>, request: RequestId)
    requires Legal(Initial, steps)
    ensures var w := Execute(Initial, steps);
            && Count(w.answers, request) == (if EndedIn(w, request) && !DismissedIn(Initial, steps, request) then 1 else 0)
            && (EndedIn(w, request) ==> request !in w.pending)
            && |w.pending| <= MAX_PENDING && |w.subscriptions| <= MAX_SUBSCRIPTIONS
  {
    RunKeeps(Initial, steps);
    AnswersRun(Initial, steps, request);
  }

  /** From a close's cancellation until the next resume, no interaction of the session is pending. */
  lemma ClosingIsQuiet(steps: seq<Step>, id: SessionId)
    requires Legal(Initial, steps) && id in Execute(Initial, steps).quiet
    ensures forall r <- Execute(Initial, steps).pending :: Execute(Initial, steps).pending[r] != Some(id)
  {
    RunKeeps(Initial, steps);
  }

  /** The state a finished close leaves behind. */
  ghost predicate Gone(w: World, id: SessionId) {
    && id in w.objects && id !in w.registered && id in w.quiet && id in w.drained
    && !w.objects[id].open && w.objects[id].gate.Free?
  }

  lemma GoneChange(w: World, id: SessionId, other: SessionId, action: SessionAction)
    requires SessionsFine(w) && SessionEnabled(w, other, action) && Gone(w, id)
    requires other == id ==> !action.Register? && !action.BeginResume?
    ensures Gone(ActOnSession(w, other, action), id)
  {
    hide CloseFine;
    assert w.objects[id].closing;
  }

  lemma GoneClose(w: World, id: SessionId, other: SessionId, action: CloseAction)
    requires Gone(w, id) && CloseEnabled(w, other, action)
    ensures Gone(ActOnClose(w, other, action), id)
  {
    hide SignalAll, Without;
    assert other != id;
  }

  lemma GoneStays(w: World, step: Step, id: SessionId)
    requires SessionsFine(w) && Enabled(w, step) && Gone(w, id)
    requires step != OnSession(id, Register) && step != OnSession(id, BeginResume)
    ensures Gone(Apply(w, step), id)
  {
    hide SignalAll, Without, SessionsFine, ActOnSession, ActOnClose, CloseEnabled, SessionEnabled, Owned;
    match step
    case OnRequest(_, _) =>
    case OnSession(other, change) => GoneChange(w, id, other, change);
    case OnClose(other, stage) => GoneClose(w, id, other, stage);
    case Cancel(_) =>
  }

  lemma {:induction false} GoneRuns(w: World, steps: seq<Step>, id: SessionId)
    requires CallbacksFine(w) && SessionsFine(w) && Legal(w, steps) && Gone(w, id)
    requires OnSession(id, Register) !in steps && OnSession(id, BeginResume) !in steps
    ensures Gone(Execute(w, steps), id)
    decreases |steps|
  {
    hide CallbacksFine, SessionsFine, Apply, Enabled, Gone;
    if steps != [] {
      assert steps[0] in steps && forall s <- steps[1..] :: s in steps;
      CallbacksKeep(w, steps[0]);
      SessionsKeep(w, steps[0]);
      GoneStays(w, steps[0], id);
      GoneRuns(Apply(w, steps[0]), steps[1..], id);
    }
  }

  // ---------------------------------------------------------------- leases after a close has taken them

  /** A session whose leases a close has taken, or that has gone since. */
  ghost predicate Taken(w: World, id: SessionId) {
    id in w.objects && !w.objects[id].gate.Resuming?
  }

  lemma LeasesMove(w: World, step: Step, id: SessionId)
    requires Enabled(w, step) && Taken(w, id)
    requires step != OnSession(id, Register) && step != OnSession(id, BeginResume) && step != OnClose(id, TakeLeases)
    ensures Taken(Apply(w, step), id)
    ensures var s, s' := w.objects[id], Apply(w, step).objects[id];
            && (s'.leases <==> s.leases || step == OnSession(id, InstallLeases))
            && (s'.creating <==> s.creating && step != OnSession(id, InstallLeases))
            && (step == OnSession(id, InstallLeases) ==> s.creating)
  {
    hide SignalAll, Without, Owned, Claimed, Entered, ActOnSession, ActOnClose, SessionEnabled, CloseEnabled;
    match step
    case OnRequest(_, _) =>
    case OnSession(other, change) => ChangeMovesLeases(w, other, change, id);
    case OnClose(other, stage) => CloseMovesLeases(w, other, stage, id);
    case Cancel(_) =>
  }

  lemma ChangeMovesLeases(w: World, other: SessionId, action: SessionAction, id: SessionId)
    requires SessionEnabled(w, other, action) && Taken(w, id)
    requires other == id ==> !action.Register? && !action.BeginResume?
    ensures var w' := ActOnSession(w, other, action);
            && Taken(w', id)
            && (w'.objects[id].leases <==> w.objects[id].leases || (other == id && action.InstallLeases?))
            && (w'.objects[id].creating <==> w.objects[id].creating && !(other == id && action.InstallLeases?))
            && (other == id && action.InstallLeases? ==> w.objects[id].creating)
  {
    hide Claimed;
  }

  lemma CloseMovesLeases(w: World, other: SessionId, action: CloseAction, id: SessionId)
    requires CloseEnabled(w, other, action) && Taken(w, id) && !(other == id && action.TakeLeases?)
    ensures var w' := ActOnClose(w, other, action);
            Taken(w', id) && w'.objects[id].leases == w.objects[id].leases && w'.objects[id].creating == w.objects[id].creating
  {
    hide SignalAll, Without;
  }

  lemma {:induction false} LeasesRun(w: World, steps: seq<Step>, id: SessionId)
    requires Legal(w, steps) && Taken(w, id)
    requires OnSession(id, Register) !in steps && OnSession(id, BeginResume) !in steps && OnClose(id, TakeLeases) !in steps
    ensures var w' := Execute(w, steps);
            && Taken(w', id)
            && (w'.objects[id].leases <==> w.objects[id].leases || OnSession(id, InstallLeases) in steps)
            && (OnSession(id, InstallLeases) in steps ==> w.objects[id].creating)
    decreases |steps|
  {
    hide Apply, Enabled;
    if steps != [] {
      assert steps[0] in steps && (forall s <- steps[1..] :: s in steps) && forall s <- steps :: s == steps[0] || s in steps[1..];
      LeasesMove(w, steps[0], id);
      LeasesRun(Apply(w, steps[0]), steps[1..], id);
    }
  }

  /**
    After a close has taken the leases, whatever else happens short of registering, resuming or closing the
    session again, it has leases exactly if its creation installs them later, which no session can do whose
    creation was over.
   */
  lemma LeasesExactly(steps: seq<Step>, id: SessionId, after: seq<Step>)
    requires Legal(Initial, steps) && Enabled(Execute(Initial, steps), OnClose(id, TakeLeases))
    requires Legal(Apply(Execute(Initial, steps), OnClose(id, TakeLeases)), after)
    requires OnSession(id, Register) !in after && OnSession(id, BeginResume) !in after && OnClose(id, TakeLeases) !in after
    ensures var taken := Apply(Execute(Initial, steps), OnClose(id, TakeLeases));
            var w := Execute(taken, after);
            && id in taken.objects && id in w.objects
            && (w.objects[id].leases <==> OnSession(id, InstallLeases) in after)
            && (OnSession(id, InstallLeases) in after ==> taken.objects[id].creating)
  {
    LeasesRun(Apply(Execute(Initial, steps), OnClose(id, TakeLeases)), after, id);
  }

  // ---------------------------------------------------------------- the whole close

  lemma RemoveLeavesGone(w: World, id: SessionId)
    requires SessionsFine(w) && Enabled(w, OnClose(id, Remove))
    ensures Gone(Apply(w, OnClose(id, Remove)), id)
  {
    hide SignalAll, CancelAllOf;
    assert CloseFine(w, id);
  }

  /** The state that a removal leaves behind stays, up to the next registration or resume. */
  lemma {:induction false} RemovedIsGone(w: World, steps: seq<Step>, id: SessionId)
    requires CallbacksFine(w) && SessionsFine(w) && Legal(w, steps) && OnClose(id, Remove) in steps
    requires OnSession(id, Register) !in steps && OnSession(id, BeginResume) !in steps
    ensures Gone(Execute(w, steps), id)
    decreases |steps|
  {
    hide CallbacksFine, SessionsFine, Apply, Enabled, Gone;
    assert (forall s <- steps[1..] :: s in steps) && forall s <- steps :: s == steps[0] || s in steps[1..];
    CallbacksKeep(w, steps[0]);
    SessionsKeep(w, steps[0]);
    if steps[0] == OnClose(id, Remove) {
      RemoveLeavesGone(w, id);
      GoneRuns(Apply(w, steps[0]), steps[1..], id);
    } else {
      RemovedIsGone(Apply(w, steps[0]), steps[1..], id);
    }
  }

  /**
    Teardown. Once a close has taken the leases and then removed the session, whatever else happens short of
    registering or resuming it again, the session is absent and not open, no interaction is pending for it, it
    owns no subscription, and it has leases exactly if its creation installed them after they were taken.
   */
  lemma CloseLeavesNothing(steps: seq<Step>, id: SessionId, after: seq<Step>)
    requires Legal(Initial, steps) && Enabled(Execute(Initial, steps), OnClose(id, TakeLeases))
    requires Legal(Apply(Execute(Initial, steps), OnClose(id, TakeLeases)), after) && OnClose(id, Remove) in after
    requires OnSession(id, Register) !in after && OnSession(id, BeginResume) !in after && OnClose(id, TakeLeases) !in after
    ensures var w := Execute(Apply(Execute(Initial, steps), OnClose(id, TakeLeases)), after);
            && id !in w.registered && id in w.objects && !w.objects[id].open
            && (forall r <- w.pending :: w.pending[r] != Some(id))
            && (forall x <- w.subscriptions :: w.subscriptions[x] != id)
            && (w.objects[id].leases <==> OnSession(id, InstallLeases) in after)
  {
    hide CallbacksFine, Apply, Enabled;
    RunFine(steps);
    var taking := Execute(Initial, steps);
    CallbacksKeep(taking, OnClose(id, TakeLeases));
    SessionsKeep(taking, OnClose(id, TakeLeases));
    SubscriptionsBounded(taking, OnClose(id, TakeLeases));
    var taken := Apply(taking, OnClose(id, TakeLeases));
    RemovedIsGone(taken, after, id);
    RunKeeps(taken, after);
    LeasesExactly(steps, id, after);
  }

  lemma RunFine(steps: seq<Step>)
    requires Legal(Initial, steps)
    ensures var w := Execute(Initial, steps); CallbacksFine(w) && SessionsFine(w) && |w.subscriptions| <= MAX_SUBSCRIPTIONS
  {
    RunKeeps(Initial, steps);
  }

  /** The exception happens: new_session installs its leases without the gate, here after a whole close. */
  lemma LateLeasesHappen(id: SessionId) returns (steps: seq<Step>)
    ensures Legal(Initial, steps)
    ensures var w := Execute(Initial, steps); id !in w.registered && id in w.objects && w.objects[id].leases && !w.objects[id].open
  {
    hide Legal, Execute, SignalAll, Without, Owned, Claimed, Entered;
    NothingYet(Initial);
    steps := Then(Initial, [], OnSession(id, Register));
    steps := Then(Initial, steps, OnClose(id, BeginClose));
    steps := Then(Initial, steps, OnClose(id, CancelAll));
    NoStreams(Execute(Initial, steps).subscriptions, id);
    steps := Then(Initial, steps, OnClose(id, CollectStreams));
    steps := ShutRun(id, steps);
    steps := Then(Initial, steps, OnSession(id, InstallLeases));
  }

  /**
    A resume that fails at its first fence leaves a session that it has just added registered and open, though
    the backend was never asked to resume it.
   */
  lemma HalfResumedHappens(id: SessionId) returns (steps: seq<Step>)
    ensures Legal(Initial, steps) && forall s <- steps :: s != OnSession(id, InstallResume)
    ensures var w := Execute(Initial, steps); id in w.registered && id in w.objects && Owned(w, id) && w.objects[id].gate.Free?
  {
    hide Legal, Execute;
    NothingYet(Initial);
    steps := Then(Initial, [], OnSession(id, BeginResume));
    steps := Then(Initial, steps, OnSession(id, EndResume(FenceFailed)));
  }

  lemma NoStreams(claims: map<Subscription, SessionId>, id: SessionId)
    requires forall x <- claims :: claims[x] != id
    ensures StreamsOf(claims, id) == {}
  {
  }

  /** The rest of a close that has no subscriptions to stop. */
  lemma ShutRun(id: SessionId, before: seq<Step>) returns (steps: seq<Step>)
    requires Legal(Initial, before)
    requires var w := Execute(Initial, before);
             id in w.objects && w.objects[id] == Session(true, true, Closing(Stopping({})), false, true)
    ensures Legal(Initial, steps)
    ensures var w := Execute(Initial, steps); id !in w.registered && id in w.objects && w.objects[id] == Session(false, true, Free, false, true)
  {
    hide Legal, Execute, SignalAll, Without, Owned, Claimed, Entered;
    steps := Then(Initial, before, OnClose(id, StreamsDone));
    steps := Then(Initial, steps, OnClose(id, TakeLeases));
    steps := Then(Initial, steps, OnClose(id, MarkShut));
    steps := Then(Initial, steps, OnClose(id, Remove));
  }

  // ---------------------------------------------------------------- what is accepted, and when

  /**
    A request that arrives, in every reachable state, waits for the client exactly if its session is registered, open
    and not closing, or it concerns no session and such requests are allowed, if it can be translated, and if fewer
    than 128 interactions are pending; otherwise it is answered at once.
   */
  lemma ArrivalExactly(steps: seq<Step>, request: RequestId, target: Option<SessionId>, host: bool, translated: bool)
    requires Legal(Initial, steps) && request !in Execute(Initial, steps).tasks
    ensures var w := Execute(Initial, steps);
            var w' := ActOnRequest(w, request, Arrive(target, host, translated));
            var waits := translated && |w.pending| < 128
                         && match target
                            case None => host
                            case Some(id) => id in w.registered && id in w.objects && w.objects[id].open && !w.objects[id].closing;
            && Get(w'.tasks, request) == Some(if waits then Waiting(None) else Ended)
            && Get(w'.pending, request) == (if waits then Some(target) else None)
            && w'.answers == if waits then w.answers else w.answers + [request]
  {
    hide SessionsFine, Legal, Execute;
    RunFine(steps);
    assert request !in Execute(Initial, steps).pending;
  }

  /**
    A cancellation of a session's interactions, by itself or in a close, reaches exactly those that are pending for it: each
    leaves the table and its handler is told; no other is touched, and nothing is answered yet.
   */
  lemma CancellationExactly(steps: seq<Step>, id: SessionId, request: RequestId)
    requires Legal(Initial, steps)
    ensures var w := Execute(Initial, steps);
            var w' := Apply(w, Cancel(id));
            var own := Get(w.pending, request) == Some(Some(id));
            && Get(w'.pending, request) == (if own then None else Get(w.pending, request))
            && Get(w'.tasks, request)
               == (if own && Get(w.tasks, request) == Some(Waiting(None)) then Some(Waiting(Some(Cancelled))) else Get(w.tasks, request))
            && w'.answers == w.answers
            && (Enabled(w, OnClose(id, CancelAll)) ==>
                  var closing := Apply(w, OnClose(id, CancelAll));
                  closing.pending == w'.pending && closing.tasks == w'.tasks && closing.answers == w'.answers)
  {
    hide Legal, Execute, CallbacksFine, SessionsFine;
    RunFine(steps);
    TasksOfPending(Execute(Initial, steps), request);
  }

  lemma TasksOfPending(w: World, request: RequestId)
    requires CallbacksFine(w)
    ensures request in w.pending ==> request in w.tasks
  {
  }

  /**
    A subscription is claimed exactly if its id is free and fewer than 1024 are claimed, by a session that is open and
    not closing and whose gate is free; it is given up exactly by its rejection, by a stop, or by the session's close.
   */
  lemma StreamExactly(steps: seq<Step>, id: SessionId, x: Subscription)
    requires Legal(Initial, steps)
    ensures var w := Execute(Initial, steps);
            && (Enabled(w, OnSession(id, StartStream(x)))
                <==> id in w.objects && w.objects[id].gate.Free? && w.objects[id].open && !w.objects[id].closing)
            && (Enabled(w, OnSession(id, StartStream(x))) ==>
                  var w' := Apply(w, OnSession(id, StartStream(x)));
                  && (w'.objects[id].gate == Streaming(x) <==> x !in w.subscriptions && |w.subscriptions| < 1024)
                  && w'.subscriptions == if x !in w.subscriptions && |w.subscriptions| < 1024 then w.subscriptions[x := id] else w.subscriptions)
            && (Enabled(w, OnSession(id, EndStream(true))) ==>
                  Apply(w, OnSession(id, EndStream(true))).subscriptions == w.subscriptions - {w.objects[id].gate.subscription})
            && (Enabled(w, OnSession(id, EndStream(false))) ==>
                  Apply(w, OnSession(id, EndStream(false))).subscriptions == w.subscriptions)
            && (Enabled(w, OnSession(id, StopStream(x)))
                <==> id in w.objects && (w.objects[id].gate.Free? || w.objects[id].gate.Resuming?) && Get(w.subscriptions, x) == Some(id))
            && (Enabled(w, OnSession(id, StopStream(x))) ==>
                  Apply(w, OnSession(id, StopStream(x))).subscriptions == w.subscriptions - {x})
  {
    hide Legal, Execute, Apply, Enabled;
    StreamStarts(Execute(Initial, steps), id, x);
    StreamEnds(Execute(Initial, steps), id, x);
  }

  lemma StreamStarts(w: World, id: SessionId, x: Subscription)
    ensures Enabled(w, OnSession(id, StartStream(x)))
            <==> id in w.objects && w.objects[id].gate.Free? && w.objects[id].open && !w.objects[id].closing
    ensures Enabled(w, OnSession(id, StartStream(x))) ==>
              var w' := Apply(w, OnSession(id, StartStream(x)));
              && id in w'.objects
              && (w'.objects[id].gate == Streaming(x) <==> x !in w.subscriptions && |w.subscriptions| < 1024)
              && w'.subscriptions == if x !in w.subscriptions && |w.subscriptions| < 1024 then w.subscriptions[x := id] else w.subscriptions
  {
  }

  lemma StreamEnds(w: World, id: SessionId, x: Subscription)
    ensures Enabled(w, OnSession(id, EndStream(true))) ==>
              id in w.objects && w.objects[id].gate.Streaming?
              && Apply(w, OnSession(id, EndStream(true))).subscriptions == w.subscriptions - {w.objects[id].gate.subscription}
    ensures Enabled(w, OnSession(id, EndStream(false))) ==>
              Apply(w, OnSession(id, EndStream(false))).subscriptions == w.subscriptions
    ensures Enabled(w, OnSession(id, StopStream(x)))
            <==> id in w.objects && (w.objects[id].gate.Free? || w.objects[id].gate.Resuming?) && Get(w.subscriptions, x) == Some(id)
    ensures Enabled(w, OnSession(id, StopStream(x))) ==>
              Apply(w, OnSession(id, StopStream(x))).subscriptions == w.subscriptions - {x}
  {
  }

  /** A resumed session after the backend's reply, until its resume has ended: open, with leases, without a close's traces. */
  ghost predicate ReplyInstalled(w: World) {
    forall id <- w.objects ::
      w.objects[id].gate.Resuming? && w.objects[id].gate.installed ==>
        && id in w.registered && w.objects[id].open && !w.objects[id].closing && w.objects[id].leases
        && id !in w.quiet && id !in w.drained
  }

  lemma InstalledStep(w: World, step: Step)
    requires SessionsFine(w) && ReplyInstalled(w) && Enabled(w, step)
    ensures ReplyInstalled(Apply(w, step))
  {
    hide SessionsFine, SignalAll, Without, Owned, Claimed, Entered, ActOnSession, ActOnClose, SessionEnabled, CloseEnabled;
    match step
    case OnRequest(_, _) =>
    case OnSession(id, change) => InstalledChange(w, id, change);
    case OnClose(id, stage) => InstalledClose(w, id, stage);
    case Cancel(_) =>
  }

  lemma InstalledChange(w: World, id: SessionId, action: SessionAction)
    requires ReplyInstalled(w) && SessionEnabled(w, id, action)
    ensures ReplyInstalled(ActOnSession(w, id, action))
  {
    hide Claimed;
  }

  lemma InstalledClose(w: World, id: SessionId, action: CloseAction)
    requires ReplyInstalled(w) && CloseEnabled(w, id, action)
    ensures ReplyInstalled(ActOnClose(w, id, action))
  {
    hide SignalAll, Without;
  }

  lemma {:induction false} InstalledRuns(w: World, steps: seq<Step>)
    requires CallbacksFine(w) && SessionsFine(w) && |w.subscriptions| <= MAX_SUBSCRIPTIONS && ReplyInstalled(w) && Legal(w, steps)
    ensures ReplyInstalled(Execute(w, steps))
    decreases |steps|
  {
    hide CallbacksFine, SessionsFine, Apply, Enabled, ReplyInstalled;
    if steps != [] {
      SubscriptionsBounded(w, steps[0]);
      CallbacksKeep(w, steps[0]);
      SessionsKeep(w, steps[0]);
      InstalledStep(w, steps[0]);
      InstalledRuns(Apply(w, steps[0]), steps[1..]);
    }
  }

  lemma InitialFine()
    ensures CallbacksFine(Initial) && SessionsFine(Initial) && |Initial.subscriptions| <= MAX_SUBSCRIPTIONS && ReplyInstalled(Initial)
  {
  }

  /**
    How a resume leaves its session, in every reachable state. After a finished one it is registered, open, not
    closing and has leases, and requests and streams are accepted again; so it is when a fence or the replay failed
    after the reply, except that a failed replay takes out a session that the resume had added. A resume that was
    refused takes out such a session too, and leaves another one without leases, and without being open if it had
    been detached.
   */
  lemma ResumeEndsExactly(steps: seq<Step>, id: SessionId, outcome: Outcome)
    requires Legal(Initial, steps) && Enabled(Execute(Initial, steps), OnSession(id, EndResume(outcome)))
    ensures var w := Execute(Initial, steps);
            var s, w' := w.objects[id], Apply(w, OnSession(id, EndResume(outcome)));
            && w'.objects[id].gate.Free? && w'.objects[id].open == s.open && w'.objects[id].closing == s.closing
            && (s.gate.installed ==>
                  && (Owned(w', id) <==> !(outcome.ReplayFailed? && s.gate.added))
                  && w'.objects[id].leases && id !in w'.quiet && id !in w'.drained)
            && (outcome.Finished? ==> s.gate.installed)
            && (outcome.Refused? ==> !s.gate.installed && !w'.objects[id].leases)
            && (s.gate.added && (outcome.Refused? || outcome.ReplayFailed?) ==> id !in w'.registered)
            && (!(s.gate.added && (outcome.Refused? || outcome.ReplayFailed?)) ==> w'.registered == w.registered)
            && (outcome.FenceFailed? ==> w'.objects[id].leases == s.leases)
  {
    hide Apply, Enabled, SessionsFine, CallbacksFine, ReplyInstalled;
    InitialFine();
    InstalledRuns(Initial, steps);
    EndResumeIs(Execute(Initial, steps), id, outcome);
  }

  lemma EndResumeIs(w: World, id: SessionId, outcome: Outcome)
    requires Enabled(w, OnSession(id, EndResume(outcome))) && ReplyInstalled(w)
    ensures var s, w' := w.objects[id], Apply(w, OnSession(id, EndResume(outcome)));
            && w'.objects[id].gate.Free? && w'.objects[id].open == s.open && w'.objects[id].closing == s.closing
            && (s.gate.installed ==>
                  && (Owned(w', id) <==> !(outcome.ReplayFailed? && s.gate.added))
                  && w'.objects[id].leases && id !in w'.quiet && id !in w'.drained)
            && (outcome.Finished? ==> s.gate.installed)
            && (outcome.Refused? ==> !s.gate.installed && !w'.objects[id].leases)
            && (s.gate.added && (outcome.Refused? || outcome.ReplayFailed?) ==> id !in w'.registered)
            && (!(s.gate.added && (outcome.Refused? || outcome.ReplayFailed?)) ==> w'.registered == w.registered)
            && (outcome.FenceFailed? ==> w'.objects[id].leases == s.leases)
  {
  }

  /** A session that a resume has detached takes no request until the backend's reply. */
  lemma DetachedTakesNothing(steps: seq<Step>, id: SessionId, request: RequestId, host: bool)
    requires Legal(Initial, steps) && Enabled(Execute(Initial, steps), OnSession(id, Detach))
    requires request !in Execute(Initial, steps).tasks
    ensures var w := Apply(Execute(Initial, steps), OnSession(id, Detach));
            && id in w.objects && w.objects[id].gate.Resuming? && !w.objects[id].open
            && Get(ActOnRequest(w, request, Arrive(Some(id), host, true)).tasks, request) == Some(Ended)
            && !Enabled(w, OnSession(id, StartStream("")))
  {
    hide Legal, Execute, SignalAll, Claimed, Without;
  }

  // ---------------------------------------------------------------- every close can be finished

  /** How many steps a close still has to take. */
  function Left(stage: Stage, subscriptions: set<Subscription>): nat {
    match stage
    case Marked => |subscriptions| + 6
    case Silenced => |subscriptions| + 5
    case Stopping(todo) => |todo| + 4
    case Stopped => 3
    case Released => 2
    case Shut => 1
  }

  ghost function Following(w: World, id: SessionId): CloseAction
    requires id in w.objects && w.objects[id].gate.Closing?
  {
    match w.objects[id].gate.stage
    case Marked => CancelAll
    case Silenced => CollectStreams
    case Stopping(todo) => if todo == {} then StreamsDone else var x :| x in todo; StopOne(x)
    case Stopped => TakeLeases
    case Released => MarkShut
    case Shut => Remove
  }

  lemma FollowingStep(w: World, id: SessionId)
    requires id in w.objects && w.objects[id].gate.Closing?
    ensures var step := OnClose(id, Following(w, id));
            && Enabled(w, step)
            && var w' := Apply(w, step);
               && id in w'.objects
               && (step.stage.Remove? ==> id !in w'.registered)
               && (!step.stage.Remove? ==>
                     w'.objects[id].gate.Closing?
                     && Left(w'.objects[id].gate.stage, StreamsOf(w'.subscriptions, id)) < Left(w.objects[id].gate.stage, StreamsOf(w.subscriptions, id)))
  {
    hide Apply, ActOnClose, StreamsOf, Following;
    var stage, action := w.objects[id].gate.stage, Following(w, id);
    FollowingIs(w, id);
    CloseMoves(w, id, action);
    if stage.Stopping? && stage.todo != {} {
      assert |stage.todo - {action.s}| == |stage.todo| - 1;
    }
  }

  lemma FollowingIs(w: World, id: SessionId)
    requires id in w.objects && w.objects[id].gate.Closing?
    ensures var stage, action := w.objects[id].gate.stage, Following(w, id);
            && Enabled(w, OnClose(id, action))
            && (stage.Marked? <==> action.CancelAll?) && (stage.Silenced? <==> action.CollectStreams?)
            && (stage.Stopping? ==> if stage.todo == {} then action.StreamsDone? else action.StopOne? && action.s in stage.todo)
            && (stage.Stopped? <==> action.TakeLeases?) && (stage.Released? <==> action.MarkShut?) && (stage.Shut? <==> action.Remove?)
  {
  }

  lemma CloseMoves(w: World, id: SessionId, action: CloseAction)
    requires CloseEnabled(w, id, action) && w.objects[id].gate.Closing?
    ensures Apply(w, OnClose(id, action)) == ActOnClose(w, id, action)
    ensures var w' := ActOnClose(w, id, action);
            && id in w'.objects
            && match action
               case CancelAll => w'.objects[id].gate == Closing(Silenced) && w'.subscriptions == w.subscriptions
               case CollectStreams => w'.objects[id].gate == Closing(Stopping(StreamsOf(w.subscriptions, id)))
               case StopOne(x) => w'.objects[id].gate == Closing(Stopping(w.objects[id].gate.stage.todo - {x}))
               case StreamsDone => w'.objects[id].gate == Closing(Stopped)
               case TakeLeases => w'.objects[id].gate == Closing(Released)
               case MarkShut => w'.objects[id].gate == Closing(Shut)
               case Remove => id !in w'.registered
               case _ => true
  {
    hide SignalAll, Without;
  }

  /** A close that has begun can be brought to its end by its own steps, whatever has happened before. */
  lemma {:induction false} CloseRun(w: World, id: SessionId) returns (more: seq<Step>)
    requires id in w.objects && w.objects[id].gate.Closing?
    ensures Legal(w, more) && (forall s <- more :: s.OnClose? && s.id == id && !s.stage.Fail?) && OnClose(id, Remove) in more
    ensures id !in Execute(w, more).registered
    decreases Left(w.objects[id].gate.stage, StreamsOf(w.subscriptions, id))
  {
    hide Apply, Enabled, Left, StreamsOf;
    var step := OnClose(id, Following(w, id));
    FollowingStep(w, id);
    NotFailing(w, id);
    var rest := [];
    if !step.stage.Remove? {
      rest := CloseRun(Apply(w, step), id);
    }
    more := [step] + rest;
    assert more[1..] == rest;
  }

  lemma NotFailing(w: World, id: SessionId)
    requires id in w.objects && w.objects[id].gate.Closing?
    ensures !Following(w, id).Fail?
  {
  }

  /** Every registered session whose gate is free can be closed, by steps of its close alone. */
  lemma EverySessionCanClose(steps: seq<Step>, id: SessionId) returns (more: seq<Step>)
    requires Legal(Initial, steps)
    requires id in Execute(Initial, steps).registered && id in Execute(Initial, steps).objects && Execute(Initial, steps).objects[id].gate.Free?
    ensures Legal(Execute(Initial, steps), more) && (forall s <- more :: s.OnClose? && s.id == id && !s.stage.Fail?)
    ensures id !in Execute(Execute(Initial, steps), more).registered
  {
    hide Legal, Execute;
    var w := Execute(Initial, steps);
    NothingYet(w);
    var first := Then(w, [], OnClose(id, BeginClose));
    var rest := CloseRun(Execute(w, first), id);
    RunsJoin(w, first, rest);
    more := first + rest;
  }

  lemma NothingYet(w: World)
    ensures Legal(w, []) && Execute(w, []) == w
  {
  }

  lemma {:induction false} RunsJoin(w: World, before: seq<Step>, after: seq<Step>)
    requires Legal(w, before) && Legal(Execute(w, before), after)
    ensures Legal(w, before + after) && Execute(w, before + after) == Execute(Execute(w, before), after)
    decreases |before|
  {
    hide Apply, Enabled;
    if before == [] {
      assert before + after == after;
    } else {
      assert (before + after)[1..] == before[1..] + after;
      RunsJoin(Apply(w, before[0]), before[1..], after);
    }
  }

  /** One more step of a run. */
  lemma Then(w: World, steps: seq<Step>, step: Step) returns (more: seq<Step>)
    requires Legal(w, steps) && Enabled(Execute(w, steps), step)
    ensures more == steps + [step] && Legal(w, more) && Execute(w, more) == Apply(Execute(w, steps), step)
  {
    hide Apply, Enabled;
    more := steps + [step];
    assert [step][1..] == [];
    RunsJoin(w, steps, [step]);
  }
}
