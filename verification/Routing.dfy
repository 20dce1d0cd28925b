/**
  Where the pump puts what it takes (src/server/events.rs, src/server/mod.rs): when a setup is under way, the place
  of every event, when the pump stops, and when a fence reaches its session.
 */
module Routing {
  import opened Prelude
  import opened Pipeline
  import opened NoLoss

  // ---------------------------------------------------------------- when a setup is under way

  /** The setup fails, or the pump takes the marker of its registration, which no fence has asked for. */
  predicate EndsSetup(w: World, step: Step)
    requires Enabled(w, step)
  {
    step.FailSetup? || (step.PumpMarker? && w.pump.registered.value.token !in w.fences)
  }

  ghost predicate NothingEnds(w: World, steps: seq<Step>)
    requires Legal(w, steps)
    decreases |steps|
  {
    steps == [] || (!EndsSetup(w, steps[0]) && NothingEnds(Apply(w, steps[0]), steps[1..]))
  }

  /** The run has begun a setup that nothing has ended since. */
  ghost predicate SettingUp(w: World, steps: seq<Step>)
    requires Legal(w, steps)
    decreases |steps|
  {
    steps != []
    && ((steps[0] == BeginSetup && NothingEnds(Apply(w, steps[0]), steps[1..])) || SettingUp(Apply(w, steps[0]), steps[1..]))
  }

  /** A marker ends the setup exactly if it is no fence's. */
  predicate MarkerKind(w: World) {
    w.pump.registered.Some? ==> (w.pump.registered.value.finishSetup <==> w.pump.registered.value.token !in w.fences)
  }

  lemma KindStep(w: World, step: Step)
    requires Inv(w) && MarkerKind(w) && Enabled(w, step)
    ensures MarkerKind(Apply(w, step))
    ensures Apply(w, step).pump.setup <==> step == BeginSetup || (w.pump.setup && !EndsSetup(w, step))
  {
    hide ReaderOrder, BufferBounds, InOrder, MarkFine, FenceFine, WorkersFine, Sel, Events, Handle, Route, Buffers, Arrives;
    InvParts(w);
    if step.PumpEvent? {
      PumpEventIs(w, step.known);
      PumpSetup(w, step.known);
    } else if step.PumpRegistration? {
      assert w.registrations[0] in w.registrations;
    }
  }

  lemma PumpSetup(w: World, known: bool)
    requires |w.pump.channel| <= |w.read| && Enabled(w, PumpEvent(known))
    ensures Apply(w, PumpEvent(known)).pump.setup == w.pump.setup
    ensures Apply(w, PumpEvent(known)).fences == w.fences
  {
    hide Apply, Enabled, Handle, Route, Buffers, Advance, Next;
    PumpEventIs(w, known);
    AdvanceIs(w.pump);
    HandleKeeps(Advance(w.pump), Next(w.pump), Ancestor(w, Next(w.pump), known));
  }

  lemma {:induction false} SetupRuns(w: World, steps: seq<Step>)
    requires Inv(w) && MarkerKind(w) && Legal(w, steps)
    ensures Execute(w, steps).pump.setup <==> SettingUp(w, steps) || (w.pump.setup && NothingEnds(w, steps))
    ensures Inv(Execute(w, steps)) && MarkerKind(Execute(w, steps))
    decreases |steps|
  {
    hide Inv, MarkerKind, Apply, Enabled, EndsSetup;
    if steps != [] {
      StepKeeps(w, steps[0]);
      KindStep(w, steps[0]);
      SetupRuns(Apply(w, steps[0]), steps[1..]);
    }
  }

  lemma InitialKind(w: World)
    requires Initial(w)
    ensures Inv(w) && MarkerKind(w) && !w.pump.setup
  {
    hide Inv;
    InitialInv(w);
  }

  /** In every run the setup flag is set exactly if a setup was begun that nothing has ended since. */
  lemma SetupExactly(w: World, steps: seq<Step>)
    requires Initial(w) && Legal(w, steps)
    ensures Execute(w, steps).pump.setup <==> SettingUp(w, steps)
  {
    hide Inv, MarkerKind, Apply, Enabled, EndsSetup;
    InitialKind(w);
    SetupRuns(w, steps);
  }

  lemma {:induction false} NoBeginNoSetup(w: World, steps: seq<Step>)
    requires Legal(w, steps) && BeginSetup !in steps
    ensures !SettingUp(w, steps)
    decreases |steps|
  {
    hide Apply, Enabled, EndsSetup;
    if steps != [] {
      assert steps[0] in steps && forall s <- steps[1..] :: s in steps;
      NoBeginNoSetup(Apply(w, steps[0]), steps[1..]);
    }
  }

  /** When the pump has taken the marker that finishes a setup, no event is buffered any more until another one begins. */
  lemma FinishedSetupEnds(w: World, before: seq<Step>, later: seq<Step>, e: Event)
    requires Initial(w) && Legal(w, before) && Enabled(Execute(w, before), PumpMarker)
    requires var done := Execute(w, before);
             && |done.pump.channel| <= |done.read| && done.pump.registered.value.token !in done.fences
             && Legal(Apply(done, PumpMarker), later) && BeginSetup !in later
    ensures !Buffers(Execute(Apply(Execute(w, before), PumpMarker), later).pump, e)
  {
    hide Inv, MarkerKind, Apply, Enabled;
    InitialKind(w);
    SetupRuns(w, before);
    var done := Execute(w, before);
    StepKeeps(done, PumpMarker);
    KindStep(done, PumpMarker);
    NoBeginNoSetup(Apply(done, PumpMarker), later);
    SetupRuns(Apply(done, PumpMarker), later);
  }

  // ---------------------------------------------------------------- where an event goes

  /** A setup keeps the event: the thread is no session, and no marker is waiting to be queued. */
  ghost predicate Held(w: World, steps: seq<Step>, e: Event)
    requires Legal(w, steps)
  {
    var to := Execute(w, steps);
    SettingUp(w, steps) && e.thread !in to.pump.sessions && to.pump.registered.None?
  }

  /** Its own open session, or the open one that its thread is known to belong to. */
  ghost function Home(w: World, e: Event, known: bool): Option<Thread> {
    if e.thread in w.pump.sessions then (if IsOpen(w, e.thread) then Some(e.thread) else None)
    else if known && e.thread in w.owners && IsOpen(w, w.owners[e.thread]) then Some(w.owners[e.thread])
    else None
  }

  /**
    The place of every event that the pump takes, in every reachable state: the end of the setup's buffer, the end
    of one queue, or none. Nothing else moves.
   */
  lemma EventGoesExactly(w: World, steps: seq<Step>, known: bool)
    requires Initial(w) && Legal(w, steps) && Enabled(Execute(w, steps), PumpEvent(known))
    ensures var from := Execute(w, steps);
            && |from.pump.channel| <= |from.read| && HasNext(from.pump)
            && var to, e := Apply(from, PumpEvent(known)), Next(from.pump);
               && to.pump.early == (if Held(w, steps, e) then from.pump.early + [e] else from.pump.early)
               && forall id :: EntriesOf(to.pump, id)
                               == if !Held(w, steps, e) && Home(from, e, known) == Some(id)
                                  then EntriesOf(from.pump, id) + [Backend(e)] else EntriesOf(from.pump, id)
  {
    hide Inv, Apply, Enabled, SettingUp, MarkerKind;
    InitialKind(w);
    SetupRuns(w, steps);
    SetupExactly(w, steps);
    var from := Execute(w, steps);
    InvParts(from);
    EventGoes(from, known);
  }

  lemma EventGoes(w: World, known: bool)
    requires |w.pump.channel| <= |w.read| && Enabled(w, PumpEvent(known))
    ensures HasNext(w.pump)
    ensures var to, e := Apply(w, PumpEvent(known)), Next(w.pump);
            var kept := w.pump.setup && e.thread !in w.pump.sessions && w.pump.registered.None?;
            && to.pump.early == (if kept then w.pump.early + [e] else w.pump.early)
            && forall id :: EntriesOf(to.pump, id)
                            == if !kept && Home(w, e, known) == Some(id) then EntriesOf(w.pump, id) + [Backend(e)] else EntriesOf(w.pump, id)
  {
    hide Apply, Enabled, Handle, Advance, Next;
    PumpEventIs(w, known);
    AdvanceIs(w.pump);
    var p, e := Advance(w.pump), Next(w.pump);
    HandleKeeps(p, e, Ancestor(w, e, known));
    if !Buffers(p, e) && Route(p, e, Ancestor(w, e, known)).Some? {
      HandleRouted(p, e, Ancestor(w, e, known));
    }
  }

  /**
    The pump stops at an event exactly if a setup would have to keep it and its buffer is full: 256 events, or more
    bytes than a frame may have.
   */
  lemma PumpStopsExactly(w: World, steps: seq<Step>, known: bool)
    requires Initial(w) && Legal(w, steps) && HasNext(Execute(w, steps).pump)
    ensures var to := Execute(w, steps);
            var e := Next(to.pump);
            !Enabled(to, PumpEvent(known))
            <==> Held(w, steps, e) && (|to.pump.early| == 256 || TotalBytes(to.pump.early) + e.bytes > to.maxFrame)
  {
    hide Inv, Apply, SettingUp, MarkerKind, TotalBytes;
    InitialKind(w);
    SetupRuns(w, steps);
    SetupExactly(w, steps);
    InvParts(Execute(w, steps));
  }

  /**
    What the pump does with a registration, in every reachable state. A new session is open and begins with an empty
    queue, and the setup's buffer is queued for it, in front of its marker; a fence queues what the channel holds, and
    touches no session. No other queue changes, and nothing is lost or read twice.
   */
  lemma RegistrationExactly(w: World, steps: seq<Step>)
    requires Initial(w) && Legal(w, steps) && Enabled(Execute(w, steps), PumpRegistration)
    ensures var from := Execute(w, steps);
            && |from.pump.channel| <= |from.read|
            && var to := Apply(from, PumpRegistration);
               && to.read == from.read && to.registrations == from.registrations[1..]
               && to.pump.registered.Some? && to.pump.registered.value.token == from.registrations[0].token
               && to.pump.registered.value.id == from.registrations[0].id
               && match from.registrations[0]
                  case New(id, _) =>
                    && IsOpen(to, id) && EntriesOf(to.pump, id) == [] && to.pump.sessions.Keys == from.pump.sessions.Keys + {id}
                    && (forall other <- from.pump.sessions | other != id :: to.pump.sessions[other] == from.pump.sessions[other])
                    && to.pump.queued == from.pump.early && to.pump.early == [] && to.pump.channel == from.pump.channel
                  case Fence(_, _, _) =>
                    && to.pump.sessions == from.pump.sessions && to.pump.early == from.pump.early
                    && to.pump.queued == from.pump.channel && to.pump.channel == []
  {
    hide Inv, Legal, Execute, Sel, Events;
    InitialKind(w);
    SetupRuns(w, steps);
    InvParts(Execute(w, steps));
  }

  /**
    A session that is resumed is open and begins with an empty queue; it is opened and closed to events by its own
    steps alone, and is absent after its close. No other session changes.
   */
  lemma SessionStepsExactly(w: World, steps: seq<Step>, id: Thread, open: bool)
    requires Initial(w) && Legal(w, steps)
    ensures var from := Execute(w, steps);
            && |from.pump.channel| <= |from.read|
            && (Enabled(from, Resume(id)) <==> id !in from.pump.sessions)
            && (Enabled(from, Resume(id)) ==>
                  var to := Apply(from, Resume(id));
                  IsOpen(to, id) && EntriesOf(to.pump, id) == [] && to.pump.sessions - {id} == from.pump.sessions)
            && (id in from.pump.sessions ==>
                  && Enabled(from, SetOpen(id, open)) && Enabled(from, Close(id))
                  && (IsOpen(Apply(from, SetOpen(id, open)), id) <==> open)
                  && EntriesOf(Apply(from, SetOpen(id, open)).pump, id) == EntriesOf(from.pump, id)
                  && Apply(from, SetOpen(id, open)).pump.sessions - {id} == from.pump.sessions - {id}
                  && Apply(from, Close(id)).pump.sessions == from.pump.sessions - {id})
  {
    hide Inv, Legal, Execute, Sel, Events;
    InitialKind(w);
    SetupRuns(w, steps);
    InvParts(Execute(w, steps));
  }

  // ---------------------------------------------------------------- when a fence reaches its session

  /** No step closes the session or registers another one under its id. */
  ghost predicate StaysRegistered(w: World, steps: seq<Step>, id: Thread)
    requires Legal(w, steps)
    decreases |steps|
  {
    steps == [] || (!Forgets(w, steps[0], id) && StaysRegistered(Apply(w, steps[0]), steps[1..], id))
  }

  /** Objects are numbered as they are created. */
  predicate Created(w: World) { forall id <- w.pump.sessions :: w.pump.sessions[id].identity < w.pump.created }

  predicate SameObject(w: World, id: Thread, identity: Object) {
    id in w.pump.sessions && w.pump.sessions[id].identity == identity
  }

  /** What is known of a fence under way, as long as its marker has not been taken. */
  predicate Travels(w: World, id: Thread, identity: Object, token: nat) {
    && token in w.used && identity < w.pump.created
    && (forall r <- w.registrations :: r.token == token ==> r == Fence(id, identity, token))
    && (w.pump.registered.Some? && w.pump.registered.value.token == token
        ==> w.pump.registered.value.id == id && w.pump.registered.value.identity == identity)
  }

  lemma CreatedStep(w: World, step: Step)
    requires |w.pump.channel| <= |w.read| && Created(w) && Enabled(w, step)
    ensures Created(Apply(w, step)) && w.pump.created <= Apply(w, step).pump.created
  {
    hide Sel, Events, Buffers;
  }

  lemma TravelsStep(w: World, step: Step, id: Thread, identity: Object, token: nat)
    requires |w.pump.channel| <= |w.read| && Created(w) && Enabled(w, step) && Travels(w, id, identity, token)
    ensures Travels(Apply(w, step), id, identity, token)
  {
    hide Sel, Events, Handle, Arrives;
    CreatedStep(w, step);
    if step.PumpRegistration? {
      assert w.registrations[0] in w.registrations;
      assert forall r <- w.registrations[1..] :: r in w.registrations;
    } else if step.PumpEvent? {
      PumpEventIs(w, step.known);
    }
  }

  lemma ObjectStep(w: World, step: Step, id: Thread, identity: Object)
    requires |w.pump.channel| <= |w.read| && Created(w) && Enabled(w, step) && identity < w.pump.created
    ensures SameObject(Apply(w, step), id, identity) <==> SameObject(w, id, identity) && !Forgets(w, step, id)
  {
    hide Sel, Events, Handle;
    if step.PumpEvent? {
      PumpedObject(w, step.known, id);
    }
  }

  lemma PumpedObject(w: World, known: bool, id: Thread)
    requires |w.pump.channel| <= |w.read| && Enabled(w, PumpEvent(known))
    ensures var sessions, sessions' := w.pump.sessions, Apply(w, PumpEvent(known)).pump.sessions;
            (id in sessions' <==> id in sessions) && (id in sessions ==> sessions'[id].identity == sessions[id].identity)
  {
    hide Apply, Enabled, Advance, Next, Buffers;
    PumpEventIs(w, known);
    AdvanceIs(w.pump);
  }

  lemma {:induction false} FenceTravels(w: World, steps: seq<Step>, id: Thread, identity: Object, token: nat)
    requires Inv(w) && Created(w) && Travels(w, id, identity, token) && Legal(w, steps)
    ensures var to := Execute(w, steps);
            && Inv(to) && Created(to) && Travels(to, id, identity, token)
            && (SameObject(to, id, identity) <==> SameObject(w, id, identity) && StaysRegistered(w, steps, id))
    decreases |steps|
  {
    hide Inv, Apply, Enabled, Created, Travels, SameObject, Forgets;
    if steps != [] {
      InvParts(w);
      StepKeeps(w, steps[0]);
      CreatedStep(w, steps[0]);
      TravelsStep(w, steps[0], id, identity, token);
      TravelsIs(w, id, identity, token);
      ObjectStep(w, steps[0], id, identity);
      FenceTravels(Apply(w, steps[0]), steps[1..], id, identity, token);
    }
  }

  lemma TravelsIs(w: World, id: Thread, identity: Object, token: nat)
    requires Travels(w, id, identity, token)
    ensures identity < w.pump.created
    ensures w.pump.registered.Some? && w.pump.registered.value.token == token
            ==> w.pump.registered.value.id == id && w.pump.registered.value.identity == identity
  {
  }

  lemma {:induction false} CreatedRuns(w: World, steps: seq<Step>)
    requires Inv(w) && Created(w) && Legal(w, steps)
    ensures Inv(Execute(w, steps)) && Created(Execute(w, steps))
    decreases |steps|
  {
    hide Inv, Apply, Enabled, Created;
    if steps != [] {
      InvParts(w);
      StepKeeps(w, steps[0]);
      CreatedStep(w, steps[0]);
      CreatedRuns(Apply(w, steps[0]), steps[1..]);
    }
  }

  /**
    A fence's marker is put at the end of its session's queue exactly if that session has stayed registered, and has
    not been replaced, since the fence was requested.
   */
  lemma FenceReachesExactly(w: World, before: seq<Step>, during: seq<Step>, id: Thread, token: nat, seen: nat)
    requires Initial(w) && Legal(w, before) && Enabled(Execute(w, before), SendFence(id, token, seen))
    requires var asked := Execute(w, before);
             && |asked.pump.channel| <= |asked.read| && Legal(Apply(asked, SendFence(id, token, seen)), during)
    requires var taking := Execute(Apply(Execute(w, before), SendFence(id, token, seen)), during);
             Enabled(taking, PumpMarker) && taking.pump.registered.value.token == token
    ensures var sent := Apply(Execute(w, before), SendFence(id, token, seen));
            var taking := Execute(sent, during);
            && |taking.pump.channel| <= |taking.read|
            && var after := Apply(taking, PumpMarker);
               && (token in after.marks <==> StaysRegistered(sent, during, id))
               && EntriesOf(after.pump, id)
                  == if StaysRegistered(sent, during, id) then EntriesOf(taking.pump, id) + [Registered(token)]
                     else EntriesOf(taking.pump, id)
  {
    hide Inv, Apply, Enabled, Created, Travels, SameObject, Forgets;
    InitialKind(w);
    assert Created(w) by {
      NoSessions(w);
    }
    CreatedRuns(w, before);
    var asked := Execute(w, before);
    var identity := FenceSent(asked, id, token, seen);
    var sent := Apply(asked, SendFence(id, token, seen));
    StepKeeps(asked, SendFence(id, token, seen));
    InvParts(asked);
    CreatedStep(asked, SendFence(id, token, seen));
    FenceTravels(sent, during, id, identity, token);
    var taking := Execute(sent, during);
    InvParts(taking);
    TravelsIs(taking, id, identity, token);
    MarkerWaits(taking);
    FenceTaken(taking, id, identity, token);
  }

  lemma NoSessions(w: World)
    requires Initial(w)
    ensures Created(w)
  {
  }

  lemma FenceSent(w: World, id: Thread, token: nat, seen: nat) returns (identity: Object)
    requires Inv(w) && Created(w) && Enabled(w, SendFence(id, token, seen))
    ensures |w.pump.channel| <= |w.read| && SameObject(Apply(w, SendFence(id, token, seen)), id, identity)
    ensures Travels(Apply(w, SendFence(id, token, seen)), id, identity, token)
  {
    hide ReaderOrder, BufferBounds, InOrder, MarkFine, FenceFine, WorkersFine;
    InvParts(w);
    identity := w.pump.sessions[id].identity;
  }

  lemma MarkerWaits(w: World)
    requires Enabled(w, PumpMarker)
    ensures w.pump.registered.Some?
  {
  }

  lemma FenceTaken(w: World, id: Thread, identity: Object, token: nat)
    requires Inv(w) && Enabled(w, PumpMarker) && w.pump.registered.value.token == token
    requires w.pump.registered.value.id == id && w.pump.registered.value.identity == identity
    ensures |w.pump.channel| <= |w.read|
    ensures var after := Apply(w, PumpMarker);
            && (token in after.marks <==> SameObject(w, id, identity))
            && EntriesOf(after.pump, id)
               == if SameObject(w, id, identity) then EntriesOf(w.pump, id) + [Registered(token)] else EntriesOf(w.pump, id)
  {
    hide ReaderOrder, BufferBounds, InOrder, MarkFine, FenceFine, WorkersFine;
    InvParts(w);
  }
}
