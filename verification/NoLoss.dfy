/**
  What the pipeline never loses, and when it loses order (src/server/events.rs, src/server/mod.rs).

  An event waits in the setup buffer, among the queued events or in the channel. It leaves for the queue of its
  own session, or of the session its thread descends from, or it is gone: passed over, dropped with a failed
  setup, or forgotten with a queue. Each way is stated exactly, for sessions and for their descendants.
 */
module NoLoss {
  import opened Prelude
  import opened Pipeline

  function Waiting(p: Pump): seq<Event> { p.early + p.queued + p.channel }

  ghost predicate Ascending(xs: seq<Event>) { forall i, j | 0 <= i < j < |xs| :: xs[i].sequence < xs[j].sequence }

  /** Waiting events are in reader order and in no other place. */
  ghost predicate WaitingApart(w: World) {
    && Ascending(Waiting(w.pump))
    && (forall e <- Waiting(w.pump) :: e !in w.gone && e.sequence <= w.sequence)
    && (forall e <- w.gone :: e.sequence <= w.sequence)
  }

  ghost predicate InQueue(w: World, id: Thread, e: Event) { e in Events(EntriesOf(w.pump, id)) }

  /** An event in a queue belongs there, and is nowhere else. */
  ghost predicate EntryFine(w: World, id: Thread, e: Event) {
    && e !in Waiting(w.pump) && e.sequence <= w.sequence && e !in w.gone
    && (e.thread == id || Get(w.owners, e.thread) == Some(id))
    && forall other | other != id :: !InQueue(w, other, e)
  }

  ghost predicate EntriesFine(w: World) {
    forall id, e | InQueue(w, id, e) :: EntryFine(w, id, e)
  }

  /** No event disappears without being counted as gone. */
  ghost predicate Accounted(w: World) {
    forall e <- w.read :: e in w.gone || e in Waiting(w.pump) || exists id :: InQueue(w, id, e)
  }

  ghost predicate Kept(w: World) { WaitingApart(w) && EntriesFine(w) && Accounted(w) }

  // ---------------------------------------------------------------- every step keeps the books

  /** How a step moves the waiting events. */
  lemma WaitingMoves(w: World, step: Step)
    requires |w.pump.channel| <= |w.read| && QueuedNeedsMarker(w.pump) && Enabled(w, step)
    ensures var xs, xs' := Waiting(w.pump), Waiting(Apply(w, step).pump);
            match step
            case ReadEvent(thread, bytes) => xs' == xs + [Event(w.sequence + 1, thread, bytes)]
            case FailSetup => xs' == xs[|w.pump.early|..]
            case PumpEvent(known) =>
              var k := |w.pump.early|;
              && k < |xs| && xs[k] == Next(w.pump)
              && xs' == (if Buffers(w.pump, Next(w.pump)) then xs else xs[..k] + xs[k + 1..])
            case _ => xs' == xs
  {
    hide Sel, Events, Route, Handle, Arrives;
    if step.PumpEvent? {
      PumpWaiting(w.pump, Ancestor(w, Next(w.pump), step.known));
    } else if step.FailSetup? {
      EarlyWaits(w.pump);
      assert Waiting(w.pump)[|w.pump.early|..] == w.pump.queued + w.pump.channel;
    } else if step.ReadEvent? {
      var e := Event(w.sequence + 1, step.thread, step.bytes);
      assert w.pump.early + w.pump.queued + (w.pump.channel + [e]) == Waiting(w.pump) + [e];
    } else if step.PumpRegistration? {
      assert w.pump.queued == [];
      assert [] + w.pump.early + w.pump.channel == w.pump.early + [] + w.pump.channel;
      assert w.pump.early + ([] + w.pump.channel) + [] == w.pump.early + [] + w.pump.channel;
    }
  }

  lemma PumpWaiting(p: Pump, ancestor: Option<Thread>)
    requires QueuedNeedsMarker(p) && HasNext(p)
    ensures var e, xs, k := Next(p), Waiting(p), |p.early|;
            && k < |xs| && xs[k] == e
            && Waiting(Handle(Advance(p), e, ancestor)) == (if Buffers(p, e) then xs else xs[..k] + xs[k + 1..])
  {
    hide Handle, Route, Waiting;
    var p1 := Advance(p);
    HandleWaiting(p1, Next(p), ancestor);
    AdvanceSame(p, Next(p), ancestor);
    AdvanceWaiting(p);
    if Buffers(p, Next(p)) {
      Rebuffered(p);
      SameWaiting(Handle(p1, Next(p), ancestor), p1.(early := p.early + [Next(p)]));
    } else {
      SameWaiting(Handle(p1, Next(p), ancestor), p1);
    }
  }

  lemma SameWaiting(a: Pump, b: Pump)
    requires a.early == b.early && a.queued == b.queued && a.channel == b.channel
    ensures Waiting(a) == Waiting(b)
  {
  }

  lemma AdvanceWaiting(p: Pump)
    requires HasNext(p)
    ensures var xs, k := Waiting(p), |p.early|;
            k < |xs| && xs[k] == Next(p) && Waiting(Advance(p)) == xs[..k] + xs[k + 1..]
  {
    var p1 := Advance(p);
    var rest := p.queued + p.channel;
    Grouped(p.early, p.queued, p.channel);
    Grouped(p.early, p1.queued, p1.channel);
    FirstRemoved(p.queued, p.channel);
    RemovedAt(p.early, rest);
  }

  lemma Grouped(a: seq<Event>, b: seq<Event>, c: seq<Event>)
    ensures a + b + c == a + (b + c)
  {
  }

  lemma FirstRemoved(a: seq<Event>, b: seq<Event>)
    requires a != [] || b != []
    ensures (a + b)[0] == (if a != [] then a[0] else b[0])
    ensures (a + b)[1..] == if a != [] then a[1..] + b else a + b[1..]
  {
  }

  lemma RemovedAt(a: seq<Event>, b: seq<Event>)
    requires b != []
    ensures (a + b)[|a|] == b[0] && (a + b)[..|a|] + (a + b)[|a| + 1..] == a + b[1..]
  {
    assert (a + b)[..|a|] == a && (a + b)[|a| + 1..] == b[1..];
  }

  /** An event that is buffered comes from the channel and stays in its place. */
  lemma Rebuffered(p: Pump)
    requires HasNext(p) && p.queued == []
    ensures Waiting(Advance(p).(early := p.early + [Next(p)])) == Waiting(p)
  {
    assert p.channel == [p.channel[0]] + p.channel[1..];
  }

  lemma HandleWaiting(p: Pump, e: Event, ancestor: Option<Thread>)
    ensures var p' := Handle(p, e, ancestor);
            p'.queued == p.queued && p'.channel == p.channel
            && p'.early == if Buffers(p, e) then p.early + [e] else p.early
  {
  }

  lemma AscendingRemoves(xs: seq<Event>, k: nat)
    requires Ascending(xs) && k < |xs|
    ensures Ascending(xs[..k] + xs[k + 1..]) && xs[k] !in xs[..k] + xs[k + 1..]
    ensures forall e <- xs[..k] + xs[k + 1..] :: e in xs
    ensures forall e <- xs :: e == xs[k] || e in xs[..k] + xs[k + 1..]
  {
    var ys := xs[..k] + xs[k + 1..];
    forall i | 0 <= i < |ys| ensures ys[i] == if i < k then xs[i] else xs[i + 1] {
    }
    forall e | e in xs && e != xs[k] ensures e in ys {
      var i :| 0 <= i < |xs| && xs[i] == e;
      assert ys[if i < k then i else i - 1] == e;
    }
  }

  lemma AscendingDrops(xs: seq<Event>, k: nat)
    requires Ascending(xs) && k <= |xs|
    ensures Ascending(xs[k..]) && forall e <- xs[..k] :: e in xs && e !in xs[k..]
    ensures forall e <- xs[k..] :: e in xs
  {
  }

  /** What a step adds to the events that are gone. */
  function Leaving(w: World, step: Step): set<Event>
    requires Enabled(w, step)
  {
    match step
    case FailSetup => set e | e in w.pump.early
    case PumpEvent(known) =>
      if Buffers(w.pump, Next(w.pump)) || NextRoute(w, known).Some? then {} else {Next(w.pump)}
    case PumpRegistration =>
      if w.registrations[0].New? then set e | e in Events(EntriesOf(w.pump, w.registrations[0].id)) else {}
    case Close(id) => set e | e in Events(EntriesOf(w.pump, id))
    case _ => {}
  }

  lemma GoneMoves(w: World, step: Step)
    requires |w.pump.channel| <= |w.read| && Enabled(w, step)
    ensures Apply(w, step).gone == w.gone + Leaving(w, step)
    ensures Apply(w, step).sequence >= w.sequence
  {
    hide Sel, Events, Route, Handle;
  }

  /** Queues change only by an event that leaves the waiting ones, or by being dropped. */
  lemma EntriesMove(w: World, step: Step, id: Thread)
    requires |w.pump.channel| <= |w.read| && Enabled(w, step)
    ensures var own, own' := Events(EntriesOf(w.pump, id)), Events(EntriesOf(Apply(w, step).pump, id));
            if step == Close(id) || (step.PumpRegistration? && w.registrations[0].New? && w.registrations[0].id == id)
            then own' == []
            else if step.PumpEvent? && NextRoute(w, step.known) == Some(id)
            then own' == own + [Next(w.pump)]
            else own' == own
  {
    hide Sel, Events, Route, Handle;
    NoEvents();
    if step.PumpEvent? {
      HandleEntries(Advance(w.pump), Next(w.pump), Ancestor(w, Next(w.pump), step.known), id);
      AdvanceSame(w.pump, Next(w.pump), Ancestor(w, Next(w.pump), step.known));
    } else if step.PumpMarker? {
      EventsOne(EntriesOf(w.pump, id), Registered(w.pump.registered.value.token));
    }
  }

  lemma HandleEntries(p: Pump, e: Event, ancestor: Option<Thread>, id: Thread)
    ensures Events(EntriesOf(Handle(p, e, ancestor), id))
            == if !Buffers(p, e) && Route(p, e, ancestor) == Some(id) then Events(EntriesOf(p, id)) + [e] else Events(EntriesOf(p, id))
  {
    hide Events;
    EventsOne(EntriesOf(p, id), Backend(e));
  }

  lemma NoEvents()
    ensures Events([]) == []
  {
  }

  lemma WaitingKeeps(w: World, step: Step)
    requires ReaderOrder(w) && |w.pump.channel| <= |w.read| && QueuedNeedsMarker(w.pump)
    requires WaitingApart(w) && EntriesFine(w) && Enabled(w, step)
    ensures WaitingApart(Apply(w, step))
  {
    hide Sel, Events, Route, Waiting, Apply, ReaderOrder, EntriesFine, Buffers, Ascending;
    WaitingMoves(w, step);
    GoneMoves(w, step);
    SequenceMoves(w, step);
    match step
    case PumpEvent(_) => AscendingRemoves(Waiting(w.pump), |w.pump.early|);
    case FailSetup => FailedApart(w);
    case ReadEvent(_, _) => ReadApart(w, Waiting(Apply(w, step).pump));
    case _ => LeavingEntries(w, step);
  }

  lemma FailedApart(w: World)
    requires WaitingApart(w)
    ensures |w.pump.early| <= |Waiting(w.pump)| && Ascending(Waiting(w.pump)[|w.pump.early|..])
    ensures forall e <- Waiting(w.pump)[|w.pump.early|..] :: e in Waiting(w.pump) && e !in w.pump.early
    ensures forall e <- w.pump.early :: e in Waiting(w.pump)
  {
    hide Waiting;
    EarlyWaits(w.pump);
    AscendingDrops(Waiting(w.pump), |w.pump.early|);
  }

  lemma ReadApart(w: World, xs: seq<Event>)
    requires WaitingApart(w) && xs != [] && xs[..|xs| - 1] == Waiting(w.pump) && xs[|xs| - 1].sequence > w.sequence
    ensures Ascending(xs)
  {
    hide Waiting;
    var init := xs[..|xs| - 1];
    forall i, j | 0 <= i < j < |xs| ensures xs[i].sequence < xs[j].sequence {
      assert xs[i] == init[i] && init[i] in init;
      assert j < |init| ==> xs[j] == init[j];
    }
  }

  lemma SequenceMoves(w: World, step: Step)
    requires |w.pump.channel| <= |w.read| && Enabled(w, step)
    ensures Apply(w, step).sequence == w.sequence + if step.ReadEvent? || step.ReadResponse? then 1 else 0
  {
    hide Sel, Events, Route, Handle;
  }

  lemma EarlyWaits(p: Pump)
    ensures |p.early| <= |Waiting(p)| && Waiting(p)[..|p.early|] == p.early
    ensures forall e <- p.early :: e in Waiting(p)
    ensures forall e <- p.queued :: e in Waiting(p)
    ensures forall e <- p.channel :: e in Waiting(p)
  {
  }

  lemma LeavingEntries(w: World, step: Step)
    requires EntriesFine(w) && Enabled(w, step) && !step.PumpEvent? && !step.FailSetup?
    ensures forall e <- Leaving(w, step) :: e !in Waiting(w.pump) && e.sequence <= w.sequence
  {
    hide Sel, Events, Waiting;
    forall e | e in Leaving(w, step) ensures e !in Waiting(w.pump) && e.sequence <= w.sequence {
      var id := if step.Close? then step.id else w.registrations[0].id;
      assert InQueue(w, id, e) && EntryFine(w, id, e);
    }
  }

  predicate Reregisters(w: World, step: Step, t: Thread)
    requires Enabled(w, step)
  {
    step.PumpRegistration? && w.registrations[0].New? && w.registrations[0].id == t
  }

  /** The queue goes with its session. */
  predicate Forgets(w: World, step: Step, id: Thread)
    requires Enabled(w, step)
  {
    step == Close(id) || Reregisters(w, step, id)
  }

  /** An event in a queue stays there, and nowhere else, until the queue goes. */
  lemma QueuedMoves(w: World, step: Step, id: Thread, e: Event)
    requires ReaderOrder(w) && QueuedNeedsMarker(w.pump) && WaitingApart(w) && EntriesFine(w) && Enabled(w, step)
    requires InQueue(w, id, e)
    ensures InQueue(Apply(w, step), id, e) <==> !Forgets(w, step, id)
    ensures e in Leaving(w, step) <==> Forgets(w, step, id)
    ensures e !in Waiting(Apply(w, step).pump)
  {
    hide Sel, Events, Route, Waiting, Apply, Ascending, Buffers, InQueue;
    assert EntryFine(w, id, e);
    EntriesMove(w, step, id);
    WaitingMoves(w, step);
    EarlyWaits(w.pump);
    NoEvents();
    QueueOf(w, id);
    QueueOf(Apply(w, step), id);
    match step {
      case PumpEvent(_) =>
        NextWaits(w.pump);
        AscendingRemoves(Waiting(w.pump), |w.pump.early|);
      case FailSetup => AscendingDrops(Waiting(w.pump), |w.pump.early|);
      case PumpRegistration => QueueOf(w, w.registrations[0].id);
      case Close(closed) => QueueOf(w, closed);
      case _ =>
    }
  }

  lemma QueueOf(w: World, id: Thread)
    ensures forall e :: InQueue(w, id, e) <==> e in Events(EntriesOf(w.pump, id))
  {
  }

  /** A waiting event keeps waiting until the pump hands it on or passes it over, or its setup fails. */
  lemma WaitingEventMoves(w: World, step: Step, e: Event)
    requires ReaderOrder(w) && QueuedNeedsMarker(w.pump) && WaitingApart(w) && EntriesFine(w) && Enabled(w, step)
    requires e in Waiting(w.pump)
    ensures e in Waiting(Apply(w, step).pump) <==>
              !(step.FailSetup? && e in w.pump.early)
              && !(step.PumpEvent? && e == Next(w.pump) && !Buffers(w.pump, e))
    ensures e in Leaving(w, step) <==>
              || (step.FailSetup? && e in w.pump.early)
              || (step.PumpEvent? && e == Next(w.pump) && !Buffers(w.pump, e) && NextRoute(w, step.known).None?)
    ensures forall id :: InQueue(Apply(w, step), id, e) <==>
              step.PumpEvent? && e == Next(w.pump) && NextRoute(w, step.known) == Some(id)
  {
    hide Sel, Events, Route, Waiting, Apply, Ascending, Buffers, InQueue;
    WaitingMoves(w, step);
    EarlyWaits(w.pump);
    var xs, k := Waiting(w.pump), |w.pump.early|;
    forall id ensures InQueue(Apply(w, step), id, e) <==>
                        step.PumpEvent? && e == Next(w.pump) && NextRoute(w, step.known) == Some(id)
    {
      EntriesMove(w, step, id);
      QueueOf(w, id);
      QueueOf(Apply(w, step), id);
      NoEvents();
      assert InQueue(w, id, e) ==> EntryFine(w, id, e);
    }
    match step {
      case PumpEvent(_) => AscendingRemoves(xs, k);
      case FailSetup => AscendingDrops(xs, k);
      case PumpRegistration => NotInQueue(w, w.registrations[0].id, e);
      case Close(closed) => NotInQueue(w, closed, e);
      case _ =>
    }
  }

  lemma NotInQueue(w: World, id: Thread, e: Event)
    requires EntriesFine(w) && e in Waiting(w.pump)
    ensures e !in Events(EntriesOf(w.pump, id))
  {
    assert InQueue(w, id, e) ==> EntryFine(w, id, e);
  }

  lemma EntriesKeep(w: World, step: Step)
    requires ReaderOrder(w) && QueuedNeedsMarker(w.pump) && WaitingApart(w) && EntriesFine(w) && Enabled(w, step)
    ensures EntriesFine(Apply(w, step))
  {
    hide Sel, Events, Route, Waiting, Apply, Ascending, InQueue;
    var w' := Apply(w, step);
    forall id, e | InQueue(w', id, e) ensures EntryFine(w', id, e) {
      EntryKeeps(w, step, id, e);
    }
  }

  lemma EntryKeeps(w: World, step: Step, id: Thread, e: Event)
    requires ReaderOrder(w) && QueuedNeedsMarker(w.pump) && WaitingApart(w) && EntriesFine(w) && Enabled(w, step)
    requires InQueue(Apply(w, step), id, e)
    ensures EntryFine(Apply(w, step), id, e)
  {
    hide Sel, Events, Route, Waiting, Apply, Ascending, Buffers, InQueue;
    var w' := Apply(w, step);
    OwnersStay(w, step);
    GoneMoves(w, step);
    EntriesMove(w, step, id);
    QueueOf(w, id);
    QueueOf(w', id);
    NoEvents();
    if InQueue(w, id, e) {
      assert EntryFine(w, id, e);
      QueuedMoves(w, step, id, e);
      forall other | other != id ensures !InQueue(w', other, e) {
        OtherQueue(w, step, other, e);
      }
    } else {
      assert step.PumpEvent? && e == Next(w.pump) && NextRoute(w, step.known) == Some(id);
      NextWaits(w.pump);
      WaitingEventMoves(w, step, e);
      NextHome(w, step.known);
    }
  }

  /** An event that is in none of the places a queue is filled from does not get into it. */
  lemma OtherQueue(w: World, step: Step, id: Thread, e: Event)
    requires |w.pump.channel| <= |w.read| && Enabled(w, step) && !InQueue(w, id, e) && e !in Waiting(w.pump)
    ensures !InQueue(Apply(w, step), id, e)
  {
    hide Sel, Events, Route, Waiting, Apply, Buffers, InQueue;
    EntriesMove(w, step, id);
    QueueOf(w, id);
    QueueOf(Apply(w, step), id);
    NoEvents();
    if step.PumpEvent? {
      NextWaits(w.pump);
    }
  }

  /** The next event is handed to its own session or its owner's. */
  lemma NextHome(w: World, known: bool)
    requires HasNext(w.pump)
    ensures var id := NextRoute(w, known);
            id.Some? ==> Next(w.pump).thread == id.value || Get(w.owners, Next(w.pump).thread) == id
  {
  }

  lemma NextWaits(p: Pump)
    requires HasNext(p)
    ensures Next(p) in Waiting(p)
  {
    EarlyWaits(p);
  }

  lemma AccountedKeeps(w: World, step: Step)
    requires ReaderOrder(w) && QueuedNeedsMarker(w.pump) && Kept(w) && Enabled(w, step)
    ensures Accounted(Apply(w, step))
  {
    hide Sel, Events, Route, Waiting, Apply, Ascending, Buffers, InQueue;
    var w' := Apply(w, step);
    GoneMoves(w, step);
    ReadMoves(w, step);
    forall e | e in w'.read ensures e in w'.gone || e in Waiting(w'.pump) || exists id :: InQueue(w', id, e) {
      if e in Waiting(w.pump) {
        WaitingEventMoves(w, step, e);
      } else if id :| InQueue(w, id, e) {
        QueuedMoves(w, step, id, e);
      } else if e !in w.read {
        WaitingMoves(w, step);
      }
    }
  }

  lemma ReadMoves(w: World, step: Step)
    requires |w.pump.channel| <= |w.read| && Enabled(w, step)
    ensures Apply(w, step).read
            == if step.ReadEvent? then w.read + [Event(w.sequence + 1, step.thread, step.bytes)] else w.read
  {
    hide Sel, Events, Route, Handle;
  }

  lemma KeptKeeps(w: World, step: Step)
    requires Inv(w) && Kept(w) && Enabled(w, step)
    ensures Inv(Apply(w, step)) && Kept(Apply(w, step))
  {
    BufferImplies(w);
    hide Sel, Events, Route, Waiting, Apply, Ascending, InOrder, MarkFine, FenceFine, TokensFine, BufferBounds, Enabled,
         WaitingApart, EntriesFine, Accounted;
    StepKeeps(w, step);
    WaitingKeeps(w, step);
    EntriesKeep(w, step);
    AccountedKeeps(w, step);
  }

  lemma {:induction false} KeptRuns(w: World, steps: seq<Step>)
    requires Inv(w) && Kept(w) && Legal(w, steps)
    ensures Inv(Execute(w, steps)) && Kept(Execute(w, steps))
    decreases |steps|
  {
    hide Inv, Kept, Apply, Enabled;
    if steps != [] {
      KeptKeeps(w, steps[0]);
      KeptRuns(Apply(w, steps[0]), steps[1..]);
    }
  }

  lemma InitialKept(w: World)
    requires Initial(w)
    ensures Inv(w) && Kept(w)
  {
    InitialInv(w);
  }

  // ---------------------------------------------------------------- an open session loses nothing

  ghost predicate IsOpen(w: World, id: Thread) { id in w.pump.sessions && w.pump.sessions[id].open }

  /** The session is registered and open in every state of the run, and is always the same one. */
  ghost predicate StaysOpen(w: World, steps: seq<Step>, id: Thread)
    requires Legal(w, steps)
    decreases |steps|
  {
    && IsOpen(w, id)
    && (steps == [] || (!Reregisters(w, steps[0], id) && StaysOpen(Apply(w, steps[0]), steps[1..], id)))
  }

  /** No event of the thread is in the setup buffer. */
  predicate Unbuffered(p: Pump, t: Thread) { forall e <- p.early :: e.thread != t }

  /** The session serves the thread: it is its own, or that of a thread it descends from. */
  predicate Serves(w: World, id: Thread, t: Thread) {
    t == id || (t !in w.pump.sessions && Get(w.owners, t) == Some(id))
  }

  /** The step does no harm to a thread's events: the backend tells its ancestry, and no setup that buffered it fails. */
  predicate Gentle(w: World, step: Step, t: Thread)
    requires Enabled(w, step)
  {
    && (step.FailSetup? ==> Unbuffered(w.pump, t))
    && (step.PumpEvent? && Next(w.pump).thread == t && t !in w.pump.sessions ==> step.known)
  }

  /** An open session serves the thread in every state of the run, which no step harms. */
  ghost predicate Served(w: World, steps: seq<Step>, id: Thread, t: Thread)
    requires Legal(w, steps)
    decreases |steps|
  {
    && IsOpen(w, id) && Serves(w, id, t)
    && (steps == [] || (!Reregisters(w, steps[0], id) && Gentle(w, steps[0], t) && Served(Apply(w, steps[0]), steps[1..], id, t)))
  }

  /** The event is in the session's queue, on its way there, or not read yet. */
  ghost predicate Coming(w: World, id: Thread, e: Event) { InQueue(w, id, e) || e in Waiting(w.pump) || e !in w.read }

  lemma ServedStep(w: World, step: Step, id: Thread, t: Thread, e: Event)
    requires Inv(w) && Kept(w) && Enabled(w, step) && IsOpen(w, id) && Serves(w, id, t) && IsOpen(Apply(w, step), id)
    requires !Reregisters(w, step, id) && Gentle(w, step, t) && e.thread == t && Coming(w, id, e)
    ensures Coming(Apply(w, step), id, e)
  {
    InvParts(w);
    KeptParts(w);
    hide Sel, Events, Waiting, Apply, Inv, Kept, WaitingApart, EntriesFine, Accounted, InQueue;
    if e in Waiting(w.pump) {
      WaitingEventMoves(w, step, e);
      EarlyWaits(w.pump);
    } else if InQueue(w, id, e) {
      QueuedMoves(w, step, id, e);
      CloseShuts(w, step, id);
    } else {
      ReadMoves(w, step);
      WaitingMoves(w, step);
    }
  }

  lemma CloseShuts(w: World, step: Step, id: Thread)
    requires |w.pump.channel| <= |w.read| && Enabled(w, step) && IsOpen(Apply(w, step), id)
    ensures step != Close(id)
  {
  }

  lemma KeptParts(w: World)
    requires Kept(w)
    ensures WaitingApart(w) && EntriesFine(w) && Accounted(w)
  {
  }

  lemma {:induction false} ServedRuns(w: World, steps: seq<Step>, id: Thread, t: Thread, e: Event)
    requires Inv(w) && Kept(w) && Legal(w, steps) && Served(w, steps, id, t) && e.thread == t && Coming(w, id, e)
    ensures Coming(Execute(w, steps), id, e) && IsOpen(Execute(w, steps), id)
    decreases |steps|
  {
    hide Inv, Kept, Apply, Enabled, IsOpen, Coming, Serves, Gentle;
    if steps != [] {
      var next := Apply(w, steps[0]);
      KeptKeeps(w, steps[0]);
      ServedOpen(next, steps[1..], id, t);
      ServedStep(w, steps[0], id, t, e);
      ServedRuns(next, steps[1..], id, t, e);
    }
  }

  lemma ServedOpen(w: World, steps: seq<Step>, id: Thread, t: Thread)
    requires Legal(w, steps) && Served(w, steps, id, t)
    ensures IsOpen(w, id)
  {
  }

  /** A session's own thread is served without further ado, once none of its events is in the setup buffer. */
  lemma {:induction false} OwnServed(w: World, steps: seq<Step>, id: Thread)
    requires Inv(w) && Legal(w, steps) && StaysOpen(w, steps, id) && Unbuffered(w.pump, id)
    ensures Served(w, steps, id, id) && NeverBuffered(w, steps, id) && Unbuffered(Execute(w, steps).pump, id)
    decreases |steps|
  {
    hide Inv, Apply, Enabled, Unbuffered, IsOpen;
    OpenRegistered(w, id);
    if steps != [] {
      StepKeeps(w, steps[0]);
      StaysUnbuffered(w, steps[0], id);
      OwnServed(Apply(w, steps[0]), steps[1..], id);
    }
  }

  lemma OpenRegistered(w: World, id: Thread)
    requires IsOpen(w, id)
    ensures id in w.pump.sessions
  {
  }

  lemma StaysUnbuffered(w: World, step: Step, id: Thread)
    requires Inv(w) && Enabled(w, step) && id in w.pump.sessions && Unbuffered(w.pump, id)
    ensures Unbuffered(Apply(w, step).pump, id)
  {
    hide Sel, Events, Route, Inv, Handle, Arrives;
    InvParts(w);
    if step.PumpEvent? {
      PumpUnbuffered(w, step.known, id);
    }
  }

  lemma PumpUnbuffered(w: World, known: bool, id: Thread)
    requires |w.pump.channel| <= |w.read| && Enabled(w, PumpEvent(known)) && id in w.pump.sessions && Unbuffered(w.pump, id)
    ensures Unbuffered(Apply(w, PumpEvent(known)).pump, id)
  {
    hide Apply, Enabled, Handle, Route, Advance, Next;
    PumpEventIs(w, known);
    AdvanceIs(w.pump);
    HandleWaiting(Advance(w.pump), Next(w.pump), Ancestor(w, Next(w.pump), known));
    HandleKeeps(Advance(w.pump), Next(w.pump), Ancestor(w, Next(w.pump), known));
  }

  ghost predicate NeverBuffered(w: World, steps: seq<Step>, t: Thread)
    requires Legal(w, steps)
    decreases |steps|
  {
    Unbuffered(w.pump, t) && (steps == [] || NeverBuffered(Apply(w, steps[0]), steps[1..], t))
  }

  lemma ComingIsNotGone(w: World, id: Thread, e: Event)
    requires Kept(w) && Coming(w, id, e) && e in w.read
    ensures e !in w.gone && (Backend(e) in EntriesOf(w.pump, id) || e in Waiting(w.pump))
  {
    hide Events, Waiting, Accounted, Ascending;
    EventsMember(EntriesOf(w.pump, id), e);
    assert InQueue(w, id, e) ==> EntryFine(w, id, e);
  }

  /**
    No loss, for a session's own thread and for every thread that descends from it. From any reachable state, as
    long as the open session serves the thread and no step harms it: an event that was in its queue, on its
    way or still to be read is not gone, but in the session's queue or on its way there.
   */
  lemma ServedThreadLosesNothing(w: World, before: seq<Step>, after: seq<Step>, id: Thread, t: Thread, e: Event)
    requires Initial(w) && Legal(w, before) && Legal(Execute(w, before), after) && Served(Execute(w, before), after, id, t)
    requires e in Execute(Execute(w, before), after).read && e.thread == t && Coming(Execute(w, before), id, e)
    ensures var to := Execute(Execute(w, before), after);
            e !in to.gone && (Backend(e) in EntriesOf(to.pump, id) || e in Waiting(to.pump))
  {
    hide Apply, Enabled, Inv, Kept, IsOpen, Coming;
    InitialKept(w);
    KeptRuns(w, before);
    KeptRuns(Execute(w, before), after);
    ServedRuns(Execute(w, before), after, id, t, e);
    ComingIsNotGone(Execute(Execute(w, before), after), id, e);
  }

  /** For its own thread an open session needs nothing else than that the setup buffer is empty of it. */
  lemma OpenSessionLosesNothing(w: World, before: seq<Step>, after: seq<Step>, id: Thread, e: Event)
    requires Initial(w) && Legal(w, before) && Legal(Execute(w, before), after)
    requires StaysOpen(Execute(w, before), after, id) && Unbuffered(Execute(w, before).pump, id)
    requires e in Execute(Execute(w, before), after).read && e.thread == id && Coming(Execute(w, before), id, e)
    ensures var to := Execute(Execute(w, before), after);
            e !in to.gone && (Backend(e) in EntriesOf(to.pump, id) || e in to.pump.queued || e in to.pump.channel)
  {
    hide Apply, Enabled, Inv, Kept, IsOpen, Coming;
    InitialKept(w);
    KeptRuns(w, before);
    OwnServed(Execute(w, before), after, id);
    ServedThreadLosesNothing(w, before, after, id, id, e);
  }

  /**
    Every way of losing an event, in every reachable state: the queue it stands in goes with its session, a setup
    that buffered it fails, or the pump reaches it while nothing buffers it and no open session is found for it,
    neither its own nor, if the backend tells the ancestry, the one it descends from.
   */
  lemma LostExactly(w: World, steps: seq<Step>, step: Step, e: Event)
    requires Initial(w) && Legal(w, steps) && Enabled(Execute(w, steps), step)
    requires e !in Execute(w, steps).gone && e in Execute(w, steps).read
    ensures var from := Execute(w, steps);
            && |from.pump.channel| <= |from.read|
            && (e in Apply(from, step).gone <==>
                  || (exists id :: InQueue(from, id, e) && Forgets(from, step, id))
                  || (step.FailSetup? && e in from.pump.early)
                  || (step.PumpEvent? && e == Next(from.pump)
                      && (if e.thread in from.pump.sessions then !IsOpen(from, e.thread)
                          else (!from.pump.setup || from.pump.registered.Some?)
                               && !(step.known && e.thread in from.owners && IsOpen(from, from.owners[e.thread])))))
  {
    hide Apply, Enabled, Inv, Kept, InQueue, Accounted;
    InitialKept(w);
    KeptRuns(w, steps);
    var from := Execute(w, steps);
    InvParts(from);
    KeptParts(from);
    GoneMoves(from, step);
    LeavingExactly(from, step, e);
  }

  lemma LeavingExactly(w: World, step: Step, e: Event)
    requires ReaderOrder(w) && QueuedNeedsMarker(w.pump) && WaitingApart(w) && EntriesFine(w) && Accounted(w) && Enabled(w, step)
    requires e !in w.gone && e in w.read
    ensures e in Leaving(w, step) <==>
              || (exists id :: InQueue(w, id, e) && Forgets(w, step, id))
              || (step.FailSetup? && e in w.pump.early)
              || (step.PumpEvent? && e == Next(w.pump)
                  && (if e.thread in w.pump.sessions then !IsOpen(w, e.thread)
                      else (!w.pump.setup || w.pump.registered.Some?)
                           && !(step.known && e.thread in w.owners && IsOpen(w, w.owners[e.thread]))))
  {
    hide Sel, Events, Waiting, Ascending, InQueue;
    EarlyWaits(w.pump);
    if e in Waiting(w.pump) {
      WaitingEventMoves(w, step, e);
      forall id ensures !InQueue(w, id, e) {
        assert InQueue(w, id, e) ==> EntryFine(w, id, e);
      }
    } else {
      var id :| InQueue(w, id, e);
      assert EntryFine(w, id, e);
      QueuedMoves(w, step, id, e);
      if step.PumpEvent? {
        NextWaits(w.pump);
      }
    }
  }

  // ---------------------------------------------------------------- a setup without an overlapping fence loses nothing

  /** The event is waiting, or has not been read yet. */
  predicate Upcoming(w: World, e: Event) { e in Waiting(w.pump) || e !in w.read }

  /** While a setup runs: the new thread is not registered, no registration is accepted and the setup does not fail. */
  ghost predicate Undisturbed(w: World, steps: seq<Step>, t: Thread)
    requires Legal(w, steps)
    decreases |steps|
  {
    && t !in w.pump.sessions && w.pump.setup && w.pump.registered.None?
    && (steps == [] || (!steps[0].FailSetup? && !steps[0].PumpRegistration? && Undisturbed(Apply(w, steps[0]), steps[1..], t)))
  }

  lemma SetupStep(w: World, step: Step, t: Thread, e: Event)
    requires Inv(w) && Kept(w) && Enabled(w, step) && e.thread == t && Upcoming(w, e)
    requires t !in w.pump.sessions && w.pump.setup && w.pump.registered.None?
    requires !step.FailSetup? && !step.PumpRegistration?
    ensures Upcoming(Apply(w, step), e)
  {
    InvParts(w);
    KeptParts(w);
    hide Sel, Events, Route, Waiting, Apply, Inv, Kept, WaitingApart, EntriesFine, Accounted, InQueue;
    if e in Waiting(w.pump) {
      WaitingEventMoves(w, step, e);
    } else {
      ReadMoves(w, step);
      WaitingMoves(w, step);
    }
  }

  lemma {:induction false} SetupRuns(w: World, steps: seq<Step>, t: Thread, e: Event)
    requires Inv(w) && Kept(w) && Legal(w, steps) && Undisturbed(w, steps, t) && e.thread == t && Upcoming(w, e)
    ensures var w' := Execute(w, steps); Inv(w') && Kept(w') && t !in w'.pump.sessions && Upcoming(w', e)
    decreases |steps|
  {
    hide Inv, Kept, Apply, Enabled, Upcoming;
    if steps != [] {
      KeptKeeps(w, steps[0]);
      SetupStep(w, steps[0], t, e);
      SetupRuns(Apply(w, steps[0]), steps[1..], t, e);
    }
  }

  /** The marker of the new session is still to be queued. */
  predicate Awaited(p: Pump, t: Thread, token: nat) {
    p.registered.Some? && p.registered.value.token == token && p.registered.value.id == t && Arrives(p, p.registered.value)
  }

  /** How far the events that the setup had buffered are: queued behind the marker's turn, or in front of the marker. */
  ghost predicate BufferedFirst(w: World, t: Thread, token: nat, buffered: set<Event>) {
    && t in w.pump.sessions
    && (Awaited(w.pump, t, token) ==>
          forall e <- buffered :: e in w.pump.queued || Backend(e) in w.pump.sessions[t].entries)
    && (!Awaited(w.pump, t, token) ==>
          && token in w.marks && w.marks[token].id == t && w.marks[token].index < |w.pump.sessions[t].entries|
          && forall e <- buffered :: Backend(e) in w.pump.sessions[t].entries[..w.marks[token].index])
  }

  lemma BufferedWaits(w: World, step: Step, t: Thread, token: nat, buffered: set<Event>)
    requires Inv(w) && Enabled(w, step) && IsOpen(w, t) && IsOpen(Apply(w, step), t) && !Reregisters(w, step, t)
    requires BufferedFirst(w, t, token, buffered) && forall e <- buffered :: e.thread == t
    requires Awaited(w.pump, t, token)
    ensures BufferedFirst(Apply(w, step), t, token, buffered)
  {
    hide Sel, Events, InOrder, MarkFine, FenceFine, TokensFine, BufferBounds, WorkersFine;
    if step.PumpMarker? {
      var entries := w.pump.sessions[t].entries;
      assert (entries + [Registered(token)])[..|entries|] == entries;
    } else if step.PumpEvent? {
      var e := Next(w.pump);
      assert w.pump.queued != [] ==> w.pump.queued == [e] + w.pump.queued[1..];
    }
  }

  lemma BufferedStays(w: World, step: Step, t: Thread, token: nat, buffered: set<Event>)
    requires Inv(w) && Enabled(w, step) && IsOpen(w, t) && IsOpen(Apply(w, step), t) && !Reregisters(w, step, t)
    requires BufferedFirst(w, t, token, buffered)
    requires !Awaited(w.pump, t, token)
    ensures BufferedFirst(Apply(w, step), t, token, buffered)
  {
    hide Sel, Events, InOrder, FenceFine, BufferBounds, WorkersFine;
    assert MarkFine(w, token);
    MarkerKept(w, step, t, token);
    QueueGrows(w, step, token);
    var w', index := Apply(w, step), w.marks[token].index;
    hide Apply, TokensFine, MarkFine;
    assert w'.pump.sessions[t].entries[..index] == w.pump.sessions[t].entries[..index];
  }

  lemma MarkerKept(w: World, step: Step, t: Thread, token: nat)
    requires |w.pump.channel| <= |w.read| && TokensFine(w) && Enabled(w, step) && IsOpen(w, t) && IsOpen(Apply(w, step), t)
    requires !Reregisters(w, step, t) && token in w.marks && w.marks[token].id == t
    ensures token in Apply(w, step).marks && !Awaited(Apply(w, step).pump, t, token)
    ensures !(step.PumpMarker? && w.pump.registered.value.token == token) && step != Resume(t)
  {
    hide Sel, Events, Route;
    if step.PumpRegistration? {
      assert w.registrations[0] in w.registrations;
    } else if step.PumpEvent? {
      PumpEventIs(w, step.known);
    }
  }

  lemma {:induction false} BufferedRuns(w: World, steps: seq<Step>, t: Thread, token: nat, buffered: set<Event>)
    requires Inv(w) && Legal(w, steps) && StaysOpen(w, steps, t)
    requires BufferedFirst(w, t, token, buffered) && forall e <- buffered :: e.thread == t
    ensures BufferedFirst(Execute(w, steps), t, token, buffered)
    decreases |steps|
  {
    hide Inv, Apply, Enabled, IsOpen, BufferedFirst;
    if steps != [] {
      StepKeeps(w, steps[0]);
      if Awaited(w.pump, t, token) {
        BufferedWaits(w, steps[0], t, token, buffered);
      } else {
        BufferedStays(w, steps[0], t, token, buffered);
      }
      BufferedRuns(Apply(w, steps[0]), steps[1..], t, token, buffered);
    }
  }

  lemma MarkedNotAwaited(w: World, t: Thread, token: nat)
    requires Inv(w)
    ensures token in w.marks ==> !Awaited(w.pump, t, token)
  {
  }

  lemma RegistrationStep(w: World, t: Thread, token: nat)
    requires Inv(w) && Kept(w) && Enabled(w, PumpRegistration) && w.registrations[0] == New(t, token) && t !in w.pump.sessions
    ensures var next := Apply(w, PumpRegistration);
            && Inv(next) && Kept(next) && Unbuffered(next.pump, t) && next.read == w.read && Waiting(next.pump) == Waiting(w.pump)
            && BufferedFirst(next, t, token, set e | e in w.pump.early && e.thread == t)
  {
    hide Inv, Kept, Apply, Enabled, Waiting, Unbuffered, BufferedFirst;
    InvParts(w);
    StepKeeps(w, PumpRegistration);
    KeptKeeps(w, PumpRegistration);
    WaitingMoves(w, PumpRegistration);
    RegistrationBuffers(w, t, token);
  }

  /** What the setup has buffered is queued in front of the new session's marker. */
  lemma RegistrationBuffers(w: World, t: Thread, token: nat)
    requires |w.pump.channel| <= |w.read| && Enabled(w, PumpRegistration) && w.registrations[0] == New(t, token) && t !in w.pump.sessions
    ensures var next := Apply(w, PumpRegistration);
            && Unbuffered(next.pump, t) && next.read == w.read
            && BufferedFirst(next, t, token, set e | e in w.pump.early && e.thread == t)
  {
    hide Sel, Events;
  }

  lemma SetupEventComes(start: World, during: seq<Step>, after: seq<Step>, t: Thread, token: nat, e: Event)
    requires Inv(start) && Kept(start) && Legal(start, during) && Undisturbed(start, during, t)
    requires var ready := Execute(start, during);
             && ready.registrations != [] && ready.registrations[0] == New(t, token) && Enabled(ready, PumpRegistration)
             && |ready.pump.channel| <= |ready.read|
             && Legal(Apply(ready, PumpRegistration), after) && StaysOpen(Apply(ready, PumpRegistration), after, t)
    requires e.thread == t && Upcoming(start, e)
    ensures var ready := Execute(start, during);
            var to := Execute(Apply(ready, PumpRegistration), after);
            && Inv(to) && Kept(to) && Unbuffered(to.pump, t) && Coming(to, t, e) && IsOpen(to, t)
            && BufferedFirst(to, t, token, set x | x in ready.pump.early && x.thread == t)
  {
    hide Inv, Kept, Apply, Enabled, IsOpen, Unbuffered, BufferedFirst, Waiting, Served, NeverBuffered;
    SetupRuns(start, during, t, e);
    var ready := Execute(start, during);
    RegistrationStep(ready, t, token);
    var next := Apply(ready, PumpRegistration);
    OwnServed(next, after, t);
    ServedRuns(next, after, t, t, e);
    KeptRuns(next, after);
    BufferedRuns(next, after, t, token, set x | x in ready.pump.early && x.thread == t);
  }

  /**
    A session's setup. Let a setup be in progress with no registration or fence being drained; let no other
    registration or fence be accepted and the setup not fail until the new thread is registered; let the
    session then stay open. No event of the thread that was upcoming at the start is gone, and those that had
    been buffered at the registration stand in front of its marker once that is queued.
   */
  lemma SetupLosesNothing(w: World, before: seq<Step>, during: seq<Step>, after: seq<Step>, t: Thread, token: nat, e: Event)
    requires Initial(w) && Legal(w, before) && Legal(Execute(w, before), during)
    requires Undisturbed(Execute(w, before), during, t)
    requires var ready := Execute(Execute(w, before), during);
             && ready.registrations != [] && ready.registrations[0] == New(t, token) && Enabled(ready, PumpRegistration)
             && |ready.pump.channel| <= |ready.read|
             && Legal(Apply(ready, PumpRegistration), after) && StaysOpen(Apply(ready, PumpRegistration), after, t)
    requires var ready := Execute(Execute(w, before), during);
             e in Execute(Apply(ready, PumpRegistration), after).read && e.thread == t && Upcoming(Execute(w, before), e)
    ensures var ready := Execute(Execute(w, before), during);
            var to := Execute(Apply(ready, PumpRegistration), after);
            && t in to.pump.sessions && e !in to.gone
            && (Backend(e) in to.pump.sessions[t].entries || e in to.pump.queued || e in to.pump.channel)
            && (e in ready.pump.early && token in to.marks ==>
                  && to.marks[token].id == t && to.marks[token].index < |to.pump.sessions[t].entries|
                  && Backend(e) in to.pump.sessions[t].entries[..to.marks[token].index])
  {
    hide Inv, Kept, Apply, Enabled, IsOpen, Coming, Awaited;
    InitialKept(w);
    KeptRuns(w, before);
    var start := Execute(w, before);
    SetupEventComes(start, during, after, t, token, e);
    var to := Execute(Apply(Execute(start, during), PumpRegistration), after);
    OpenRegistered(to, t);
    ComingIsNotGone(to, t, e);
    MarkedNotAwaited(to, t, token);
  }
}
