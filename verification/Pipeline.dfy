/**
  From the backend reader to the session queues: the event pump, its setup buffer and its fence
  (src/server/events.rs, src/server/dispatch.rs, src/server/mod.rs, src/backend/transport.rs).

  One reader appends events to a channel and answers requests in frame order. The pump moves events
  to per-session queues; a worker per session handles each queue in order. `Registered` entries tell
  the caller of `register` or `synchronize_session` that everything in front of them was handled.
 */
module Pipeline {
  import opened Prelude

  type Thread = string

  const MAX_EARLY_EVENTS: nat := 256

  datatype Event = Event(sequence: nat, thread: Thread, bytes: nat)

  datatype Entry = Backend(event: Event) | Registered(token: nat)

  /** The identity of a session object; an id can be given to a new one. */
  type Object = nat

  /** A registered session: all entries its queue was ever given, and how many its worker finished. */
  datatype Queue = Queue(identity: Object, entries: seq<Entry>, handled: nat, open: bool)

  datatype Marker = Marker(id: Thread, identity: Object, token: nat, finishSetup: bool)

  datatype Registration = New(id: Thread, token: nat) | Fence(id: Thread, identity: Object, token: nat)

  // ---------------------------------------------------------------- the pump's own steps

  datatype Pump = Pump(
    channel: seq<Event>,
    queued: seq<Event>,
    registered: Option<Marker>,
    setup: bool,
    early: seq<Event>,
    earlyBytes: nat,
    created: Object,             // the next session object
    sessions: map<Thread, Queue>)

  function Enqueue(p: Pump, id: Thread, entry: Entry): Pump
    requires id in p.sessions
  {
    p.(sessions := p.sessions[id := p.sessions[id].(entries := p.sessions[id].entries + [entry])])
  }

  /** The marker belongs to a session object; one that has been replaced gets it in a queue of its own. */
  predicate Arrives(p: Pump, marker: Marker) { marker.id in p.sessions && p.sessions[marker.id].identity == marker.identity }

  function TakeMarker(p: Pump): Pump
    requires p.registered.Some?
  {
    var marker := p.registered.value;
    var p' := p.(registered := None, setup := p.setup && !marker.finishSetup);
    if Arrives(p, marker) then Enqueue(p', marker.id, Registered(marker.token)) else p'
  }

  function Accept(p: Pump, registration: Registration): Pump {
    match registration
    case New(id, token) =>
      p.(sessions := p.sessions[id := Queue(p.created, [], 0, true)], created := p.created + 1,
         queued := p.early, early := [], earlyBytes := 0, registered := Some(Marker(id, p.created, token, true)))
    case Fence(id, identity, token) =>
      p.(queued := p.queued + p.channel, channel := [], registered := Some(Marker(id, identity, token, false)))
  }

  /** The event is kept until the session being set up is registered. */
  predicate Buffers(p: Pump, e: Event) {
    e.thread !in p.sessions && p.setup && p.registered.None?
  }

  predicate Fits(p: Pump, e: Event, maxFrame: nat) {
    |p.early| < MAX_EARLY_EVENTS && p.earlyBytes + e.bytes <= maxFrame
  }

  /** The session that receives an event; `ancestor` is what the backend's metadata says of other threads. */
  function Route(p: Pump, e: Event, ancestor: Option<Thread>): Option<Thread> {
    if e.thread in p.sessions then (if p.sessions[e.thread].open then Some(e.thread) else None)
    else if ancestor.Some? && ancestor.value in p.sessions && p.sessions[ancestor.value].open then ancestor
    else None
  }

  function Handle(p: Pump, e: Event, ancestor: Option<Thread>): Pump {
    if Buffers(p, e) then p.(early := p.early + [e], earlyBytes := p.earlyBytes + e.bytes)
    else
      match Route(p, e, ancestor)
      case Some(id) => Enqueue(p, id, Backend(e))
      case None => p
  }

  predicate HasNext(p: Pump) { p.queued != [] || (p.registered.None? && p.channel != []) }

  function Next(p: Pump): Event
    requires HasNext(p)
  {
    if p.queued != [] then p.queued[0] else p.channel[0]
  }

  function Advance(p: Pump): Pump
    requires HasNext(p)
  {
    if p.queued != [] then p.(queued := p.queued[1..]) else p.(channel := p.channel[1..])
  }

  /** The event pump's variables and the part of `State` it owns. */
  class EventPump {
    var channel: seq<Event>
    var queued: seq<Event>
    var registered: Option<Marker>
    var setupInProgress: bool
    var earlyEvents: seq<Event>
    var earlyBytes: nat
    var created: Object
    var sessions: map<Thread, Queue>

    function Model(): Pump
      reads this
    {
      Pump(channel, queued, registered, setupInProgress, earlyEvents, earlyBytes, created, sessions)
    }

    method EnqueueSessionEvent(id: Thread, entry: Entry)
      requires id in sessions
      modifies this`sessions
      ensures Model() == Enqueue(old(Model()), id, entry)
    {
      var queue := sessions[id];
      sessions := sessions[id := queue.(entries := queue.entries + [entry])];
    }

    /** The head of the loop: the marker follows everything that was queued with it. */
    method FlushMarker()
      modifies this
      ensures Model() == if old(queued == [] && registered.Some?) then TakeMarker(old(Model())) else old(Model())
    {
      if queued == [] && registered.Some? {
        var marker := registered.value;
        registered := None;
        if marker.finishSetup {
          setupInProgress := false;
        }
        if marker.id in sessions && sessions[marker.id].identity == marker.identity {
          EnqueueSessionEvent(marker.id, Registered(marker.token));
        }
      }
    }

    method OnRegistration(registration: Registration)
      modifies this
      ensures Model() == Accept(old(Model()), registration)
    {
      match registration {
        case New(id, token) =>
          sessions := sessions[id := Queue(created, [], 0, true)];
          queued := earlyEvents;
          earlyEvents := [];
          earlyBytes := 0;
          registered := Some(Marker(id, created, token, true));
          created := created + 1;
        case Fence(id, identity, token) =>
          ghost var q0, c0 := queued, channel;
          var n := |channel|;
          for i := 0 to n
            invariant queued == q0 + c0[..i] && channel == c0[i..]
            invariant unchanged(this`registered, this`setupInProgress, this`earlyEvents, this`earlyBytes, this`created, this`sessions)
          {
            if channel != [] {
              queued := queued + [channel[0]];
              channel := channel[1..];
            }
          }
          registered := Some(Marker(id, identity, token, false));
      }
    }

    method OnEvent(e: Event, ancestor: Option<Thread>, maxFrame: nat) returns (ok: bool)
      modifies this
      ensures ok <==> (Buffers(old(Model()), e) ==> Fits(old(Model()), e, maxFrame))
      ensures Model() == if ok then Handle(old(Model()), e, ancestor) else old(Model())
    {
      if e.thread !in sessions && setupInProgress && registered.None? {
        if |earlyEvents| >= MAX_EARLY_EVENTS || earlyBytes + e.bytes > maxFrame {
          return false;
        }
        earlyBytes := earlyBytes + e.bytes;
        earlyEvents := earlyEvents + [e];
        return true;
      }
      ok := true;
      var route := Route(Model(), e, ancestor);
      if route.Some? {
        EnqueueSessionEvent(route.value, Backend(e));
      }
    }
  }

  // ---------------------------------------------------------------- runs of the whole pipeline

  /** A fence requested after `seen` had been observed, when `position` events had been read. */
  datatype Request = Request(id: Thread, position: nat, seen: nat)

  /** A marker put at index `index` of a queue when the pump had consumed `position` events. */
  datatype Mark = Mark(id: Thread, index: nat, position: nat)

  /**
    `owners` gives the session that a descendant thread belongs to; ancestry never changes. `read` is every
    event the reader accepted, in order. `gone` holds those that left the pump other than into the queue of
    their own or their owner's session, or whose queue has gone with its session since. `disordered` holds
    threads that were resumed, or had an event handed on, while a setup still buffered earlier events of them.
   */
  datatype World = World(
    owners: map<Thread, Thread>,
    pump: Pump,
    sequence: nat,
    registrations: seq<Registration>,
    maxFrame: nat,
    read: seq<Event>,
    gone: set<Event>,
    disordered: set<Thread>,
    used: set<nat>,
    fences: map<nat, Request>,
    marks: map<nat, Mark>)

  datatype Step =
    | ReadEvent(thread: Thread, bytes: nat)
    | ReadResponse
    | SendNew(id: Thread, token: nat)
    | SendFence(id: Thread, token: nat, seen: nat)
    | BeginSetup
    | FailSetup
    | PumpMarker
    | PumpRegistration
    | PumpEvent(known: bool)         // whether the backend tells the thread's ancestry, should it be asked
    | Work(id: Thread)
    | Resume(id: Thread)             // resume registers a session without the pump
    | SetOpen(id: Thread, open: bool)
    | Close(id: Thread)

  predicate Enabled(w: World, step: Step) {
    var p := w.pump;
    match step
    case SendNew(_, token) => token !in w.used
    case SendFence(id, token, seen) => id in p.sessions && token !in w.used && seen <= w.sequence
    case PumpMarker => p.queued == [] && p.registered.Some?
    case PumpRegistration => p.queued == [] && p.registered.None? && w.registrations != []
    case PumpEvent(_) => HasNext(p) && (Buffers(p, Next(p)) ==> Fits(p, Next(p), w.maxFrame))
    case Work(id) => id in p.sessions && p.sessions[id].handled < |p.sessions[id].entries|
    case Resume(id) => id !in p.sessions
    case SetOpen(id, _) => id in p.sessions
    case Close(id) => id in p.sessions
    case _ => true
  }

  /** The events of a thread that are still in the pipeline or in its own session. */
  function Sel(events: seq<Event>, thread: Thread, gone: set<Event>): (r: seq<Event>)
    ensures |r| <= |events|
  {
    if events == [] then []
    else
      var e := events[|events| - 1];
      Sel(events[..|events| - 1], thread, gone) + if e.thread == thread && e !in gone then [e] else []
  }

  function Events(entries: seq<Entry>): (r: seq<Event>)
    ensures |r| <= |entries|
  {
    if entries == [] then []
    else
      var x := entries[|entries| - 1];
      Events(entries[..|entries| - 1]) + if x.Backend? then [x.event] else []
  }

  function EntriesOf(p: Pump, id: Thread): seq<Entry> {
    if id in p.sessions then p.sessions[id].entries else []
  }

  /** The queue of the session that a thread belongs to. */
  function OwnersEntries(p: Pump, owners: map<Thread, Thread>, t: Thread): seq<Entry> {
    if t in owners then EntriesOf(p, owners[t]) else []
  }

  /** What the ancestry walk answers for a thread that is no session itself. */
  function Ancestor(w: World, e: Event, known: bool): Option<Thread> {
    if known then Get(w.owners, e.thread) else None
  }

  function Consumed(w: World): nat
    requires |w.pump.channel| <= |w.read|
  {
    |w.read| - |w.pump.channel|
  }

  /** Replacing or removing a session forgets the events and markers of its queue. */
  function Forget(w: World, id: Thread): World {
    w.(gone := w.gone + (set e | e in Events(EntriesOf(w.pump, id))),
       marks := map token | token in w.marks && w.marks[token].id != id :: w.marks[token])
  }

  function Apply(w: World, step: Step): World
    requires Enabled(w, step) && |w.pump.channel| <= |w.read|
  {
    var p := w.pump;
    match step
    case ReadEvent(thread, bytes) =>
      var e := Event(w.sequence + 1, thread, bytes);
      w.(sequence := w.sequence + 1, read := w.read + [e], pump := p.(channel := p.channel + [e]))
    case ReadResponse => w.(sequence := w.sequence + 1)
    case SendNew(id, token) => w.(registrations := w.registrations + [New(id, token)], used := w.used + {token})
    case SendFence(id, token, seen) =>
      w.(registrations := w.registrations + [Fence(id, p.sessions[id].identity, token)], used := w.used + {token},
         fences := w.fences[token := Request(id, |w.read|, seen)])
    case BeginSetup => w.(pump := p.(setup := true))
    case FailSetup =>
      w.(pump := p.(setup := false, early := [], earlyBytes := 0), gone := w.gone + (set e | e in p.early))
    case PumpMarker =>
      var m := p.registered.value;
      w.(pump := TakeMarker(p),
         marks := if Arrives(p, m)
                  then w.marks[m.token := Mark(m.id, |p.sessions[m.id].entries|, Consumed(w))] else w.marks)
    case PumpRegistration =>
      var r := w.registrations[0];
      var w' := if r.New? then Forget(w, r.id) else w;
      w'.(pump := Accept(p, r), registrations := w.registrations[1..])
    case PumpEvent(known) =>
      var e, p' := Next(p), Advance(p);
      var ancestor := Ancestor(w, e, known);
      w.(pump := Handle(p', e, ancestor),
         gone := if Buffers(p, e) || Route(p, e, ancestor).Some? then w.gone else w.gone + {e},
         disordered := if !Buffers(p, e) && Route(p, e, ancestor).Some? && Sel(p.early, e.thread, w.gone) != []
                       then w.disordered + {e.thread} else w.disordered)
    case Work(id) => w.(pump := p.(sessions := p.sessions[id := p.sessions[id].(handled := p.sessions[id].handled + 1)]))
    case Resume(id) =>
      w.(pump := p.(sessions := p.sessions[id := Queue(p.created, [], 0, true)], created := p.created + 1),
         disordered := if Sel(p.early, id, w.gone) == [] then w.disordered else w.disordered + {id})
    case SetOpen(id, open) => w.(pump := p.(sessions := p.sessions[id := p.sessions[id].(open := open)]))
    case Close(id) => Forget(w, id).(pump := p.(sessions := p.sessions - {id}))
  }

  ghost predicate Legal(w: World, steps: seq<Step>)
    decreases |steps|
  {
    steps == []
    || (Enabled(w, steps[0]) && |w.pump.channel| <= |w.read| && Legal(Apply(w, steps[0]), steps[1..]))
  }

  ghost function Execute(w: World, steps: seq<Step>): World
    requires Legal(w, steps)
    decreases |steps|
  {
    if steps == [] then w else Execute(Apply(w, steps[0]), steps[1..])
  }

  predicate Initial(w: World) {
    && w.pump == Pump([], [], None, false, [], 0, 0, map[])
    && (forall t <- w.owners :: w.owners[t] != t)
    && w.sequence == 0 && w.registrations == [] && w.read == [] && w.gone == {} && w.disordered == {}
    && w.used == {} && w.fences == map[] && w.marks == map[]
  }

  // ---------------------------------------------------------------- invariants

  function TotalBytes(events: seq<Event>): nat {
    if events == [] then 0 else TotalBytes(events[..|events| - 1]) + events[|events| - 1].bytes
  }

  /** Reader order: increasing sequence numbers, and the channel is the unread end of what was read. */
  ghost predicate ReaderOrder(w: World) {
    && |w.pump.channel| <= |w.read|
    && w.pump.channel == w.read[|w.read| - |w.pump.channel|..]
    && (forall i, j :: 0 <= i < j < |w.read| ==> w.read[i].sequence < w.read[j].sequence)
    && (forall i :: 0 <= i < |w.read| ==> w.read[i].sequence <= w.sequence)
  }

  predicate QueuedNeedsMarker(p: Pump) { p.queued != [] ==> p.registered.Some? }

  ghost predicate BufferBounds(w: World) {
    var p := w.pump;
    && QueuedNeedsMarker(p)
    && p.earlyBytes == TotalBytes(p.early)
    && p.earlyBytes <= w.maxFrame && |p.early| <= MAX_EARLY_EVENTS
  }

  /**
    A thread's events in the queues: of its owner's session, and of its own if it is a session itself. It has
    entries in both only if it became a session later than it had events as a descendant.
   */
  function InQueues(p: Pump, owners: map<Thread, Thread>, t: Thread, gone: set<Event>): seq<Event> {
    Sel(Events(OwnersEntries(p, owners, t)), t, gone) + Sel(Events(EntriesOf(p, t)), t, gone)
  }

  function Places(p: Pump, owners: map<Thread, Thread>, t: Thread, gone: set<Event>): seq<Event> {
    InQueues(p, owners, t, gone) + Sel(p.early, t, gone) + Sel(p.queued, t, gone) + Sel(p.channel, t, gone)
  }

  /** Every event of a thread that is not gone is in one place, and the places are in reader order. */
  ghost predicate Ordered(w: World, t: Thread) { Sel(w.read, t, w.gone) == Places(w.pump, w.owners, t, w.gone) }

  ghost predicate BufferFree(w: World, t: Thread) { t in w.pump.sessions ==> Sel(w.pump.early, t, w.gone) == [] }

  ghost predicate InOrder(w: World, t: Thread) { Ordered(w, t) && BufferFree(w, t) }

  ghost predicate MarkFine(w: World, token: nat)
    requires token in w.marks
  {
    var m := w.marks[token];
    && token in w.used && m.id in w.pump.sessions && m.position <= |w.read|
    && m.index < |w.pump.sessions[m.id].entries|
    && w.pump.sessions[m.id].entries[m.index] == Registered(token)
    && (m.id !in w.disordered
        ==> Sel(w.read[..m.position], m.id, w.gone)
            == Sel(Events(OwnersEntries(w.pump, w.owners, m.id)), m.id, w.gone)
               + Sel(Events(w.pump.sessions[m.id].entries[..m.index]), m.id, w.gone))
  }

  ghost predicate FenceFine(w: World, token: nat)
    requires token in w.fences && |w.pump.channel| <= |w.read|
  {
    var f := w.fences[token];
    && token in w.used && f.position <= |w.read| && f.seen <= w.sequence
    && (forall i :: f.position <= i < |w.read| ==> f.seen < w.read[i].sequence)
    && (w.pump.registered.Some? && w.pump.registered.value.token == token ==> f.position <= Consumed(w))
    && (token in w.marks ==> f.position <= w.marks[token].position)
  }

  ghost predicate TokensFine(w: World) {
    && w.marks.Keys <= w.used && w.fences.Keys <= w.used
    && (forall r <- w.registrations :: r.token in w.used && (r.New? <==> r.token !in w.fences) && r.token !in w.marks)
    && (forall i, j :: 0 <= i < j < |w.registrations| ==> w.registrations[i].token != w.registrations[j].token)
    && (w.pump.registered.Some? ==>
          var m := w.pump.registered.value;
          m.token in w.used && m.token !in w.marks && forall r <- w.registrations :: r.token != m.token)
  }

  ghost predicate WorkersFine(w: World) {
    forall id <- w.pump.sessions :: w.pump.sessions[id].handled <= |w.pump.sessions[id].entries|
  }

  ghost predicate Inv(w: World) {
    && WorkersFine(w) && (forall t <- w.owners :: w.owners[t] != t)
    && ReaderOrder(w) && BufferBounds(w) && TokensFine(w)
    && (forall t :: t !in w.disordered ==> InOrder(w, t))
    && (forall token <- w.marks :: MarkFine(w, token))
    && (forall token <- w.fences :: FenceFine(w, token))
  }

  // ---------------------------------------------------------------- selections

  lemma {:induction false} SelAppend(xs: seq<Event>, ys: seq<Event>, t: Thread, gone: set<Event>)
    ensures Sel(xs + ys, t, gone) == Sel(xs, t, gone) + Sel(ys, t, gone)
  {
    if ys == [] {
      assert xs + ys == xs;
    } else {
      assert (xs + ys)[..|xs + ys| - 1] == xs + ys[..|ys| - 1];
      SelAppend(xs, ys[..|ys| - 1], t, gone);
    }
  }

  lemma SelHead(xs: seq<Event>, t: Thread, gone: set<Event>)
    requires xs != []
    ensures Sel(xs, t, gone) == (if xs[0].thread == t && xs[0] !in gone then [xs[0]] else []) + Sel(xs[1..], t, gone)
  {
    assert xs == xs[..1] + xs[1..];
    SelAppend(xs[..1], xs[1..], t, gone);
    assert xs[..1][..0] == [];
  }

  lemma SelOne(xs: seq<Event>, e: Event, t: Thread, gone: set<Event>)
    ensures Sel(xs + [e], t, gone) == if e.thread == t && e !in gone then Sel(xs, t, gone) + [e] else Sel(xs, t, gone)
  {
    assert (xs + [e])[..|xs|] == xs;
  }

  lemma EventsOne(entries: seq<Entry>, x: Entry)
    ensures Events(entries + [x]) == if x.Backend? then Events(entries) + [x.event] else Events(entries)
  {
    assert (entries + [x])[..|entries|] == entries;
  }

  function Without(xs: seq<Event>, out: set<Event>): (r: seq<Event>)
    ensures |r| <= |xs|
  {
    if xs == [] then []
    else Without(xs[..|xs| - 1], out) + if xs[|xs| - 1] in out then [] else [xs[|xs| - 1]]
  }

  lemma {:induction false} WithoutAppend(xs: seq<Event>, ys: seq<Event>, out: set<Event>)
    ensures Without(xs + ys, out) == Without(xs, out) + Without(ys, out)
  {
    if ys == [] {
      assert xs + ys == xs;
    } else {
      assert (xs + ys)[..|xs + ys| - 1] == xs + ys[..|ys| - 1];
      WithoutAppend(xs, ys[..|ys| - 1], out);
    }
  }

  lemma {:induction false} SelMore(xs: seq<Event>, t: Thread, gone: set<Event>, out: set<Event>)
    ensures Sel(xs, t, gone + out) == Without(Sel(xs, t, gone), out)
  {
    if xs != [] {
      var init, e := xs[..|xs| - 1], xs[|xs| - 1];
      SelMore(init, t, gone, out);
      WithoutAppend(Sel(init, t, gone), if e.thread == t && e !in gone then [e] else [], out);
      assert [e][..0] == [];
    }
  }

  /** An order equation survives the departure of events, from all its places at once. */
  lemma PlacesMore(p: Pump, owners: map<Thread, Thread>, t: Thread, gone: set<Event>, out: set<Event>)
    ensures InQueues(p, owners, t, gone + out) == Without(InQueues(p, owners, t, gone), out)
    ensures Places(p, owners, t, gone + out) == Without(Places(p, owners, t, gone), out)
  {
    hide Sel, Events, Without;
    var owned, own := Events(OwnersEntries(p, owners, t)), Events(EntriesOf(p, t));
    SelMore(owned, t, gone, out);
    SelMore(own, t, gone, out);
    SelMore(p.early, t, gone, out);
    SelMore(p.queued, t, gone, out);
    SelMore(p.channel, t, gone, out);
    WithoutAppend(Sel(owned, t, gone), Sel(own, t, gone), out);
    var a, b, c, d := InQueues(p, owners, t, gone), Sel(p.early, t, gone), Sel(p.queued, t, gone), Sel(p.channel, t, gone);
    WithoutAppend(a, b, out);
    WithoutAppend(a + b, c, out);
    WithoutAppend(a + b + c, d, out);
  }

  lemma {:induction false} SelEmpty(xs: seq<Event>, t: Thread, gone: set<Event>)
    requires forall e <- xs :: e in gone
    ensures Sel(xs, t, gone) == []
  {
    if xs != [] {
      assert forall e <- xs[..|xs| - 1] :: e in xs;
      SelEmpty(xs[..|xs| - 1], t, gone);
    }
  }

  lemma {:induction false} SelMember(xs: seq<Event>, t: Thread, gone: set<Event>, e: Event)
    ensures e in Sel(xs, t, gone) <==> e in xs && e.thread == t && e !in gone
  {
    if xs != [] {
      SelMember(xs[..|xs| - 1], t, gone, e);
      assert xs == xs[..|xs| - 1] + [xs[|xs| - 1]];
    }
  }

  lemma {:induction false} EventsMember(entries: seq<Entry>, e: Event)
    ensures e in Events(entries) <==> Backend(e) in entries
  {
    if entries != [] {
      EventsMember(entries[..|entries| - 1], e);
      assert entries == entries[..|entries| - 1] + [entries[|entries| - 1]];
    }
  }

  // ---------------------------------------------------------------- order

  /** The next event leaves the queued events, or the channel when nothing is queued. */
  lemma AdvanceSel(p: Pump, t: Thread, gone: set<Event>)
    requires HasNext(p) && QueuedNeedsMarker(p)
    ensures var e, p' := Next(p), Advance(p);
            Sel(p.queued, t, gone) + Sel(p.channel, t, gone)
            == (if e.thread == t && e !in gone then [e] else []) + Sel(p'.queued, t, gone) + Sel(p'.channel, t, gone)
  {
    hide Sel;
    if p.queued != [] {
      SelHead(p.queued, t, gone);
    } else {
      SelHead(p.channel, t, gone);
    }
  }

  /** What handling an event leaves alone. */
  lemma HandleKeeps(p: Pump, e: Event, ancestor: Option<Thread>)
    ensures var p' := Handle(p, e, ancestor);
            && p'.channel == p.channel && p'.queued == p.queued && p'.registered == p.registered && p'.setup == p.setup
            && (!Buffers(p, e) ==> p'.early == p.early && (Route(p, e, ancestor).None? ==> p' == p))
            && (Buffers(p, e) ==> p'.sessions == p.sessions && p'.early == p.early + [e])
  {
    hide Route;
  }

  lemma AdvanceIs(p: Pump)
    requires HasNext(p)
    ensures var p' := Advance(p);
            && p' == p.(channel := p'.channel, queued := p'.queued) && |p'.channel| <= |p.channel|
            && (p'.channel == p.channel || (p'.channel == p.channel[1..] && p.channel != [] && p.registered.None?))
            && (p'.queued != [] ==> p.queued != [])
  {
  }

  /** The pump's step for an event, in terms of its parts. */
  lemma PumpEventIs(w: World, known: bool)
    requires |w.pump.channel| <= |w.read| && Enabled(w, PumpEvent(known))
    ensures HasNext(w.pump)
    ensures var w', e := Apply(w, PumpEvent(known)), Next(w.pump);
            var ancestor := Ancestor(w, e, known);
            && w' == w.(pump := Handle(Advance(w.pump), e, ancestor), gone := w'.gone, disordered := w'.disordered)
            && w'.pump.channel == Advance(w.pump).channel && w'.pump.queued == Advance(w.pump).queued
            && w'.pump.registered == w.pump.registered && w.gone <= w'.gone && w.disordered <= w'.disordered
            && (Buffers(w.pump, e) || Route(w.pump, e, ancestor).Some? || e in w'.gone)
  {
    hide Sel, Buffers, Fits, Route, Handle, Ancestor;
    HandleKeeps(Advance(w.pump), Next(w.pump), Ancestor(w, Next(w.pump), known));
    AdvanceIs(w.pump);
  }

  lemma BufferedSel(p: Pump, owners: map<Thread, Thread>, e: Event, ancestor: Option<Thread>, t: Thread, gone: set<Event>)
    requires Buffers(p, e)
    ensures var p' := Handle(p, e, ancestor);
            && InQueues(p', owners, t, gone) == InQueues(p, owners, t, gone)
            && Sel(p'.early, t, gone) == Sel(p.early, t, gone) + (if e.thread == t && e !in gone then [e] else [])
  {
    hide Sel, Events, Route, Handle;
    HandleKeeps(p, e, ancestor);
    SelOne(p.early, e, t, gone);
  }

  /** Handling an event puts it at the end of a queue of its thread or of the buffer, or out of the pump. */
  lemma HandleSel(p: Pump, owners: map<Thread, Thread>, e: Event, ancestor: Option<Thread>, t: Thread, gone: set<Event>)
    requires (ancestor.Some? ==> e.thread in owners && ancestor.value == owners[e.thread]) && forall x <- owners :: owners[x] != x
    requires e.thread == t && !Buffers(p, e) && Route(p, e, ancestor).Some? ==> Sel(p.early, t, gone) == []
    requires Buffers(p, e) || Route(p, e, ancestor).Some? || e in gone
    ensures var p' := Handle(p, e, ancestor);
            InQueues(p', owners, t, gone) + Sel(p'.early, t, gone)
            == InQueues(p, owners, t, gone) + Sel(p.early, t, gone) + (if e.thread == t && e !in gone then [e] else [])
  {
    hide Sel, Events, InQueues, Handle, Route, Buffers;
    HandleKeeps(p, e, ancestor);
    if Buffers(p, e) {
      BufferedSel(p, owners, e, ancestor, t, gone);
    } else if Route(p, e, ancestor).Some? {
      RoutedSel(p, owners, e, ancestor, t, gone);
    }
  }

  lemma RoutedSel(p: Pump, owners: map<Thread, Thread>, e: Event, ancestor: Option<Thread>, t: Thread, gone: set<Event>)
    requires (ancestor.Some? ==> e.thread in owners && ancestor.value == owners[e.thread]) && forall x <- owners :: owners[x] != x
    requires !Buffers(p, e) && Route(p, e, ancestor).Some?
    ensures var p' := Handle(p, e, ancestor);
            && p'.early == p.early
            && InQueues(p', owners, t, gone) == InQueues(p, owners, t, gone) + (if e.thread == t && e !in gone then [e] else [])
  {
    hide Sel, Events, Handle, Buffers;
    var id, p' := Route(p, e, ancestor).value, Handle(p, e, ancestor);
    HandleRouted(p, e, ancestor);
    EventsOne(EntriesOf(p, id), Backend(e));
    SelOne(Events(EntriesOf(p, id)), e, t, gone);
    if e.thread == t && id != t {
      assert EntriesOf(p, t) == [] == EntriesOf(p', t);
      NoneSelected(t, gone);
    }
  }

  lemma HandleRouted(p: Pump, e: Event, ancestor: Option<Thread>)
    requires !Buffers(p, e) && Route(p, e, ancestor).Some?
    ensures var id, p' := Route(p, e, ancestor).value, Handle(p, e, ancestor);
            && p'.early == p.early && id in p.sessions
            && forall i :: EntriesOf(p', i) == if i == id then EntriesOf(p, i) + [Backend(e)] else EntriesOf(p, i)
  {
  }

  lemma NoneSelected(t: Thread, gone: set<Event>)
    ensures Events([]) == [] && Sel([], t, gone) == []
  {
  }

  lemma Regroup(front: seq<Event>, head: seq<Event>, q: seq<Event>, c: seq<Event>, q0: seq<Event>, c0: seq<Event>)
    requires q0 + c0 == head + q + c
    ensures front + head + q + c == front + q0 + c0
  {
    assert front + head + q + c == front + (head + q + c);
    assert front + q0 + c0 == front + (q0 + c0);
  }

  lemma PumpEventOrder(w: World, known: bool, t: Thread)
    requires |w.pump.channel| <= |w.read| && QueuedNeedsMarker(w.pump) && Ordered(w, t) && Enabled(w, PumpEvent(known))
    requires !Overtakes(w, PumpEvent(known), t) && forall x <- w.owners :: w.owners[x] != x
    ensures Ordered(Apply(w, PumpEvent(known)), t)
  {
    hide Sel, Events, Without, Apply, Enabled, Handle, Route, Buffers, Advance, Next, InQueues;
    PumpEventIs(w, known);
    var p, w' := w.pump, Apply(w, PumpEvent(known));
    var e, p1, gone' := Next(p), Advance(p), w'.gone;
    var ancestor := Ancestor(w, e, known);
    var out := gone' - w.gone;
    assert gone' == w.gone + out;
    PlacesMore(p, w.owners, t, w.gone, out);
    SelMore(w.read, t, w.gone, out);
    AdvanceSel(p, t, gone');
    AdvanceSame(p, e, ancestor);
    SameQueues(p, p1, w.owners, t, gone');
    SelMore(p.early, t, w.gone, out);
    WithoutNone(out);
    HandleSel(p1, w.owners, e, ancestor, t, gone');
    var head := if e.thread == t && e !in gone' then [e] else [];
    Regroup(InQueues(p, w.owners, t, gone') + Sel(p.early, t, gone'), head,
            Sel(p1.queued, t, gone'), Sel(p1.channel, t, gone'), Sel(p.queued, t, gone'), Sel(p.channel, t, gone'));
  }

  lemma SameQueues(p: Pump, p': Pump, owners: map<Thread, Thread>, t: Thread, gone: set<Event>)
    requires p'.sessions == p.sessions
    ensures InQueues(p', owners, t, gone) == InQueues(p, owners, t, gone)
  {
    hide Sel, Events;
  }

  lemma AdvanceSame(p: Pump, e: Event, ancestor: Option<Thread>)
    requires HasNext(p)
    ensures Buffers(Advance(p), e) == Buffers(p, e) && Route(Advance(p), e, ancestor) == Route(p, e, ancestor)
    ensures Advance(p).early == p.early && Advance(p).sessions == p.sessions && Advance(p).registered == p.registered
  {
  }

  /** The queues without one session's. */
  function QueuesLeft(w: World, id: Thread, t: Thread, gone: set<Event>): seq<Event> {
    (if t in w.owners && w.owners[t] != id then Sel(Events(EntriesOf(w.pump, w.owners[t])), t, gone) else [])
    + (if t == id then [] else Sel(Events(EntriesOf(w.pump, t)), t, gone))
  }

  /** Forgetting a session's queue leaves the order of the events outside it. */
  lemma ForgetOrder(w: World, id: Thread, t: Thread)
    requires |w.pump.channel| <= |w.read| && Ordered(w, t)
    ensures var p, gone' := w.pump, Forget(w, id).gone;
            Sel(w.read, t, gone')
            == QueuesLeft(w, id, t, gone') + Sel(p.early, t, gone') + Sel(p.queued, t, gone') + Sel(p.channel, t, gone')
  {
    hide Sel, Events, Without;
    var p := w.pump;
    var own := Events(EntriesOf(p, id));
    var out := set e | e in own;
    PlacesMore(p, w.owners, t, w.gone, out);
    SelMore(w.read, t, w.gone, out);
    SelEmpty(own, t, w.gone + out);
    NoneSelected(t, w.gone + out);
  }

  lemma NewOrder(w: World, t: Thread)
    requires |w.pump.channel| <= |w.read| && Ordered(w, t)
    requires Enabled(w, PumpRegistration) && w.registrations[0].New?
    ensures Ordered(Apply(w, PumpRegistration), t)
  {
    hide Sel, Events, Without;
    var p, id := w.pump, w.registrations[0].id;
    ForgetOrder(w, id, t);
    var w' := Apply(w, PumpRegistration);
    NoneSelected(t, w'.gone);
    assert InQueues(w'.pump, w.owners, t, w'.gone) == QueuesLeft(w, id, t, w'.gone);
    var queues, early := QueuesLeft(w, id, t, w'.gone), Sel(p.early, t, w'.gone);
    assert queues + early + [] == queues + [] + early;
  }

  lemma FenceOrder(w: World, t: Thread)
    requires |w.pump.channel| <= |w.read| && Ordered(w, t)
    requires Enabled(w, PumpRegistration) && w.registrations[0].Fence?
    ensures Ordered(Apply(w, PumpRegistration), t)
  {
    hide Sel, Events;
    assert w.pump.queued + w.pump.channel == w.pump.channel;
  }

  lemma ReadOrder(w: World, thread: Thread, bytes: nat, t: Thread)
    requires |w.pump.channel| <= |w.read| && Ordered(w, t)
    ensures Ordered(Apply(w, ReadEvent(thread, bytes)), t)
  {
    hide Sel, Events, InQueues;
    var e, p, w' := Event(w.sequence + 1, thread, bytes), w.pump, Apply(w, ReadEvent(thread, bytes));
    SelOne(w.read, e, t, w.gone);
    SelOne(p.channel, e, t, w.gone);
    SameQueues(p, w'.pump, w.owners, t, w.gone);
    var front, channel := InQueues(p, w.owners, t, w.gone) + Sel(p.early, t, w.gone) + Sel(p.queued, t, w.gone), Sel(p.channel, t, w.gone);
    assert front + (channel + [e]) == front + channel + [e];
  }

  lemma FailSetupOrder(w: World, t: Thread)
    requires |w.pump.channel| <= |w.read| && Ordered(w, t)
    ensures Ordered(Apply(w, FailSetup), t)
  {
    hide Sel, Events, Without;
    var out := set e | e in w.pump.early;
    PlacesMore(w.pump, w.owners, t, w.gone, out);
    SelMore(w.read, t, w.gone, out);
    SelEmpty(w.pump.early, t, w.gone + out);
  }

  lemma MarkerOrder(w: World, t: Thread)
    requires |w.pump.channel| <= |w.read| && Ordered(w, t) && Enabled(w, PumpMarker)
    ensures Ordered(Apply(w, PumpMarker), t)
  {
    hide Sel, Events;
    var m := w.pump.registered.value;
    EventsOne(EntriesOf(w.pump, m.id), Registered(m.token));
    var w' := Apply(w, PumpMarker);
    assert InQueues(w'.pump, w.owners, t, w'.gone) == InQueues(w.pump, w.owners, t, w.gone);
  }

  lemma CloseOrder(w: World, id: Thread, t: Thread)
    requires |w.pump.channel| <= |w.read| && Ordered(w, t) && Enabled(w, Close(id))
    ensures Ordered(Apply(w, Close(id)), t)
  {
    hide Sel, Events;
    ForgetOrder(w, id, t);
    var w' := Apply(w, Close(id));
    NoneSelected(t, w'.gone);
    assert InQueues(w'.pump, w.owners, t, w'.gone) == QueuesLeft(w, id, t, w'.gone);
  }

  /** The session that the next event goes to, unless it is buffered. */
  function NextRoute(w: World, known: bool): Option<Thread>
    requires HasNext(w.pump)
  {
    if Buffers(w.pump, Next(w.pump)) then None else Route(w.pump, Next(w.pump), Ancestor(w, Next(w.pump), known))
  }

  /** A thread's event goes to an open session while earlier ones are still in the setup buffer. */
  ghost predicate Overtakes(w: World, step: Step, t: Thread) {
    && step.PumpEvent? && HasNext(w.pump) && Next(w.pump).thread == t
    && NextRoute(w, step.known).Some? && Sel(w.pump.early, t, w.gone) != []
  }

  lemma OrderKeeps(w: World, step: Step, t: Thread)
    requires |w.pump.channel| <= |w.read| && QueuedNeedsMarker(w.pump) && Ordered(w, t) && Enabled(w, step)
    requires !Overtakes(w, step, t) && forall x <- w.owners :: w.owners[x] != x
    ensures Ordered(Apply(w, step), t)
  {
    hide Ordered, Overtakes, Apply, Enabled;
    match step
    case ReadEvent(thread, bytes) => ReadOrder(w, thread, bytes, t);
    case FailSetup => FailSetupOrder(w, t);
    case PumpMarker => MarkerOrder(w, t);
    case PumpRegistration => RegistrationOrder(w, t);
    case PumpEvent(known) => PumpEventOrder(w, known, t);
    case Close(id) => CloseOrder(w, id, t);
    case _ => QuietOrder(w, step, t);
  }

  lemma RegistrationOrder(w: World, t: Thread)
    requires |w.pump.channel| <= |w.read| && Ordered(w, t) && Enabled(w, PumpRegistration)
    ensures Ordered(Apply(w, PumpRegistration), t)
  {
    hide Ordered, Apply;
    if w.registrations[0].New? {
      NewOrder(w, t);
    } else {
      FenceOrder(w, t);
    }
  }

  /** The steps that move no event. */
  lemma QuietOrder(w: World, step: Step, t: Thread)
    requires |w.pump.channel| <= |w.read| && Ordered(w, t) && Enabled(w, step)
    requires !step.ReadEvent? && !step.FailSetup? && !step.PumpMarker? && !step.PumpRegistration? && !step.PumpEvent? && !step.Close?
    ensures Ordered(Apply(w, step), t)
  {
    hide Sel, Events, InQueues;
    SameEntries(w.pump, Apply(w, step).pump, w.owners, t, w.gone);
  }

  lemma SameEntries(p: Pump, p': Pump, owners: map<Thread, Thread>, t: Thread, gone: set<Event>)
    requires forall id :: EntriesOf(p', id) == EntriesOf(p, id)
    ensures InQueues(p', owners, t, gone) == InQueues(p, owners, t, gone)
  {
    hide Sel, Events, EntriesOf;
  }

  lemma BufferFreeKeeps(w: World, step: Step, t: Thread)
    requires |w.pump.channel| <= |w.read| && BufferFree(w, t) && Enabled(w, step)
    requires t !in Apply(w, step).disordered
    ensures BufferFree(Apply(w, step), t)
  {
    hide Sel, Events, Without;
    var w' := Apply(w, step);
    assert w.gone <= w'.gone;
    assert w'.gone == w.gone + (w'.gone - w.gone);
    SelMore(w.pump.early, t, w.gone, w'.gone - w.gone);
    WithoutNone(w'.gone - w.gone);
    SelEmpty([], t, w'.gone);
    if step.PumpEvent? && Buffers(w.pump, Next(w.pump)) {
      SelOne(w.pump.early, Next(w.pump), t, w'.gone);
    }
  }

  lemma WithoutNone(out: set<Event>)
    ensures Without([], out) == []
  {
  }

  // ---------------------------------------------------------------- the other invariants

  lemma ReaderKeeps(w: World, step: Step)
    requires ReaderOrder(w) && QueuedNeedsMarker(w.pump) && Enabled(w, step)
    ensures ReaderOrder(Apply(w, step))
  {
    hide Apply, Enabled;
    if step.PumpEvent? {
      PumpReader(w, step.known);
    } else if step.ReadEvent? {
      ReadReader(w, step.thread, step.bytes);
    } else {
      OthersRead(w, step);
    }
  }

  lemma ReadReader(w: World, thread: Thread, bytes: nat)
    requires ReaderOrder(w)
    ensures ReaderOrder(Apply(w, ReadEvent(thread, bytes)))
  {
    assert w.pump.channel == w.read[|w.read| - |w.pump.channel|..];
  }

  lemma OthersRead(w: World, step: Step)
    requires |w.pump.channel| <= |w.read| && Enabled(w, step) && !step.PumpEvent? && !step.ReadEvent?
    ensures var w' := Apply(w, step);
            w'.read == w.read && w'.sequence >= w.sequence && (w'.pump.channel == w.pump.channel || w'.pump.channel == [])
  {
    hide Sel, Events, Arrives;
  }

  lemma PumpReader(w: World, known: bool)
    requires ReaderOrder(w) && Enabled(w, PumpEvent(known))
    ensures ReaderOrder(Apply(w, PumpEvent(known)))
  {
    hide Apply, Enabled, Handle, Route, Buffers, Advance, Next;
    PumpEventIs(w, known);
    AdvanceIs(w.pump);
  }

  lemma BufferKeeps(w: World, step: Step)
    requires |w.pump.channel| <= |w.read| && BufferBounds(w) && Enabled(w, step)
    ensures BufferBounds(Apply(w, step))
  {
    hide Sel, Events, Route, Handle, Arrives;
    if step.PumpEvent? {
      BufferPumped(w, step.known);
    }
  }

  lemma BufferPumped(w: World, known: bool)
    requires |w.pump.channel| <= |w.read| && BufferBounds(w) && Enabled(w, PumpEvent(known))
    ensures BufferBounds(Apply(w, PumpEvent(known)))
  {
    hide Apply, Handle, Route, Advance, Next, TotalBytes;
    PumpEventIs(w, known);
    AdvanceIs(w.pump);
    HandleBounds(Advance(w.pump), Next(w.pump), Ancestor(w, Next(w.pump), known), w.maxFrame);
  }

  /** The setup buffer stays within its bounds, and its bytes are those of its events. */
  lemma HandleBounds(p: Pump, e: Event, ancestor: Option<Thread>, maxFrame: nat)
    requires p.earlyBytes == TotalBytes(p.early) <= maxFrame && |p.early| <= MAX_EARLY_EVENTS
    requires Buffers(p, e) ==> Fits(p, e, maxFrame)
    ensures var p' := Handle(p, e, ancestor);
            p'.earlyBytes == TotalBytes(p'.early) <= maxFrame && |p'.early| <= MAX_EARLY_EVENTS
  {
    hide Route;
    assert (p.early + [e])[..|p.early|] == p.early;
  }

  lemma AcceptTokens(w: World)
    requires |w.pump.channel| <= |w.read| && TokensFine(w) && Enabled(w, PumpRegistration)
    ensures TokensFine(Apply(w, PumpRegistration))
  {
    hide Sel, Events, Route;
    var r, rest := w.registrations[0], w.registrations[1..];
    assert r in w.registrations;
    forall i | 0 <= i < |rest| ensures rest[i] in w.registrations && rest[i].token != r.token {
      assert w.registrations[i + 1] == rest[i];
    }
    forall i, j | 0 <= i < j < |rest| ensures rest[i].token != rest[j].token {
      assert w.registrations[i + 1].token != w.registrations[j + 1].token;
    }
  }

  lemma TokensKeep(w: World, step: Step)
    requires |w.pump.channel| <= |w.read| && TokensFine(w) && Enabled(w, step)
    ensures TokensFine(Apply(w, step))
  {
    hide Apply, Enabled, Handle, Route, Buffers, Advance, Next;
    if step.PumpRegistration? {
      AcceptTokens(w);
    } else if step.SendNew? || step.SendFence? {
      SendTokens(w, step);
    } else if step.PumpEvent? {
      PumpEventIs(w, step.known);
    } else {
      OthersTokens(w, step);
    }
  }

  lemma SendTokens(w: World, step: Step)
    requires |w.pump.channel| <= |w.read| && TokensFine(w) && Enabled(w, step) && (step.SendNew? || step.SendFence?)
    ensures TokensFine(Apply(w, step))
  {
    hide Sel, Events;
    var w' := Apply(w, step);
    assert forall i :: 0 <= i < |w.registrations| ==> w.registrations[i] in w.registrations;
    assert forall i :: 0 <= i < |w.registrations| ==> w'.registrations[i] == w.registrations[i];
  }

  lemma OthersTokens(w: World, step: Step)
    requires |w.pump.channel| <= |w.read| && TokensFine(w) && Enabled(w, step)
    requires !step.PumpRegistration? && !step.SendNew? && !step.SendFence? && !step.PumpEvent?
    ensures TokensFine(Apply(w, step))
  {
    hide Sel, Events;
  }

  lemma WorkersKeep(w: World, step: Step)
    requires |w.pump.channel| <= |w.read| && WorkersFine(w) && Enabled(w, step)
    ensures WorkersFine(Apply(w, step))
  {
    hide Sel, Events;
  }

  lemma {:induction false} SelPrefix(xs: seq<Event>, ys: seq<Event>, a: seq<Event>, t: Thread, gone: set<Event>)
    requires Sel(xs + ys, t, gone) == a + Sel(ys, t, gone)
    ensures Sel(xs, t, gone) == a
  {
    hide Sel;
    SelAppend(xs, ys, t, gone);
    var left := Sel(xs, t, gone);
    assert (left + Sel(ys, t, gone))[..|left|] == left;
    assert (a + Sel(ys, t, gone))[..|a|] == a;
  }

  /** A new marker stands behind exactly the events of its thread that the pump has consumed. */
  lemma NewMark(w: World)
    requires ReaderOrder(w) && BufferBounds(w) && TokensFine(w) && Enabled(w, PumpMarker)
    requires Arrives(w.pump, w.pump.registered.value) && forall x <- w.owners :: w.owners[x] != x
    requires w.pump.registered.value.id !in w.disordered ==> InOrder(w, w.pump.registered.value.id)
    ensures w.pump.registered.value.token in Apply(w, PumpMarker).marks
    ensures MarkFine(Apply(w, PumpMarker), w.pump.registered.value.token)
  {
    hide Sel, Events, TotalBytes;
    var p, m := w.pump, w.pump.registered.value;
    var entries := p.sessions[m.id].entries;
    assert (entries + [Registered(m.token)])[..|entries|] == entries;
    if m.id !in w.disordered {
      var queues := InQueues(p, w.owners, m.id, w.gone);
      assert w.read == w.read[..Consumed(w)] + p.channel;
      NoneSelected(m.id, w.gone);
      assert queues + [] + [] + Sel(p.channel, m.id, w.gone) == queues + Sel(p.channel, m.id, w.gone);
      SelPrefix(w.read[..Consumed(w)], p.channel, queues, m.id, w.gone);
    }
  }

  lemma MarkMore(read: seq<Event>, owned: seq<Event>, own: seq<Event>, t: Thread, gone: set<Event>, gone': set<Event>)
    requires Sel(read, t, gone) == Sel(owned, t, gone) + Sel(own, t, gone) && gone <= gone'
    ensures Sel(read, t, gone') == Sel(owned, t, gone') + Sel(own, t, gone')
  {
    hide Sel;
    SelMore(read, t, gone, gone' - gone);
    SelMore(owned, t, gone, gone' - gone);
    SelMore(own, t, gone, gone' - gone);
    WithoutAppend(Sel(owned, t, gone), Sel(own, t, gone), gone' - gone);
    assert gone' == gone + (gone' - gone);
  }

  /** While a thread is a session itself, its owner's queue gets none of its events. */
  lemma OwnersPartKept(w: World, step: Step, id: Thread)
    requires |w.pump.channel| <= |w.read| && Enabled(w, step) && id in w.pump.sessions && forall x <- w.owners :: w.owners[x] != x
    ensures Apply(w, step).owners == w.owners
    ensures var w' := Apply(w, step);
            Sel(Events(OwnersEntries(w'.pump, w.owners, id)), id, w'.gone) == Sel(Events(OwnersEntries(w.pump, w.owners, id)), id, w'.gone)
  {
    hide Sel, Events;
    if id in w.owners {
      QueuePartKept(w, step, w.owners[id], id);
    }
  }

  lemma QueuePartKept(w: World, step: Step, owner: Thread, id: Thread)
    requires |w.pump.channel| <= |w.read| && Enabled(w, step) && id in w.pump.sessions && owner != id
    ensures var w' := Apply(w, step);
            Sel(Events(EntriesOf(w'.pump, owner)), id, w'.gone) == Sel(Events(EntriesOf(w.pump, owner)), id, w'.gone)
  {
    hide Sel, Events, Route;
    var w' := Apply(w, step);
    NoneSelected(id, w'.gone);
    match step
    case PumpMarker => EventsOne(EntriesOf(w.pump, owner), Registered(w.pump.registered.value.token));
    case PumpRegistration =>
      if w.registrations[0].New? && w.registrations[0].id == owner {
        SelEmpty(Events(EntriesOf(w.pump, owner)), id, w'.gone);
      }
    case Close(closed) =>
      if closed == owner {
        SelEmpty(Events(EntriesOf(w.pump, owner)), id, w'.gone);
      }
    case PumpEvent(known) => PumpPartKept(w, known, owner, id);
    case _ =>
  }

  lemma PumpPartKept(w: World, known: bool, owner: Thread, id: Thread)
    requires |w.pump.channel| <= |w.read| && Enabled(w, PumpEvent(known)) && id in w.pump.sessions && owner != id
    ensures var w' := Apply(w, PumpEvent(known));
            Sel(Events(EntriesOf(w'.pump, owner)), id, w'.gone) == Sel(Events(EntriesOf(w.pump, owner)), id, w'.gone)
  {
    hide Sel, Events, Apply, Enabled, Handle, Advance, Next;
    PumpEventIs(w, known);
    AdvanceIs(w.pump);
    HandlePart(Advance(w.pump), Next(w.pump), Ancestor(w, Next(w.pump), known), owner, id, Apply(w, PumpEvent(known)).gone);
  }

  lemma HandlePart(p: Pump, e: Event, ancestor: Option<Thread>, owner: Thread, id: Thread, gone: set<Event>)
    requires id in p.sessions && owner != id
    ensures Sel(Events(EntriesOf(Handle(p, e, ancestor), owner)), id, gone) == Sel(Events(EntriesOf(p, owner)), id, gone)
  {
    hide Sel, Events;
    EventsOne(EntriesOf(p, owner), Backend(e));
    SelOne(Events(EntriesOf(p, owner)), e, id, gone);
  }

  /** What a step may do to a queue that keeps its markers: only append, and only while it stays registered. */
  lemma QueueGrows(w: World, step: Step, token: nat)
    requires |w.pump.channel| <= |w.read| && Enabled(w, step)
    requires token in w.marks && w.marks[token].id in w.pump.sessions && token in Apply(w, step).marks
    requires token in w.used && !(step.PumpMarker? && w.pump.registered.value.token == token)
    requires !(step.Resume? && step.id == w.marks[token].id)
    ensures var id, w' := w.marks[token].id, Apply(w, step);
            && w'.marks[token] == w.marks[token] && token in w'.used
            && w.gone <= w'.gone && w.read <= w'.read && w.disordered <= w'.disordered
            && id in w'.pump.sessions && w.pump.sessions[id].entries <= w'.pump.sessions[id].entries
  {
    hide Sel, Events, Route, Buffers;
  }

  lemma MarkKeeps(w: World, step: Step, token: nat)
    requires ReaderOrder(w) && BufferBounds(w) && TokensFine(w) && Enabled(w, step)
    requires forall t :: t !in w.disordered ==> InOrder(w, t)
    requires (forall m <- w.marks :: MarkFine(w, m)) && forall x <- w.owners :: w.owners[x] != x
    requires token in Apply(w, step).marks
    ensures MarkFine(Apply(w, step), token)
  {
    hide Sel, Events, TotalBytes, Apply, Enabled, InOrder, TokensFine;
    var w' := Apply(w, step);
    MarkIsOld(w, step, token);
    if token !in w.marks {
      NewMark(w);
    } else {
      assert MarkFine(w, token);
      var m := w.marks[token];
      QueueGrows(w, step, token);
      var entries, entries' := w.pump.sessions[m.id].entries, w'.pump.sessions[m.id].entries;
      assert entries'[..m.index] == entries[..m.index];
      assert w'.read[..m.position] == w.read[..m.position];
      if m.id !in w'.disordered {
        OwnersPartKept(w, step, m.id);
        MarkMore(w.read[..m.position], Events(OwnersEntries(w.pump, w.owners, m.id)), Events(entries[..m.index]), m.id, w.gone, w'.gone);
      }
    }
  }

  lemma MarkIsOld(w: World, step: Step, token: nat)
    requires |w.pump.channel| <= |w.read| && Enabled(w, step) && token in Apply(w, step).marks
    requires TokensFine(w) && forall m <- w.marks :: MarkFine(w, m)
    ensures token in w.marks ==> token in w.used && !(step.PumpMarker? && w.pump.registered.value.token == token)
                                 && step != Resume(w.marks[token].id)
    ensures token !in w.marks ==> step.PumpMarker? && w.pump.registered.value.token == token && Arrives(w.pump, w.pump.registered.value)
  {
    hide Sel, Events, Route, Handle, Buffers;
    assert token in w.marks ==> MarkFine(w, token);
  }

  lemma FenceKeeps(w: World, step: Step, token: nat)
    requires ReaderOrder(w) && QueuedNeedsMarker(w.pump) && TokensFine(w) && Enabled(w, step)
    requires forall f <- w.fences :: FenceFine(w, f)
    requires token in Apply(w, step).fences
    ensures |Apply(w, step).pump.channel| <= |Apply(w, step).read| && FenceFine(Apply(w, step), token)
  {
    hide Apply, Enabled, Handle, Route, Buffers, Advance, Next;
    ReaderKeeps(w, step);
    if step.PumpEvent? {
      PumpEventIs(w, step.known);
      AdvanceIs(w.pump);
      assert FenceFine(w, token);
    } else if step.PumpRegistration? {
      AcceptFence(w, token);
    } else {
      OthersFence(w, step, token);
    }
  }

  lemma AcceptFence(w: World, token: nat)
    requires ReaderOrder(w) && TokensFine(w) && Enabled(w, PumpRegistration)
    requires forall f <- w.fences :: FenceFine(w, f)
    requires token in Apply(w, PumpRegistration).fences && |Apply(w, PumpRegistration).pump.channel| <= |Apply(w, PumpRegistration).read|
    ensures FenceFine(Apply(w, PumpRegistration), token)
  {
    hide Sel, Events;
    assert w.registrations[0] in w.registrations;
  }

  lemma OthersFence(w: World, step: Step, token: nat)
    requires ReaderOrder(w) && QueuedNeedsMarker(w.pump) && TokensFine(w) && Enabled(w, step)
    requires token in w.fences ==> FenceFine(w, token)
    requires token in Apply(w, step).fences && |Apply(w, step).pump.channel| <= |Apply(w, step).read|
    requires !step.PumpEvent? && !step.PumpRegistration?
    ensures FenceFine(Apply(w, step), token)
  {
    hide Sel, Events, Arrives;
  }

  lemma StepKeeps(w: World, step: Step)
    requires Inv(w) && Enabled(w, step)
    ensures Inv(Apply(w, step))
  {
    hide Sel, Events, Route, Handle, InOrder, MarkFine, FenceFine, TokensFine, BufferBounds, WorkersFine, Apply, Enabled;
    var w' := Apply(w, step);
    OwnersStay(w, step);
    BufferImplies(w);
    ReaderKeeps(w, step);
    BufferKeeps(w, step);
    TokensKeep(w, step);
    WorkersKeep(w, step);
    forall t | t !in w'.disordered ensures InOrder(w', t) {
      DisorderGrows(w, step);
      InOrderKeeps(w, step, t);
    }
    forall token <- w'.marks ensures MarkFine(w', token) {
      MarkKeeps(w, step, token);
    }
    forall token <- w'.fences ensures FenceFine(w', token) {
      FenceKeeps(w, step, token);
    }
  }

  /** A thread that is overtaken is disordered from then on. */
  lemma OvertakenIsDisordered(w: World, step: Step, t: Thread)
    requires |w.pump.channel| <= |w.read| && Enabled(w, step) && Overtakes(w, step, t)
    ensures t in Apply(w, step).disordered
  {
    hide Sel, Events;
  }

  lemma InOrderKeeps(w: World, step: Step, t: Thread)
    requires |w.pump.channel| <= |w.read| && QueuedNeedsMarker(w.pump) && InOrder(w, t) && Enabled(w, step)
    requires t !in Apply(w, step).disordered && forall x <- w.owners :: w.owners[x] != x
    ensures InOrder(Apply(w, step), t)
  {
    hide Sel, Events, Apply, Enabled, Overtakes;
    if Overtakes(w, step, t) {
      OvertakenIsDisordered(w, step, t);
    }
    OrderKeeps(w, step, t);
    BufferFreeKeeps(w, step, t);
  }

  lemma OwnersStay(w: World, step: Step)
    requires |w.pump.channel| <= |w.read| && Enabled(w, step)
    ensures Apply(w, step).owners == w.owners
  {
    hide Sel, Events, Route, Handle;
  }

  lemma BufferImplies(w: World)
    requires BufferBounds(w)
    ensures QueuedNeedsMarker(w.pump)
  {
  }

  lemma InvParts(w: World)
    requires Inv(w)
    ensures |w.pump.channel| <= |w.read| && QueuedNeedsMarker(w.pump) && ReaderOrder(w) && BufferBounds(w)
    ensures forall x <- w.owners :: w.owners[x] != x
  {
  }

  lemma DisorderGrows(w: World, step: Step)
    requires |w.pump.channel| <= |w.read| && Enabled(w, step)
    ensures w.disordered <= Apply(w, step).disordered
  {
  }

  lemma {:induction false} RunKeeps(w: World, steps: seq<Step>)
    requires Inv(w) && Legal(w, steps)
    ensures Inv(Execute(w, steps))
    decreases |steps|
  {
    hide Inv, Enabled, Apply;
    if steps != [] {
      StepKeeps(w, steps[0]);
      RunKeeps(Apply(w, steps[0]), steps[1..]);
    }
  }

  lemma InitialInv(w: World)
    requires Initial(w)
    ensures Inv(w)
  {
    hide Initial, InOrder, WorkersFine, ReaderOrder, BufferBounds, TokensFine;
    InitialParts(w);
    forall t ensures InOrder(w, t) {
      InitialInOrder(w, t);
    }
  }

  lemma InitialParts(w: World)
    requires Initial(w)
    ensures WorkersFine(w) && ReaderOrder(w) && BufferBounds(w) && TokensFine(w)
    ensures w.marks == map[] && w.fences == map[] && forall t <- w.owners :: w.owners[t] != t
  {
  }

  lemma InitialInOrder(w: World, t: Thread)
    requires Initial(w)
    ensures InOrder(w, t)
  {
    hide Ordered, Sel;
    InitialOrdered(w, t);
  }

  // ---------------------------------------------------------------- theorems about every run

  ghost predicate NeverOvertaken(w: World, steps: seq<Step>, t: Thread)
    requires Legal(w, steps)
    decreases |steps|
  {
    steps == [] || (!Overtakes(w, steps[0], t) && NeverOvertaken(Apply(w, steps[0]), steps[1..], t))
  }

  lemma InitialOrdered(w: World, t: Thread)
    requires Initial(w)
    ensures Ordered(w, t)
  {
  }

  lemma {:induction false} OrderRuns(w: World, steps: seq<Step>, t: Thread)
    requires Inv(w) && Ordered(w, t) && Legal(w, steps) && NeverOvertaken(w, steps, t)
    ensures Ordered(Execute(w, steps), t)
    decreases |steps|
  {
    hide Ordered, Apply, Enabled, Overtakes;
    if steps != [] {
      StepKeeps(w, steps[0]);
      InvParts(w);
      OrderKeeps(w, steps[0], t);
      OrderRuns(Apply(w, steps[0]), steps[1..], t);
    }
  }

  /**
    No duplicate, no reordering: every event of a thread that has not left the pipeline is in its session's
    queue, in the setup buffer, among the queued events or in the channel, and these places are in reader
    order unless an event has overtaken buffered ones (NoLoss says when, and what does not leave).
   */
  lemma PumpOrder(w: World, steps: seq<Step>, t: Thread)
    requires Initial(w) && Legal(w, steps)
    ensures var w' := Execute(w, steps);
            && (NeverOvertaken(w, steps, t) ==> Sel(w'.read, t, w'.gone) == Places(w'.pump, w'.owners, t, w'.gone))
            && (forall i, j :: 0 <= i < j < |w'.read| ==> w'.read[i].sequence < w'.read[j].sequence)
            && w'.pump.earlyBytes == TotalBytes(w'.pump.early) <= w'.maxFrame
            && |w'.pump.early| <= MAX_EARLY_EVENTS
  {
    hide Inv, Apply, Enabled, Overtakes, Sel, Events;
    InitialInv(w);
    InitialOrdered(w, t);
    RunKeeps(w, steps);
    InvParts(Execute(w, steps));
    if NeverOvertaken(w, steps, t) {
      OrderRuns(w, steps, t);
    }
  }

  /**
    In front of a `Registered` marker, for a new session or a fence, stand exactly the thread's events
    the pump had consumed when it queued the marker: all that setup buffered, and nothing later.
   */
  lemma MarkerSeparates(w: World, steps: seq<Step>, token: nat)
    requires Initial(w) && Legal(w, steps)
    requires token in Execute(w, steps).marks
    ensures var w', m := Execute(w, steps), Execute(w, steps).marks[token];
            && m.id in w'.pump.sessions
            && var entries := w'.pump.sessions[m.id].entries;
               && m.index < |entries| && entries[m.index] == Registered(token) && m.position <= |w'.read|
               && (m.id !in w'.disordered
                   ==> Sel(w'.read[..m.position], m.id, w'.gone)
                       == Sel(Events(OwnersEntries(w'.pump, w'.owners, m.id)), m.id, w'.gone)
                          + Sel(Events(entries[..m.index]), m.id, w'.gone))
  {
    InitialInv(w);
    RunKeeps(w, steps);
    assert MarkFine(Execute(w, steps), token);
  }
}
