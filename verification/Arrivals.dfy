/**
  How events arrive (src/server/events.rs, src/server/dispatch.rs, src/server/mod.rs): what a fence has seen, and
  when the events of a thread, or of a whole session with its descendants, leave reader order.
 */
module Arrivals {
  import opened Prelude
  import opened Pipeline
  import opened NoLoss

  // ---------------------------------------------------------------- the fence, end to end

  /** The event stands in front of the fence's marker, once that is queued, if the fence was requested after it. */
  ghost predicate FencedFirst(w: World, id: Thread, token: nat, e: Event) {
    token in w.marks && token in w.fences && w.marks[token].id == id && id in w.pump.sessions
    && e in w.read && e.sequence <= w.fences[token].seen
    ==> w.marks[token].index < |w.pump.sessions[id].entries|
        && Backend(e) in w.pump.sessions[id].entries[..w.marks[token].index]
  }

  /** When the marker is queued, nothing that old is still on the way, unless it is buffered. */
  lemma MarkerBehind(w: World, id: Thread, token: nat, e: Event)
    requires Inv(w) && Kept(w) && id in w.pump.sessions && Unbuffered(w.pump, e.thread) && Enabled(w, PumpMarker)
    requires w.pump.registered.value.token == token && token in w.fences
    requires e in w.read && e.sequence <= w.fences[token].seen && Coming(w, id, e)
    ensures Backend(e) in w.pump.sessions[id].entries
  {
    hide Sel, Events, InOrder, MarkFine, TokensFine, BufferBounds, WorkersFine, EntriesFine, WaitingApart, Accounted;
    assert FenceFine(w, token);
    EventsMember(w.pump.sessions[id].entries, e);
    forall j | 0 <= j < |w.pump.channel| ensures w.pump.channel[j].sequence > w.fences[token].seen {
      assert w.read[Consumed(w) + j] == w.pump.channel[j];
    }
  }

  lemma FencedStep(w: World, step: Step, id: Thread, token: nat, e: Event)
    requires Inv(w) && Kept(w) && Enabled(w, step) && IsOpen(w, id) && IsOpen(Apply(w, step), id) && !Reregisters(w, step, id)
    requires Unbuffered(w.pump, e.thread) && Coming(w, id, e) && FencedFirst(w, id, token, e)
    ensures FencedFirst(Apply(w, step), id, token, e)
  {
    hide Apply, Enabled, Inv, Kept, Coming, Unbuffered;
    InvParts(w);
    var w' := Apply(w, step);
    FencesKept(w, step, token, e);
    if token in w.marks && token in w.fences && w.marks[token].id == id {
      MarkStays(w, step, id, token);
      var index := w.marks[token].index;
      assert e in w.read && e.sequence <= w.fences[token].seen ==>
          w'.pump.sessions[id].entries[..index] == w.pump.sessions[id].entries[..index];
    } else if token in w'.marks && token in w'.fences && w'.marks[token].id == id && e in w'.read && e.sequence <= w'.fences[token].seen {
      MarkIsNew(w, step, token);
      FencedNew(w, id, token, e);
    }
  }

  lemma FencedNew(w: World, id: Thread, token: nat, e: Event)
    requires Inv(w) && Kept(w) && id in w.pump.sessions && Unbuffered(w.pump, e.thread) && Enabled(w, PumpMarker)
    requires w.pump.registered.value.token == token && token in w.fences && Arrives(w.pump, w.pump.registered.value)
    requires token in Apply(w, PumpMarker).marks && Apply(w, PumpMarker).marks[token].id == id
    requires e in w.read && e.sequence <= w.fences[token].seen && Coming(w, id, e)
    ensures FencedFirst(Apply(w, PumpMarker), id, token, e)
  {
    hide Inv, Kept, Coming, Unbuffered, Sel, Events;
    MarkerBehind(w, id, token, e);
    var entries := w.pump.sessions[id].entries;
    assert (entries + [Registered(token)])[..|entries|] == entries;
  }

  /** A mark comes with its marker. */
  lemma MarkIsNew(w: World, step: Step, token: nat)
    requires Inv(w) && Enabled(w, step) && token in Apply(w, step).marks
    requires token !in w.marks || token !in w.fences || w.marks[token].id != Apply(w, step).marks[token].id
    requires token in Apply(w, step).fences
    ensures step.PumpMarker? && w.pump.registered.value.token == token && token in w.fences && Arrives(w.pump, w.pump.registered.value)
  {
    hide Sel, Events, Route, Handle, InOrder, MarkFine, FenceFine, BufferBounds, WorkersFine;
  }

  lemma FencesKept(w: World, step: Step, token: nat, e: Event)
    requires Inv(w) && Enabled(w, step)
    ensures token in w.fences ==> token in Apply(w, step).fences && Apply(w, step).fences[token] == w.fences[token]
    ensures token in w.fences && e in Apply(w, step).read && e.sequence <= w.fences[token].seen ==> e in w.read
  {
    hide Sel, Events, Route, Handle, InOrder, MarkFine, TokensFine, BufferBounds, WorkersFine;
    ReadMoves(w, step);
    assert token in w.fences ==> FenceFine(w, token);
  }

  lemma MarkStays(w: World, step: Step, t: Thread, token: nat)
    requires Inv(w) && Enabled(w, step) && IsOpen(w, t) && IsOpen(Apply(w, step), t) && !Reregisters(w, step, t)
    requires token in w.marks && w.marks[token].id == t
    ensures token in Apply(w, step).marks && Apply(w, step).marks[token] == w.marks[token]
    ensures w.pump.sessions[t].entries <= Apply(w, step).pump.sessions[t].entries
    ensures w.marks[token].index < |w.pump.sessions[t].entries|
  {
    hide Sel, Events, InOrder, FenceFine, BufferBounds, WorkersFine;
    assert MarkFine(w, token);
    MarkerKept(w, step, t, token);
    QueueGrows(w, step, token);
  }

  lemma {:induction false} FencedRuns(w: World, steps: seq<Step>, id: Thread, token: nat, e: Event)
    requires Inv(w) && Kept(w) && Legal(w, steps) && Served(w, steps, id, e.thread) && NeverBuffered(w, steps, e.thread)
    requires Coming(w, id, e) && FencedFirst(w, id, token, e)
    ensures FencedFirst(Execute(w, steps), id, token, e)
    decreases |steps|
  {
    hide Inv, Kept, Apply, Enabled, Unbuffered, IsOpen, FencedFirst, Coming, Serves, Gentle;
    if steps != [] {
      var next := Apply(w, steps[0]);
      KeptKeeps(w, steps[0]);
      ServedOpen(next, steps[1..], id, e.thread);
      ServedStep(w, steps[0], id, e.thread, e);
      FencedStep(w, steps[0], id, token, e);
      FencedRuns(next, steps[1..], id, token, e);
    }
  }

  /**
    Once the worker has passed the marker of a fence that was requested after frame `seen` had been observed, it
    has handled every event up to `seen` of every thread that the session serves: its own, and each descendant
    none of whose events was in another setup's buffer meanwhile. The session has been open, and the marker was
    not queued yet, since the event was last known to be coming.
   */
  lemma FenceObservesServedThreads(w: World, before: seq<Step>, after: seq<Step>, id: Thread, token: nat, e: Event)
    requires Initial(w) && Legal(w, before) && Legal(Execute(w, before), after)
    requires Served(Execute(w, before), after, id, e.thread) && NeverBuffered(Execute(w, before), after, e.thread)
    requires Coming(Execute(w, before), id, e) && token !in Execute(w, before).marks
    requires var to := Execute(Execute(w, before), after);
             && token in to.fences && token in to.marks && to.marks[token].id == id
             && id in to.pump.sessions && to.marks[token].index < to.pump.sessions[id].handled
             && e in to.read && e.sequence <= to.fences[token].seen
    ensures var queue := Execute(Execute(w, before), after).pump.sessions[id];
            queue.handled <= |queue.entries| && Backend(e) in queue.entries[..queue.handled]
  {
    hide Apply, Enabled, Inv, Kept, IsOpen, Coming, Unbuffered;
    InitialKept(w);
    KeptRuns(w, before);
    var from := Execute(w, before);
    FencedRuns(from, after, id, token, e);
    KeptRuns(from, after);
    var to := Execute(from, after);
    WorkersWithin(to, id);
    var entries, index, handled := to.pump.sessions[id].entries, to.marks[token].index, to.pump.sessions[id].handled;
    var k :| 0 <= k < index && entries[..index][k] == Backend(e);
    assert entries[..handled][k] == Backend(e);
  }

  /** For the session's own thread it is enough that the session stays open and the buffer is empty of it at first. */
  lemma FenceObservesEarlierEvents(w: World, before: seq<Step>, after: seq<Step>, id: Thread, token: nat, e: Event)
    requires Initial(w) && Legal(w, before) && Legal(Execute(w, before), after)
    requires StaysOpen(Execute(w, before), after, id) && Unbuffered(Execute(w, before).pump, id)
    requires e.thread == id && Coming(Execute(w, before), id, e) && token !in Execute(w, before).marks
    requires var to := Execute(Execute(w, before), after);
             && token in to.fences && token in to.marks && to.marks[token].id == id
             && id in to.pump.sessions && to.marks[token].index < to.pump.sessions[id].handled
             && e in to.read && e.sequence <= to.fences[token].seen
    ensures var queue := Execute(Execute(w, before), after).pump.sessions[id];
            queue.handled <= |queue.entries| && Backend(e) in queue.entries[..queue.handled]
  {
    hide Apply, Enabled, Inv, Kept, IsOpen, Coming, Unbuffered, Served, NeverBuffered;
    InitialKept(w);
    KeptRuns(w, before);
    OwnServed(Execute(w, before), after, id);
    FenceObservesServedThreads(w, before, after, id, token, e);
  }

  lemma WorkersWithin(w: World, t: Thread)
    requires Inv(w) && t in w.pump.sessions
    ensures w.pump.sessions[t].handled <= |w.pump.sessions[t].entries|
  {
  }

  lemma {:induction false} LegalJoins(w: World, before: seq<Step>, after: seq<Step>)
    requires Legal(w, before) && Legal(Execute(w, before), after)
    ensures Legal(w, before + after) && Execute(w, before + after) == Execute(Execute(w, before), after)
    decreases |before|
  {
    hide Apply, Enabled;
    if before == [] {
      assert before + after == after;
    } else {
      assert (before + after)[1..] == before[1..] + after;
      LegalJoins(Apply(w, before[0]), before[1..], after);
    }
  }

  // ---------------------------------------------------------------- when a thread loses order

  lemma AscendingLast(xs: seq<Event>)
    requires Ascending(xs) && xs != []
    ensures Ascending(xs[..|xs| - 1]) && forall e <- xs[..|xs| - 1] :: e.sequence < xs[|xs| - 1].sequence
  {
  }

  lemma AscendingAppend(xs: seq<Event>, e: Event)
    requires Ascending(xs) && forall x <- xs :: x.sequence < e.sequence
    ensures Ascending(xs + [e])
  {
  }

  lemma {:induction false} SelAscending(xs: seq<Event>, t: Thread, gone: set<Event>)
    requires Ascending(xs)
    ensures Ascending(Sel(xs, t, gone)) && forall e <- Sel(xs, t, gone) :: e in xs
  {
    if xs != [] {
      hide Ascending;
      var init, last := xs[..|xs| - 1], xs[|xs| - 1];
      AscendingLast(xs);
      SelAscending(init, t, gone);
      assert xs == init + [last];
      SelOne(init, last, t, gone);
      AscendingAppend(Sel(init, t, gone), last);
    }
  }

  lemma AscendingTwice(xs: seq<Event>, a: seq<Event>, b: seq<Event>, x: Event, y: Event)
    requires xs == a + b && x in a && y in b && y.sequence <= x.sequence
    ensures !Ascending(xs)
  {
    var i :| 0 <= i < |a| && a[i] == x;
    var j :| 0 <= j < |b| && b[j] == y;
    assert xs[i] == x && xs[|a| + j] == y;
  }

  lemma OutOfOrder(w: World, id: Thread, x: Event, e: Event)
    requires Ascending(w.read) && x.sequence <= e.sequence && x.thread == e.thread && x !in w.gone && e !in w.gone
    requires x in w.pump.early && e in Events(EntriesOf(w.pump, id)) && (id == e.thread || Get(w.owners, e.thread) == Some(id))
    ensures !Ordered(w, e.thread)
  {
    hide Sel, Events, Ascending;
    var t, p := e.thread, w.pump;
    SelAscending(w.read, t, w.gone);
    SelMember(Events(EntriesOf(p, id)), t, w.gone, e);
    SelMember(p.early, t, w.gone, x);
    var rest := Sel(p.early, t, w.gone) + Sel(p.queued, t, w.gone) + Sel(p.channel, t, w.gone);
    assert x in rest && e in InQueues(p, w.owners, t, w.gone);
    assert Places(p, w.owners, t, w.gone) == InQueues(p, w.owners, t, w.gone) + rest;
    AscendingTwice(Places(p, w.owners, t, w.gone), InQueues(p, w.owners, t, w.gone), rest, e, x);
  }

  /** An event of the thread that is still in the buffer came before the next one. */
  lemma BufferedIsEarlier(w: World, x: Event)
    requires WaitingApart(w) && HasNext(w.pump) && x in w.pump.early
    ensures x !in w.gone && x.sequence < Next(w.pump).sequence && Next(w.pump) !in w.gone
  {
    hide Sel;
    AdvanceWaiting(w.pump);
    var xs, k := Waiting(w.pump), |w.pump.early|;
    var i :| 0 <= i < k && w.pump.early[i] == x;
    assert xs[i] == x && xs[k] == Next(w.pump);
  }

  lemma OvertakingBreaks(w: World, known: bool, t: Thread)
    requires ReaderOrder(w) && QueuedNeedsMarker(w.pump) && WaitingApart(w)
    requires Enabled(w, PumpEvent(known)) && Overtakes(w, PumpEvent(known), t)
    ensures |Apply(w, PumpEvent(known)).pump.channel| <= |Apply(w, PumpEvent(known)).read|
    ensures !Ordered(Apply(w, PumpEvent(known)), t)
  {
    hide Sel, Events, Ordered, WaitingApart, Apply;
    var w', e := Apply(w, PumpEvent(known)), Next(w.pump);
    var x := Sel(w.pump.early, t, w.gone)[0];
    SelMember(w.pump.early, t, w.gone, x);
    BufferedIsEarlier(w, x);
    ReaderKeeps(w, PumpEvent(known));
    var id := NextRoute(w, known).value;
    EntriesMove(w, PumpEvent(known), id);
    GoneMoves(w, PumpEvent(known));
    EarlyKept(w, known);
    OwnersStay(w, PumpEvent(known));
    NextHome(w, known);
    OutOfOrder(w', id, x, e);
  }

  lemma EarlyKept(w: World, known: bool)
    requires |w.pump.channel| <= |w.read| && Enabled(w, PumpEvent(known))
    ensures forall x <- w.pump.early :: x in Apply(w, PumpEvent(known)).pump.early
  {
    hide Sel, Events, Route;
    HandleWaiting(Advance(w.pump), Next(w.pump), Ancestor(w, Next(w.pump), known));
  }

  /**
    A thread's events, a session's own or a descendant's, get out of order exactly in the step in which one of them
    is handed on while earlier ones are still in a setup's buffer.
   */
  lemma OrderLostExactly(w: World, steps: seq<Step>, step: Step, t: Thread)
    requires Initial(w) && Legal(w, steps) && Enabled(Execute(w, steps), step) && Ordered(Execute(w, steps), t)
    ensures var to := Execute(w, steps);
            && |to.pump.channel| <= |to.read|
            && (Ordered(Apply(to, step), t) <==> !Overtakes(to, step, t))
  {
    hide Apply, Enabled, Inv, Kept, Ordered, Overtakes;
    InitialKept(w);
    KeptRuns(w, steps);
    var to := Execute(w, steps);
    InvParts(to);
    KeptParts(to);
    if Overtakes(to, step, t) {
      OvertakesPumps(to, step, t);
      OvertakingBreaks(to, step.known, t);
    } else {
      OrderKeeps(to, step, t);
    }
  }

  lemma OvertakesPumps(w: World, step: Step, t: Thread)
    requires Overtakes(w, step, t)
    ensures step.PumpEvent?
  {
  }

  // ---------------------------------------------------------------- when a session's queue loses order

  /** The session's own thread and those that descend from it. */
  predicate InFamily(w: World, id: Thread, t: Thread) { t == id || Get(w.owners, t) == Some(id) }

  /** The queue is in reader order, and every event of the family that still waits is later than all in it. */
  ghost predicate QueueInOrder(w: World, id: Thread) {
    && Ascending(Events(EntriesOf(w.pump, id)))
    && forall x, y | InQueue(w, id, x) && y in Waiting(w.pump) && InFamily(w, id, y.thread) :: x.sequence < y.sequence
  }

  /** An event is handed to the session while an earlier one of its family is still in a setup's buffer. */
  predicate Jumps(w: World, step: Step, id: Thread) {
    && step.PumpEvent? && HasNext(w.pump) && NextRoute(w, step.known) == Some(id)
    && exists y <- w.pump.early :: InFamily(w, id, y.thread)
  }

  lemma JumpBreaks(w: World, known: bool, id: Thread)
    requires Inv(w) && Kept(w) && Enabled(w, PumpEvent(known)) && Jumps(w, PumpEvent(known), id)
    ensures !QueueInOrder(Apply(w, PumpEvent(known)), id)
  {
    InvParts(w);
    KeptParts(w);
    hide Sel, Events, Route, Apply, Inv, Kept, WaitingApart, EntriesFine, Accounted, InQueue, Ascending, Waiting;
    var w', e := Apply(w, PumpEvent(known)), Next(w.pump);
    var y :| y in w.pump.early && InFamily(w, id, y.thread);
    BufferedIsEarlier(w, y);
    NextWaits(w.pump);
    EarlyKept(w, known);
    EarlyWaits(w'.pump);
    OwnersStay(w, PumpEvent(known));
    WaitingEventMoves(w, PumpEvent(known), e);
    assert InQueue(w', id, e) && y in Waiting(w'.pump) && InFamily(w', id, y.thread);
  }

  lemma QueueKeepsOrder(w: World, step: Step, id: Thread)
    requires Inv(w) && Kept(w) && Enabled(w, step) && QueueInOrder(w, id) && !Jumps(w, step, id)
    ensures QueueInOrder(Apply(w, step), id)
  {
    InvParts(w);
    KeptParts(w);
    hide Sel, Events, Route, Apply, Inv, Kept, WaitingApart, EntriesFine, Accounted, Ascending, Waiting;
    var w' := Apply(w, step);
    OwnersStay(w, step);
    EntriesMove(w, step, id);
    NoEvents();
    if step.PumpEvent? && NextRoute(w, step.known) == Some(id) {
      HandedInOrder(w, step.known, id);
    } else {
      QueueWaits(w, step, id);
      EmptyAscends();
    }
  }

  lemma EmptyAscends()
    ensures Ascending([])
  {
  }

  /** What waits after a step was waiting, or has just been read. */
  lemma StillWaiting(w: World, step: Step, y: Event)
    requires Inv(w) && Kept(w) && Enabled(w, step) && y in Waiting(Apply(w, step).pump)
    ensures y in Waiting(w.pump) || y.sequence > w.sequence
    ensures step.PumpEvent? && y == Next(w.pump) ==> Buffers(w.pump, y)
  {
    InvParts(w);
    KeptParts(w);
    hide Sel, Events, Route, Apply, Inv, Kept, WaitingApart, EntriesFine, Accounted, Ascending, Waiting, Buffers;
    WaitingMoves(w, step);
    EarlyWaits(w.pump);
    if step.PumpEvent? {
      NextWaits(w.pump);
      WaitingEventMoves(w, step, Next(w.pump));
      AscendingOf(w);
      AscendingRemoves(Waiting(w.pump), |w.pump.early|);
    }
  }

  lemma AscendingOf(w: World)
    requires WaitingApart(w)
    ensures Ascending(Waiting(w.pump))
  {
  }

  lemma QueueWaits(w: World, step: Step, id: Thread)
    requires Inv(w) && Kept(w) && Enabled(w, step) && QueueInOrder(w, id)
    requires forall x :: InQueue(Apply(w, step), id, x) ==> InQueue(w, id, x)
    ensures forall x, y | InQueue(Apply(w, step), id, x) && y in Waiting(Apply(w, step).pump) && InFamily(w, id, y.thread) ::
              x.sequence < y.sequence
  {
    KeptParts(w);
    hide Sel, Events, Route, Apply, Inv, Kept, WaitingApart, Accounted, Ascending, Waiting, InQueue;
    forall x, y | InQueue(Apply(w, step), id, x) && y in Waiting(Apply(w, step).pump) && InFamily(w, id, y.thread)
      ensures x.sequence < y.sequence
    {
      StillWaiting(w, step, y);
      assert EntryFine(w, id, x);
    }
  }

  lemma HandedInOrder(w: World, known: bool, id: Thread)
    requires Inv(w) && Kept(w) && Enabled(w, PumpEvent(known)) && QueueInOrder(w, id) && !Jumps(w, PumpEvent(known), id)
    requires NextRoute(w, known) == Some(id)
    ensures QueueInOrder(Apply(w, PumpEvent(known)), id)
  {
    hide Sel, Events, Route, Apply, Inv, Kept, WaitingApart, EntriesFine, Accounted, Ascending, Waiting, InQueue;
    InvParts(w);
    KeptParts(w);
    var w', e := Apply(w, PumpEvent(known)), Next(w.pump);
    OwnersStay(w, PumpEvent(known));
    EntriesMove(w, PumpEvent(known), id);
    NextHome(w, known);
    NextWaits(w.pump);
    QueueOf(w, id);
    QueueOf(w', id);
    AscendingAppend(Events(EntriesOf(w.pump, id)), e);
    forall x, y | InQueue(w', id, x) && y in Waiting(w'.pump) && InFamily(w', id, y.thread) ensures x.sequence < y.sequence {
      StillWaiting(w, PumpEvent(known), y);
      LaterThanNext(w, known, y);
      assert InQueue(w, id, x) || x == e;
    }
  }

  /** When the buffer has none of them, the waiting events of the family are behind the next one. */
  lemma LaterThanNext(w: World, known: bool, y: Event)
    requires Inv(w) && Kept(w) && Enabled(w, PumpEvent(known)) && y in Waiting(Apply(w, PumpEvent(known)).pump)
    requires y !in w.pump.early && !Buffers(w.pump, Next(w.pump))
    ensures y.sequence > Next(w.pump).sequence
  {
    hide Sel, Events, Route, Apply, Inv, Kept, WaitingApart, EntriesFine, Accounted, Waiting, Buffers, Ascending;
    InvParts(w);
    KeptParts(w);
    WaitingMoves(w, PumpEvent(known));
    EarlyWaits(w.pump);
    AscendingOf(w);
    BehindNext(Waiting(w.pump), |w.pump.early|, y);
  }

  lemma BehindNext(xs: seq<Event>, k: nat, y: Event)
    requires Ascending(xs) && k < |xs| && y in xs[..k] + xs[k + 1..] && y !in xs[..k]
    ensures y.sequence > xs[k].sequence
  {
    var i :| 0 <= i < |xs[k + 1..]| && xs[k + 1..][i] == y;
    assert xs[k + 1 + i] == y;
  }

  /**
    A session's queue, in which its own events and its descendants' are handled one after another, leaves reader
    order exactly in the step that hands it an event while an earlier one for it is still in a setup's buffer.
   */
  lemma QueueOrderLostExactly(w: World, steps: seq<Step>, step: Step, id: Thread)
    requires Initial(w) && Legal(w, steps) && Enabled(Execute(w, steps), step) && QueueInOrder(Execute(w, steps), id)
    ensures var to := Execute(w, steps);
            && |to.pump.channel| <= |to.read|
            && (QueueInOrder(Apply(to, step), id) <==> !Jumps(to, step, id))
  {
    hide Apply, Enabled, Inv, Kept, QueueInOrder, Jumps;
    InitialKept(w);
    KeptRuns(w, steps);
    var to := Execute(w, steps);
    InvParts(to);
    if Jumps(to, step, id) {
      JumpsPumps(to, step, id);
      JumpBreaks(to, step.known, id);
    } else {
      QueueKeepsOrder(to, step, id);
    }
  }

  lemma JumpsPumps(w: World, step: Step, id: Thread)
    requires Jumps(w, step, id)
    ensures step.PumpEvent?
  {
  }

  ghost predicate NeverJumped(w: World, steps: seq<Step>, id: Thread)
    requires Legal(w, steps)
    decreases |steps|
  {
    steps == [] || (!Jumps(w, steps[0], id) && NeverJumped(Apply(w, steps[0]), steps[1..], id))
  }

  lemma {:induction false} QueueRuns(w: World, steps: seq<Step>, id: Thread)
    requires Inv(w) && Kept(w) && Legal(w, steps) && QueueInOrder(w, id) && NeverJumped(w, steps, id)
    ensures QueueInOrder(Execute(w, steps), id)
    decreases |steps|
  {
    hide Apply, Enabled, Inv, Kept, QueueInOrder, Jumps;
    if steps != [] {
      KeptKeeps(w, steps[0]);
      QueueKeepsOrder(w, steps[0], id);
      QueueRuns(Apply(w, steps[0]), steps[1..], id);
    }
  }

  /** Up to then the worker sees the session's frames and its descendants' in the order in which they were read. */
  lemma QueueOrder(w: World, steps: seq<Step>, id: Thread)
    requires Initial(w) && Legal(w, steps) && NeverJumped(w, steps, id)
    ensures Ascending(Events(EntriesOf(Execute(w, steps).pump, id)))
  {
    hide Apply, Enabled, Inv, Kept, Jumps;
    InitialKept(w);
    NoEvents();
    EmptyAscends();
    QueueRuns(w, steps, id);
  }

  // ---------------------------------------------------------------- runs

  /** A session with one descendant thread. */
  predicate Start(w: World, a: Thread, c: Thread) {
    Initial(w) && w.owners == map[c := a] && a != c && w.maxFrame >= 1
  }

  /** An event of the descendant is buffered by the setup of some other session. */
  lemma DescendantBuffered(w: World, a: Thread, c: Thread) returns (steps: seq<Step>)
    requires Start(w, a, c)
    ensures Legal(w, steps) && Inv(w) && Kept(w)
    ensures Execute(w, steps)
            == w.(pump := Pump([], [], None, true, [Event(1, c, 1)], 1, 1, map[a := Queue(0, [], 0, true)]),
                  sequence := 1, read := [Event(1, c, 1)])
  {
    hide Legal, Execute, Inv, Kept, Sel, Events;
    InitialKept(w);
    NothingYet(w);
    steps := Then(w, [], Resume(a));
    steps := Then(w, steps, BeginSetup);
    steps := Then(w, steps, ReadEvent(c, 1));
    steps := Then(w, steps, PumpEvent(true));
  }

  /** If that setup fails the event is gone, although the session that it is for has been open throughout. */
  lemma DescendantLost(w: World, a: Thread, c: Thread) returns (steps: seq<Step>)
    requires Start(w, a, c)
    ensures Legal(w, steps)
    ensures var end := Execute(w, steps); IsOpen(end, a) && end.read == [Event(1, c, 1)] && Event(1, c, 1) in end.gone
  {
    hide Legal, Execute, Inv, Kept, Sel, Events;
    steps := DescendantBuffered(w, a, c);
    steps := Then(w, steps, FailSetup);
  }

  /** If it succeeds the event comes late: the session's own next event is in front of it. */
  lemma QueueDisordered(w: World, a: Thread, b: Thread, c: Thread, token: nat) returns (steps: seq<Step>)
    requires Start(w, a, c) && b != a && b != c
    ensures Legal(w, steps)
    ensures var end := Execute(w, steps);
            end.disordered == {} && EntriesOf(end.pump, a) == [Backend(Event(2, a, 1)), Backend(Event(1, c, 1))]
  {
    hide Legal, Execute, Inv, Kept, Sel, Events;
    steps := DescendantBuffered(w, a, c);
    steps := Then(w, steps, ReadEvent(a, 1));
    SelNothing(a, c);
    steps := Then(w, steps, PumpEvent(true));
    steps := Then(w, steps, SendNew(b, token));
    steps := Then(w, steps, PumpRegistration);
    SelNothing(c, c);
    steps := Then(w, steps, PumpEvent(true));
  }

  lemma SelNothing(t: Thread, c: Thread)
    ensures Sel([], t, {}) == [] && (t != c ==> Sel([Event(1, c, 1)], t, {}) == [])
  {
    assert [Event(1, c, 1)][..0] == [];
  }

  /** Meanwhile a fence for the session returns without the event having been handled. */
  lemma FenceMissesBuffered(w: World, a: Thread, c: Thread, token: nat) returns (steps: seq<Step>)
    requires Start(w, a, c)
    ensures Legal(w, steps)
    ensures var end := Execute(w, steps);
            && token in end.marks && token in end.fences && end.marks[token].id == a && a in end.pump.sessions
            && end.marks[token].index < end.pump.sessions[a].handled && end.fences[token].seen == 1
            && Event(1, c, 1) in end.pump.early
  {
    hide Legal, Execute, Inv, Kept, Sel, Events;
    steps := DescendantBuffered(w, a, c);
    steps := Then(w, steps, SendFence(a, token, 1));
    steps := Then(w, steps, PumpRegistration);
    steps := Then(w, steps, PumpMarker);
    steps := Then(w, steps, Work(a));
  }

  /**
    A thread overtakes itself: a setup buffers an event of it and is answered without naming it; the thread is
    resumed; its next event goes straight to the session.
   */
  lemma OvertakingHappens(w: World, t: Thread) returns (steps: seq<Step>)
    requires Initial(w) && w.maxFrame >= 1
    ensures Legal(w, steps) && !Ordered(Execute(w, steps), t)
  {
    hide Legal, Execute, Inv, Kept, Sel, Events, Ordered, Apply;
    steps := ResumedBuffered(w, t);
    var last := Execute(w, steps);
    SelMember(last.pump.early, t, last.gone, Event(1, t, 1));
    steps := Then(w, steps, PumpEvent(false));
    InvParts(last);
    KeptParts(last);
    OvertakingBreaks(last, false, t);
  }

  lemma ResumedBuffered(w: World, t: Thread) returns (steps: seq<Step>)
    requires Initial(w) && w.maxFrame >= 1
    ensures Legal(w, steps) && Inv(w) && Kept(w)
    ensures var last := Execute(w, steps);
            && last.pump == Pump([Event(2, t, 1)], [], None, true, [Event(1, t, 1)], 1, 1, map[t := Queue(0, [], 0, true)])
            && last.gone == {} && last.owners == w.owners && last.maxFrame == w.maxFrame
  {
    hide Legal, Execute, Inv, Kept, Sel, Events;
    InitialKept(w);
    NothingYet(w);
    steps := Then(w, [], BeginSetup);
    steps := Then(w, steps, ReadEvent(t, 1));
    steps := Then(w, steps, PumpEvent(false));
    steps := Then(w, steps, Resume(t));
    steps := Then(w, steps, ReadEvent(t, 1));
  }

  lemma NothingYet(w: World)
    ensures Legal(w, []) && Execute(w, []) == w
  {
  }

  /** One more step of a run. */
  lemma Then(w: World, steps: seq<Step>, step: Step) returns (more: seq<Step>)
    requires Inv(w) && Kept(w) && Legal(w, steps) && Enabled(Execute(w, steps), step)
    ensures more == steps + [step] && Legal(w, more)
    ensures Inv(Execute(w, more)) && Kept(Execute(w, more)) && Kept(Execute(w, steps)) && Inv(Execute(w, steps))
    ensures |Execute(w, steps).pump.channel| <= |Execute(w, steps).read|
    ensures Execute(w, more) == Apply(Execute(w, steps), step)
  {
    hide Apply, Enabled, Inv, Kept;
    more := steps + [step];
    KeptRuns(w, steps);
    InvParts(Execute(w, steps));
    KeptKeeps(Execute(w, steps), step);
    LegalJoins(w, steps, [step]);
    assert [step][1..] == [];
  }
}
