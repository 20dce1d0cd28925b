/**
  Per-session delivery: a bounded queue drained by at most one worker (src/server/dispatch.rs).

  Sizes are machine words in the program: the limit is computed with saturating arithmetic.
 */
module Delivery {
  import opened Prelude

  const MAX_ENTRIES: nat := 256
  const USIZE_MAX: nat := 0xFFFF_FFFF_FFFF_FFFF

  function SaturatingAdd(a: nat, b: nat): nat { if a + b > USIZE_MAX then USIZE_MAX else a + b }

  function SaturatingMul(a: nat, b: nat): nat { if a * b > USIZE_MAX then USIZE_MAX else a * b }

  datatype Entry = Entry(name: nat, bytes: nat)

  /**
    `enqueued`, `processed` and `inFlight` record history: what was accepted, what workers finished and
    what each live worker is handling. The program keeps only `pending`, `bytes` and `running`.
   */
  datatype Queue = Queue(
    pending: seq<Entry>,
    bytes: nat,
    running: bool,
    workers: nat,
    inFlight: Option<Entry>,
    processed: seq<Entry>,
    enqueued: seq<Entry>,
    failed: bool)

  const Empty: Queue := Queue([], 0, false, 0, None, [], [], false)

  predicate Accepts(q: Queue, entry: Entry, maxFrame: nat) {
    |q.pending| < MAX_ENTRIES && SaturatingAdd(q.bytes, entry.bytes) <= SaturatingMul(maxFrame, 4)
  }

  /** The locked region of enqueue_session_event, and the spawn that follows it. */
  function Push(q: Queue, entry: Entry): Queue {
    q.(pending := q.pending + [entry], bytes := q.bytes + entry.bytes, enqueued := q.enqueued + [entry],
       workers := if q.running then q.workers else q.workers + 1, running := true)
  }

  /** The locked region of one worker iteration: take the next entry, or stop. */
  function Take(q: Queue): Queue
    requires q.pending != [] ==> q.pending[0].bytes <= q.bytes
  {
    if q.pending == [] then q.(running := false, workers := if q.workers > 0 then q.workers - 1 else 0)
    else
      q.(pending := q.pending[1..], bytes := q.bytes - q.pending[0].bytes, inFlight := Some(q.pending[0]))
  }

  /** The handler returned; an error ends the worker without clearing `running`. */
  function Finish(q: Queue, ok: bool): Queue
    requires q.inFlight.Some?
  {
    q.(inFlight := None, processed := q.processed + [q.inFlight.value], failed := q.failed || !ok,
       workers := if ok || q.workers == 0 then q.workers else q.workers - 1)
  }

  function Total(entries: seq<Entry>): nat {
    if entries == [] then 0 else entries[0].bytes + Total(entries[1..])
  }

  function Flight(q: Queue): seq<Entry> { if q.inFlight.Some? then [q.inFlight.value] else [] }

  ghost predicate Valid(q: Queue, maxFrame: nat) {
    && q.processed + Flight(q) + q.pending == q.enqueued
    && q.bytes == Total(q.pending)
    && |q.pending| <= MAX_ENTRIES
    && (maxFrame * 4 <= USIZE_MAX ==> q.bytes <= maxFrame * 4)
    && q.workers <= 1
    && (q.workers == 1 <==> q.running && !q.failed)
    && (q.failed ==> q.running)
    && (q.inFlight.Some? ==> q.workers == 1)
    && (q.pending != [] ==> q.running)
  }

  /** The mutable queue of one session. */
  class SessionEvents {
    var pending: seq<Entry>
    var bytes: nat
    var running: bool
    ghost var workers: nat
    ghost var inFlight: Option<Entry>
    ghost var processed: seq<Entry>
    ghost var enqueued: seq<Entry>
    ghost var failed: bool

    ghost function Model(): Queue
      reads this
    {
      Queue(pending, bytes, running, workers, inFlight, processed, enqueued, failed)
    }

    constructor ()
      ensures Model() == Empty
    {
      pending, bytes, running := [], 0, false;
      workers, inFlight, processed, enqueued, failed := 0, None, [], [], false;
    }

    method Enqueue(entry: Entry, maxFrame: nat) returns (accepted: bool)
      requires Valid(Model(), maxFrame)
      modifies this
      ensures Valid(Model(), maxFrame)
      ensures accepted == Accepts(old(Model()), entry, maxFrame)
      ensures Model() == if accepted then Push(old(Model()), entry) else old(Model())
    {
      ghost var q := Model();
      if |pending| >= MAX_ENTRIES || SaturatingAdd(bytes, entry.bytes) > SaturatingMul(maxFrame, 4) {
        return false;
      }
      bytes := bytes + entry.bytes;
      pending := pending + [entry];
      enqueued := enqueued + [entry];
      if !running {
        running := true;
        workers := workers + 1;
      }
      PushKeeps(q, entry, maxFrame);
      return true;
    }

    method Next(ghost maxFrame: nat) returns (next: Option<Entry>)
      requires Valid(Model(), maxFrame) && workers == 1 && inFlight.None?
      modifies this
      ensures Valid(Model(), maxFrame)
      ensures old(pending != []) ==> old(pending[0].bytes) <= old(bytes)
      ensures Model() == Take(old(Model())) && next == inFlight
    {
      TakeKeeps(Model(), maxFrame);
      if pending == [] {
        running := false;
        workers := workers - 1;
        return None;
      }
      var entry := pending[0];
      pending := pending[1..];
      bytes := bytes - entry.bytes;
      inFlight := Some(entry);
      return Some(entry);
    }

    ghost method Done(ok: bool, maxFrame: nat)
      requires Valid(Model(), maxFrame) && inFlight.Some?
      modifies this
      ensures Valid(Model(), maxFrame) && Model() == Finish(old(Model()), ok)
    {
      FinishKeeps(Model(), ok, maxFrame);
      processed := processed + [inFlight.value];
      inFlight := None;
      if !ok {
        failed := true;
        workers := workers - 1;
      }
    }
  }

  lemma {:induction false} TotalOne(entries: seq<Entry>, entry: Entry)
    ensures Total(entries + [entry]) == Total(entries) + entry.bytes
  {
    if entries != [] {
      assert (entries + [entry])[1..] == entries[1..] + [entry];
      TotalOne(entries[1..], entry);
    }
  }

  lemma PushKeeps(q: Queue, entry: Entry, maxFrame: nat)
    requires Valid(q, maxFrame) && Accepts(q, entry, maxFrame)
    ensures Valid(Push(q, entry), maxFrame)
  {
    TotalOne(q.pending, entry);
  }

  lemma TakeKeeps(q: Queue, maxFrame: nat)
    requires Valid(q, maxFrame) && q.workers == 1 && q.inFlight.None?
    ensures q.pending != [] ==> q.pending[0].bytes <= q.bytes
    ensures Valid(Take(q), maxFrame)
  {
    if q.pending != [] {
      assert q.pending == [q.pending[0]] + q.pending[1..];
    }
  }

  lemma FinishKeeps(q: Queue, ok: bool, maxFrame: nat)
    requires Valid(q, maxFrame) && q.inFlight.Some?
    ensures Valid(Finish(q, ok), maxFrame)
  {
    assert Flight(Finish(q, ok)) == [];
  }

  // ---------------------------------------------------------------- runs

  datatype Step = Enqueue(entry: Entry) | TakeNext | Return(ok: bool)

  predicate Enabled(q: Queue, step: Step, maxFrame: nat) {
    match step
    case Enqueue(entry) => Accepts(q, entry, maxFrame)
    case TakeNext => q.workers > 0 && q.inFlight.None? && (q.pending != [] ==> q.pending[0].bytes <= q.bytes)
    case Return(_) => q.inFlight.Some?
  }

  function Apply(q: Queue, step: Step, maxFrame: nat): Queue
    requires Enabled(q, step, maxFrame)
  {
    match step
    case Enqueue(entry) => Push(q, entry)
    case TakeNext => Take(q)
    case Return(ok) => Finish(q, ok)
  }

  ghost predicate Legal(q: Queue, steps: seq<Step>, maxFrame: nat)
    decreases |steps|
  {
    steps == [] || (Enabled(q, steps[0], maxFrame) && Legal(Apply(q, steps[0], maxFrame), steps[1..], maxFrame))
  }

  ghost function Execute(q: Queue, steps: seq<Step>, maxFrame: nat): Queue
    requires Legal(q, steps, maxFrame)
    decreases |steps|
  {
    if steps == [] then q else Execute(Apply(q, steps[0], maxFrame), steps[1..], maxFrame)
  }

  lemma {:induction false} RunKeeps(q: Queue, steps: seq<Step>, maxFrame: nat)
    requires Valid(q, maxFrame) && Legal(q, steps, maxFrame)
    ensures Valid(Execute(q, steps, maxFrame), maxFrame)
    decreases |steps|
  {
    if steps != [] {
      match steps[0] {
        case Enqueue(entry) => PushKeeps(q, entry, maxFrame);
        case TakeNext => TakeKeeps(q, maxFrame);
        case Return(ok) => FinishKeeps(q, ok, maxFrame);
      }
      RunKeeps(Apply(q, steps[0], maxFrame), steps[1..], maxFrame);
    }
  }

  /**
    In every run: entries are handled once each in the order they were accepted, one worker at a time, the
    byte count is exact and bounded, and a waiting entry has a worker exactly if no handler failed.
   */
  lemma DeliveryInOrder(steps: seq<Step>, maxFrame: nat)
    requires Legal(Empty, steps, maxFrame)
    ensures var q := Execute(Empty, steps, maxFrame);
            && q.processed + Flight(q) + q.pending == q.enqueued
            && q.workers <= 1
            && (q.pending != [] ==> (q.workers == 1 <==> !q.failed))
            && q.bytes == Total(q.pending) && |q.pending| <= MAX_ENTRIES
            && (maxFrame * 4 <= USIZE_MAX ==> q.bytes <= maxFrame * 4)
  {
    RunKeeps(Empty, steps, maxFrame);
  }

  /** The worker's own step never underflows the byte count. */
  lemma NoUnderflow(steps: seq<Step>, maxFrame: nat)
    requires Legal(Empty, steps, maxFrame)
    ensures var q := Execute(Empty, steps, maxFrame);
            q.pending != [] ==> q.pending[0].bytes <= q.bytes
  {
    RunKeeps(Empty, steps, maxFrame);
  }

  lemma {:induction false} StoppedRuns(q: Queue, steps: seq<Step>, maxFrame: nat)
    requires Valid(q, maxFrame) && q.failed && Legal(q, steps, maxFrame)
    ensures var q' := Execute(q, steps, maxFrame);
            && Valid(q', maxFrame) && q'.failed && q'.processed == q.processed && q'.inFlight.None?
            && q.pending <= q'.pending
    decreases |steps|
  {
    if steps != [] {
      match steps[0] {
        case Enqueue(entry) => PushKeeps(q, entry, maxFrame);
        case TakeNext =>
        case Return(_) =>
      }
      var next := Apply(q, steps[0], maxFrame);
      assert q.pending <= next.pending;
      StoppedRuns(next, steps[1..], maxFrame);
    }
  }

  /**
    After a handler has failed nothing is ever processed again: entries are still accepted, behind those that
    were waiting, up to the bounds.
   */
  lemma FailureIsFinal(steps: seq<Step>, later: seq<Step>, maxFrame: nat)
    requires Legal(Empty, steps, maxFrame) && Execute(Empty, steps, maxFrame).failed
    requires Legal(Execute(Empty, steps, maxFrame), later, maxFrame)
    ensures var q, q' := Execute(Empty, steps, maxFrame), Execute(Execute(Empty, steps, maxFrame), later, maxFrame);
            && q'.processed == q.processed && q'.inFlight.None? && q.pending <= q'.pending && q'.running && q'.workers == 0
  {
    RunKeeps(Empty, steps, maxFrame);
    StoppedRuns(Execute(Empty, steps, maxFrame), later, maxFrame);
  }

  /**
    The unchecked addition after the saturating check: in every run it fits in a machine word for every entry
    that is accepted, exactly when four frames do.
   */
  lemma AdditionFitsExactly(maxFrame: nat)
    ensures (forall steps, entry ::
               Legal(Empty, steps, maxFrame) && Accepts(Execute(Empty, steps, maxFrame), entry, maxFrame)
               ==> Execute(Empty, steps, maxFrame).bytes + entry.bytes <= USIZE_MAX)
            <==> maxFrame * 4 <= USIZE_MAX
  {
    if maxFrame * 4 > USIZE_MAX {
      var steps := FillsUp(maxFrame);
      assert Accepts(Execute(Empty, steps, maxFrame), Entry(1, 1), maxFrame);
    }
  }

  /** One entry takes the count to the largest machine word; a further byte is still accepted. */
  lemma FillsUp(maxFrame: nat) returns (steps: seq<Step>)
    requires maxFrame * 4 > USIZE_MAX
    ensures Legal(Empty, steps, maxFrame)
    ensures var q := Execute(Empty, steps, maxFrame); q.bytes == USIZE_MAX && |q.pending| == 1
  {
    steps := [Enqueue(Entry(0, USIZE_MAX))];
    var q := Apply(Empty, steps[0], maxFrame);
    assert steps[1..] == [];
    assert Execute(Empty, steps, maxFrame) == Execute(q, [], maxFrame) == q;
  }

  /** The entries that were accepted and that no worker has taken yet. */
  function Untaken(q: Queue): seq<Entry>
    requires |q.processed| + |Flight(q)| <= |q.enqueued|
  {
    q.enqueued[|q.processed| + |Flight(q)|..]
  }

  /**
    In every run an entry is accepted exactly if fewer than 256 wait to be taken and their bytes with its own are at
    most those of four frames, as far as a machine word can count them. It then waits behind all others.
   */
  lemma AcceptedExactly(steps: seq<Step>, entry: Entry, maxFrame: nat)
    requires Legal(Empty, steps, maxFrame)
    ensures var q := Execute(Empty, steps, maxFrame);
            && |q.processed| + |Flight(q)| <= |q.enqueued|
            && (Enabled(q, Enqueue(entry), maxFrame)
                <==> && |Untaken(q)| < 256
                     && (Total(Untaken(q)) + entry.bytes <= 4 * maxFrame || 4 * maxFrame >= 0xFFFF_FFFF_FFFF_FFFF))
            && (Enabled(q, Enqueue(entry), maxFrame) ==>
                  var q' := Apply(q, Enqueue(entry), maxFrame);
                  q'.processed == q.processed && q'.inFlight == q.inFlight && q'.enqueued == q.enqueued + [entry])
  {
    RunKeeps(Empty, steps, maxFrame);
    var q := Execute(Empty, steps, maxFrame);
    assert Untaken(q) == q.pending;
  }

  /**
    A worker that is free takes the entry that waited longest, or ends when none waits; the next entry then starts
    another one.
   */
  lemma TakenExactly(steps: seq<Step>, maxFrame: nat)
    requires Legal(Empty, steps, maxFrame) && Execute(Empty, steps, maxFrame).inFlight.None?
    ensures var q := Execute(Empty, steps, maxFrame);
            && |q.processed| <= |q.enqueued|
            && (Enabled(q, TakeNext, maxFrame) <==> q.workers == 1)
            && (q.workers == 1 ==>
                  var q' := Apply(q, TakeNext, maxFrame);
                  && q'.inFlight == (if |q.processed| < |q.enqueued| then Some(q.enqueued[|q.processed|]) else None)
                  && q'.workers == (if |q.processed| < |q.enqueued| then 1 else 0)
                  && q'.enqueued == q.enqueued && q'.processed == q.processed)
  {
    RunKeeps(Empty, steps, maxFrame);
  }
}
