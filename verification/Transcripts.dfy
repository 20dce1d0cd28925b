/**
  Which replies make a replay succeed (src/server/history.rs).

  A plan says what a backend has to answer: the pages of the root's items and turns, and two listings, each listing
  page followed by the pages of every thread that it names for the first time. A replay succeeds exactly if the
  replies begin with such a plan.
 */
module Transcripts {
  import opened Prelude
  import opened Replay

  /** A page of a listing, and the pages of each thread that it newly names. */
  datatype Visit = Visit(listing: Reply, blocks: seq<seq<Reply>>)

  datatype Plan = Plan(items: seq<Reply>, turns: seq<Reply>, live: seq<Visit>, archived: seq<Visit>)

  // ---------------------------------------------------------------- the replies of a plan

  function Flat(blocks: seq<seq<Reply>>): seq<Reply> {
    if blocks == [] then [] else blocks[0] + Flat(blocks[1..])
  }

  function VisitsScript(visits: seq<Visit>): seq<Reply> {
    if visits == [] then [] else [visits[0].listing] + Flat(visits[0].blocks) + VisitsScript(visits[1..])
  }

  function Script(plan: Plan): seq<Reply> {
    plan.items + plan.turns + VisitsScript(plan.live) + VisitsScript(plan.archived)
  }

  // ---------------------------------------------------------------- what a plan has to satisfy

  /** The threads of a listing, in order, that are not the root and have not been seen, each once. */
  function News(threads: seq<Thread>, root: ThreadId, seen: set<ThreadId>): (r: seq<Thread>)
    ensures forall t <- r :: t.id.Some?
  {
    if threads == [] then []
    else if threads[0].id.None? || threads[0].id.value == root || threads[0].id.value in seen then News(threads[1..], root, seen)
    else [threads[0]] + News(threads[1..], root, seen + {threads[0].id.value})
  }

  function SeenWith(threads: seq<Thread>, root: ThreadId, seen: set<ThreadId>): set<ThreadId> { seen + (Ids(threads) - {root}) }

  ghost predicate WholeBlocks(blocks: seq<seq<Reply>>, budget: nat) {
    forall b <- blocks :: Whole(b, None) && |b| <= budget
  }

  /** The backend answers for every new thread, which is the root's descendant, with a whole sequence of pages. */
  ghost predicate ThreadsFine(threads: seq<Thread>, blocks: seq<seq<Reply>>, root: ThreadId, seen: set<ThreadId>, budget: nat) {
    && (forall t <- threads :: t.id.Some?)
    && |blocks| == |News(threads, root, seen)| && WholeBlocks(blocks, budget)
    && forall t <- News(threads, root, seen) :: t.owned
  }

  /** Listing pages lead from one to the next, never in place, to the last. */
  ghost predicate VisitsFine(visits: seq<Visit>, root: ThreadId, seen: set<ThreadId>, cursor: Option<Cursor>, budget: nat)
    decreases |visits|
  {
    && visits != [] && visits[0].listing.Listing?
    && ThreadsFine(visits[0].listing.threads, visits[0].blocks, root, seen, budget)
    && if |visits| == 1 then visits[0].listing.next.None?
       else
         && visits[0].listing.next.Some? && visits[0].listing.next != cursor
         && VisitsFine(visits[1..], root, SeenWith(visits[0].listing.threads, root, seen), visits[0].listing.next, budget)
  }

  function SeenIn(visits: seq<Visit>, root: ThreadId, seen: set<ThreadId>): set<ThreadId> {
    if visits == [] then seen
    else
      var now := if visits[0].listing.Listing? then SeenWith(visits[0].listing.threads, root, seen) else seen;
      SeenIn(visits[1..], root, now)
  }

  /** A plan for a replay: within 64 listing pages each, 4096 descendants, and the limit of entries. */
  ghost predicate Fine(plan: Plan, root: ThreadId, limit: nat) {
    var budget := if limit < 1 then 1 else limit;
    && Whole(plan.items, None) && |plan.items| <= budget && Whole(plan.turns, None) && |plan.turns| <= budget
    && |plan.live| <= 64 && VisitsFine(plan.live, root, {}, None, budget)
    && |plan.archived| <= 64 && VisitsFine(plan.archived, root, SeenIn(plan.live, root, {}), None, budget)
    && |SeenIn(plan.archived, root, SeenIn(plan.live, root, {}))| <= 4096
    && Count(Script(plan)) <= limit
  }

  // ---------------------------------------------------------------- the threads of one listing

  lemma SeenMore(threads: seq<Thread>, root: ThreadId, seen: set<ThreadId>)
    requires threads != [] && threads[0].id.Some?
    ensures var id := threads[0].id.value;
            SeenWith(threads, root, seen)
            == if id == root || id in seen then SeenWith(threads[1..], root, seen) else SeenWith(threads[1..], root, seen + {id})
  {
    IdsCons(threads);
  }

  lemma FlatCons(block: seq<Reply>, rest: seq<seq<Reply>>)
    ensures Flat([block] + rest) == block + Flat(rest)
  {
    assert ([block] + rest)[1..] == rest;
  }

  lemma BlocksCons(block: seq<Reply>, rest: seq<seq<Reply>>, budget: nat)
    ensures WholeBlocks([block] + rest, budget) <==> Whole(block, None) && |block| <= budget && WholeBlocks(rest, budget)
  {
    hide Whole;
    var all := [block] + rest;
    assert all[0] == block && forall i | 0 <= i < |rest| :: all[i + 1] == rest[i];
    if WholeBlocks(all, budget) {
      assert block in all;
      assert forall b <- rest :: b in all;
    }
    if Whole(block, None) && |block| <= budget && WholeBlocks(rest, budget) {
      assert forall b <- all :: b == block || b in rest;
    }
  }

  lemma ThreadsCons(threads: seq<Thread>, blocks: seq<seq<Reply>>, root: ThreadId, seen: set<ThreadId>, budget: nat)
    requires threads != []
    ensures ThreadsFine(threads, blocks, root, seen, budget)
            <==> && threads[0].id.Some?
                 && var id := threads[0].id.value;
                    if id == root || id in seen then ThreadsFine(threads[1..], blocks, root, seen, budget)
                    else && blocks != [] && threads[0].owned && Whole(blocks[0], None) && |blocks[0]| <= budget
                         && ThreadsFine(threads[1..], blocks[1..], root, seen + {id}, budget)
  {
    hide Whole, WholeBlocks;
    assert threads == [threads[0]] + threads[1..];
    if blocks != [] {
      assert blocks == [blocks[0]] + blocks[1..];
      BlocksCons(blocks[0], blocks[1..], budget);
    }
    if threads[0].id.Some? && threads[0].id.value != root && threads[0].id.value !in seen {
      var news := News(threads[1..], root, seen + {threads[0].id.value});
      assert forall t :: t in [threads[0]] + news <==> t == threads[0] || t in news;
    }
  }

  /** What the replay of a block comes to. */
  lemma BlockDone(run: Run, kind: Kind, thread: ThreadId, budget: nat, pages: seq<Reply>, later: seq<Reply>)
    requires run.script == pages + later && Whole(pages, None) && |pages| <= budget && Count(pages) <= run.remaining
    ensures ReplayBlock(run, kind, thread, budget)
            == run.(script := later, remaining := run.remaining - Count(pages), blocks := run.blocks + [Block(kind, thread, pages)])
  {
    hide Whole, Count;
    WholeIsRead(pages, later, None, budget, run.remaining);
    BlockIs(run, kind, thread, budget, pages, later, run.remaining - Count(pages));
  }

  lemma BlockTaken(run: Run, kind: Kind, thread: ThreadId, budget: nat) returns (pages: seq<Reply>)
    requires run.ok && ReplayBlock(run, kind, thread, budget).ok
    ensures Whole(pages, None) && |pages| <= budget && Count(pages) <= run.remaining
    ensures var next := ReplayBlock(run, kind, thread, budget);
            run.script == pages + next.script
            && next == run.(script := next.script, remaining := run.remaining - Count(pages), blocks := run.blocks + [Block(kind, thread, pages)])
  {
    hide Whole, Count;
    ReadIsWhole(run.script, None, budget, run.remaining);
    var n := Read(run.script, None, budget, run.remaining).used;
    pages := run.script[..n];
    assert run.script == pages + run.script[n..];
    BlockDone(run, kind, thread, budget, pages, run.script[n..]);
  }

  lemma {:induction false} ThreadsDone(run: Run, root: ThreadId, threads: seq<Thread>, budget: nat, blocks: seq<seq<Reply>>, later: seq<Reply>)
    requires run.ok && ThreadsFine(threads, blocks, root, run.seen, budget) && run.script == Flat(blocks) + later
    requires Count(Flat(blocks)) <= run.remaining && |SeenWith(threads, root, run.seen)| <= 4096
    ensures var next := ReplayThreads(run, root, threads, budget);
            && next == run.(script := later, remaining := run.remaining - Count(Flat(blocks)), blocks := next.blocks,
                            seen := SeenWith(threads, root, run.seen))
    decreases |threads|
  {
    hide Whole, Count, ReplayBlock, ThreadsFine, SeenWith;
    if threads == [] {
      NothingListed(blocks, root, run.seen, budget);
    } else {
      ThreadsCons(threads, blocks, root, run.seen, budget);
      SeenMore(threads, root, run.seen);
      var id := threads[0].id.value;
      if id == root || id in run.seen {
        ThreadsDone(run, root, threads[1..], budget, blocks, later);
      } else {
        var rest := Flat(blocks[1..]) + later;
        var entered := run.(seen := run.seen + {id});
        assert blocks == [blocks[0]] + blocks[1..];
        CountSplit(blocks[0], Flat(blocks[1..]));
        Regroup(blocks[0], Flat(blocks[1..]), later);
        BlockDone(entered, Items, id, budget, blocks[0], rest);
        SeenGrows(threads[1..], root, run.seen, id);
        ThreadsDone(ReplayBlock(entered, Items, id, budget), root, threads[1..], budget, blocks[1..], later);
      }
    }
  }

  lemma NothingListed(blocks: seq<seq<Reply>>, root: ThreadId, seen: set<ThreadId>, budget: nat)
    ensures ThreadsFine([], blocks, root, seen, budget) <==> blocks == []
    ensures SeenWith([], root, seen) == seen && Flat([]) == [] && Count(Flat([])) == 0
  {
    assert Ids([]) == {};
  }

  lemma SeenGrows(threads: seq<Thread>, root: ThreadId, seen: set<ThreadId>, id: ThreadId)
    requires id !in seen && |SeenWith(threads, root, seen + {id})| <= 4096
    ensures |seen| < 4096
  {
    Fewer(seen + {id}, SeenWith(threads, root, seen + {id}));
  }

  lemma Fewer<T>(a: set<T>, b: set<T>)
    requires a <= b
    ensures |a| <= |b|
  {
    assert b == a + (b - a);
  }

  lemma {:induction false} ThreadsTaken(run: Run, root: ThreadId, threads: seq<Thread>, budget: nat) returns (blocks: seq<seq<Reply>>)
    requires run.ok && ReplayThreads(run, root, threads, budget).ok && |run.seen| <= 4096
    ensures ThreadsFine(threads, blocks, root, run.seen, budget) && Count(Flat(blocks)) <= run.remaining
    ensures var next := ReplayThreads(run, root, threads, budget);
            && run.script == Flat(blocks) + next.script && next.remaining == run.remaining - Count(Flat(blocks))
            && next.seen == SeenWith(threads, root, run.seen) && |next.seen| <= 4096
    decreases |threads|
  {
    hide Whole, Count, ReplayBlock, ThreadsFine, SeenWith, Flat;
    if threads == [] {
      blocks := [];
      NothingListed(blocks, root, run.seen, budget);
    } else {
      SeenMore(threads, root, run.seen);
      var id := threads[0].id.value;
      if id == root || id in run.seen {
        blocks := ThreadsTaken(run, root, threads[1..], budget);
      } else {
        var entered := run.(seen := run.seen + {id});
        var pages := BlockTaken(entered, Items, id, budget);
        var next := ReplayBlock(entered, Items, id, budget);
        var rest := ThreadsTaken(next, root, threads[1..], budget);
        blocks := [pages] + rest;
        FlatCons(pages, rest);
        CountSplit(pages, Flat(rest));
        assert blocks[0] == pages && blocks[1..] == rest;
        Regroup(pages, Flat(rest), ReplayThreads(next, root, threads[1..], budget).script);
      }
      ThreadsCons(threads, blocks, root, run.seen, budget);
    }
  }

  // ---------------------------------------------------------------- a whole listing

  lemma VisitsScriptCons(visits: seq<Visit>)
    requires visits != []
    ensures VisitsScript(visits) == [visits[0].listing] + (Flat(visits[0].blocks) + VisitsScript(visits[1..]))
  {
    Regroup([visits[0].listing], Flat(visits[0].blocks), VisitsScript(visits[1..]));
  }

  lemma VisitsCount(visits: seq<Visit>)
    requires visits != [] && visits[0].listing.Listing?
    ensures Count(VisitsScript(visits)) == Count(Flat(visits[0].blocks)) + Count(VisitsScript(visits[1..]))
  {
    hide Flat, Count;
    VisitsScriptCons(visits);
    CountSplit(Flat(visits[0].blocks), VisitsScript(visits[1..]));
    CountSplit([visits[0].listing], Flat(visits[0].blocks) + VisitsScript(visits[1..]));
    ListingsCountNothing(visits[0].listing);
  }

  lemma ListingsCountNothing(listing: Reply)
    requires listing.Listing?
    ensures Count([listing]) == 0
  {
    assert [listing][..0] == [];
  }

  lemma {:induction false} SeenKeeps(visits: seq<Visit>, root: ThreadId, seen: set<ThreadId>)
    ensures seen <= SeenIn(visits, root, seen)
  {
    if visits != [] {
      SeenKeeps(visits[1..], root, if visits[0].listing.Listing? then SeenWith(visits[0].listing.threads, root, seen) else seen);
    }
  }

  lemma {:induction false} ListingDone(run: Run, root: ThreadId, cursor: Option<Cursor>, pages: nat, budget: nat, visits: seq<Visit>, later: seq<Reply>)
    requires run.ok && VisitsFine(visits, root, run.seen, cursor, budget) && |visits| <= pages
    requires run.script == VisitsScript(visits) + later && Count(VisitsScript(visits)) <= run.remaining
    requires |SeenIn(visits, root, run.seen)| <= 4096
    ensures var next := ReplayListing(run, root, cursor, pages, budget);
            next == run.(script := later, remaining := run.remaining - Count(VisitsScript(visits)), blocks := next.blocks,
                         seen := SeenIn(visits, root, run.seen))
    decreases pages
  {
    hide Whole, Count, ReplayThreads, ThreadsFine, SeenWith, Flat;
    var listing, blocks, rest := visits[0].listing, visits[0].blocks, visits[1..];
    VisitsScriptCons(visits);
    VisitsCount(visits);
    var taken, seen := run.(script := run.script[1..]), SeenWith(listing.threads, root, run.seen);
    Regroup([listing], Flat(blocks) + VisitsScript(rest), later);
    Regroup(Flat(blocks), VisitsScript(rest), later);
    assert run.script[0] == listing && run.script[1..] == Flat(blocks) + (VisitsScript(rest) + later);
    SeenKeeps(rest, root, seen);
    Fewer(seen, SeenIn(visits, root, run.seen));
    ThreadsDone(taken, root, listing.threads, budget, blocks, VisitsScript(rest) + later);
    if rest == [] {
      assert VisitsScript(rest) + later == later;
      NoCount();
    } else {
      ListingDone(ReplayThreads(taken, root, listing.threads, budget), root, listing.next, pages - 1, budget, rest, later);
    }
  }

  lemma NoCount()
    ensures Count([]) == 0
  {
  }

  lemma {:induction false} ListingTakenAll(run: Run, root: ThreadId, cursor: Option<Cursor>, pages: nat, budget: nat) returns (visits: seq<Visit>)
    requires run.ok && ReplayListing(run, root, cursor, pages, budget).ok && |run.seen| <= 4096
    ensures VisitsFine(visits, root, run.seen, cursor, budget) && |visits| <= pages && Count(VisitsScript(visits)) <= run.remaining
    ensures var next := ReplayListing(run, root, cursor, pages, budget);
            && run.script == VisitsScript(visits) + next.script && next.remaining == run.remaining - Count(VisitsScript(visits))
            && next.seen == SeenIn(visits, root, run.seen) && |next.seen| <= 4096 && next.ok
    decreases pages
  {
    hide Whole, Count, ReplayThreads, ThreadsFine, SeenWith, Flat;
    var listing := run.script[0];
    var taken := run.(script := run.script[1..]);
    var next := ReplayThreads(taken, root, listing.threads, budget);
    var blocks := ThreadsTaken(taken, root, listing.threads, budget);
    var rest := [];
    if listing.next.Some? {
      rest := ListingTakenAll(next, root, listing.next, pages - 1, budget);
    }
    visits := [Visit(listing, blocks)] + rest;
    assert visits[0] == Visit(listing, blocks) && visits[1..] == rest;
    VisitsScriptCons(visits);
    VisitsCount(visits);
    NoCount();
    var last := ReplayListing(run, root, cursor, pages, budget).script;
    Regroup([listing], Flat(blocks) + VisitsScript(rest), last);
    Regroup(Flat(blocks), VisitsScript(rest), last);
    assert run.script == [listing] + run.script[1..];
    if rest == [] {
      assert VisitsScript(rest) + last == last;
    }
  }

  // ---------------------------------------------------------------- a whole replay

  lemma ScriptParts(plan: Plan, later: seq<Reply>)
    ensures Script(plan) + later == plan.items + (plan.turns + (VisitsScript(plan.live) + (VisitsScript(plan.archived) + later)))
    ensures Count(Script(plan))
            == Count(plan.items) + Count(plan.turns) + Count(VisitsScript(plan.live)) + Count(VisitsScript(plan.archived))
  {
    hide Count, VisitsScript;
    var a, b, c, d := plan.items, plan.turns, VisitsScript(plan.live), VisitsScript(plan.archived);
    CountSplit(a, b);
    CountSplit(a + b, c);
    CountSplit(a + b + c, d);
    Regroup(a + b + c, d, later);
    Regroup(a + b, c, d + later);
    Regroup(a, b, c + (d + later));
  }

  lemma PlanReplayed(script: seq<Reply>, root: ThreadId, limit: nat, plan: Plan, later: seq<Reply>)
    requires Fine(plan, root, limit) && script == Script(plan) + later
    ensures var run := ReplayAll(script, root, limit);
            && run.ok && run.script == later && run.remaining == limit - Count(Script(plan))
            && run.seen == SeenIn(plan.archived, root, SeenIn(plan.live, root, {}))
  {
    hide Whole, Count, ReplayBlock, ReplayListing, VisitsFine, VisitsScript, Script, SeenIn;
    var budget := Max(limit, 1);
    ScriptParts(plan, later);
    var archived := VisitsScript(plan.archived) + later;
    var live := VisitsScript(plan.live) + archived;
    var start := Run(script, limit, [], {}, true);
    BlockDone(start, Items, root, budget, plan.items, plan.turns + live);
    var items := ReplayBlock(start, Items, root, budget);
    BlockDone(items, Turns, root, budget, plan.turns, live);
    var turns := ReplayBlock(items, Turns, root, budget);
    SeenKeeps(plan.archived, root, SeenIn(plan.live, root, {}));
    Fewer(SeenIn(plan.live, root, {}), SeenIn(plan.archived, root, SeenIn(plan.live, root, {})));
    ListingDone(turns, root, None, 64, budget, plan.live, archived);
    ListingDone(ReplayListing(turns, root, None, 64, budget), root, None, 64, budget, plan.archived, later);
  }

  lemma ReplayPlanned(script: seq<Reply>, root: ThreadId, limit: nat) returns (plan: Plan)
    requires ReplayAll(script, root, limit).ok
    ensures Fine(plan, root, limit) && script == Script(plan) + ReplayAll(script, root, limit).script
  {
    hide Whole, Count, ReplayBlock, ReplayListing, VisitsFine, VisitsScript, Script, SeenIn;
    var budget := Max(limit, 1);
    var start := Run(script, limit, [], {}, true);
    var items := BlockTaken(start, Items, root, budget);
    var afterItems := ReplayBlock(start, Items, root, budget);
    var turns := BlockTaken(afterItems, Turns, root, budget);
    var afterTurns := ReplayBlock(afterItems, Turns, root, budget);
    var live := ListingTakenAll(afterTurns, root, None, 64, budget);
    var afterLive := ReplayListing(afterTurns, root, None, 64, budget);
    var archived := ListingTakenAll(afterLive, root, None, 64, budget);
    plan := Plan(items, turns, live, archived);
    ScriptParts(plan, ReplayAll(script, root, limit).script);
  }

  /**
    A replay succeeds exactly if the replies begin with those of a plan within its limits, and it then takes those
    replies and no more.
   */
  lemma ReplayExactly(script: seq<Reply>, root: ThreadId, limit: nat)
    ensures ReplayAll(script, root, limit).ok <==> exists plan :: Fine(plan, root, limit) && Script(plan) <= script
    ensures forall plan :: Fine(plan, root, limit) && Script(plan) <= script
                           ==> ReplayAll(script, root, limit).script == script[|Script(plan)|..]
  {
    hide ReplayAll, Fine, Script;
    if ReplayAll(script, root, limit).ok {
      var plan := ReplayPlanned(script, root, limit);
      assert Fine(plan, root, limit) && Script(plan) <= script;
    }
    forall plan | Fine(plan, root, limit) && Script(plan) <= script
      ensures ReplayAll(script, root, limit).ok && ReplayAll(script, root, limit).script == script[|Script(plan)|..]
    {
      assert script == Script(plan) + script[|Script(plan)|..];
      PlanReplayed(script, root, limit, plan, script[|Script(plan)|..]);
    }
  }
}
