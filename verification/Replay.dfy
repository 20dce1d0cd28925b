/**
  History replay (src/server/history.rs).

  A replay pages through the items of the root thread, the diagnostics of its turns, and then the items of
  every descendant that two paged listings name. One budget of entries is shared by all pages. The backend is
  a script of replies, one for each request in turn, about which nothing else is known.
 */
module Replay {
  import opened Prelude
  import Ownership

  type ThreadId = string
  type Cursor = string

  const MAX_DESCENDANTS: nat := 4096
  const MAX_LIST_PAGES: nat := 64

  /** An item or a turn; `good` says that the projection accepts it. */
  datatype Entry = Entry(id: Option<string>, good: bool)

  /** A listed thread, and whether the ownership walk names the root for it. */
  datatype Thread = Thread(id: Option<ThreadId>, owned: bool)

  datatype Reply =
    | Failed
    | Page(entries: seq<Entry>, next: Option<Cursor>, sequence: nat)
    | Listing(threads: seq<Thread>, next: Option<Cursor>)

  datatype Kind = Items | Turns

  /** The pages of one thread that were read to the end. */
  datatype Block = Block(kind: Kind, thread: ThreadId, pages: seq<Reply>)

  datatype Shown = Shown(kind: Kind, thread: ThreadId, entry: Entry)

  // ---------------------------------------------------------------- one paged sequence

  predicate GoodPage(reply: Reply, remaining: nat) {
    reply.Page? && |reply.entries| <= remaining && forall e <- reply.entries :: e.good
  }

  function Count(pages: seq<Reply>): nat {
    if pages == [] then 0
    else Count(pages[..|pages| - 1]) + (if pages[|pages| - 1].Page? then |pages[|pages| - 1].entries| else 0)
  }

  /** `used` pages are a whole sequence that was read without an error. */
  datatype Outcome = Outcome(ok: bool, used: nat)

  function Read(script: seq<Reply>, cursor: Option<Cursor>, budget: nat, remaining: nat): (r: Outcome)
    ensures r.ok ==> script != [] && GoodPage(script[0], remaining)
    decreases budget
  {
    if budget == 0 || script == [] || !GoodPage(script[0], remaining) then Outcome(false, 0)
    else if script[0].next.None? then Outcome(true, 1)
    else if script[0].next == cursor then Outcome(false, 0)
    else
      var rest := Read(script[1..], script[0].next, budget - 1, remaining - |script[0].entries|);
      Outcome(rest.ok, rest.used + 1)
  }

  /** The cursor that the request for page `k` carries. */
  function CursorAt(pages: seq<Reply>, k: nat, first: Option<Cursor>): Option<Cursor>
    requires k <= |pages| && forall p <- pages :: p.Page?
  {
    if k == 0 then first else pages[k - 1].next
  }

  /** A whole sequence: cursors lead from page to page, never in place, to the one page that has no next. */
  ghost predicate Whole(pages: seq<Reply>, first: Option<Cursor>) {
    && pages != [] && (forall p <- pages :: p.Page? && forall e <- p.entries :: e.good)
    && pages[|pages| - 1].next.None?
    && forall k | 0 <= k < |pages| - 1 :: pages[k].next.Some? && pages[k].next != CursorAt(pages, k, first)
  }

  lemma {:induction false} CountSplit(a: seq<Reply>, b: seq<Reply>)
    ensures Count(a + b) == Count(a) + Count(b)
  {
    if b == [] {
      assert a + b == a;
    } else {
      assert (a + b)[..|a + b| - 1] == a + b[..|b| - 1];
      CountSplit(a, b[..|b| - 1]);
    }
  }

  lemma CountCons(page: Reply, pages: seq<Reply>)
    requires page.Page?
    ensures Count([page] + pages) == |page.entries| + Count(pages)
  {
    CountSplit([page], pages);
    assert [page][..0] == [];
  }

  lemma WholeHasPages(pages: seq<Reply>, cursor: Option<Cursor>)
    requires Whole(pages, cursor)
    ensures pages != [] && forall p <- pages :: p.Page?
  {
  }

  lemma WholeCons(page: Reply, rest: seq<Reply>, cursor: Option<Cursor>)
    requires page.Page?
    ensures Whole([page] + rest, cursor)
            <==> && (forall e <- page.entries :: e.good)
                 && (if rest == [] then page.next.None?
                     else page.next.Some? && page.next != cursor && Whole(rest, page.next))
  {
    var pages := [page] + rest;
    assert forall k | 0 <= k < |rest| :: pages[k + 1] == rest[k];
    assert pages[0] == page;
    if rest != [] {
      assert pages[|pages| - 1] == rest[|rest| - 1];
      if Whole(rest, page.next) && page.next.Some? && page.next != cursor && forall e <- page.entries :: e.good {
        WholeExtends(page, rest, cursor);
      }
      if Whole(pages, cursor) {
        WholeShrinks(page, rest, cursor);
      }
    }
  }

  lemma WholeExtends(page: Reply, rest: seq<Reply>, cursor: Option<Cursor>)
    requires page.Page? && Whole(rest, page.next) && page.next.Some? && page.next != cursor && forall e <- page.entries :: e.good
    ensures Whole([page] + rest, cursor)
  {
    var pages := [page] + rest;
    forall k | 0 <= k < |pages| - 1 ensures pages[k].next.Some? && pages[k].next != CursorAt(pages, k, cursor) {
      if k > 0 {
        assert pages[k] == rest[k - 1];
        assert rest[k - 1].next != CursorAt(rest, k - 1, page.next);
      }
    }
  }

  lemma WholeShrinks(page: Reply, rest: seq<Reply>, cursor: Option<Cursor>)
    requires rest != [] && page.Page? && Whole([page] + rest, cursor)
    ensures page.next.Some? && page.next != cursor && Whole(rest, page.next)
  {
    var pages := [page] + rest;
    assert forall p <- rest :: p in pages;
    assert pages[0].next != CursorAt(pages, 0, cursor);
    forall k | 0 <= k < |rest| - 1 ensures rest[k].next.Some? && rest[k].next != CursorAt(rest, k, page.next) {
      assert pages[k + 1] == rest[k];
      assert pages[k + 1].next != CursorAt(pages, k + 1, cursor);
    }
  }

  lemma {:induction false} ReadIsWhole(script: seq<Reply>, cursor: Option<Cursor>, budget: nat, remaining: nat)
    requires Read(script, cursor, budget, remaining).ok
    ensures var n := Read(script, cursor, budget, remaining).used;
            1 <= n <= budget && n <= |script| && Whole(script[..n], cursor) && Count(script[..n]) <= remaining
    decreases budget
  {
    hide Whole, Count;
    var n := Read(script, cursor, budget, remaining).used;
    var page, rest := script[0], script[1..];
    if page.next.Some? {
      ReadIsWhole(rest, page.next, budget - 1, remaining - |page.entries|);
    }
    assert script[..n] == [page] + rest[..n - 1];
    CountCons(page, rest[..n - 1]);
    assert rest[..0] == [];
    WholeCons(page, rest[..n - 1], cursor);
    CountNone();
  }

  lemma CountNone()
    ensures Count([]) == 0
  {
  }

  lemma {:induction false} WholeIsRead(pages: seq<Reply>, later: seq<Reply>, cursor: Option<Cursor>, budget: nat, remaining: nat)
    requires Whole(pages, cursor) && |pages| <= budget && Count(pages) <= remaining
    ensures Read(pages + later, cursor, budget, remaining) == Outcome(true, |pages|)
    decreases |pages|
  {
    hide Whole, Count;
    WholeHasPages(pages, cursor);
    var page, rest := pages[0], pages[1..];
    assert pages == [page] + rest;
    assert (pages + later)[0] == page && (pages + later)[1..] == rest + later;
    CountCons(page, rest);
    WholeCons(page, rest, cursor);
    if rest != [] {
      WholeIsRead(rest, later, page.next, budget - 1, remaining - |page.entries|);
    }
  }

  /**
    Paging succeeds exactly if the replies begin with a whole sequence within the page limit and the entries
    that remain, and then it reads that sequence and no reply more.
   */
  lemma PagingExactly(script: seq<Reply>, budget: nat, remaining: nat, n: nat)
    ensures Read(script, None, budget, remaining) == Outcome(true, n)
            <==> n <= |script| && n <= budget && Whole(script[..n], None) && Count(script[..n]) <= remaining
  {
    if Read(script, None, budget, remaining).ok {
      ReadIsWhole(script, None, budget, remaining);
    }
    if n <= |script| && n <= budget && Whole(script[..n], None) && Count(script[..n]) <= remaining {
      assert script == script[..n] + script[n..];
      WholeIsRead(script[..n], script[n..], None, budget, remaining);
    }
  }

  // ---------------------------------------------------------------- the whole replay

  datatype Run = Run(script: seq<Reply>, remaining: nat, blocks: seq<Block>, seen: set<ThreadId>, ok: bool)

  function ReplayBlock(run: Run, kind: Kind, thread: ThreadId, budget: nat): Run {
    var r := Read(run.script, None, budget, run.remaining);
    if r.ok && r.used <= |run.script| && Count(run.script[..r.used]) <= run.remaining then
      var pages := run.script[..r.used];
      run.(script := run.script[r.used..], remaining := run.remaining - Count(pages),
           blocks := run.blocks + [Block(kind, thread, pages)])
    else run.(ok := false)
  }

  function ReplayThreads(run: Run, root: ThreadId, threads: seq<Thread>, budget: nat): Run
    decreases |threads|
  {
    if threads == [] then run
    else if threads[0].id.None? then run.(ok := false)
    else
      var child := threads[0].id.value;
      if child == root || child in run.seen then ReplayThreads(run, root, threads[1..], budget)
      else if |run.seen| >= MAX_DESCENDANTS || !threads[0].owned then run.(ok := false)
      else
        var next := ReplayBlock(run.(seen := run.seen + {child}), Items, child, budget);
        if next.ok then ReplayThreads(next, root, threads[1..], budget) else next
  }

  function ReplayListing(run: Run, root: ThreadId, cursor: Option<Cursor>, pages: nat, budget: nat): Run
    decreases pages
  {
    if pages == 0 || run.script == [] || !run.script[0].Listing? then run.(ok := false)
    else
      var listing := run.script[0];
      var next := ReplayThreads(run.(script := run.script[1..]), root, listing.threads, budget);
      if !next.ok || listing.next.None? then next
      else if listing.next == cursor then next.(ok := false)
      else ReplayListing(next, root, listing.next, pages - 1, budget)
  }

  function ReplayAll(script: seq<Reply>, root: ThreadId, limit: nat): Run {
    var budget := Max(limit, 1);
    var items := ReplayBlock(Run(script, limit, [], {}, true), Items, root, budget);
    if !items.ok then items
    else
      var turns := ReplayBlock(items, Turns, root, budget);
      if !turns.ok then turns
      else
        var live := ReplayListing(turns, root, None, MAX_LIST_PAGES, budget);
        if live.ok then ReplayListing(live, root, None, MAX_LIST_PAGES, budget) else live
  }

  // ---------------------------------------------------------------- what the replies contain

  function PagesIn(replies: seq<Reply>): seq<Reply> {
    if replies == [] then []
    else
      var last := replies[|replies| - 1];
      PagesIn(replies[..|replies| - 1]) + (if last.Page? then [last] else [])
  }

  function Listed(replies: seq<Reply>): set<ThreadId> {
    set k, i | 0 <= k < |replies| && replies[k].Listing? && 0 <= i < |replies[k].threads| && replies[k].threads[i].id.Some?
      :: replies[k].threads[i].id.value
  }

  function Ids(threads: seq<Thread>): set<ThreadId> { set t | t in threads && t.id.Some? :: t.id.value }

  function AllPages(blocks: seq<Block>): seq<Reply> {
    if blocks == [] then [] else AllPages(blocks[..|blocks| - 1]) + blocks[|blocks| - 1].pages
  }

  function ShownPage(kind: Kind, thread: ThreadId, entries: seq<Entry>): (r: seq<Shown>)
    ensures |r| == |entries|
  {
    seq(|entries|, i requires 0 <= i < |entries| => Shown(kind, thread, entries[i]))
  }

  function ShownPages(kind: Kind, thread: ThreadId, pages: seq<Reply>): (r: seq<Shown>) {
    if pages == [] then []
    else
      var last := pages[|pages| - 1];
      ShownPages(kind, thread, pages[..|pages| - 1]) + (if last.Page? then ShownPage(kind, thread, last.entries) else [])
  }

  function ShownBlocks(blocks: seq<Block>): seq<Shown> {
    if blocks == [] then []
    else
      var last := blocks[|blocks| - 1];
      ShownBlocks(blocks[..|blocks| - 1]) + ShownPages(last.kind, last.thread, last.pages)
  }

  lemma {:induction false} PagesInSplit(a: seq<Reply>, b: seq<Reply>)
    ensures PagesIn(a + b) == PagesIn(a) + PagesIn(b)
  {
    if b == [] {
      assert a + b == a;
    } else {
      assert (a + b)[..|a + b| - 1] == a + b[..|b| - 1];
      PagesInSplit(a, b[..|b| - 1]);
    }
  }

  lemma {:induction false} PagesInPages(pages: seq<Reply>)
    requires forall p <- pages :: p.Page?
    ensures PagesIn(pages) == pages && Listed(pages) == {}
  {
    if pages != [] {
      PagesInPages(pages[..|pages| - 1]);
    }
  }

  lemma ListedSplit(a: seq<Reply>, b: seq<Reply>)
    ensures Listed(a + b) == Listed(a) + Listed(b)
  {
    forall id | id in Listed(b) ensures id in Listed(a + b) {
      var k, i :| 0 <= k < |b| && b[k].Listing? && 0 <= i < |b[k].threads| && b[k].threads[i].id == Some(id);
      assert (a + b)[|a| + k] == b[k];
    }
    forall id | id in Listed(a) ensures id in Listed(a + b) {
      var k, i :| 0 <= k < |a| && a[k].Listing? && 0 <= i < |a[k].threads| && a[k].threads[i].id == Some(id);
      assert (a + b)[k] == a[k];
    }
  }

  // ---------------------------------------------------------------- what a replay keeps

  /** The replies consumed so far are the pages of the blocks, in order, and the entries add up. */
  ghost predicate Conserved(script: seq<Reply>, limit: nat, run: Run) {
    && |run.script| <= |script| && script[|script| - |run.script|..] == run.script
    && PagesIn(script[..|script| - |run.script|]) == AllPages(run.blocks)
    && Count(AllPages(run.blocks)) + run.remaining == limit
    && forall b <- run.blocks :: Whole(b.pages, None)
  }

  /** After the two blocks of the root, each descendant that was seen has one block. */
  ghost predicate Descended(run: Run, root: ThreadId) {
    && |run.blocks| >= 2
    && run.blocks[0].kind.Items? && run.blocks[0].thread == root
    && run.blocks[1].kind.Turns? && run.blocks[1].thread == root
    && OneEach(run.blocks[2..], run.seen)
    && root !in run.seen && |run.seen| <= MAX_DESCENDANTS
  }

  /** The blocks are the items of exactly these threads, each once. */
  ghost predicate OneEach(blocks: seq<Block>, threads: set<ThreadId>) {
    && (forall b <- blocks :: b.kind.Items?)
    && threads == (set b | b in blocks :: b.thread)
    && |blocks| == |threads|
  }

  /** The listed threads other than the root are the ones seen and the ones of the current listing still to come. */
  ghost predicate Covered(script: seq<Reply>, run: Run, root: ThreadId, rest: seq<Thread>) {
    && |run.script| <= |script|
    && Listed(script[..|script| - |run.script|]) - {root} == run.seen + (Ids(rest) - {root})
  }

  lemma Advanced(script: seq<Reply>, rest: seq<Reply>, n: nat)
    requires |rest| <= |script| && script[|script| - |rest|..] == rest && n <= |rest|
    ensures script[|script| - |rest[n..]|..] == rest[n..]
    ensures script[..|script| - |rest[n..]|] == script[..|script| - |rest|] + rest[..n]
  {
  }

  lemma BlockConserves(script: seq<Reply>, limit: nat, run: Run, kind: Kind, thread: ThreadId, budget: nat)
    requires Conserved(script, limit, run) && ReplayBlock(run, kind, thread, budget).ok
    ensures var next := ReplayBlock(run, kind, thread, budget);
            && Conserved(script, limit, next) && next.seen == run.seen
            && |next.blocks| == |run.blocks| + 1 && next.blocks[..|run.blocks|] == run.blocks
            && next.blocks[|run.blocks|].kind == kind && next.blocks[|run.blocks|].thread == thread
            && Listed(script[..|script| - |next.script|]) == Listed(script[..|script| - |run.script|])
  {
    hide Whole, Count, Read, PagesIn, Listed;
    var next := ReplayBlock(run, kind, thread, budget);
    var n := Read(run.script, None, budget, run.remaining).used;
    if run.ok {
      ReadIsWhole(run.script, None, budget, run.remaining);
    }
    var pages := run.script[..n];
    Advanced(script, run.script, n);
    WholeHasPages(pages, None);
    PagesInPages(pages);
    PagesInSplit(script[..|script| - |run.script|], pages);
    ListedSplit(script[..|script| - |run.script|], pages);
    CountSplit(AllPages(run.blocks), pages);
    assert next.blocks[..|run.blocks|] == run.blocks;
  }

  lemma BlockDescends(run: Run, next: Run, root: ThreadId, child: ThreadId)
    requires Descended(run, root) && child != root && child !in run.seen && |run.seen| < MAX_DESCENDANTS
    requires next.seen == run.seen + {child} && |next.blocks| == |run.blocks| + 1 && next.blocks[..|run.blocks|] == run.blocks
    requires next.blocks[|run.blocks|].kind.Items? && next.blocks[|run.blocks|].thread == child
    ensures Descended(next, root)
  {
    var block := next.blocks[|run.blocks|];
    assert next.blocks == run.blocks + [block];
    assert next.blocks[2..] == run.blocks[2..] + [block];
    OneMore(run.blocks[2..], run.seen, block);
  }

  lemma OneMore(blocks: seq<Block>, threads: set<ThreadId>, block: Block)
    requires OneEach(blocks, threads) && block.kind.Items? && block.thread !in threads
    ensures OneEach(blocks + [block], threads + {block.thread})
  {
    forall t | t in threads + {block.thread} ensures t in (set b | b in blocks + [block] :: b.thread) {
      if t == block.thread {
        assert (blocks + [block])[|blocks|].thread == t;
      } else {
        var b :| b in blocks && b.thread == t;
        assert b in blocks + [block];
      }
    }
  }

  lemma IdsCons(threads: seq<Thread>)
    requires threads != [] && threads[0].id.Some?
    ensures Ids(threads) == {threads[0].id.value} + Ids(threads[1..])
  {
    assert threads == [threads[0]] + threads[1..];
  }

  lemma {:induction false} ThreadsKeep(script: seq<Reply>, limit: nat, run: Run, root: ThreadId, threads: seq<Thread>, budget: nat)
    requires Conserved(script, limit, run) && Descended(run, root) && Covered(script, run, root, threads)
    requires ReplayThreads(run, root, threads, budget).ok
    ensures var next := ReplayThreads(run, root, threads, budget);
            Conserved(script, limit, next) && Descended(next, root) && Covered(script, next, root, [])
    decreases |threads|
  {
    hide Conserved, Descended, ReplayBlock, Listed, Ids;
    if threads != [] {
      IdsCons(threads);
      var child := threads[0].id.value;
      if child == root || child in run.seen {
        assert run.seen + (Ids(threads) - {root}) == run.seen + (Ids(threads[1..]) - {root});
        ThreadsKeep(script, limit, run, root, threads[1..], budget);
      } else {
        var entered := run.(seen := run.seen + {child});
        EnteredConserves(script, limit, run, entered);
        BlockConserves(script, limit, entered, Items, child, budget);
        var next := ReplayBlock(entered, Items, child, budget);
        BlockDescends(run, next, root, child);
        BlockShortens(script, limit, next);
        assert run.seen + (Ids(threads) - {root}) == next.seen + (Ids(threads[1..]) - {root});
        ThreadsKeep(script, limit, next, root, threads[1..], budget);
      }
    }
  }

  lemma EnteredConserves(script: seq<Reply>, limit: nat, run: Run, entered: Run)
    requires Conserved(script, limit, run) && entered == run.(seen := entered.seen)
    ensures Conserved(script, limit, entered)
  {
  }

  lemma BlockShortens(script: seq<Reply>, limit: nat, run: Run)
    requires Conserved(script, limit, run)
    ensures |run.script| <= |script|
  {
  }

  lemma ListingTaken(script: seq<Reply>, limit: nat, run: Run, root: ThreadId)
    requires Conserved(script, limit, run) && Covered(script, run, root, []) && run.script != [] && run.script[0].Listing?
    ensures var taken := run.(script := run.script[1..]);
            Conserved(script, limit, taken) && Covered(script, taken, root, run.script[0].threads)
  {
    hide Whole, Count, PagesIn, Listed;
    var listing := run.script[0];
    Advanced(script, run.script, 1);
    var before := script[..|script| - |run.script|];
    assert run.script[..1] == [listing];
    PagesInSplit(before, [listing]);
    ListedSplit(before, [listing]);
    OneListing(listing);
  }

  lemma OneListing(listing: Reply)
    requires listing.Listing?
    ensures PagesIn([listing]) == [] && Listed([listing]) == Ids(listing.threads)
    ensures Ids([]) == {}
  {
    assert [listing][..0] == [];
    forall id | id in Ids(listing.threads) ensures id in Listed([listing]) {
      var i :| 0 <= i < |listing.threads| && listing.threads[i].id == Some(id);
      assert [listing][0].threads[i].id == Some(id);
    }
  }

  lemma {:induction false} ListingKeeps(script: seq<Reply>, limit: nat, run: Run, root: ThreadId, cursor: Option<Cursor>, pages: nat, budget: nat)
    requires Conserved(script, limit, run) && Descended(run, root) && Covered(script, run, root, [])
    requires ReplayListing(run, root, cursor, pages, budget).ok
    ensures var next := ReplayListing(run, root, cursor, pages, budget);
            Conserved(script, limit, next) && Descended(next, root) && Covered(script, next, root, [])
    decreases pages
  {
    hide Conserved, Covered, ReplayThreads;
    ListingTaken(script, limit, run, root);
    var listing := run.script[0];
    var taken := run.(script := run.script[1..]);
    ThreadsKeep(script, limit, taken, root, listing.threads, budget);
    if listing.next.Some? {
      ListingKeeps(script, limit, ReplayThreads(taken, root, listing.threads, budget), root, listing.next, pages - 1, budget);
    }
  }

  /**
    A replay that succeeds has consumed a prefix of the replies. Its blocks are the pages of that prefix in
    order, each a whole sequence: the root's items, the root's turns, then one block for every thread that the
    listings in the prefix name, except the root, and for no other. Entries shown and entries left make up
    the limit.
   */
  lemma ReplayComplete(script: seq<Reply>, root: ThreadId, limit: nat)
    requires ReplayAll(script, root, limit).ok
    ensures var run := ReplayAll(script, root, limit);
            && Conserved(script, limit, run) && Descended(run, root)
            && run.seen == Listed(script[..|script| - |run.script|]) - {root}
            && |ShownBlocks(run.blocks)| + run.remaining == limit
  {
    hide Conserved, Covered, Descended, ReplayBlock, ReplayListing;
    var budget := Max(limit, 1);
    RootReplayed(script, root, limit, budget);
    var items := ReplayBlock(Run(script, limit, [], {}, true), Items, root, budget);
    var turns := ReplayBlock(items, Turns, root, budget);
    ListingKeeps(script, limit, turns, root, None, MAX_LIST_PAGES, budget);
    var live := ReplayListing(turns, root, None, MAX_LIST_PAGES, budget);
    ListingKeeps(script, limit, live, root, None, MAX_LIST_PAGES, budget);
    var run := ReplayAll(script, root, limit);
    ShownMatches(script, limit, run);
    CoveredAll(script, limit, run, root);
  }

  lemma CoveredAll(script: seq<Reply>, limit: nat, run: Run, root: ThreadId)
    requires Conserved(script, limit, run) && Covered(script, run, root, []) && Descended(run, root)
    ensures |run.script| <= |script| && run.seen == Listed(script[..|script| - |run.script|]) - {root}
  {
    assert Ids([]) == {};
  }

  lemma RootReplayed(script: seq<Reply>, root: ThreadId, limit: nat, budget: nat)
    requires var items := ReplayBlock(Run(script, limit, [], {}, true), Items, root, budget);
             items.ok && ReplayBlock(items, Turns, root, budget).ok
    ensures var items := ReplayBlock(Run(script, limit, [], {}, true), Items, root, budget);
            var turns := ReplayBlock(items, Turns, root, budget);
            Conserved(script, limit, turns) && Descended(turns, root) && Covered(script, turns, root, [])
  {
    hide Conserved, Listed, ReplayBlock;
    var start := Run(script, limit, [], {}, true);
    StartFine(script, limit, root);
    BlockConserves(script, limit, start, Items, root, budget);
    var items := ReplayBlock(start, Items, root, budget);
    BlockConserves(script, limit, items, Turns, root, budget);
    var turns := ReplayBlock(items, Turns, root, budget);
    assert turns.blocks[0] == turns.blocks[..1][0];
    BlockShortens(script, limit, turns);
    assert Ids([]) == {};
  }

  lemma StartFine(script: seq<Reply>, limit: nat, root: ThreadId)
    ensures Conserved(script, limit, Run(script, limit, [], {}, true))
    ensures Listed(script[..|script| - |script|]) == {}
  {
    assert script[..0] == [];
    assert script[0..] == script;
  }

  lemma ShownMatches(script: seq<Reply>, limit: nat, run: Run)
    requires Conserved(script, limit, run)
    ensures |ShownBlocks(run.blocks)| + run.remaining == limit
  {
    hide Whole;
    ShownCount(run.blocks);
  }

  lemma {:induction false} ShownCount(blocks: seq<Block>)
    ensures |ShownBlocks(blocks)| == Count(AllPages(blocks))
  {
    if blocks != [] {
      var last := blocks[|blocks| - 1];
      ShownCount(blocks[..|blocks| - 1]);
      ShownPagesCount(last.kind, last.thread, last.pages);
      CountSplit(AllPages(blocks[..|blocks| - 1]), last.pages);
    }
  }

  lemma {:induction false} ShownPagesCount(kind: Kind, thread: ThreadId, pages: seq<Reply>)
    ensures |ShownPages(kind, thread, pages)| == Count(pages)
  {
    if pages != [] {
      ShownPagesCount(kind, thread, pages[..|pages| - 1]);
    }
  }

  // ---------------------------------------------------------------- the loops

  function ProjectedId(root: ThreadId, thread: ThreadId, item: string): string {
    if thread == root then item else Ownership.ChildItemId(thread, item)
  }

  function ProjectedIds(root: ThreadId, thread: ThreadId, entries: seq<Entry>): set<string> {
    set e | e in entries && e.id.Some? :: ProjectedId(root, thread, e.id.value)
  }

  /** Every item of the page is now known as of the page's frame. */
  function CutPage(cutoffs: map<string, nat>, root: ThreadId, thread: ThreadId, entries: seq<Entry>, sequence: nat): map<string, nat> {
    cutoffs + map id | id in ProjectedIds(root, thread, entries) :: sequence
  }

  function CutPages(cutoffs: map<string, nat>, root: ThreadId, thread: ThreadId, pages: seq<Reply>): map<string, nat> {
    if pages == [] then cutoffs
    else
      var last := pages[|pages| - 1];
      var before := CutPages(cutoffs, root, thread, pages[..|pages| - 1]);
      if last.Page? then CutPage(before, root, thread, last.entries, last.sequence) else before
  }

  function CutBlocks(cutoffs: map<string, nat>, root: ThreadId, blocks: seq<Block>): map<string, nat> {
    if blocks == [] then cutoffs
    else
      var last := blocks[|blocks| - 1];
      var before := CutBlocks(cutoffs, root, blocks[..|blocks| - 1]);
      if last.kind.Items? then CutPages(before, root, last.thread, last.pages) else before
  }

  class Replayer {
    const root: ThreadId
    const limit: nat
    var script: seq<Reply>   // the replies to the requests still to be made
    var remaining: nat
    var shown: seq<Shown>
    var cutoffs: map<string, nat>
    ghost var blocks: seq<Block>
    ghost var shownBefore: seq<Shown>
    ghost var cutoffsBefore: map<string, nat>

    ghost function Model(seen: set<ThreadId>): Run
      reads this
    {
      Run(script, remaining, blocks, seen, true)
    }

    ghost predicate Valid()
      reads this
    {
      && shown == shownBefore + ShownBlocks(blocks)
      && cutoffs == CutBlocks(cutoffsBefore, root, blocks)
    }

    /** What is shown in the middle of a block. */
    ghost predicate ValidWith(partial: seq<Block>)
      reads this
    {
      && shown == shownBefore + ShownBlocks(blocks + partial)
      && cutoffs == CutBlocks(cutoffsBefore, root, blocks + partial)
    }

    constructor (root: ThreadId, limit: nat, script: seq<Reply>, cutoffs: map<string, nat>)
      ensures Valid() && this.root == root && this.limit == limit && this.script == script && this.cutoffs == cutoffs
    {
      this.root, this.limit, this.script, this.cutoffs := root, limit, script, cutoffs;
      remaining, shown, blocks, shownBefore, cutoffsBefore := limit, [], [], [], cutoffs;
    }

    method Ask() returns (reply: Reply)
      modifies this`script
      ensures reply == if old(script) == [] then Failed else old(script)[0]
      ensures script == if old(script) == [] then [] else old(script)[1..]
    {
      if script == [] {
        return Failed;
      }
      reply := script[0];
      script := script[1..];
    }

    method ShowEntries(kind: Kind, thread: ThreadId, entries: seq<Entry>, sequence: nat) returns (ok: bool)
      modifies this`shown, this`cutoffs
      ensures ok == forall e <- entries :: e.good
      ensures ok ==> shown == old(shown) + ShownPage(kind, thread, entries)
      ensures ok ==> cutoffs == if kind.Items? then CutPage(old(cutoffs), root, thread, entries, sequence) else old(cutoffs)
    {
      for i := 0 to |entries|
        invariant forall e <- entries[..i] :: e.good
        invariant shown == old(shown) + ShownPage(kind, thread, entries[..i])
        invariant cutoffs == if kind.Items? then CutPage(old(cutoffs), root, thread, entries[..i], sequence) else old(cutoffs)
      {
        var entry := entries[i];
        assert entries[..i + 1] == entries[..i] + [entry];
        if kind.Items? && entry.id.Some? {
          cutoffs := cutoffs[ProjectedId(root, thread, entry.id.value) := sequence];
        }
        CutOne(old(cutoffs), root, thread, entries[..i], entry, sequence);
        if !entry.good {
          return false;
        }
        shown := shown + [Shown(kind, thread, entry)];
        assert ShownPage(kind, thread, entries[..i + 1]) == ShownPage(kind, thread, entries[..i]) + [Shown(kind, thread, entry)];
      }
      assert entries[..|entries|] == entries;
      return true;
    }

    /** One turn of the paging loop, up to the check of the next cursor. */
    method ReplayPage(kind: Kind, thread: ThreadId, ghost pages: seq<Reply>) returns (ok: bool, page: Reply)
      requires ValidWith([Block(kind, thread, pages)])
      modifies this`script, this`remaining, this`shown, this`cutoffs
      ensures ok == (old(script) != [] && GoodPage(old(script)[0], old(remaining)))
      ensures ok ==> page.Page? && page == old(script)[0] && script == old(script)[1..] && remaining == old(remaining) - |page.entries|
      ensures ok ==> ValidWith([Block(kind, thread, pages + [page])])
    {
      hide ShownBlocks, CutBlocks, CutPage, ShownPage;
      page := Ask();
      if !page.Page? || |page.entries| > remaining {
        return false, page;
      }
      remaining := remaining - |page.entries|;
      AddPage(shownBefore, cutoffsBefore, root, blocks, kind, thread, pages, page);
      ok := ShowEntries(kind, thread, page.entries, page.sequence);
    }

    method ReplayThread(kind: Kind, thread: ThreadId) returns (ok: bool)
      requires Valid()
      modifies this`script, this`remaining, this`shown, this`cutoffs, this`blocks
      ensures ok == ReplayBlock(old(Model({})), kind, thread, Max(limit, 1)).ok
      ensures ok ==> Valid() && Model({}) == ReplayBlock(old(Model({})), kind, thread, Max(limit, 1))
    {
      hide Paging, ReplayBlock, ShownBlocks, CutBlocks, GoodPage;
      var budget := Max(limit, 1);
      var cursor := None;
      ghost var pages: seq<Reply> := [];
      ghost var start := Model({});
      PagingBegins(start, budget);
      NoPages(cutoffsBefore, root, blocks, kind, thread);
      for i := 0 to budget
        invariant Paging(start, budget, pages, script, cursor, budget - i, remaining)
        invariant ValidWith([Block(kind, thread, pages)]) && blocks == old(blocks)
      {
        PagingSteps(start, kind, thread, budget, pages, script, cursor, budget - i, remaining);
        var good, reply := ReplayPage(kind, thread, pages);
        if !good {
          return false;
        }
        pages := pages + [reply];
        if reply.next.None? {
          blocks := blocks + [Block(kind, thread, pages)];
          return true;
        }
        if reply.next == cursor {
          return false;
        }
        cursor := reply.next;
      }
      PagingSteps(start, kind, thread, budget, pages, script, cursor, 0, remaining);
      return false;
    }

    method ReplayListed(before: set<ThreadId>) returns (ok: bool, seen: set<ThreadId>)
      requires Valid()
      modifies this`script, this`remaining, this`shown, this`cutoffs, this`blocks
      ensures ok == ReplayListing(old(Model(before)), root, None, MAX_LIST_PAGES, Max(limit, 1)).ok
      ensures ok ==> Valid() && Model(seen) == ReplayListing(old(Model(before)), root, None, MAX_LIST_PAGES, Max(limit, 1))
    {
      hide ReplayBlock, ShownBlocks, CutBlocks;
      var budget := Max(limit, 1);
      var cursor := None;
      ghost var start := Model(before);
      seen := before;
      for i := 0 to MAX_LIST_PAGES
        invariant Valid()
        invariant ReplayListing(start, root, None, MAX_LIST_PAGES, budget)
                  == ReplayListing(Model(seen), root, cursor, MAX_LIST_PAGES - i, budget)
      {
        var reply := Ask();
        if !reply.Listing? {
          return false, seen;
        }
        ghost var taken := Model(seen);
        for t := 0 to |reply.threads|
          invariant Valid()
          invariant ReplayThreads(taken, root, reply.threads, budget) == ReplayThreads(Model(seen), root, reply.threads[t..], budget)
        {
          var thread := reply.threads[t];
          assert reply.threads[t..][1..] == reply.threads[t + 1..];
          if thread.id.None? {
            return false, seen;
          }
          if thread.id.value != root && thread.id.value !in seen {
            if |seen| >= MAX_DESCENDANTS || !thread.owned {
              return false, seen;
            }
            BlockIgnoresSeen(Model(seen + {thread.id.value}), Items, thread.id.value, budget);
            seen := seen + {thread.id.value};
            var replayed := ReplayThread(Items, thread.id.value);
            if !replayed {
              return false, seen;
            }
          }
        }
        if reply.next.None? {
          return true, seen;
        }
        if reply.next == cursor {
          return false, seen;
        }
        cursor := reply.next;
      }
      return false, seen;
    }

    method ReplayHistory() returns (ok: bool)
      modifies this
      ensures ok == ReplayAll(old(script), root, limit).ok
      ensures ok ==>
                var run := ReplayAll(old(script), root, limit);
                && script == run.script && remaining == run.remaining && blocks == run.blocks
                && shown == old(shown) + ShownBlocks(blocks)
                && cutoffs == CutBlocks(old(cutoffs), root, blocks)
    {
      remaining, blocks, shownBefore, cutoffsBefore := limit, [], shown, cutoffs;
      hide ReplayBlock, ReplayListing;
      ok := ReplayThread(Items, root);
      if !ok {
        return;
      }
      ok := ReplayThread(Turns, root);
      if !ok {
        return;
      }
      var seen: set<ThreadId>;
      ok, seen := ReplayListed({});
      if !ok {
        return;
      }
      ok, seen := ReplayListed(seen);
    }
  }

  lemma CutOne(cutoffs: map<string, nat>, root: ThreadId, thread: ThreadId, entries: seq<Entry>, entry: Entry, sequence: nat)
    ensures CutPage(cutoffs, root, thread, entries + [entry], sequence)
            == if entry.id.Some? then CutPage(cutoffs, root, thread, entries, sequence)[ProjectedId(root, thread, entry.id.value) := sequence]
               else CutPage(cutoffs, root, thread, entries, sequence)
  {
    var one := if entry.id.Some? then {ProjectedId(root, thread, entry.id.value)} else {};
    assert ProjectedIds(root, thread, entries + [entry]) == ProjectedIds(root, thread, entries) + one;
  }

  lemma AddPage(shown: seq<Shown>, cutoffs: map<string, nat>, root: ThreadId, blocks: seq<Block>,
                kind: Kind, thread: ThreadId, pages: seq<Reply>, page: Reply)
    requires page.Page?
    ensures var before, after := blocks + [Block(kind, thread, pages)], blocks + [Block(kind, thread, pages + [page])];
            && shown + ShownBlocks(after) == shown + ShownBlocks(before) + ShownPage(kind, thread, page.entries)
            && CutBlocks(cutoffs, root, after)
               == (if kind.Items? then CutPage(CutBlocks(cutoffs, root, before), root, thread, page.entries, page.sequence)
                   else CutBlocks(cutoffs, root, before))
  {
    hide CutPage, ShownPage;
    AddBlock(cutoffs, root, blocks, Block(kind, thread, pages));
    AddBlock(cutoffs, root, blocks, Block(kind, thread, pages + [page]));
    assert (pages + [page])[..|pages|] == pages;
    Regroup(ShownBlocks(blocks), ShownPages(kind, thread, pages), ShownPage(kind, thread, page.entries));
    Regroup(shown, ShownBlocks(blocks + [Block(kind, thread, pages)]), ShownPage(kind, thread, page.entries));
  }

  lemma NoPages(cutoffs: map<string, nat>, root: ThreadId, blocks: seq<Block>, kind: Kind, thread: ThreadId)
    ensures ShownBlocks(blocks + [Block(kind, thread, [])]) == ShownBlocks(blocks)
    ensures CutBlocks(cutoffs, root, blocks + [Block(kind, thread, [])]) == CutBlocks(cutoffs, root, blocks)
  {
    AddBlock(cutoffs, root, blocks, Block(kind, thread, []));
  }

  /** The paging loop has read `pages`; what reading the rest would give decides about the whole. */
  ghost predicate Paging(start: Run, budget: nat, pages: seq<Reply>, script: seq<Reply>, cursor: Option<Cursor>, left: nat, remaining: nat) {
    && start.ok && start.script == pages + script && Count(pages) + remaining == start.remaining
    && var rest := Read(script, cursor, left, remaining);
       Read(start.script, None, budget, start.remaining) == Outcome(rest.ok, rest.used + |pages|)
  }

  lemma PagingBegins(start: Run, budget: nat)
    requires start.ok
    ensures Paging(start, budget, [], start.script, None, budget, start.remaining)
  {
    assert [] + start.script == start.script;
  }

  lemma PagingSteps(start: Run, kind: Kind, thread: ThreadId, budget: nat,
                    pages: seq<Reply>, script: seq<Reply>, cursor: Option<Cursor>, left: nat, remaining: nat)
    requires Paging(start, budget, pages, script, cursor, left, remaining)
    ensures var result := ReplayBlock(start, kind, thread, budget);
            if left == 0 || script == [] || !GoodPage(script[0], remaining) then !result.ok
            else
              var page, read := script[0], pages + [script[0]];
              var now := remaining - |page.entries|;
              if page.next.None? then
                result == start.(script := script[1..], remaining := now, blocks := start.blocks + [Block(kind, thread, read)])
              else if page.next == cursor then !result.ok
              else Paging(start, budget, read, script[1..], page.next, left - 1, now)
  {
    BlockReads(start, kind, thread, budget);
    if left > 0 && script != [] && GoodPage(script[0], remaining) {
      var page, read := script[0], pages + [script[0]];
      assert start.script == read + script[1..];
      CountSplit(pages, [page]);
      CountCons(page, []);
      assert [page] + [] == [page];
      if page.next.None? {
        BlockIs(start, kind, thread, budget, read, script[1..], remaining - |page.entries|);
      }
    }
  }

  lemma BlockReads(run: Run, kind: Kind, thread: ThreadId, budget: nat)
    requires run.ok
    ensures ReplayBlock(run, kind, thread, budget).ok == Read(run.script, None, budget, run.remaining).ok
  {
    hide Count, Whole, Read;
    if Read(run.script, None, budget, run.remaining).ok {
      ReadIsWhole(run.script, None, budget, run.remaining);
    }
  }

  lemma Regroup<T>(a: seq<T>, b: seq<T>, c: seq<T>)
    ensures a + (b + c) == a + b + c
  {
  }

  lemma BlockIs(run: Run, kind: Kind, thread: ThreadId, budget: nat, pages: seq<Reply>, later: seq<Reply>, left: nat)
    requires run.script == pages + later && Count(pages) + left == run.remaining
    requires Read(run.script, None, budget, run.remaining) == Outcome(true, |pages|)
    ensures ReplayBlock(run, kind, thread, budget)
            == run.(script := later, remaining := left, blocks := run.blocks + [Block(kind, thread, pages)])
  {
    hide Read, Count;
    assert run.script[..|pages|] == pages && run.script[|pages|..] == later;
  }

  lemma AddBlock(cutoffs: map<string, nat>, root: ThreadId, blocks: seq<Block>, block: Block)
    ensures ShownBlocks(blocks + [block]) == ShownBlocks(blocks) + ShownPages(block.kind, block.thread, block.pages)
    ensures CutBlocks(cutoffs, root, blocks + [block])
            == if block.kind.Items? then CutPages(CutBlocks(cutoffs, root, blocks), root, block.thread, block.pages)
               else CutBlocks(cutoffs, root, blocks)
  {
    assert (blocks + [block])[..|blocks|] == blocks;
  }

  lemma BlockIgnoresSeen(run: Run, kind: Kind, thread: ThreadId, budget: nat)
    ensures ReplayBlock(run, kind, thread, budget) == ReplayBlock(run.(seen := {}), kind, thread, budget).(seen := run.seen)
  {
  }

  /** A cutoff is the number of the last page with the item, and an item on no page keeps what it had. */
  lemma {:induction false} CutoffIsLastPage(cutoffs: map<string, nat>, root: ThreadId, thread: ThreadId, pages: seq<Reply>, id: string)
    requires forall p <- pages :: p.Page?
    ensures if forall p <- pages :: id !in ProjectedIds(root, thread, p.entries)
            then Get(CutPages(cutoffs, root, thread, pages), id) == Get(cutoffs, id)
            else exists k :: 0 <= k < |pages| && id in ProjectedIds(root, thread, pages[k].entries)
                   && Get(CutPages(cutoffs, root, thread, pages), id) == Some(pages[k].sequence)
                   && forall j | k < j < |pages| :: id !in ProjectedIds(root, thread, pages[j].entries)
  {
    hide ProjectedIds, CutPage;
    if pages != [] {
      var last := |pages| - 1;
      var before := pages[..last];
      assert pages == before + [pages[last]];
      GetCut(CutPages(cutoffs, root, thread, before), root, thread, pages[last].entries, pages[last].sequence, id);
      if id !in ProjectedIds(root, thread, pages[last].entries) {
        CutoffIsLastPage(cutoffs, root, thread, before, id);
        assert forall j | 0 <= j < last :: before[j] == pages[j];
      }
    }
  }

  lemma GetCut(cutoffs: map<string, nat>, root: ThreadId, thread: ThreadId, entries: seq<Entry>, sequence: nat, id: string)
    ensures Get(CutPage(cutoffs, root, thread, entries, sequence), id)
            == if id in ProjectedIds(root, thread, entries) then Some(sequence) else Get(cutoffs, id)
  {
  }

  /** An entry of the page is that item. */
  predicate Lists(page: Reply, item: string) { page.Page? && exists e <- page.entries :: e.id == Some(item) }

  /**
    The cutoffs of one thread's pages: the root's items under their own ids, a descendant's under the thread's and
    theirs, each with the sequence of the last page that lists it.
   */
  lemma ItemsAreCutExactly(cutoffs: map<string, nat>, root: ThreadId, thread: ThreadId, pages: seq<Reply>, item: string)
    requires forall p <- pages :: p.Page?
    ensures var key := if thread == root then item else "codex-child:" + thread + ":" + item;
            var after := CutPages(cutoffs, root, thread, pages);
            if forall p <- pages :: !Lists(p, item) then Get(after, key) == Get(cutoffs, key)
            else exists k :: 0 <= k < |pages| && Lists(pages[k], item) && Get(after, key) == Some(pages[k].sequence)
                             && forall j | k < j < |pages| :: !Lists(pages[j], item)
  {
    hide CutPages, Lists;
    var key := ProjectedId(root, thread, item);
    forall p | p in pages ensures key in ProjectedIds(root, thread, p.entries) <==> Lists(p, item) {
      ListsIs(root, thread, p, item);
    }
    CutoffIsLastPage(cutoffs, root, thread, pages, key);
    forall k | 0 <= k < |pages| ensures pages[k] in pages {
    }
  }

  lemma ListsIs(root: ThreadId, thread: ThreadId, page: Reply, item: string)
    requires page.Page?
    ensures ProjectedId(root, thread, item) in ProjectedIds(root, thread, page.entries) <==> Lists(page, item)
    ensures ProjectedId(root, thread, item) == if thread == root then item else "codex-child:" + thread + ":" + item
  {
    forall other | ProjectedId(root, thread, other) == ProjectedId(root, thread, item) ensures other == item {
      if thread != root {
        Ownership.ChildItemsDistinct(thread, other, item);
      }
    }
  }

  /** The turns' diagnostics leave the cutoffs alone. */
  lemma TurnsAreNotCut(cutoffs: map<string, nat>, root: ThreadId, blocks: seq<Block>, block: Block)
    requires block.kind.Turns?
    ensures CutBlocks(cutoffs, root, blocks + [block]) == CutBlocks(cutoffs, root, blocks)
  {
    assert (blocks + [block])[..|blocks|] == blocks;
  }

  // ---------------------------------------------------------------- what is shown, in order

  /** The entries of the pages among the replies, in order. */
  function Entries(replies: seq<Reply>): seq<Entry> {
    if replies == [] then []
    else Entries(replies[..|replies| - 1]) + if replies[|replies| - 1].Page? then replies[|replies| - 1].entries else []
  }

  function Bare(shown: seq<Shown>): (r: seq<Entry>)
    ensures |r| == |shown| && forall i | 0 <= i < |r| :: r[i] == shown[i].entry
  {
    seq(|shown|, i requires 0 <= i < |shown| => shown[i].entry)
  }

  lemma BareSplit(a: seq<Shown>, b: seq<Shown>)
    ensures Bare(a + b) == Bare(a) + Bare(b)
  {
  }

  lemma {:induction false} EntriesSplit(a: seq<Reply>, b: seq<Reply>)
    ensures Entries(a + b) == Entries(a) + Entries(b)
  {
    if b == [] {
      assert a + b == a;
    } else {
      assert (a + b)[..|a + b| - 1] == a + b[..|b| - 1];
      EntriesSplit(a, b[..|b| - 1]);
    }
  }

  lemma {:induction false} PagesAreShown(kind: Kind, thread: ThreadId, pages: seq<Reply>)
    ensures Bare(ShownPages(kind, thread, pages)) == Entries(pages)
    ensures forall s <- ShownPages(kind, thread, pages) :: s.kind == kind && s.thread == thread
  {
    if pages != [] {
      var init, last := pages[..|pages| - 1], pages[|pages| - 1];
      PagesAreShown(kind, thread, init);
      if last.Page? {
        BareSplit(ShownPages(kind, thread, init), ShownPage(kind, thread, last.entries));
        assert Bare(ShownPage(kind, thread, last.entries)) == last.entries;
      }
    }
  }

  lemma {:induction false} BlocksAreShown(blocks: seq<Block>)
    ensures Bare(ShownBlocks(blocks)) == Entries(AllPages(blocks))
  {
    if blocks != [] {
      var init, last := blocks[..|blocks| - 1], blocks[|blocks| - 1];
      BlocksAreShown(init);
      PagesAreShown(last.kind, last.thread, last.pages);
      BareSplit(ShownBlocks(init), ShownPages(last.kind, last.thread, last.pages));
      EntriesSplit(AllPages(init), last.pages);
    }
  }

  lemma {:induction false} EntriesOfPages(replies: seq<Reply>)
    ensures Entries(PagesIn(replies)) == Entries(replies)
  {
    if replies != [] {
      var init, last := replies[..|replies| - 1], replies[|replies| - 1];
      EntriesOfPages(init);
      EntriesSplit(PagesIn(init), if last.Page? then [last] else []);
      assert last.Page? ==> [last][..0] == [] && Entries([last]) == last.entries;
    }
  }

  /** What a successful replay shows are the entries of the replies that it took, all of them, in their order. */
  lemma ShownInOrder(script: seq<Reply>, root: ThreadId, limit: nat)
    requires ReplayAll(script, root, limit).ok
    ensures var run := ReplayAll(script, root, limit);
            |run.script| <= |script| && Bare(ShownBlocks(run.blocks)) == Entries(script[..|script| - |run.script|])
  {
    hide ReplayAll, Descended, Entries, PagesIn, ShownBlocks, AllPages, Count;
    ReplayComplete(script, root, limit);
    var run := ReplayAll(script, root, limit);
    BlocksAreShown(run.blocks);
    EntriesOfPages(script[..|script| - |run.script|]);
  }
}
