/**
  Which replies let a session's descendants be closed (src/server/teardown.rs).

  What is said while a close succeeds is a sequence of complete rounds. Conversely, whenever the backend's replies
  begin with those of complete rounds, the close succeeds with them and takes no reply more.
 */
module Closings {
  import opened Prelude
  import opened Descendants

  function Replies(said: seq<Exchange>): (r: seq<Reply>)
    ensures |r| == |said| && forall i | 0 <= i < |r| :: r[i] == said[i].reply
  {
    seq(|said|, i requires 0 <= i < |said| => said[i].reply)
  }

  lemma RepliesSplit(a: seq<Exchange>, b: seq<Exchange>)
    ensures Replies(a + b) == Replies(a) + Replies(b)
  {
  }

  // ---------------------------------------------------------------- one child

  lemma {:induction false} AwaitIs(script: seq<Reply>, k: nat)
    requires k < |script| && script[k] == Status(false) && forall i | 0 <= i < k :: script[i] == Status(true)
    ensures AwaitQuiet(script) == Some(script[k + 1..])
    decreases k
  {
    if k > 0 {
      AwaitIs(script[1..], k - 1);
      assert script[1..][k..] == script[k + 1..];
    }
  }

  lemma {:induction false} AwaitTaken(script: seq<Reply>) returns (k: nat)
    requires AwaitQuiet(script).Some?
    ensures k < |script| && script[k] == Status(false) && forall i | 0 <= i < k :: script[i] == Status(true)
    decreases |script|
  {
    if script[0].active {
      var rest := AwaitTaken(script[1..]);
      k := rest + 1;
      assert script[k] == script[1..][rest];
      forall i | 0 <= i < k ensures script[i] == Status(true) {
        assert i > 0 ==> script[i] == script[1..][i - 1];
      }
    } else {
      k := 0;
    }
  }

  lemma TalkCloses(child: ThreadId, talk: seq<Exchange>, rest: seq<Reply>)
    requires Closes(child, talk)
    ensures CloseOne(Replies(talk) + rest) == Some(rest)
  {
    var script, n := Replies(talk) + rest, |talk|;
    assert forall i | 0 <= i < n :: script[i] == talk[i].reply;
    if n == 3 {
      assert script[1..][2..] == rest;
    } else {
      InterruptsTalk(child, talk, script);
      hide Closes, Interruption, Replies;
      Quietens(child, talk, script);
      assert script[n - 2..][2..] == rest;
    }
  }

  lemma InterruptsTalk(child: ThreadId, talk: seq<Exchange>, script: seq<Reply>)
    requires Closes(child, talk) && |talk| > 3 && |talk| <= |script| && forall i | 0 <= i < |talk| :: script[i] == talk[i].reply
    ensures Interruption(script) == Some((true, script[Awaiting(talk[2])..]))
  {
  }

  lemma Quietens(child: ThreadId, talk: seq<Exchange>, script: seq<Reply>)
    requires Closes(child, talk) && |talk| > 3 && |talk| <= |script| && forall i | 0 <= i < |talk| :: script[i] == talk[i].reply
    ensures AwaitQuiet(script[Awaiting(talk[2])..]) == Some(script[|talk| - 2..])
    ensures script[|talk| - 2] == Done && script[|talk| - 1] == Done
  {
    var from, n := Awaiting(talk[2]), |talk|;
    AwaitIs(script[from..], n - 3 - from);
    assert script[from..][n - 3 - from + 1..] == script[n - 2..];
  }

  lemma CloseTaken(child: ThreadId, script: seq<Reply>) returns (talk: seq<Exchange>)
    requires CloseOne(script).Some?
    ensures Closes(child, talk) && script == Replies(talk) + CloseOne(script).value
  {
    if Interruption(script).value.0 {
      talk := ActiveTaken(child, script);
    } else {
      talk := [Exchange(Read(child), Status(false)), Exchange(Clean(child), Done), Exchange(Unsubscribe(child), Done)];
      assert script == Replies(talk) + script[3..];
    }
  }

  lemma ActiveTaken(child: ThreadId, script: seq<Reply>) returns (talk: seq<Exchange>)
    requires CloseOne(script).Some? && Interruption(script).value.0
    ensures Closes(child, talk) && script == Replies(talk) + CloseOne(script).value
  {
    hide Closes, Replies;
    var rest := Interruption(script).value.1;
    var k := AwaitTaken(rest);
    AwaitIs(rest, k);
    talk := TalkOf(child, script, k);
    var n := |talk|;
    assert n <= |script| && forall i | 0 <= i < n :: talk[i].reply == script[i];
    assert script == Replies(talk) + script[n..];
  }

  /** The requests that belong to the replies, the last k before the end of the wait. */
  lemma TalkOf(child: ThreadId, script: seq<Reply>, k: nat) returns (talk: seq<Exchange>)
    requires Interruption(script).Some? && Interruption(script).value.0
    requires var rest := Interruption(script).value.1;
             && k + 3 <= |rest| && rest[k] == Status(false) && (forall i | 0 <= i < k :: rest[i] == Status(true))
             && rest[k + 1] == Done && rest[k + 2] == Done
    ensures Closes(child, talk) && |talk| == |script| - |Interruption(script).value.1| + k + 3
    ensures forall i | 0 <= i < |talk| :: talk[i].reply == script[i]
  {
    var rest := Interruption(script).value.1;
    var from := |script| - |rest|;
    assert rest == script[from..];
    var interrupt := if script[1].newest.InProgress? then Interrupt(child, script[1].newest.turn.value) else Interrupt(child, "");
    talk := seq(from + k + 3, i requires 0 <= i < from + k + 3 =>
      Exchange(if i == 1 then Turns(child) else if i == 2 then interrupt
               else if i == from + k + 1 then Clean(child) else if i == from + k + 2 then Unsubscribe(child) else Read(child),
               script[i]));
  }

  /** A child's close succeeds exactly if the replies begin with those of a talk that closes it. */
  lemma CloseExactly(child: ThreadId, script: seq<Reply>, rest: seq<Reply>)
    ensures CloseOne(script) == Some(rest) <==> exists talk :: Closes(child, talk) && script == Replies(talk) + rest
  {
    hide Closes, CloseOne;
    if CloseOne(script) == Some(rest) {
      var talk := CloseTaken(child, script);
    }
    forall talk | Closes(child, talk) && script == Replies(talk) + rest ensures CloseOne(script) == Some(rest) {
      TalkCloses(child, talk, rest);
    }
  }

  // ---------------------------------------------------------------- the children of one round

  lemma {:induction false} ConcatFront(part: seq<Exchange>, parts: seq<seq<Exchange>>)
    ensures Concat([part] + parts) == part + Concat(parts)
    decreases |parts|
  {
    if parts == [] {
      assert [part] + parts == [part] && [part][..0] == [];
    } else {
      var init, last := parts[..|parts| - 1], parts[|parts| - 1];
      assert [part] + parts == ([part] + init) + [last];
      ConcatOne([part] + init, last);
      ConcatFront(part, init);
      assert parts == init + [last];
    }
  }

  ghost predicate AllClosed(children: seq<ThreadId>, closings: seq<seq<Exchange>>) {
    |closings| == |children| && forall k | 0 <= k < |children| :: Closes(children[k], closings[k])
  }

  lemma Regroup(a: seq<Reply>, b: seq<Reply>, c: seq<Reply>)
    ensures a + b + c == a + (b + c)
  {
  }

  lemma {:induction false} EachCloses(children: seq<ThreadId>, closings: seq<seq<Exchange>>, rest: seq<Reply>)
    requires AllClosed(children, closings)
    ensures CloseEach(Replies(Concat(closings)) + rest, children) == Some(rest)
    decreases |children|
  {
    hide Closes, CloseOne, Concat, Replies;
    if children == [] {
      NoParts();
      assert [] + rest == rest;
    } else {
      assert closings == [closings[0]] + closings[1..];
      ConcatFront(closings[0], closings[1..]);
      RepliesSplit(closings[0], Concat(closings[1..]));
      Regroup(Replies(closings[0]), Replies(Concat(closings[1..])), rest);
      TalkCloses(children[0], closings[0], Replies(Concat(closings[1..])) + rest);
      EachCloses(children[1..], closings[1..], rest);
    }
  }

  lemma NoParts()
    ensures Concat([]) == [] && Replies([]) == []
  {
  }

  lemma {:induction false} EachTaken(script: seq<Reply>, children: seq<ThreadId>) returns (closings: seq<seq<Exchange>>)
    requires CloseEach(script, children).Some?
    ensures AllClosed(children, closings) && script == Replies(Concat(closings)) + CloseEach(script, children).value
    decreases |children|
  {
    hide Closes, CloseOne, Concat, Replies;
    if children == [] {
      closings := [];
      NoParts();
      assert [] + script == script;
    } else {
      var talk := CloseTaken(children[0], script);
      var rest := CloseOne(script).value;
      var more := EachTaken(rest, children[1..]);
      closings := [talk] + more;
      ConcatFront(talk, more);
      RepliesSplit(talk, Concat(more));
      Regroup(Replies(talk), Replies(Concat(more)), CloseEach(script, children).value);
      forall k | 0 <= k < |children| ensures Closes(children[k], closings[k]) {
        assert k > 0 ==> children[k] == children[1..][k - 1] && closings[k] == more[k - 1];
      }
    }
  }

  // ---------------------------------------------------------------- a listing

  /** A page that can follow these. */
  predicate Follows(pages: seq<Exchange>, page: Exchange) {
    && page.reply.Page? && page.request == List(CursorFor(pages, |pages|)) && (pages != [] ==> CursorFor(pages, |pages|).Some?)
    && (forall t <- page.reply.threads :: t.id.Some?)
    && (page.reply.next.Some? ==> page.reply.next != CursorFor(pages, |pages|))
  }

  lemma ListedUpTo(pages: seq<Exchange>, k: nat)
    requires Listed(pages) && k < |pages|
    ensures Listed(pages[..k]) && Follows(pages[..k], pages[k]) && CursorFor(pages[..k], k) == CursorFor(pages, k)
  {
    forall i | 0 <= i <= k ensures CursorFor(pages[..k], i) == CursorFor(pages, i) {
      assert i > 0 ==> pages[..k][i - 1] == pages[i - 1];
    }
    forall i | 0 <= i < k ensures pages[..k][i] == pages[i] {
    }
  }

  lemma FoundGrows(earlier: seq<Exchange>, page: Exchange, root: ThreadId, processed: set<ThreadId>)
    requires page.reply.Page?
    ensures Found(Threads(earlier + [page]), root, processed)
            == Found(Threads(earlier), root, processed) + Found(page.reply.threads, root, processed)
  {
    ThreadsOne(earlier, page);
    FoundSplit(Threads(earlier), page.reply.threads, root, processed);
  }

  lemma {:induction false} FoundMonotone(pages: seq<Exchange>, k: nat, root: ThreadId, processed: set<ThreadId>)
    requires k <= |pages| && forall p <- pages :: p.reply.Page?
    ensures |Found(Threads(pages[..k]), root, processed)| <= |Found(Threads(pages), root, processed)|
    decreases |pages| - k
  {
    hide Found, Threads;
    if k == |pages| {
      assert pages[..k] == pages;
    } else {
      assert pages[k] in pages && pages[..k + 1] == pages[..k] + [pages[k]];
      FoundGrows(pages[..k], pages[k], root, processed);
      FoundMonotone(pages, k + 1, root, processed);
    }
  }

  lemma {:induction false} ListingDone(pages: seq<Exchange>, k: nat, root: ThreadId, processed: set<ThreadId>, left: nat, rest: seq<Reply>)
    requires Whole(pages) && k < |pages| && |pages| - k <= left
    requires |Found(Threads(pages), root, processed)| + |processed| <= 4096
    ensures ListAll(Replies(pages[k..]) + rest, CursorFor(pages, k), root, processed, Found(Threads(pages[..k]), root, processed), left)
            == Some((Found(Threads(pages), root, processed), rest))
    decreases |pages| - k
  {
    hide Found, Threads, Listed;
    ListedUpTo(pages, k);
    AllPages(pages);
    var script := Replies(pages[k..]) + rest;
    assert script[0] == pages[k].reply && script[1..] == Replies(pages[k + 1..]) + rest;
    assert pages[..k + 1] == pages[..k] + [pages[k]];
    FoundGrows(pages[..k], pages[k], root, processed);
    FoundMonotone(pages, k + 1, root, processed);
    if k == |pages| - 1 {
      assert pages[..k + 1] == pages && Replies(pages[k + 1..]) + rest == rest;
    } else {
      ListedUpTo(pages, k + 1);
      ListingDone(pages, k + 1, root, processed, left - 1, rest);
    }
  }

  lemma AllPages(pages: seq<Exchange>)
    requires Listed(pages)
    ensures forall p <- pages :: p.reply.Page?
  {
  }

  lemma {:induction false} ListingTaken(earlier: seq<Exchange>, script: seq<Reply>, root: ThreadId, processed: set<ThreadId>, left: nat)
      returns (pages: seq<Exchange>)
    requires Listed(earlier) && (earlier != [] ==> CursorFor(earlier, |earlier|).Some?)
    requires ListAll(script, CursorFor(earlier, |earlier|), root, processed, Found(Threads(earlier), root, processed), left).Some?
    ensures Listed(pages) && earlier <= pages && |earlier| < |pages| <= |earlier| + left && CursorFor(pages, |pages|).None?
    ensures var (children, rest) := ListAll(script, CursorFor(earlier, |earlier|), root, processed, Found(Threads(earlier), root, processed), left).value;
            && children == Found(Threads(pages), root, processed) && |children| + |processed| <= 4096
            && script == Replies(pages[|earlier|..]) + rest
    decreases left
  {
    hide Found, Threads, Listed, Replies;
    var page := Exchange(List(CursorFor(earlier, |earlier|)), script[0]);
    FoundGrows(earlier, page, root, processed);
    ListedOne(earlier, page);
    pages := earlier + [page];
    assert script == [script[0]] + script[1..];
    OneReply(page);
    if script[0].next.Some? {
      var more := ListingTaken(pages, script[1..], root, processed, left - 1);
      TailFrom(earlier, page, more);
      RepliesSplit([page], more[|pages|..]);
      var (_, rest) := ListAll(script, CursorFor(earlier, |earlier|), root, processed, Found(Threads(earlier), root, processed), left).value;
      Regroup([script[0]], Replies(more[|pages|..]), rest);
      pages := more;
    } else {
      TailFrom(earlier, page, pages);
      assert pages[|pages|..] == [] && [page] + [] == [page];
    }
  }

  lemma OneReply(page: Exchange)
    ensures Replies([page]) == [page.reply]
  {
  }

  lemma TailFrom(earlier: seq<Exchange>, page: Exchange, more: seq<Exchange>)
    requires earlier + [page] <= more
    ensures more[|earlier|..] == [page] + more[|earlier| + 1..]
  {
    assert more[|earlier|] == (earlier + [page])[|earlier|];
  }

  /** A listing that finds these children, with room for them. */
  ghost predicate Finds(pages: seq<Exchange>, root: ThreadId, processed: set<ThreadId>, children: seq<ThreadId>) {
    Whole(pages) && children == Found(Threads(pages), root, processed) && |children| + |processed| <= 4096
  }

  lemma ListingExactly(script: seq<Reply>, root: ThreadId, processed: set<ThreadId>, children: seq<ThreadId>, rest: seq<Reply>)
    ensures ListAll(script, None, root, processed, [], MAX_PAGES) == Some((children, rest))
            <==> exists pages :: Finds(pages, root, processed, children) && script == Replies(pages) + rest
  {
    hide ListAll, Found, Threads, Listed;
    NothingListed();
    NothingFound(root, processed);
    if ListAll(script, None, root, processed, [], MAX_PAGES) == Some((children, rest)) {
      var pages := ListingTaken([], script, root, processed, MAX_PAGES);
      assert pages[0..] == pages;
      assert Finds(pages, root, processed, children);
    }
    forall pages | Finds(pages, root, processed, children) && script == Replies(pages) + rest
      ensures ListAll(script, None, root, processed, [], MAX_PAGES) == Some((children, rest))
    {
      ListingDone(pages, 0, root, processed, MAX_PAGES, rest);
      assert pages[0..] == pages && pages[..0] == [];
    }
  }

  // ---------------------------------------------------------------- all rounds

  /** At most 32 rounds, each with room for what it finds, of which exactly the last finds nothing. */
  ghost predicate Complete(rounds: seq<Round>, root: ThreadId) {
    && 0 < |rounds| <= 32 && RoundsFine(rounds, root)
    && (forall k | 0 <= k < |rounds| :: rounds[k].children == [] <==> k == |rounds| - 1)
    && forall k | 0 <= k < |rounds| :: |rounds[k].children| + |Elements(Children(rounds[..k]))| <= 4096
  }

  function SaidIn(round: Round): seq<Exchange> { round.pages + Concat(round.closings) }

  lemma SaidOne(rounds: seq<Round>, round: Round)
    ensures Said(rounds + [round]) == Said(rounds) + SaidIn(round)
    ensures Elements(Children(rounds + [round])) == Elements(Children(rounds)) + Elements(round.children)
  {
    assert (rounds + [round])[..|rounds|] == rounds;
    assert Said(rounds) + round.pages + Concat(round.closings) == Said(rounds) + (round.pages + Concat(round.closings));
  }

  lemma {:induction false} SaidFront(round: Round, rounds: seq<Round>)
    ensures Said([round] + rounds) == SaidIn(round) + Said(rounds)
    decreases |rounds|
  {
    hide SaidIn;
    if rounds == [] {
      assert [round] + rounds == [] + [round];
      SaidOne([], round);
      NothingSaid();
    } else {
      var init, last := rounds[..|rounds| - 1], rounds[|rounds| - 1];
      assert [round] + rounds == ([round] + init) + [last] && rounds == init + [last];
      SaidOne([round] + init, last);
      SaidOne(init, last);
      SaidFront(round, init);
    }
  }

  lemma NothingSaid()
    ensures Said([]) == []
  {
  }

  lemma RoundDone(round: Round, root: ThreadId, processed: set<ThreadId>, rest: seq<Reply>)
    requires RoundFine(round, root, processed) && |round.children| + |processed| <= 4096
    ensures ListAll(Replies(SaidIn(round)) + rest, None, root, processed, [], MAX_PAGES)
            == Some((round.children, Replies(Concat(round.closings)) + rest))
    ensures CloseEach(Replies(Concat(round.closings)) + rest, round.children) == Some(rest)
  {
    hide ListAll, CloseEach, Closes, Whole, Found, Threads, Concat;
    RepliesSplit(round.pages, Concat(round.closings));
    Regroup(Replies(round.pages), Replies(Concat(round.closings)), rest);
    assert Finds(round.pages, root, processed, round.children);
    ListingExactly(Replies(SaidIn(round)) + rest, root, processed, round.children, Replies(Concat(round.closings)) + rest);
    EachCloses(round.children, round.closings, rest);
  }

  lemma {:induction false} RoundsDone(rounds: seq<Round>, k: nat, root: ThreadId, rest: seq<Reply>)
    requires Complete(rounds, root) && k < |rounds|
    ensures CloseRounds(Replies(Said(rounds[k..])) + rest, root, Elements(Children(rounds[..k])), 32 - k) == Some(rest)
    decreases |rounds| - k
  {
    hide ListAll, CloseEach, RoundFine, Said, SaidIn, Children, Elements, Replies, Concat;
    var round, processed, later := rounds[k], Elements(Children(rounds[..k])), Replies(Said(rounds[k + 1..])) + rest;
    assert rounds[k..] == [round] + rounds[k + 1..];
    SaidFront(round, rounds[k + 1..]);
    RepliesSplit(SaidIn(round), Said(rounds[k + 1..]));
    Regroup(Replies(SaidIn(round)), Replies(Said(rounds[k + 1..])), rest);
    RoundDone(round, root, processed, later);
    if k == |rounds| - 1 {
      assert rounds[k + 1..] == [];
      NothingSaid();
      NoParts();
      NothingToClose(Replies(Concat(round.closings)) + later);
      assert [] + rest == rest;
    } else {
      assert rounds[..k + 1] == rounds[..k] + [round];
      SaidOne(rounds[..k], round);
      RoundsDone(rounds, k + 1, root, rest);
    }
  }

  /** Rounds so far, all of which have found something. */
  ghost predicate SoFar(rounds: seq<Round>, root: ThreadId) {
    && RoundsFine(rounds, root) && (forall k | 0 <= k < |rounds| :: rounds[k].children != [])
    && forall k | 0 <= k < |rounds| :: |rounds[k].children| + |Elements(Children(rounds[..k]))| <= 4096
  }

  lemma RoundTaken(script: seq<Reply>, root: ThreadId, processed: set<ThreadId>) returns (round: Round)
    requires ListAll(script, None, root, processed, [], MAX_PAGES).Some?
    requires var (children, rest) := ListAll(script, None, root, processed, [], MAX_PAGES).value; CloseEach(rest, children).Some?
    ensures RoundFine(round, root, processed) && |round.children| + |processed| <= 4096
    ensures var (children, rest) := ListAll(script, None, root, processed, [], MAX_PAGES).value;
            round.children == children && script == Replies(SaidIn(round)) + CloseEach(rest, children).value
  {
    hide ListAll, CloseEach, Closes, Whole, Found, Threads, Concat;
    var (children, rest) := ListAll(script, None, root, processed, [], MAX_PAGES).value;
    ListingExactly(script, root, processed, children, rest);
    var pages :| Finds(pages, root, processed, children) && script == Replies(pages) + rest;
    var closings := EachTaken(rest, children);
    round := Round(pages, children, closings);
    RepliesSplit(pages, Concat(closings));
    Regroup(Replies(pages), Replies(Concat(closings)), CloseEach(rest, children).value);
  }

  lemma SoFarMore(rounds: seq<Round>, round: Round, root: ThreadId)
    requires SoFar(rounds, root) && RoundFine(round, root, Elements(Children(rounds)))
    requires |round.children| + |Elements(Children(rounds))| <= 4096
    ensures round.children != [] ==> SoFar(rounds + [round], root)
    ensures round.children == [] && |rounds| < 32 ==> Complete(rounds + [round], root)
  {
    hide RoundFine, Children, Elements;
    RoundAdded(rounds, round, root);
    var more := rounds + [round];
    assert more[|rounds|] == round && more[..|rounds|] == rounds;
    assert forall k | 0 <= k < |rounds| :: more[k] == rounds[k] && more[..k] == rounds[..k];
  }

  lemma {:induction false} RoundsTaken(earlier: seq<Round>, script: seq<Reply>, root: ThreadId, left: nat) returns (rounds: seq<Round>)
    requires SoFar(earlier, root) && |earlier| + left <= 32 && CloseRounds(script, root, Elements(Children(earlier)), left).Some?
    ensures Complete(rounds, root) && earlier <= rounds && |earlier| < |rounds|
    ensures script == Replies(Said(rounds[|earlier|..])) + CloseRounds(script, root, Elements(Children(earlier)), left).value
    decreases left
  {
    hide ListAll, CloseEach, RoundFine, RoundsFine, Said, SaidIn, Children, Elements, Replies, Concat, Complete, SoFar;
    var processed := Elements(Children(earlier));
    var (children, rest) := ListAll(script, None, root, processed, [], MAX_PAGES).value;
    NothingToClose(rest);
    var round := RoundTaken(script, root, processed);
    rounds := earlier + [round];
    SoFarMore(earlier, round, root);
    SaidOne(earlier, round);
    assert rounds[|earlier|..] == [round] + [];
    SaidFront(round, []);
    NothingSaid();
    assert SaidIn(round) + [] == SaidIn(round);
    if children != [] {
      var closed := CloseEach(rest, children).value;
      var more := RoundsTaken(rounds, closed, root, left - 1);
      var last := CloseRounds(script, root, processed, left).value;
      assert more[|earlier|..] == [round] + more[|rounds|..];
      SaidFront(round, more[|rounds|..]);
      RepliesSplit(SaidIn(round), Said(more[|rounds|..]));
      Regroup(Replies(SaidIn(round)), Replies(Said(more[|rounds|..])), last);
      rounds := more;
    }
  }

  lemma NoRoundsYet(root: ThreadId)
    ensures SoFar([], root) && Elements(Children([])) == {}
  {
  }

  /**
    The close of the descendants succeeds exactly if the replies begin with those of complete rounds, and takes
    just those.
   */
  lemma CloseRoundsExactly(script: seq<Reply>, root: ThreadId, rest: seq<Reply>)
    ensures CloseRounds(script, root, {}, MAX_ROUNDS) == Some(rest)
            <==> exists rounds :: Complete(rounds, root) && script == Replies(Said(rounds)) + rest
  {
    hide CloseRounds, Complete, Said, Replies, SoFar, Elements, Children;
    NoRoundsYet(root);
    if CloseRounds(script, root, {}, MAX_ROUNDS) == Some(rest) {
      var rounds := RoundsTaken([], script, root, MAX_ROUNDS);
      assert rounds[0..] == rounds;
    }
    forall rounds | Complete(rounds, root) && script == Replies(Said(rounds)) + rest
      ensures CloseRounds(script, root, {}, MAX_ROUNDS) == Some(rest)
    {
      NotEmpty(rounds, root);
      RoundsDone(rounds, 0, root, rest);
      assert rounds[0..] == rounds && rounds[..0] == [];
    }
  }

  lemma NotEmpty(rounds: seq<Round>, root: ThreadId)
    requires Complete(rounds, root)
    ensures |rounds| > 0
  {
  }
}
