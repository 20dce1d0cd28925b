/**
  Closing a session's descendants (src/server/teardown.rs).

  Rounds of discovery page through all loaded threads and close those that the root owns, one after another,
  until a whole round finds none. The backend is a script of replies, one for each request in turn.
 */
module Descendants {
  import opened Prelude

  type ThreadId = string
  type Cursor = string

  const MAX_ROUNDS: nat := 32
  const MAX_PAGES: nat := 64
  const MAX_THREADS: nat := 4096

  /** A loaded thread, and whether the ownership walk names the root for it. */
  datatype Loaded = Loaded(id: Option<ThreadId>, owned: bool)

  /** The newest turn of a thread: none in progress, or one that may lack its id. */
  datatype Newest = Idle | InProgress(turn: Option<string>)

  datatype Request =
    | List(cursor: Option<Cursor>)
    | Read(child: ThreadId)
    | Turns(child: ThreadId)
    | Interrupt(child: ThreadId, turn: string)
    | Clean(child: ThreadId)
    | Unsubscribe(child: ThreadId)

  /** `Failed` also stands for malformed data and for a timeout. */
  datatype Reply = Failed | Page(threads: seq<Loaded>, next: Option<Cursor>) | Status(active: bool) | Newest(newest: Newest) | Done

  datatype Exchange = Exchange(request: Request, reply: Reply)

  // ---------------------------------------------------------------- one child

  /**
    What was said while one child was closed: it was seen inactive, then cleaned, then unsubscribed. If it was active
    at first it was interrupted, and read until it was inactive; an interrupt that failed must have found it so.
   */
  ghost predicate Closes(child: ThreadId, said: seq<Exchange>) {
    var n := |said|;
    && n >= 3
    && said[n - 3] == Exchange(Read(child), Status(false))
    && said[n - 2] == Exchange(Clean(child), Done)
    && said[n - 1] == Exchange(Unsubscribe(child), Done)
    && (n > 3 ==>
          && n >= 6 && said[0] == Exchange(Read(child), Status(true)) && Interrupted(child, said[1], said[2])
          && (!said[2].reply.Done? ==> n >= 7 && said[3] == Exchange(Read(child), Status(false)))
          && forall k | Awaiting(said[2]) <= k < n - 3 :: said[k] == Exchange(Read(child), Status(true)))
  }

  /** Where the wait for the child begins: after the interrupt, or after the reading that a failed one takes. */
  function Awaiting(interrupt: Exchange): nat { if interrupt.reply.Done? then 3 else 4 }

  /** An active child is interrupted in the turn in progress, or during its startup. */
  ghost predicate Interrupted(child: ThreadId, asked: Exchange, interrupt: Exchange) {
    && asked.request == Turns(child) && asked.reply.Newest?
    && match asked.reply.newest
       case Idle => interrupt == Exchange(Interrupt(child, ""), Done)
       case InProgress(turn) => turn.Some? && interrupt.request == Interrupt(child, turn.value)
  }

  // ---------------------------------------------------------------- one round of discovery

  predicate Eligible(t: Loaded, root: ThreadId, processed: set<ThreadId>) {
    t.id.Some? && t.id.value != root && t.id.value !in processed && t.owned
  }

  /** The threads to close, in listing order; a thread that is listed twice is found twice. */
  function Found(threads: seq<Loaded>, root: ThreadId, processed: set<ThreadId>): (r: seq<ThreadId>)
    ensures |r| <= |threads|
  {
    if threads == [] then []
    else
      var last := threads[|threads| - 1];
      Found(threads[..|threads| - 1], root, processed) + (if Eligible(last, root, processed) then [last.id.value] else [])
  }

  function Threads(pages: seq<Exchange>): seq<Loaded> {
    if pages == [] then []
    else
      var last := pages[|pages| - 1];
      Threads(pages[..|pages| - 1]) + (if last.reply.Page? then last.reply.threads else [])
  }

  /** The cursor of the request for page `k`: the one that the page before it gave. */
  function CursorFor(pages: seq<Exchange>, k: nat): Option<Cursor> {
    if 0 < k <= |pages| && pages[k - 1].reply.Page? then pages[k - 1].reply.next else None
  }

  ghost predicate Listed(pages: seq<Exchange>) {
    forall k | 0 <= k < |pages| ::
      && pages[k].reply.Page? && pages[k].request == List(CursorFor(pages, k))
      && (k > 0 ==> CursorFor(pages, k).Some?)
      && (pages[k].reply.next.Some? ==> pages[k].reply.next != CursorFor(pages, k))
      && forall t <- pages[k].reply.threads :: t.id.Some?
  }

  /** A whole listing: it ends with the page without a next cursor. */
  ghost predicate Whole(pages: seq<Exchange>) {
    0 < |pages| <= 64 && Listed(pages) && CursorFor(pages, |pages|).None?
  }

  lemma ListedOne(pages: seq<Exchange>, page: Exchange)
    requires Listed(pages) && page.reply.Page? && page.request == List(CursorFor(pages, |pages|))
    requires pages != [] ==> CursorFor(pages, |pages|).Some?
    requires forall t <- page.reply.threads :: t.id.Some?
    requires page.reply.next.Some? ==> page.reply.next != CursorFor(pages, |pages|)
    ensures Listed(pages + [page]) && CursorFor(pages + [page], |pages| + 1) == page.reply.next
  {
    var more := pages + [page];
    forall k | 0 <= k < |more|
      ensures more[k].reply.Page? && more[k].request == List(CursorFor(more, k)) && (k > 0 ==> CursorFor(more, k).Some?)
      ensures more[k].reply.next.Some? ==> more[k].reply.next != CursorFor(more, k)
      ensures forall t <- more[k].reply.threads :: t.id.Some?
    {
      assert CursorFor(more, k) == CursorFor(pages, k);
      assert k < |pages| ==> more[k] == pages[k];
    }
  }

  lemma FoundOne(threads: seq<Loaded>, t: Loaded, root: ThreadId, processed: set<ThreadId>)
    ensures Found(threads + [t], root, processed)
            == Found(threads, root, processed) + (if Eligible(t, root, processed) then [t.id.value] else [])
  {
    assert (threads + [t])[..|threads|] == threads;
  }

  lemma {:induction false} FoundSplit(a: seq<Loaded>, b: seq<Loaded>, root: ThreadId, processed: set<ThreadId>)
    ensures Found(a + b, root, processed) == Found(a, root, processed) + Found(b, root, processed)
  {
    if b == [] {
      assert a + b == a;
    } else {
      var last := b[|b| - 1];
      assert a + b == (a + b[..|b| - 1]) + [last];
      FoundOne(a + b[..|b| - 1], last, root, processed);
      FoundSplit(a, b[..|b| - 1], root, processed);
    }
  }

  lemma ThreadsOne(pages: seq<Exchange>, page: Exchange)
    requires page.reply.Page?
    ensures Threads(pages + [page]) == Threads(pages) + page.reply.threads
  {
    assert (pages + [page])[..|pages|] == pages;
  }

  // ---------------------------------------------------------------- all rounds

  /** A round's listing, the children it found, and what was said while they were closed, one each. */
  datatype Round = Round(pages: seq<Exchange>, children: seq<ThreadId>, closings: seq<seq<Exchange>>)

  function Children(rounds: seq<Round>): seq<ThreadId> {
    if rounds == [] then [] else Children(rounds[..|rounds| - 1]) + rounds[|rounds| - 1].children
  }

  function Elements(s: seq<ThreadId>): set<ThreadId> { set x | x in s }

  function Concat(parts: seq<seq<Exchange>>): seq<Exchange> {
    if parts == [] then [] else Concat(parts[..|parts| - 1]) + parts[|parts| - 1]
  }

  /** Everything that was said, in order. */
  function Said(rounds: seq<Round>): seq<Exchange> {
    if rounds == [] then []
    else
      var last := rounds[|rounds| - 1];
      Said(rounds[..|rounds| - 1]) + last.pages + Concat(last.closings)
  }

  ghost predicate RoundFine(round: Round, root: ThreadId, processed: set<ThreadId>) {
    && Whole(round.pages)
    && round.children == Found(Threads(round.pages), root, processed)
    && |round.closings| == |round.children|
    && forall k | 0 <= k < |round.children| :: Closes(round.children[k], round.closings[k])
  }

  ghost predicate RoundsFine(rounds: seq<Round>, root: ThreadId) {
    forall k | 0 <= k < |rounds| :: RoundFine(rounds[k], root, Elements(Children(rounds[..k])))
  }

  ghost predicate Distinct(s: seq<ThreadId>) { forall i, j | 0 <= i < j < |s| :: s[i] != s[j] }

  lemma {:induction false} FoundIsEligible(threads: seq<Loaded>, root: ThreadId, processed: set<ThreadId>, id: ThreadId)
    ensures id in Found(threads, root, processed)
            <==> exists k :: 0 <= k < |threads| && threads[k].id == Some(id) && threads[k].owned && id != root && id !in processed
  {
    if threads != [] {
      var init, last := threads[..|threads| - 1], threads[|threads| - 1];
      FoundIsEligible(init, root, processed, id);
      assert threads == init + [last];
      if k :| 0 <= k < |init| && init[k].id == Some(id) && Eligible(init[k], root, processed) {
        assert threads[k] == init[k];
      }
      if k :| 0 <= k < |threads| && threads[k].id == Some(id) && Eligible(threads[k], root, processed) {
        assert k < |init| ==> init[k] == threads[k];
      }
    }
  }

  lemma DistinctSplit(a: seq<ThreadId>, b: seq<ThreadId>)
    requires forall x <- b :: x !in a
    ensures Distinct(a + b) <==> Distinct(a) && Distinct(b)
  {
    var s := a + b;
    assert forall i | 0 <= i < |a| :: s[i] == a[i];
    assert forall j | 0 <= j < |b| :: s[|a| + j] == b[j];
    if Distinct(s) {
      forall i, j | 0 <= i < j < |b| ensures b[i] != b[j] {
        assert s[|a| + i] != s[|a| + j];
      }
    }
    if Distinct(a) && Distinct(b) {
      forall i, j | 0 <= i < j < |s| ensures s[i] != s[j] {
        assert i >= |a| ==> s[i] == b[i - |a|] && s[j] == b[j - |a|];
        assert i < |a| <= j ==> s[i] in a && s[j] == b[j - |a|] && s[j] in b;
      }
    }
  }

  ghost predicate ListedOnce(threads: seq<Loaded>, root: ThreadId, processed: set<ThreadId>) {
    forall i, j | 0 <= i < j < |threads| ::
      Eligible(threads[i], root, processed) && Eligible(threads[j], root, processed) ==> threads[i].id != threads[j].id
  }

  /** A round finds a thread twice exactly if the listing has it twice, on one page or on two. */
  lemma {:induction false} FoundOnceExactly(threads: seq<Loaded>, root: ThreadId, processed: set<ThreadId>)
    ensures Distinct(Found(threads, root, processed)) <==> ListedOnce(threads, root, processed)
  {
    if threads != [] {
      var init, last := threads[..|threads| - 1], threads[|threads| - 1];
      assert threads == init + [last];
      FoundOnceExactly(init, root, processed);
      FoundOne(init, last, root, processed);
      ListedOnceMore(init, last, root, processed);
      if Eligible(last, root, processed) {
        EligibleHasId(last, root, processed);
        FoundIsEligible(init, root, processed, last.id.value);
        DistinctOne(Found(init, root, processed), last.id.value);
        assert last.id == Some(last.id.value);
      } else {
        assert Found(threads, root, processed) == Found(init, root, processed);
      }
    }
  }

  lemma EligibleHasId(t: Loaded, root: ThreadId, processed: set<ThreadId>)
    requires Eligible(t, root, processed)
    ensures t.id.Some?
  {
  }

  lemma DistinctOne(s: seq<ThreadId>, x: ThreadId)
    ensures Distinct(s + [x]) <==> Distinct(s) && x !in s
  {
    var more := s + [x];
    assert more[|s|] == x && forall i | 0 <= i < |s| :: more[i] == s[i];
  }

  lemma ListedOnceMore(init: seq<Loaded>, last: Loaded, root: ThreadId, processed: set<ThreadId>)
    ensures ListedOnce(init + [last], root, processed)
            <==> && ListedOnce(init, root, processed)
                 && (Eligible(last, root, processed) ==>
                       !exists k :: 0 <= k < |init| && init[k].id == last.id && Eligible(init[k], root, processed))
  {
    hide Eligible;
    var more := init + [last];
    assert more[|init|] == last && forall k | 0 <= k < |init| :: more[k] == init[k];
    if ListedOnce(more, root, processed) && Eligible(last, root, processed) {
      forall k | 0 <= k < |init| && Eligible(init[k], root, processed) ensures init[k].id != last.id {
        assert more[k].id != more[|init|].id;
      }
    }
    if ListedOnce(more, root, processed) {
      forall i, j | 0 <= i < j < |init| && Eligible(init[i], root, processed) && Eligible(init[j], root, processed)
        ensures init[i].id != init[j].id
      {
        assert more[i].id != more[j].id;
      }
    }
  }

  /** No descendant is closed twice, exactly if no single round lists one of them twice. */
  lemma {:induction false} ClosedOnceExactly(rounds: seq<Round>, root: ThreadId)
    requires RoundsFine(rounds, root)
    ensures Distinct(Children(rounds)) <==> forall k | 0 <= k < |rounds| :: Distinct(rounds[k].children)
  {
    hide RoundFine;
    if rounds != [] {
      var init, last := rounds[..|rounds| - 1], rounds[|rounds| - 1];
      assert forall k | 0 <= k < |init| :: init[..k] == rounds[..k] && init[k] == rounds[k];
      ClosedOnceExactly(init, root);
      LaterChildrenNew(last, root, Elements(Children(init)));
      DistinctSplit(Children(init), last.children);
      assert Distinct(last.children) == Distinct(rounds[|rounds| - 1].children);
    }
  }

  /** And one can be: its thread is listed twice on one page, and both closings go through. */
  lemma ClosedTwiceHappens() returns (rounds: seq<Round>)
    ensures RoundsFine(rounds, "root") && Children(rounds) == ["child", "child"] && !Distinct(Children(rounds))
  {
    var child := Loaded(Some("child"), true);
    var page := Exchange(List(None), Page([child, child], None));
    var closing := [Exchange(Read("child"), Status(false)), Exchange(Clean("child"), Done), Exchange(Unsubscribe("child"), Done)];
    var round := Round([page], ["child", "child"], [closing, closing]);
    rounds := [round];
    hide Found, Threads, Whole, Children, Elements;
    FoundTwice(page, child);
    assert RoundFine(round, "root", {});
    OneRound(round);
    assert ["child", "child"][0] == ["child", "child"][1];
  }

  lemma FoundTwice(page: Exchange, child: Loaded)
    requires child == Loaded(Some("child"), true) && page == Exchange(List(None), Page([child, child], None))
    ensures Whole([page]) && Found(Threads([page]), "root", {}) == ["child", "child"]
  {
    hide Found;
    NothingListed();
    NothingFound("root", {});
    ThreadsOne([], page);
    assert Threads([]) == [] && [] + [page] == [page] && [] + [child] == [child] && [child] + [child] == [child, child] && [] + [child, child] == [child, child];
    FoundOne([], child, "root", {});
    FoundOne([child], child, "root", {});
  }

  lemma OneRound(round: Round)
    ensures Children([round]) == round.children && Elements(Children([round][..0])) == {}
  {
    assert [round][..0] == [] && [] + round.children == round.children;
  }

  lemma LaterChildrenNew(round: Round, root: ThreadId, processed: set<ThreadId>)
    requires RoundFine(round, root, processed)
    ensures forall id <- round.children :: id !in processed && id != root
  {
    forall id | id in round.children ensures id !in processed && id != root {
      FoundIsEligible(Threads(round.pages), root, processed, id);
    }
  }

  // ---------------------------------------------------------------- which replies a close takes

  /** The replies behind the first reading that says "inactive". */
  function AwaitQuiet(script: seq<Reply>): Option<seq<Reply>> {
    if script == [] || !script[0].Status? then None
    else if !script[0].active then Some(script[1..])
    else AwaitQuiet(script[1..])
  }

  /** The replies behind a child's interruption, and whether it has to be awaited. */
  function Interruption(script: seq<Reply>): Option<(bool, seq<Reply>)> {
    if script == [] || !script[0].Status? then None
    else if !script[0].active then Some((false, script[1..]))
    else if |script| < 2 || !script[1].Newest? || script[1].newest == InProgress(None) then None
    else if |script| >= 3 && script[2].Done? then Some((true, script[3..]))
    else if script[1].newest.InProgress? && |script| >= 4 && script[3] == Status(false) then Some((true, script[4..]))
    else None
  }

  /** The replies behind one child's close. */
  function CloseOne(script: seq<Reply>): Option<seq<Reply>> {
    match Interruption(script)
    case None => None
    case Some((active, rest)) =>
      var quiet := if active then AwaitQuiet(rest) else Some(rest);
      if quiet.Some? && |quiet.value| >= 2 && quiet.value[0].Done? && quiet.value[1].Done? then Some(quiet.value[2..]) else None
  }

  function CloseEach(script: seq<Reply>, children: seq<ThreadId>): Option<seq<Reply>>
    decreases |children|
  {
    if children == [] then Some(script)
    else
      match CloseOne(script)
      case None => None
      case Some(rest) => CloseEach(rest, children[1..])
  }

  /** The children that the rest of a listing leads to, and the replies behind it. */
  function ListAll(script: seq<Reply>, cursor: Option<Cursor>, root: ThreadId, processed: set<ThreadId>, before: seq<ThreadId>, left: nat):
      Option<(seq<ThreadId>, seq<Reply>)>
    decreases left
  {
    if left == 0 || script == [] || !script[0].Page? || (exists t <- script[0].threads :: t.id.None?) then None
    else
      var children := before + Found(script[0].threads, root, processed);
      if |children| + |processed| > MAX_THREADS then None
      else if script[0].next.None? then Some((children, script[1..]))
      else if script[0].next == cursor then None
      else ListAll(script[1..], script[0].next, root, processed, children, left - 1)
  }

  lemma NothingToClose(script: seq<Reply>)
    ensures CloseEach(script, []) == Some(script)
  {
  }

  /** One round of it. */
  lemma RoundsUnfold(script: seq<Reply>, root: ThreadId, processed: set<ThreadId>, left: nat)
    requires left > 0
    ensures CloseRounds(script, root, processed, left)
            == match ListAll(script, None, root, processed, [], MAX_PAGES)
               case None => None
               case Some((children, rest)) =>
                 if children == [] then Some(rest)
                 else
                   match CloseEach(rest, children)
                   case None => None
                   case Some(closed) => CloseRounds(closed, root, processed + Elements(children), left - 1)
  {
  }

  lemma NoRoundsLeft(script: seq<Reply>, root: ThreadId, processed: set<ThreadId>)
    ensures CloseRounds(script, root, processed, 0) == None
  {
  }

  /** The replies behind the last round. */
  function CloseRounds(script: seq<Reply>, root: ThreadId, processed: set<ThreadId>, left: nat): Option<seq<Reply>>
    decreases left
  {
    if left == 0 then None
    else
      match ListAll(script, None, root, processed, [], MAX_PAGES)
      case None => None
      case Some((children, rest)) =>
        if children == [] then Some(rest)
        else
          match CloseEach(rest, children)
          case None => None
          case Some(closed) => CloseRounds(closed, root, processed + Elements(children), left - 1)
  }

  // ---------------------------------------------------------------- the loops

  class Closer {
    var script: seq<Reply>   // the replies to the requests still to be made
    var said: seq<Exchange>
    ghost var rounds: seq<Round>

    constructor (script: seq<Reply>)
      ensures this.script == script && said == [] && rounds == []
    {
      this.script, said, rounds := script, [], [];
    }

    method Ask(request: Request) returns (reply: Reply)
      modifies this`script, this`said
      ensures said == old(said) + [Exchange(request, reply)]
      ensures old(script) == [] ==> reply.Failed? && script == []
      ensures old(script) != [] ==> reply == old(script)[0] && script == old(script)[1..]
    {
      if script == [] {
        reply := Failed;
      } else {
        reply := script[0];
        script := script[1..];
      }
      said := said + [Exchange(request, reply)];
    }

    /** The requests up to a child's interruption; `part` is what was said, `active` whether it has to be awaited. */
    method InterruptChild(child: ThreadId) returns (ok: bool, active: bool, ghost part: seq<Exchange>)
      modifies this`script, this`said
      ensures said == old(said) + part
      ensures ok ==> |part| >= 1 && part[0] == Exchange(Read(child), Status(active))
      ensures ok && !active ==> |part| == 1
      ensures ok && active ==>
                && |part| >= 3 && Interrupted(child, part[1], part[2]) && |part| == Awaiting(part[2])
                && (|part| == 4 ==> part[3] == Exchange(Read(child), Status(false)))
      ensures ok <==> Interruption(old(script)).Some?
      ensures ok ==> Interruption(old(script)) == Some((active, script))
    {
      var status := Ask(Read(child));
      part := [Exchange(Read(child), status)];
      if !status.Status? {
        return false, false, part;
      }
      if !status.active {
        return true, false, part;
      }
      var turns := Ask(Turns(child));
      part := part + [Exchange(Turns(child), turns)];
      if !turns.Newest? {
        return false, true, part;
      }
      match turns.newest {
        case Idle =>
          var done := Ask(Interrupt(child, ""));
          part := part + [Exchange(Interrupt(child, ""), done)];
          return done.Done?, true, part;
        case InProgress(turn) =>
          if turn.None? {
            return false, true, part;
          }
          var done := Ask(Interrupt(child, turn.value));
          part := part + [Exchange(Interrupt(child, turn.value), done)];
          if !done.Done? {
            // The turn may have ended on its own in the meantime.
            var again := Ask(Read(child));
            part := part + [Exchange(Read(child), again)];
            return again == Status(false), true, part;
          }
          return true, true, part;
      }
    }

    /** The wait for the child to become inactive. */
    method AwaitInactive(child: ThreadId) returns (ok: bool, ghost part: seq<Exchange>)
      modifies this`script, this`said
      ensures said == old(said) + part
      ensures ok ==> |part| >= 1 && part[|part| - 1] == Exchange(Read(child), Status(false))
      ensures ok ==> forall k | 0 <= k < |part| - 1 :: part[k] == Exchange(Read(child), Status(true))
      ensures ok <==> AwaitQuiet(old(script)).Some?
      ensures ok ==> AwaitQuiet(old(script)) == Some(script)
    {
      part := [];
      while true
        invariant said == old(said) + part
        invariant forall k | 0 <= k < |part| :: part[k] == Exchange(Read(child), Status(true))
        invariant AwaitQuiet(old(script)) == AwaitQuiet(script)
        decreases |script|
      {
        var status := Ask(Read(child));
        part := part + [Exchange(Read(child), status)];
        if !status.Status? {
          return false, part;
        }
        if !status.active {
          return true, part;
        }
      }
    }

    method CloseChild(child: ThreadId) returns (ok: bool, ghost part: seq<Exchange>)
      modifies this`script, this`said
      ensures said == old(said) + part
      ensures ok ==> Closes(child, part)
      ensures ok <==> CloseOne(old(script)).Some?
      ensures ok ==> CloseOne(old(script)) == Some(script)
    {
      hide Interrupted;
      var active;
      ok, active, part := InterruptChild(child);
      if !ok {
        return;
      }
      if active {
        ghost var waited;
        ok, waited := AwaitInactive(child);
        part := part + waited;
        if !ok {
          return;
        }
      }
      var cleaned := Ask(Clean(child));
      part := part + [Exchange(Clean(child), cleaned)];
      if !cleaned.Done? {
        return false, part;
      }
      var unsubscribed := Ask(Unsubscribe(child));
      part := part + [Exchange(Unsubscribe(child), unsubscribed)];
      return unsubscribed.Done?, part;
    }

    /** One page's threads; the limit counts what has been closed and what is to be closed. */
    method Collect(threads: seq<Loaded>, root: ThreadId, processed: set<ThreadId>, before: seq<ThreadId>)
      returns (ok: bool, children: seq<ThreadId>)
      requires |before| + |processed| <= MAX_THREADS
      ensures ok ==> (forall t <- threads :: t.id.Some?) && children == before + Found(threads, root, processed)
      ensures |children| + |processed| <= MAX_THREADS
      ensures ok <==> (forall t <- threads :: t.id.Some?) && |before| + |Found(threads, root, processed)| + |processed| <= MAX_THREADS
    {
      hide Found;
      children := before;
      NothingFound(root, processed);
      for i := 0 to |threads|
        invariant forall t <- threads[..i] :: t.id.Some?
        invariant children == before + Found(threads[..i], root, processed)
        invariant |children| + |processed| <= MAX_THREADS
      {
        var t := threads[i];
        assert threads[..i + 1] == threads[..i] + [t];
        FoundOne(threads[..i], t, root, processed);
        if t.id.None? {
          assert t in threads;
          return false, children;
        }
        if t.id.value != root && t.id.value !in processed && t.owned {
          if |children| + |processed| >= MAX_THREADS {
            assert threads == threads[..i + 1] + threads[i + 1..];
            FoundSplit(threads[..i + 1], threads[i + 1..], root, processed);
            return false, children;
          }
          children := children + [t.id.value];
        }
      }
      assert threads[..|threads|] == threads;
      return true, children;
    }

    method Discover(root: ThreadId, processed: set<ThreadId>) returns (ok: bool, children: seq<ThreadId>, ghost pages: seq<Exchange>)
      requires |processed| <= MAX_THREADS
      modifies this`script, this`said
      ensures said == old(said) + pages
      ensures ok ==> Whole(pages) && children == Found(Threads(pages), root, processed)
      ensures |children| + |processed| <= MAX_THREADS
      ensures ok <==> ListAll(old(script), None, root, processed, [], MAX_PAGES).Some?
      ensures ok ==> ListAll(old(script), None, root, processed, [], MAX_PAGES) == Some((children, script))
    {
      hide Found, Threads, Listed, CursorFor;
      children, pages := [], [];
      NothingListed();
      NothingFound(root, processed);
      var cursor := None;
      for i := 0 to MAX_PAGES
        invariant said == old(said) + pages && |pages| == i
        invariant Listed(pages) && CursorFor(pages, i) == cursor && (i > 0 ==> cursor.Some?)
        invariant children == Found(Threads(pages), root, processed) && |children| + |processed| <= MAX_THREADS
        invariant ListAll(old(script), None, root, processed, [], MAX_PAGES)
                  == ListAll(script, cursor, root, processed, children, MAX_PAGES - i)
      {
        var reply := Ask(List(cursor));
        ghost var earlier := pages;
        pages := pages + [Exchange(List(cursor), reply)];
        if !reply.Page? {
          return false, children, pages;
        }
        ThreadsOne(earlier, Exchange(List(cursor), reply));
        FoundSplit(Threads(earlier), reply.threads, root, processed);
        ok, children := Collect(reply.threads, root, processed, children);
        if !ok {
          return false, children, pages;
        }
        if reply.next.Some? && reply.next == cursor {
          return false, children, pages;
        }
        ListedOne(earlier, Exchange(List(cursor), reply));
        if reply.next.None? {
          return true, children, pages;
        }
        cursor := reply.next;
      }
      return false, children, pages;
    }

    method CloseAll(children: seq<ThreadId>) returns (ok: bool, ghost closings: seq<seq<Exchange>>)
      modifies this`script, this`said
      ensures said == old(said) + Concat(closings)
      ensures ok ==> |closings| == |children| && forall k | 0 <= k < |children| :: Closes(children[k], closings[k])
      ensures ok <==> CloseEach(old(script), children).Some?
      ensures ok ==> CloseEach(old(script), children) == Some(script)
    {
      hide Closes, CloseOne;
      closings := [];
      for i := 0 to |children|
        invariant |closings| == i && said == old(said) + Concat(closings)
        invariant forall k | 0 <= k < i :: Closes(children[k], closings[k])
        invariant CloseEach(old(script), children) == CloseEach(script, children[i..])
      {
        assert children[i..][1..] == children[i + 1..];
        ghost var part;
        ok, part := CloseChild(children[i]);
        ConcatOne(closings, part);
        closings := closings + [part];
        if !ok {
          return;
        }
      }
      ok := true;
    }

    /**
      Success means that a whole listing came back without a descendant that had not been closed. Every round
      before it closed what it found.
     */
    method CloseDescendants(root: ThreadId) returns (ok: bool)
      modifies this
      ensures ok ==>
                && 0 < |rounds| <= MAX_ROUNDS && RoundsFine(rounds, root)
                && rounds[|rounds| - 1].children == []
                && |Elements(Children(rounds))| <= MAX_THREADS
                && said == old(said) + Said(rounds)
      ensures ok <==> CloseRounds(old(script), root, {}, MAX_ROUNDS).Some?
      ensures ok ==> CloseRounds(old(script), root, {}, MAX_ROUNDS) == Some(script)
    {
      hide CloseEach, ListAll, CloseRounds, Found, Threads, Whole, Closes, RoundsFine, Said, Children, Elements, Concat;
      rounds := [];
      NoRounds(root);
      var processed: set<ThreadId> := {};
      for i := 0 to MAX_ROUNDS
        invariant |rounds| == i && RoundsFine(rounds, root) && processed == Elements(Children(rounds))
        invariant |processed| <= MAX_THREADS && said == old(said) + Said(rounds)
        invariant CloseRounds(old(script), root, {}, MAX_ROUNDS) == CloseRounds(script, root, processed, MAX_ROUNDS - i)
      {
        ghost var pages, closings;
        var children;
        RoundsUnfold(script, root, processed, MAX_ROUNDS - i);
        ok, children, pages := Discover(root, processed);
        if !ok {
          return false;
        }
        NothingToClose(script);
        ok, closings := CloseAll(children);
        if !ok {
          return false;
        }
        RoundAdded(rounds, Round(pages, children, closings), root);
        CountElements(processed, children);
        processed := processed + Elements(children);
        rounds := rounds + [Round(pages, children, closings)];
        if children == [] {
          return true;
        }
      }
      NoRoundsLeft(script, root, processed);
      return false;
    }
  }

  lemma NothingListed()
    ensures Listed([]) && CursorFor([], 0) == None
  {
  }

  lemma NothingFound(root: ThreadId, processed: set<ThreadId>)
    ensures Found(Threads([]), root, processed) == []
  {
  }

  lemma ConcatOne(parts: seq<seq<Exchange>>, part: seq<Exchange>)
    ensures Concat(parts + [part]) == Concat(parts) + part
  {
    assert (parts + [part])[..|parts|] == parts;
  }

  lemma NoRounds(root: ThreadId)
    ensures RoundsFine([], root) && Elements(Children([])) == {} && Said([]) == []
  {
  }

  lemma RoundAdded(rounds: seq<Round>, round: Round, root: ThreadId)
    requires RoundsFine(rounds, root) && RoundFine(round, root, Elements(Children(rounds)))
    ensures RoundsFine(rounds + [round], root)
    ensures Elements(Children(rounds + [round])) == Elements(Children(rounds)) + Elements(round.children)
    ensures Said(rounds + [round]) == Said(rounds) + round.pages + Concat(round.closings)
  {
    hide RoundFine;
    var more := rounds + [round];
    assert more[..|rounds|] == rounds;
    forall k | 0 <= k < |more| ensures RoundFine(more[k], root, Elements(Children(more[..k]))) {
      assert k < |rounds| ==> more[..k] == rounds[..k] && more[k] == rounds[k];
    }
  }

  lemma {:induction false} CountElements(processed: set<ThreadId>, children: seq<ThreadId>)
    ensures |processed + Elements(children)| <= |processed| + |children|
  {
    if children == [] {
      assert processed + Elements(children) == processed;
    } else {
      var init, last := children[..|children| - 1], children[|children| - 1];
      CountElements(processed, init);
      assert children == init + [last];
      assert processed + Elements(children) == processed + Elements(init) + {last};
    }
  }

  /** After success: in the last listing every thread is the root, was closed, or is not the root's. */
  lemma NothingLeft(rounds: seq<Round>, root: ThreadId, t: Loaded)
    requires rounds != [] && RoundsFine(rounds, root) && rounds[|rounds| - 1].children == []
    requires t in Threads(rounds[|rounds| - 1].pages) && t.id.Some?
    ensures t.id.value == root || !t.owned || t.id.value in Children(rounds)
  {
    hide Threads, Whole, Closes, Found;
    var n := |rounds| - 1;
    var processed := Elements(Children(rounds[..n]));
    assert RoundFine(rounds[n], root, processed);
    FoundIsEligible(Threads(rounds[n].pages), root, processed, t.id.value);
    assert Children(rounds) == Children(rounds[..n]) + [];
  }
}
