/**
  Line framing (src/acp_transport.rs, and read_frames and send of src/backend/).

  Bytes arrive in buffer fills of arbitrary size. Both readers must see the lines of the byte stream and not
  of its fills, and must read back what the writing side wrote.
 */
module Framing {
  import opened Prelude

  newtype byte = x: int | 0 <= x < 256
  type Bytes = seq<byte>

  const NEWLINE: byte := 10
  const RETURN: byte := 13

  // ---------------------------------------------------------------- the buffered reader

  function Flatten(chunks: seq<Bytes>): (r: Bytes) {
    if chunks == [] then [] else chunks[0] + Flatten(chunks[1..])
  }

  class Reader {
    var chunks: seq<Bytes>

    ghost predicate Valid()
      reads this
    {
      forall c <- chunks :: c != []
    }

    ghost function Remaining(): Bytes
      reads this
    {
      Flatten(chunks)
    }

    constructor (chunks: seq<Bytes>)
      requires forall c <- chunks :: c != []
      ensures Valid() && Remaining() == Flatten(chunks)
    {
      this.chunks := chunks;
    }

    /** What is buffered, after waiting for the next fill if need be; empty only at the end of the stream. */
    method FillBuf() returns (available: Bytes)
      requires Valid()
      ensures available <= Remaining() && (available == [] <==> Remaining() == [])
      ensures available == if chunks == [] then [] else chunks[0]
    {
      assert chunks != [] ==> chunks[0] in chunks;
      available := if chunks == [] then [] else chunks[0];
    }

    method Consume(count: nat)
      requires Valid() && chunks != [] && count <= |chunks[0]|
      modifies this`chunks
      ensures Valid() && old(Remaining()) == old(chunks[0][..count]) + Remaining()
    {
      var rest := chunks[0][count..];
      ghost var before := chunks;
      if rest == [] {
        chunks := chunks[1..];
      } else {
        FlattenCons(rest, chunks[1..]);
        chunks := [rest] + chunks[1..];
      }
      SplitOff(before[0], count, Flatten(before[1..]));
      NoneEmpty(rest, before);
    }
  }

  lemma NoneEmpty(rest: Bytes, chunks: seq<Bytes>)
    requires chunks != [] && forall c <- chunks :: c != []
    ensures forall c <- chunks[1..] :: c != []
    ensures rest != [] ==> forall c <- [rest] + chunks[1..] :: c != []
  {
    forall c | c in chunks[1..] ensures c != [] {
      assert c in chunks;
    }
  }

  lemma FlattenCons(head: Bytes, tail: seq<Bytes>)
    ensures Flatten([head] + tail) == head + Flatten(tail)
  {
    assert ([head] + tail)[1..] == tail;
  }

  lemma SplitOff(s: Bytes, count: nat, rest: Bytes)
    requires count <= |s|
    ensures s + rest == s[..count] + (s[count..] + rest)
  {
    assert s == s[..count] + s[count..];
  }

  // ---------------------------------------------------------------- lines of a byte stream

  /** The position of the first newline, or the length. */
  function Newline(s: Bytes): (n: nat)
    ensures n <= |s| && (forall k | 0 <= k < n :: s[k] != NEWLINE) && (n < |s| ==> s[n] == NEWLINE)
  {
    if s == [] || s[0] == NEWLINE then 0 else 1 + Newline(s[1..])
  }

  lemma NewlineIs(s: Bytes, n: nat)
    requires n <= |s| && (forall k | 0 <= k < n :: s[k] != NEWLINE) && (n < |s| ==> s[n] == NEWLINE)
    ensures Newline(s) == n
  {
    var m := Newline(s);
    assert m < |s| ==> s[m] == NEWLINE;
    assert n < |s| ==> s[n] == NEWLINE;
  }

  /** What ends a line: a newline, or the end of the stream. */
  function Terminator(ended: bool): (r: Bytes)
    ensures !ended ==> r == []
  {
    if ended then [NEWLINE] else []
  }

  function StripReturn(line: Bytes): Bytes {
    if line != [] && line[|line| - 1] == RETURN then line[..|line| - 1] else line
  }

  /** The first line of a stream, without its newline, and what follows. */
  datatype Split = Split(line: Bytes, ended: bool, rest: Bytes)

  function SplitLine(s: Bytes): (r: Split)
    requires s != []
    ensures |r.rest| < |s| && NEWLINE !in r.line
    ensures s == r.line + Terminator(r.ended) + r.rest && (!r.ended ==> r.rest == [])
  {
    var n := Newline(s);
    if n < |s| then Split(s[..n], true, s[n + 1..]) else Split(s, false, [])
  }

  /** The split of a stream is determined by what it has to satisfy. */
  lemma SplitIs(s: Bytes, line: Bytes, ended: bool, rest: Bytes)
    requires s != [] && NEWLINE !in line && s == line + Terminator(ended) + rest && (!ended ==> rest == [])
    ensures SplitLine(s) == Split(line, ended, rest)
  {
    NewlineIs(s, |line|);
  }

  // ---------------------------------------------------------------- the ACP side

  datatype Line = End | Text(text: Bytes) | TooLong | NotText

  function Judge(line: Bytes, limit: nat, utf8: Bytes -> bool): Line {
    if |line| > limit then TooLong
    else if utf8(StripReturn(line)) then Text(StripReturn(line))
    else NotText
  }

  /** The next line of a stream within the limit. */
  function NextLine(s: Bytes, limit: nat, utf8: Bytes -> bool): (r: Line)
    ensures r.End? <==> s == []
  {
    if s == [] then End else Judge(SplitLine(s).line, limit, utf8)
  }

  /** Every line of a stream, up to the end or the first one that is refused. */
  function Lines(s: Bytes, limit: nat, utf8: Bytes -> bool): (r: (seq<Bytes>, Line))
    ensures !r.1.Text?
    decreases |s|
  {
    match NextLine(s, limit, utf8)
    case Text(text) =>
      var (lines, verdict) := Lines(SplitLine(s).rest, limit, utf8);
      ([text] + lines, verdict)
    case End => ([], End)
    case TooLong => ([], TooLong)
    case NotText => ([], NotText)
  }

  lemma Regroup(a: Bytes, b: Bytes, c: Bytes, d: Bytes)
    ensures a + (b + c + d) == a + b + c + d
  {
  }

  lemma TakeNewline(s: Bytes, n: nat)
    requires n < |s| && s[n] == NEWLINE
    ensures s[..n + 1] == s[..n] + [NEWLINE]
  {
  }

  /** One turn of the loop: the content of a fill moves from the reader to the line. */
  lemma Grown(bytes: Bytes, available: Bytes, n: nat, before: Bytes, after: Bytes)
    requires n == Newline(available)
    requires before == available[..n + if n < |available| then 1 else 0] + after
    ensures bytes + before == bytes + available[..n] + Terminator(n < |available|) + after
  {
    hide Newline;
    if n < |available| {
      TakeNewline(available, n);
      Regroup(bytes, available[..n], [NEWLINE], after);
    } else {
      Regroup(bytes, available[..n], [], after);
    }
  }

  method BoundedLine(reader: Reader, limit: nat, utf8: Bytes -> bool) returns (r: Line)
    requires reader.Valid()
    modifies reader`chunks
    ensures reader.Valid()
    ensures r == NextLine(old(reader.Remaining()), limit, utf8)
    ensures r.Text? ==> reader.Remaining() == SplitLine(old(reader.Remaining())).rest
  {
    hide Newline, SplitLine, StripReturn, Flatten, Terminator;
    ghost var stream := reader.Remaining();
    var bytes: Bytes := [];
    var ended := false;
    while !ended
      invariant reader.Valid()
      invariant stream == bytes + Terminator(ended) + reader.Remaining()
      invariant NEWLINE !in bytes && |bytes| <= limit
      invariant ended ==> stream != []
      decreases !ended, |reader.Remaining()|
    {
      var available := reader.FillBuf();
      if available == [] {
        if bytes == [] {
          return End;
        }
        break;
      }
      var content := Newline(available);
      if |bytes| + content > limit {
        FillTells(bytes, available, reader.Remaining());
        assert stream == bytes + reader.Remaining();
        return TooLong;
      }
      ghost var was := reader.Remaining();
      ghost var bytes' := bytes;
      NotIn(available, content);
      NotInBoth(bytes, available[..content]);
      bytes := bytes + available[..content];
      ended := content < |available|;
      reader.Consume(content + if ended then 1 else 0);
      Grown(bytes', available, content, was, reader.Remaining());
    }
    SplitIs(stream, bytes, ended, reader.Remaining());
    var text := StripReturn(bytes);
    return if utf8(text) then Text(text) else NotText;
  }

  lemma SplitExtends(before: Bytes, s: Bytes)
    requires s != [] && NEWLINE !in before
    ensures SplitLine(before + s)
              == Split(before + SplitLine(s).line, SplitLine(s).ended, SplitLine(s).rest)
  {
    var split := SplitLine(s);
    assert before + s == before + split.line + Terminator(split.ended) + split.rest;
    SplitIs(before + s, before + split.line, split.ended, split.rest);
  }

  /** A fill tells how long the line is at least, and exactly if it holds the newline. */
  lemma FillTells(before: Bytes, available: Bytes, s: Bytes)
    requires NEWLINE !in before && available != [] && available <= s
    ensures var line := SplitLine(before + s);
            var n := Newline(available);
            && |before| + n <= |line.line|
            && (n < |available| ==> line.ended && |line.line| == |before| + n)
  {
    var n := Newline(available);
    var m := Newline(s);
    assert m < |available| ==> available[m] == s[m];
    if n < |available| {
      NewlineIs(s, n);
    }
    SplitExtends(before, s);
  }

  /** The stream of incoming lines: one bounded line after another until the end or an error. */
  method ReadLines(reader: Reader, limit: nat, utf8: Bytes -> bool) returns (lines: seq<Bytes>, verdict: Line)
    requires reader.Valid()
    modifies reader`chunks
    ensures (lines, verdict) == Lines(old(reader.Remaining()), limit, utf8)
  {
    hide NextLine, SplitLine;
    ghost var stream := reader.Remaining();
    lines := [];
    verdict := BoundedLine(reader, limit, utf8);
    ghost var here := stream;
    while verdict.Text?
      invariant reader.Valid() && verdict == NextLine(here, limit, utf8)
      invariant verdict.Text? ==> here != [] && reader.Remaining() == SplitLine(here).rest
      invariant Lines(stream, limit, utf8).0 == lines + Lines(here, limit, utf8).0
      invariant Lines(stream, limit, utf8).1 == Lines(here, limit, utf8).1
      decreases |here|
    {
      ghost var rest := Lines(reader.Remaining(), limit, utf8);
      assert Lines(here, limit, utf8) == ([verdict.text] + rest.0, rest.1);
      lines := lines + [verdict.text];
      here := reader.Remaining();
      verdict := BoundedLine(reader, limit, utf8);
    }
    assert Lines(here, limit, utf8) == ([], verdict);
    assert lines + [] == lines && Lines(stream, limit, utf8) == (Lines(stream, limit, utf8).0, Lines(stream, limit, utf8).1);
  }

  // ---------------------------------------------------------------- the outgoing sink

  function Written(lines: seq<Bytes>): Bytes {
    if lines == [] then [] else lines[0] + [NEWLINE] + Written(lines[1..])
  }

  class Sink {
    const limit: nat
    var output: Bytes

    constructor (limit: nat)
      ensures this.limit == limit && output == []
    {
      this.limit := limit;
      output := [];
    }

    method Send(line: Bytes) returns (ok: bool)
      modifies this`output
      ensures ok == (|line| <= limit)
      ensures output == if ok then old(output) + Written([line]) else old(output)
    {
      if |line| > limit {
        return false;
      }
      output := output + line;
      output := output + [NEWLINE];
      return true;
    }
  }

  lemma {:induction false} WrittenInOrder(earlier: seq<Bytes>, later: seq<Bytes>)
    ensures Written(earlier + later) == Written(earlier) + Written(later)
  {
    if earlier == [] {
      assert earlier + later == later;
    } else {
      assert (earlier + later)[1..] == earlier[1..] + later;
      WrittenInOrder(earlier[1..], later);
    }
  }

  predicate Plain(line: Bytes) { NEWLINE !in line && (line == [] || line[|line| - 1] != RETURN) }

  /**
    A line that ends with a newline, or with a carriage return and a newline, or with the end of the stream: it is
    refused exactly if it is longer than the limit, its carriage return included, or if it is no text; otherwise it is
    what precedes the end, one carriage return less.
   */
  lemma LineExactly(line: Bytes, rest: Bytes, limit: nat, utf8: Bytes -> bool)
    requires Plain(line)
    ensures NextLine(line + [NEWLINE] + rest, limit, utf8)
            == if |line| > limit then TooLong else if utf8(line) then Text(line) else NotText
    ensures NextLine(line + [RETURN] + [NEWLINE] + rest, limit, utf8)
            == if |line| + 1 > limit then TooLong else if utf8(line) then Text(line) else NotText
    ensures line != [] ==> NextLine(line, limit, utf8) == if |line| > limit then TooLong else if utf8(line) then Text(line) else NotText
    ensures NextLine(line + [RETURN], limit, utf8)
            == if |line| + 1 > limit then TooLong else if utf8(line) then Text(line) else NotText
    ensures NextLine([], limit, utf8) == End
  {
    hide Newline, SplitLine;
    var returned := line + [RETURN];
    assert returned[..|line|] == line && NEWLINE !in returned;
    SplitIs(line + [NEWLINE] + rest, line, true, rest);
    SplitIs(returned + [NEWLINE] + rest, returned, true, rest);
    SplitIs(returned, returned, false, []);
    if line != [] {
      SplitIs(line, line, false, []);
    }
  }

  /**
    Reading what was written returns the lines, exactly if none of them contains a newline or ends with a
    carriage return. The lines are text within the limit, which is all the sink lets through.
   */
  lemma {:induction false} WrittenLinesReadBack(lines: seq<Bytes>, limit: nat, utf8: Bytes -> bool)
    requires forall line <- lines :: |line| <= limit && utf8(line)
    ensures Lines(Written(lines), limit, utf8) == (lines, End) <==> forall line <- lines :: Plain(line)
  {
    hide Newline, SplitLine, StripReturn;
    if lines != [] {
      var line, rest := lines[0], Written(lines[1..]);
      assert lines == [line] + lines[1..];
      WrittenLinesReadBack(lines[1..], limit, utf8);
      FirstLineReadBack(line, rest, limit, utf8);
    }
  }

  lemma SplitWritten(line: Bytes, rest: Bytes)
    ensures var s := line + [NEWLINE] + rest;
            if NEWLINE !in line then SplitLine(s) == Split(line, true, rest)
            else SplitLine(s).ended && |SplitLine(s).line| < |line|
  {
    var s := line + [NEWLINE] + rest;
    if NEWLINE !in line {
      SplitIs(s, line, true, rest);
    } else {
      NewlineIs(s, Newline(line));
    }
  }

  lemma FirstLineReadBack(line: Bytes, rest: Bytes, limit: nat, utf8: Bytes -> bool)
    requires |line| <= limit && utf8(line)
    ensures var s := line + [NEWLINE] + rest;
            if Plain(line) then NextLine(s, limit, utf8) == Text(line) && SplitLine(s).rest == rest
            else NextLine(s, limit, utf8) != Text(line)
  {
    SplitWritten(line, rest);
  }

  // ---------------------------------------------------------------- the backend side

  datatype Ending = Closed | CutShort | OverLimit | Rejected

  /**
    Every frame of a stream with its newline, up to the end of the stream or an error. `accept` is asked with
    all frames so far, the new one last; a frame it refuses ends the connection.
   */
  function Frames(s: Bytes, limit: nat, accept: seq<Bytes> -> bool, earlier: seq<Bytes>): (r: (seq<Bytes>, Ending))
    decreases |s|
  {
    if s == [] then (earlier, Closed)
    else
      var split := SplitLine(s);
      if !split.ended then (earlier, if |split.line| <= limit + 1 then CutShort else OverLimit)
      else if |split.line| > limit then (earlier, OverLimit)
      else if !accept(earlier + [split.line + [NEWLINE]]) then (earlier + [split.line + [NEWLINE]], Rejected)
      else Frames(split.rest, limit, accept, earlier + [split.line + [NEWLINE]])
  }

  lemma FramesStep(line: Bytes, rest: Bytes, limit: nat, accept: seq<Bytes> -> bool, earlier: seq<Bytes>)
    requires NEWLINE !in line && |line| <= limit
    ensures var more := earlier + [line + [NEWLINE]];
            Frames(line + [NEWLINE] + rest, limit, accept, earlier)
            == if accept(more) then Frames(rest, limit, accept, more) else (more, Rejected)
  {
    hide Newline, SplitLine;
    SplitIs(line + [NEWLINE] + rest, line, true, rest);
  }

  /** A fill with a newline ends the frame there. */
  lemma FrameEnds(frame: Bytes, available: Bytes, n: nat)
    requires n < |available| && available[n] == NEWLINE
    ensures frame + available[..n + 1] == frame + available[..n] + [NEWLINE]
  {
    assert available[..n + 1] == available[..n] + [NEWLINE];
    Moved(frame, available[..n], [NEWLINE]);
  }

  lemma NotIn(s: Bytes, n: nat)
    requires n <= |s| && forall k | 0 <= k < n :: s[k] != NEWLINE
    ensures NEWLINE !in s[..n]
  {
  }

  lemma NotInBoth(a: Bytes, b: Bytes)
    requires NEWLINE !in a && NEWLINE !in b
    ensures NEWLINE !in a + b
  {
  }

  lemma Moved(a: Bytes, b: Bytes, c: Bytes)
    ensures a + (b + c) == a + b + c
  {
  }

  lemma FramesEnd(line: Bytes, limit: nat, accept: seq<Bytes> -> bool, earlier: seq<Bytes>)
    requires NEWLINE !in line && |line| <= limit + 1
    ensures Frames(line, limit, accept, earlier) == (earlier, if line == [] then Closed else CutShort)
  {
    hide Newline, SplitLine;
    if line != [] {
      SplitIs(line, line, false, []);
    }
  }

  lemma FramesOver(before: Bytes, available: Bytes, s: Bytes, limit: nat, accept: seq<Bytes> -> bool, earlier: seq<Bytes>)
    requires NEWLINE !in before && available != [] && available <= s
    requires |before| + (if Newline(available) < |available| then Newline(available) + 1 else |available|) > limit + 1
    ensures Frames(before + s, limit, accept, earlier) == (earlier, OverLimit)
  {
    hide SplitLine;
    FillTells(before, available, s);
  }

  method ReadFrames(reader: Reader, limit: nat, accept: seq<Bytes> -> bool) returns (frames: seq<Bytes>, ending: Ending)
    requires reader.Valid()
    modifies reader`chunks
    ensures (frames, ending) == Frames(old(reader.Remaining()), limit, accept, [])
  {
    hide Newline, Frames, Flatten;
    ghost var stream := reader.Remaining();
    frames := [];
    var frame: Bytes := [];
    assert frame + reader.Remaining() == stream;
    while true
      invariant reader.Valid() && NEWLINE !in frame && |frame| <= limit + 1
      invariant Frames(stream, limit, accept, []) == Frames(frame + reader.Remaining(), limit, accept, frames)
      decreases |reader.Remaining()|
    {
      var available := reader.FillBuf();
      ghost var here := frame + reader.Remaining();
      if available == [] {
        assert here == frame;
        FramesEnd(frame, limit, accept, frames);
        return frames, if frame == [] then Closed else CutShort;
      }
      var newline := Newline(available);
      var count := if newline < |available| then newline + 1 else |available|;
      if |frame| + count > limit + 1 {
        FramesOver(frame, available, reader.Remaining(), limit, accept, frames);
        return frames, OverLimit;
      }
      ghost var line := frame + available[..newline];
      NotIn(available, newline);
      NotInBoth(frame, available[..newline]);
      if newline < |available| {
        FrameEnds(frame, available, newline);
      } else {
        assert available[..newline] == available;
      }
      ghost var before := frame;
      frame := frame + available[..count];
      reader.Consume(count);
      Moved(before, available[..count], reader.Remaining());
      assert here == frame + reader.Remaining();
      if newline < |available| {
        FramesStep(line, reader.Remaining(), limit, accept, frames);
        frames := frames + [frame];
        frame := [];
        if !accept(frames) {
          return frames, Rejected;
        }
        assert frame + reader.Remaining() == reader.Remaining();
      }
    }
  }

  /**
    Neither reader can tell how the bytes were split into fills: two readers over the same bytes see the same
    lines, frames and errors.
   */
  method FillsDoNotMatter(one: seq<Bytes>, two: seq<Bytes>, limit: nat, utf8: Bytes -> bool, accept: seq<Bytes> -> bool)
    returns (lines: (seq<Bytes>, Line), lines': (seq<Bytes>, Line), frames: (seq<Bytes>, Ending), frames': (seq<Bytes>, Ending))
    requires (forall c <- one :: c != []) && (forall c <- two :: c != []) && Flatten(one) == Flatten(two)
    ensures lines == lines' == Lines(Flatten(one), limit, utf8)
    ensures frames == frames' == Frames(Flatten(one), limit, accept, [])
  {
    var reader := new Reader(one);
    var a, b := ReadLines(reader, limit, utf8);
    reader := new Reader(two);
    var c, d := ReadLines(reader, limit, utf8);
    reader := new Reader(one);
    var e, f := ReadFrames(reader, limit, accept);
    reader := new Reader(two);
    var g, h := ReadFrames(reader, limit, accept);
    lines, lines', frames, frames' := (a, b), (c, d), (e, f), (g, h);
  }

  function Ended(lines: seq<Bytes>): (r: seq<Bytes>)
    ensures |r| == |lines| && forall k | 0 <= k < |lines| :: r[k] == lines[k] + [NEWLINE]
  {
    seq(|lines|, k requires 0 <= k < |lines| => lines[k] + [NEWLINE])
  }

  /** What one side sends within the limit the other side reads back, exactly if no frame contains a newline. */
  lemma {:induction false} WrittenFramesReadBack(lines: seq<Bytes>, limit: nat, accept: seq<Bytes> -> bool, earlier: seq<Bytes>)
    requires forall line <- lines :: |line| <= limit
    requires forall f :: accept(f)
    ensures Frames(Written(lines), limit, accept, earlier) == (earlier + Ended(lines), Closed)
            <==> forall line <- lines :: NEWLINE !in line
  {
    hide Newline, SplitLine;
    if lines == [] {
      assert earlier + Ended(lines) == earlier;
    } else {
      var line := lines[0];
      var stream := Written(lines);
      var extended := earlier + [line + [NEWLINE]];
      assert extended + Ended(lines[1..]) == earlier + Ended(lines);
      assert lines == [line] + lines[1..];
      SplitWritten(line, Written(lines[1..]));
      if NEWLINE !in line {
        WrittenFramesReadBack(lines[1..], limit, accept, extended);
      } else {
        var split := SplitLine(stream);
        FramesExtend(split.rest, limit, accept, earlier + [split.line + [NEWLINE]]);
        assert (earlier + Ended(lines))[|earlier|] == line + [NEWLINE];
      }
    }
  }

  lemma {:induction false} FramesExtend(s: Bytes, limit: nat, accept: seq<Bytes> -> bool, earlier: seq<Bytes>)
    ensures earlier <= Frames(s, limit, accept, earlier).0
    decreases |s|
  {
    if s != [] {
      var split := SplitLine(s);
      FramesExtend(split.rest, limit, accept, earlier + [split.line + [NEWLINE]]);
    }
  }
}
