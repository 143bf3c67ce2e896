/**
  What a sandboxed run's output comes back as: pipes drained into bounded buffers, the tail of
  both kept as the detail, and the test runner's result line searched for from its end. A
  character stands for a byte.
*/
module Sandbox {
  import opened Base

  const READ_SIZE := 65536
  const MAX_STREAM := 8388608
  const MAX_OUTPUT := 65536

  // ---------------------------------------------------------------- draining

  function Join(chunks: seq<string>): string {
    if chunks == [] then [] else Join(chunks[..|chunks| - 1]) + chunks[|chunks| - 1]
  }

  function Tail(s: string, n: nat): string {
    if |s| <= n then s else s[|s| - n..]
  }

  ghost predicate IsTail(t: string, s: string) {
    |t| <= |s| && t == s[|s| - |t|..]
  }

  // A pipe read gives at least one byte, unless it is at its end, and at most a page of them.
  predicate IsRead(chunk: string) {
    0 < |chunk| <= READ_SIZE
  }

  lemma JoinSnoc(chunks: seq<string>, chunk: string)
    ensures Join(chunks + [chunk]) == Join(chunks) + chunk
  {
    assert (chunks + [chunk])[..|chunks|] == chunks;
  }

  lemma {:induction false} JoinHead(chunks: seq<string>)
    requires chunks != []
    ensures Join(chunks) == chunks[0] + Join(chunks[1..])
  {
    if |chunks| == 1 {
      assert chunks[..0] == [] && chunks[1..] == [];
    } else {
      var front := chunks[..|chunks| - 1];
      JoinHead(front);
      assert front[1..] == chunks[1..][..|chunks| - 2];
    }
  }

  lemma TailGrows(t: string, s: string, more: string)
    requires IsTail(t, s)
    ensures IsTail(t + more, s + more)
  {
    assert (s + more)[|s| - |t|..] == s[|s| - |t|..] + more;
  }

  lemma TailOfTail(u: string, t: string, s: string)
    requires IsTail(u, t) && IsTail(t, s)
    ensures IsTail(u, s)
  {
    assert u == s[|s| - |u|..];
  }

  // A buffer that has seen `seen`: it holds the end of it, all of it or most of the budget.
  ghost predicate Holds(chunks: seq<string>, seen: string, budget: nat) {
    && IsTail(Join(chunks), seen)
    && |Join(chunks)| >= Smaller(|seen|, budget - READ_SIZE + 1)
    && forall k :: 0 <= k < |chunks| ==> IsRead(chunks[k])
  }

  lemma AppendHolds(chunks: seq<string>, seen: string, chunk: string, budget: nat)
    requires Holds(chunks, seen, budget) && IsRead(chunk)
    ensures Holds(chunks + [chunk], seen + chunk, budget)
  {
    JoinSnoc(chunks, chunk);
    TailGrows(Join(chunks), seen, chunk);
  }

  lemma PopHolds(chunks: seq<string>, seen: string, budget: nat)
    requires Holds(chunks, seen, budget) && chunks != [] && |Join(chunks)| > budget
    ensures Holds(chunks[1..], seen, budget) && |Join(chunks[1..])| == |Join(chunks)| - |chunks[0]|
  {
    JoinHead(chunks);
    var rest := Join(chunks[1..]);
    assert Join(chunks)[|chunks[0]|..] == rest;
    TailOfTail(rest, Join(chunks), seen);
  }

  class Sink {
    var chunks: seq<string>
    var held: nat

    ghost predicate Valid()
      reads this
    {
      held == |Join(chunks)|
    }

    constructor ()
      ensures Valid() && chunks == []
    {
      chunks, held := [], 0;
    }

    method Push(chunk: string, budget: nat, ghost seen: string)
      requires Valid() && Holds(chunks, seen, budget) && IsRead(chunk)
      modifies this
      ensures Valid() && Holds(chunks, seen + chunk, budget) && (held <= budget || |chunks| <= 1)
    {
      AppendHolds(chunks, seen, chunk, budget);
      JoinSnoc(chunks, chunk);
      chunks := chunks + [chunk];
      held := held + |chunk|;
      while held > budget && |chunks| > 1
        invariant Valid() && Holds(chunks, seen + chunk, budget)
        decreases |chunks|
      {
        PopHolds(chunks, seen + chunk, budget);
        held := held - |chunks[0]|;
        chunks := chunks[1..];
      }
    }

    // However the stream is cut into reads, what is kept is its end.
    method Drain(stream: seq<string>, budget: nat)
      requires Valid() && chunks == [] && forall k :: 0 <= k < |stream| ==> IsRead(stream[k])
      modifies this
      ensures Valid() && Holds(chunks, Join(stream), budget) && (held <= budget || |chunks| <= 1)
    {
      var i := 0;
      while i < |stream|
        invariant 0 <= i <= |stream|
        invariant Valid() && Holds(chunks, Join(stream[..i]), budget) && (held <= budget || |chunks| <= 1)
      {
        assert stream[..i + 1][..i] == stream[..i];
        Push(stream[i], budget, Join(stream[..i]));
        i := i + 1;
      }
      assert stream[..i] == stream;
    }
  }

  // ---------------------------------------------------------------- the detail

  lemma TailIsTail(s: string, n: nat)
    ensures IsTail(Tail(s, n), s) && |Tail(s, n)| == Smaller(|s|, n)
  {
  }

  lemma SameTail(t: string, s: string, n: nat)
    requires IsTail(t, s) && |t| >= Smaller(|s|, n)
    ensures Tail(t, n) == Tail(s, n)
  {
  }

  lemma TailOfSecond(a: string, b: string, n: nat)
    requires n <= |b|
    ensures Tail(a + b, n) == Tail(b, n)
  {
    assert (a + b)[|a + b| - n..] == b[|b| - n..];
  }

  lemma TailOfBoth(a': string, b': string, a: string, b: string, n: nat)
    requires IsTail(a', a) && |a'| >= Smaller(|a|, n)
    requires IsTail(b', b) && |b'| >= Smaller(|b|, n)
    ensures Tail(a' + b', n) == Tail(a + b, n)
  {
    if |b'| < |b| {
      TailOfSecond(a', b', n);
      TailOfSecond(a, b, n);
      SameTail(b', b, n);
    } else {
      assert b' == b;
      TailGrows(a', a, b);
      SameTail(a' + b, a + b, n);
    }
  }

  lemma KeptTail(chunks: seq<string>, stream: string)
    requires Holds(chunks, stream, MAX_STREAM)
    ensures var kept := Tail(Join(chunks), MAX_STREAM);
            IsTail(kept, stream) && |kept| <= MAX_STREAM && |kept| >= Smaller(|stream|, MAX_OUTPUT)
  {
    TailIsTail(Join(chunks), MAX_STREAM);
    TailOfTail(Tail(Join(chunks), MAX_STREAM), Join(chunks), stream);
  }

  // The bounded buffers never show: the detail is the tail of all that was printed.
  method CollectDetail(out: seq<string>, err: seq<string>) returns (detail: string)
    requires forall k :: 0 <= k < |out| ==> IsRead(out[k])
    requires forall k :: 0 <= k < |err| ==> IsRead(err[k])
    ensures detail == Tail(Join(out) + Join(err), 65536)
  {
    var outSink := new Sink();
    var errSink := new Sink();
    outSink.Drain(out, MAX_STREAM);
    errSink.Drain(err, MAX_STREAM);
    var stdout, stderr := Tail(Join(outSink.chunks), MAX_STREAM), Tail(Join(errSink.chunks), MAX_STREAM);
    KeptTail(outSink.chunks, Join(out));
    KeptTail(errSink.chunks, Join(err));
    TailOfBoth(stdout, stderr, Join(out), Join(err), MAX_OUTPUT);
    detail := Tail(stdout + stderr, MAX_OUTPUT);
  }

  // ---------------------------------------------------------------- the result line

  const RESULT_MARKER := "##LEARN-RESULT "

  predicate IsBreak(c: char) {
    c as int in {10, 11, 12, 13, 28, 29, 30, 133, 8232, 8233}
  }

  // Where the first line ends.
  function LineEnd(s: string): (k: nat)
    ensures k <= |s| && (forall i :: 0 <= i < k ==> !IsBreak(s[i])) && (k < |s| ==> IsBreak(s[k]))
  {
    if s == [] || IsBreak(s[0]) then 0 else 1 + LineEnd(s[1..])
  }

  function Lines(s: string): seq<string> {
    if s == [] then []
    else
      var k := LineEnd(s);
      [s[..k]] + if k == |s| then [] else Lines(s[k + 1..])
  }

  // What a line after the marker reads as; the JSON parser is not part of this model.
  datatype Reading = Malformed | Failed | Result(passed: int, failures: seq<Id>)

  type Reader = string -> Reading

  function Read(line: string, read: Reader): Reading {
    if RESULT_MARKER <= line then read(line[|RESULT_MARKER|..]) else Malformed
  }

  // The last line that reads as a result: anything that does not is skipped.
  function LastResult(lines: seq<string>, read: Reader): Reading {
    if lines == [] then Malformed
    else
      var last := Read(lines[|lines| - 1], read);
      if last.Malformed? then LastResult(lines[..|lines| - 1], read) else last
  }

  datatype Outcome = Ok | Timeout | OutOfMemory | HarnessError

  datatype Response = Response(outcome: Outcome, passed: int, total: nat, failures: seq<Id>)

  function Clamp(passed: int, total: nat): int {
    if passed < 0 then 0 else Smaller(passed, total)
  }

  function Scored(reading: Reading, total: nat): Response {
    match reading
    case Malformed => Response(HarnessError, 0, total, [])
    case Failed => Response(HarnessError, 0, total, [])
    case Result(passed, failures) => Response(Ok, Clamp(passed, total), total, failures)
  }

  function ParseResult(outcome: Outcome, detail: string, total: nat, read: Reader): Response {
    if outcome != Ok then Response(outcome, 0, total, []) else Scored(LastResult(Lines(detail), read), total)
  }

  // Whatever a program prints, its score is within the tests it was given, and it has one
  // only if it ran to its end and some line of it reads as a result.
  lemma ScoreIsWithinTests(outcome: Outcome, detail: string, total: nat, read: Reader)
    ensures var r := ParseResult(outcome, detail, total, read);
            && 0 <= r.passed <= total && r.total == total
            && (r.outcome == Ok ==> outcome == Ok && exists line :: line in Lines(detail) && Read(line, read).Result?)
  {
    if outcome == Ok {
      LastResultIsThere(Lines(detail), read);
    }
  }

  // The line is the marker and what reads as this, a result or a failure.
  ghost predicate Says(line: string, read: Reader, reading: Reading) {
    && |line| >= 15 && line[..15] == "##LEARN-RESULT "
    && !reading.Malformed? && read(line[15..]) == reading
  }

  // Line `k` is the last that says anything.
  ghost predicate Decides(lines: seq<string>, k: nat, read: Reader, reading: Reading) {
    && k < |lines| && Says(lines[k], read, reading)
    && forall j, other :: k < j < |lines| ==> !Says(lines[j], read, other)
  }

  lemma ReadMeans(line: string, read: Reader)
    ensures forall reading :: Says(line, read, reading) <==> !reading.Malformed? && Read(line, read) == reading
  {
    assert RESULT_MARKER <= line <==> |line| >= 15 && line[..15] == "##LEARN-RESULT ";
  }

  lemma {:induction false} LastResultDecides(lines: seq<string>, k: nat, read: Reader, reading: Reading)
    requires Decides(lines, k, read, reading)
    ensures LastResult(lines, read) == reading
  {
    var last := |lines| - 1;
    ReadMeans(lines[last], read);
    if k < last {
      assert Read(lines[last], read).Malformed?;
      assert Decides(lines[..last], k, read, reading);
      LastResultDecides(lines[..last], k, read, reading);
    }
  }

  lemma {:induction false} NothingSaid(lines: seq<string>, read: Reader)
    requires forall line, reading :: line in lines ==> !Says(line, read, reading)
    ensures LastResult(lines, read).Malformed?
  {
    if lines != [] {
      var last := |lines| - 1;
      ReadMeans(lines[last], read);
      assert lines[last] in lines;
      NothingSaid(lines[..last], read);
    }
  }

  ghost predicate IsScore(r: Response, reading: Reading, total: nat) {
    && r.total == total
    && match reading
       case Result(passed, failures) =>
         && r.outcome == Ok && r.failures == failures
         && (0 <= passed <= total ==> r.passed == passed)
         && (passed < 0 ==> r.passed == 0) && (passed > total ==> r.passed == total)
       case _ => r.outcome == HarnessError && r.passed == 0 && r.failures == []
  }

  // The score is the one that the deciding line of a finished run names, if it is within the
  // number of tests, and else the nearest that is, and the failures are that line's. A run in
  // which no line decides, or that line says that the runner failed, has none, and an
  // unfinished run keeps its outcome.
  lemma DecidingLineIsScored(detail: string, total: nat, read: Reader)
    ensures forall k: nat, reading :: Decides(Lines(detail), k, read, reading) ==>
              IsScore(ParseResult(Ok, detail, total, read), reading, total)
    ensures (forall line, reading :: line in Lines(detail) ==> !Says(line, read, reading)) ==>
              IsScore(ParseResult(Ok, detail, total, read), Malformed, total)
    ensures forall outcome :: outcome != Ok ==>
              ParseResult(outcome, detail, total, read) == Response(outcome, 0, total, [])
  {
    var lines := Lines(detail);
    forall k: nat, reading | Decides(lines, k, read, reading)
      ensures IsScore(ParseResult(Ok, detail, total, read), reading, total)
    {
      LastResultDecides(lines, k, read, reading);
    }
    if forall line, reading :: line in lines ==> !Says(line, read, reading) {
      NothingSaid(lines, read);
    }
  }

  lemma {:induction false} LastResultIsThere(lines: seq<string>, read: Reader)
    ensures LastResult(lines, read).Malformed? <==> forall line :: line in lines ==> Read(line, read).Malformed?
    ensures !LastResult(lines, read).Malformed? ==>
              exists line :: line in lines && Read(line, read) == LastResult(lines, read)
  {
    if lines != [] {
      LastResultIsThere(lines[..|lines| - 1], read);
      assert lines == lines[..|lines| - 1] + [lines[|lines| - 1]];
    }
  }

  lemma {:induction false} LaterLinesWin(a: seq<string>, b: seq<string>, read: Reader)
    ensures LastResult(a + b, read) ==
              if LastResult(b, read).Malformed? then LastResult(a, read) else LastResult(b, read)
  {
    if b == [] {
      assert a + b == a;
    } else {
      assert (a + b)[..|a + b| - 1] == a + b[..|b| - 1];
      LaterLinesWin(a, b[..|b| - 1], read);
    }
  }

  predicate EndsLine(s: string) {
    s == [] || IsBreak(s[|s| - 1])
  }

  lemma {:induction false} LineEndStays(a: string, b: string)
    requires LineEnd(a) < |a|
    ensures LineEnd(a + b) == LineEnd(a)
  {
    assert (a + b)[0] == a[0];
    if !IsBreak(a[0]) {
      assert (a + b)[1..] == a[1..] + b;
      LineEndStays(a[1..], b);
    }
  }

  lemma DropConcat(a: string, b: string, n: nat)
    requires n <= |a|
    ensures (a + b)[n..] == a[n..] + b && (a + b)[..n] == a[..n]
  {
  }

  lemma LinesStep(s: string)
    requires LineEnd(s) < |s|
    ensures Lines(s) == [s[..LineEnd(s)]] + Lines(s[LineEnd(s) + 1..])
  {
    hide IsBreak, LineEnd;
  }

  lemma NoLines()
    ensures Lines("") == []
  {
  }

  lemma {:induction false} LinesConcat(a: string, b: string)
    requires EndsLine(a)
    ensures Lines(a + b) == Lines(a) + Lines(b)
    decreases |a|
  {
    hide Lines, IsBreak;
    if a == [] {
      NoLines();
      assert a + b == b;
    } else {
      var k := LineEnd(a);
      LineEndStays(a, b);
      LinesStep(a);
      LinesStep(a + b);
      DropConcat(a, b, k);
      DropConcat(a, b, k + 1);
      LinesConcat(a[k + 1..], b);
    }
  }

  // The output before and after the end of a line: the later part decides if it reads.
  lemma SplitReading(a: string, b: string, read: Reader)
    requires EndsLine(a) || b == []
    ensures LastResult(Lines(a + b), read) ==
            if LastResult(Lines(b), read).Malformed? then LastResult(Lines(a), read) else LastResult(Lines(b), read)
  {
    hide IsBreak, EndsLine;
    if b == [] {
      NoLines();
      assert a + b == a;
      assert LastResult([], read).Malformed?;
    } else {
      LinesConcat(a, b);
      LaterLinesWin(Lines(a), Lines(b), read);
    }
  }

  // As long as the last result line lies wholly in the tail, the tail gives the same score as
  // the whole output: `from` is where that line starts.
  lemma TailGivesSameScore(output: string, from: nat, n: nat, total: nat, read: Reader)
    requires |output| - n <= from <= |output| && EndsLine(output[..from])
    requires !LastResult(Lines(output[from..]), read).Malformed?
    ensures ParseResult(Ok, Tail(output, n), total, read) == ParseResult(Ok, output, total, read)
  {
    hide Lines, LastResult, IsBreak;
    var a, b, tail := output[..from], output[from..], Tail(output, n);
    var c := tail[..|tail| - |b|];
    assert output == a + b && tail == c + b;
    assert c != [] ==> c[|c| - 1] == a[|a| - 1];
    SplitReading(a, b, read);
    SplitReading(c, b, read);
  }

  // Where the line that a cut at `p` goes through ends.
  function CutEnd(output: string, p: nat): (e: nat)
    requires p <= |output|
    ensures p <= e <= |output|
  {
    var e := p + LineEnd(output[p..]);
    if e < |output| then e + 1 else e
  }

  lemma CutEndsLine(output: string, p: nat)
    requires p <= |output|
    ensures var e := CutEnd(output, p); e == |output| || (e > p && IsBreak(output[e - 1]))
  {
    hide IsBreak;
    var k := LineEnd(output[p..]);
    if p + k < |output| {
      assert output[p..][k] == output[p + k];
    }
  }

  lemma CutSplits(output: string, n: nat)
    requires n <= |output|
    ensures var p := |output| - n; var e := CutEnd(output, p);
            && output == output[..e] + output[e..] && Tail(output, n) == output[p..e] + output[e..]
            && (output[e..] == [] || (EndsLine(output[..e]) && EndsLine(output[p..e])))
  {
    CutEndsLine(output, |output| - n);
  }

  // For any output and any cut: the tail scores as the whole exactly when a line wholly in the
  // tail reads as a result, or what is left of the cut line scores as the lines up to it do.
  lemma TailScoresAlikeIff(output: string, n: nat, total: nat, read: Reader)
    requires n <= |output|
    ensures var p := |output| - n; var e := CutEnd(output, p);
            ParseResult(Ok, Tail(output, n), total, read) == ParseResult(Ok, output, total, read)
            <==> || !LastResult(Lines(output[e..]), read).Malformed?
                 || Scored(LastResult(Lines(output[p..e]), read), total) ==
                           Scored(LastResult(Lines(output[..e]), read), total)
  {
    hide LastResult, Lines, EndsLine, CutEnd, Tail, Scored;
    var p := |output| - n;
    var e := CutEnd(output, p);
    CutSplits(output, n);
    SplitReading(output[..e], output[e..], read);
    SplitReading(output[p..e], output[e..], read);
  }

  lemma {:induction false} OneLine(s: string)
    requires s != [] && forall c :: c in s ==> !IsBreak(c)
    ensures LineEnd(s) == |s| && Lines(s) == [s]
  {
    assert s[..|s|] == s;
  }

  lemma OneReading(line: string, read: Reader)
    ensures LastResult([line], read) == Read(line, read)
  {
    assert [line][..0] == [] && LastResult([], read).Malformed?;
  }

  // The second alternative does fail: a cut through a line that only contains a result makes
  // one that reads as a result.
  lemma CutLineReadsAsResult(line: string, total: nat, read: Reader)
    requires line != [] && Read(line, read).Result? && forall c :: c in line ==> !IsBreak(c)
    ensures ParseResult(Ok, "x" + line, total, read).outcome == HarnessError
    ensures ParseResult(Ok, Tail("x" + line, |line|), total, read).outcome == Ok
  {
    var output := "x" + line;
    assert forall c :: c in output ==> c == 'x' || c in line;
    OneLine(output);
    OneLine(line);
    assert Tail(output, |line|) == line;
    assert !(RESULT_MARKER <= output) by {
      assert output[0] == 'x' && RESULT_MARKER[0] == '#';
    }
    OneReading(output, read);
    OneReading(line, read);
  }

  // ---------------------------------------------------------------- both streams together

  const NEWLINE := "\n"

  predicate Unbroken(s: string) {
    forall c :: c in s ==> !IsBreak(c)
  }

  // What a program printed up to its last line break, and what it printed after that.
  function Unfinished(s: string): string {
    if s == [] || IsBreak(s[|s| - 1]) then [] else Unfinished(s[..|s| - 1]) + [s[|s| - 1]]
  }

  lemma {:induction false} UnfinishedIsSuffix(s: string)
    ensures |Unfinished(s)| <= |s| && s[|s| - |Unfinished(s)|..] == Unfinished(s)
    ensures Unbroken(Unfinished(s)) && EndsLine(s[..|s| - |Unfinished(s)|])
  {
    if s == [] || IsBreak(s[|s| - 1]) {
      assert s[..|s| - 0] == s;
    } else {
      hide Lines;
      var front, last := s[..|s| - 1], s[|s| - 1];
      UnfinishedIsSuffix(front);
      var open := Unfinished(front);
      assert Unfinished(s) == open + [last];
      AppendUnbroken(open, last);
      assert s == front + [last];
      assert s[|s| - |open + [last]|..] == front[|front| - |open|..] + [last];
      assert s[..|s| - |open + [last]|] == front[..|front| - |open|];
    }
  }

  lemma AppendUnbroken(s: string, c: char)
    requires Unbroken(s) && !IsBreak(c)
    ensures Unbroken(s + [c])
  {
  }

  function Finished(s: string): string {
    UnfinishedIsSuffix(s);
    s[..|s| - |Unfinished(s)|]
  }

  lemma {:induction false} LineEndAt(part: string)
    requires Unbroken(part)
    ensures LineEnd(part + NEWLINE) == |part|
  {
    if part != [] {
      assert (part + NEWLINE)[1..] == part[1..] + NEWLINE;
      LineEndAt(part[1..]);
    }
  }

  lemma LinesOfOne(part: string)
    requires Unbroken(part)
    ensures Lines(part + NEWLINE) == [part] && EndsLine(part + NEWLINE)
  {
    LineEndAt(part);
    LinesStep(part + NEWLINE);
    assert (part + NEWLINE)[..|part|] == part && (part + NEWLINE)[|part| + 1..] == [];
    NoLines();
  }

  lemma LinesAfter(c: string, part: string)
    requires EndsLine(c) && Unbroken(part)
    ensures Lines(c + (part + NEWLINE)) == Lines(c) + [part] && EndsLine(c + (part + NEWLINE))
  {
    hide Lines, IsBreak, EndsLine;
    LinesOfOne(part);
    LinesConcat(c, part + NEWLINE);
    NewlineEnds(c, part);
  }

  lemma NewlineEnds(c: string, part: string)
    ensures EndsLine(c + (part + NEWLINE))
  {
    var all := c + (part + NEWLINE);
    assert all[|all| - 1] == NEWLINE[0];
  }

  lemma TailOfFirst(x: string, y: string, n: nat)
    requires |y| <= n
    ensures Tail(x + y, n) == Tail(x, n - |y|) + y
  {
  }

  lemma TailEndsLine(s: string, n: nat)
    requires EndsLine(s)
    ensures EndsLine(Tail(s, n))
  {
  }

  // What is left of the lines before the last line of stdout, and of that line, where `room`
  // characters of stdout are left.
  function KeptBefore(closed: string, last: string, room: nat): string {
    if |last| + 1 <= room then Tail(closed, room - |last| - 1) else []
  }

  function KeptOf(last: string, room: nat): string
    requires 0 < room
  {
    if |last| + 1 <= room then last else last[|last| + 1 - room..]
  }

  lemma StdoutTail(closed: string, last: string, room: nat)
    requires EndsLine(closed) && Unbroken(last) && 0 < room
    ensures Tail(closed + (last + NEWLINE), room)
            == KeptBefore(closed, last, room) + (KeptOf(last, room) + NEWLINE)
    ensures EndsLine(KeptBefore(closed, last, room)) && Unbroken(KeptOf(last, room))
  {
    var printed := last + NEWLINE;
    if |printed| <= room {
      TailOfFirst(closed, printed, room);
      TailEndsLine(closed, room - |printed|);
    } else {
      TailOfSecond(closed, printed, room);
      assert printed[|printed| - room..] == last[|last| + 1 - room..] + NEWLINE;
      assert [] + (KeptOf(last, room) + NEWLINE) == KeptOf(last, room) + NEWLINE;
    }
  }

  // The lines of a detail that has `room` for stdout: the last one of stdout, or what is left
  // of it, stands right before those of stderr.
  lemma DetailLines(closed: string, last: string, err: string)
    requires EndsLine(closed) && Unbroken(last) && |err| < MAX_OUTPUT
    ensures var room := MAX_OUTPUT - |err|;
            Lines(Tail(closed + (last + NEWLINE) + err, MAX_OUTPUT)) ==
            Lines(KeptBefore(closed, last, room)) + [KeptOf(last, room)] + Lines(err)
  {
    hide Lines, IsBreak, EndsLine, Unbroken, KeptBefore, KeptOf, Tail;
    var room := MAX_OUTPUT - |err|;
    TailOfFirst(closed + (last + NEWLINE), err, MAX_OUTPUT);
    StdoutTail(closed, last, room);
    LinesAfter(KeptBefore(closed, last, room), KeptOf(last, room));
    LinesConcat(KeptBefore(closed, last, room) + (KeptOf(last, room) + NEWLINE), err);
  }

  // What the detail of any finished run reads as: a result on stderr, else one on the last line
  // of stdout or what is left of it, else one before that.
  function DetailReading(closed: string, last: string, err: string, read: Reader): Reading {
    var onStderr := LastResult(Lines(Tail(err, MAX_OUTPUT)), read);
    if !onStderr.Malformed? || |err| >= MAX_OUTPUT then onStderr
    else
      var room := MAX_OUTPUT - |err|;
      var onLast := Read(KeptOf(last, room), read);
      if !onLast.Malformed? then onLast else LastResult(Lines(KeptBefore(closed, last, room)), read)
  }

  lemma DetailReads(closed: string, last: string, err: string, read: Reader)
    requires EndsLine(closed) && Unbroken(last)
    ensures LastResult(Lines(Tail(closed + (last + NEWLINE) + err, MAX_OUTPUT)), read)
            == DetailReading(closed, last, err, read)
  {
    hide Lines, Read, LastResult, IsBreak, EndsLine, Unbroken, KeptBefore, KeptOf;
    if |err| >= MAX_OUTPUT {
      TailOfSecond(closed + (last + NEWLINE), err, MAX_OUTPUT);
    } else {
      var room := MAX_OUTPUT - |err|;
      var before, kept := Lines(KeptBefore(closed, last, room)), KeptOf(last, room);
      assert Tail(err, MAX_OUTPUT) == err;
      DetailLines(closed, last, err);
      LaterLinesWin(before + [kept], Lines(err), read);
      LaterLinesWin(before, [kept], read);
      OneReading(kept, read);
    }
  }

  // The line at which the search from the end stops.
  function StopsAt(lines: seq<string>, read: Reader): Option<nat> {
    if lines == [] then None
    else if !Read(lines[|lines| - 1], read).Malformed? then Some(|lines| - 1)
    else StopsAt(lines[..|lines| - 1], read)
  }

  lemma {:induction false} StopsAtMeans(lines: seq<string>, read: Reader)
    ensures StopsAt(lines, read).None? <==> LastResult(lines, read).Malformed?
    ensures var stop := StopsAt(lines, read);
            stop.Some? ==> stop.value < |lines| && LastResult(lines, read) == Read(lines[stop.value], read)
  {
    if lines != [] {
      StopsAtMeans(lines[..|lines| - 1], read);
    }
  }

  lemma {:induction false} StopsAtConcat(a: seq<string>, b: seq<string>, read: Reader)
    ensures StopsAt(a + b, read) ==
            if StopsAt(b, read).Some? then Some(|a| + StopsAt(b, read).value) else StopsAt(a, read)
  {
    if b == [] {
      assert a + b == a;
    } else {
      assert (a + b)[..|a + b| - 1] == a + b[..|b| - 1];
      StopsAtConcat(a, b[..|b| - 1], read);
    }
  }

  // The search stops at the line right before those of stderr, and that line is the runner's.
  ghost predicate DecidedBy(detail: string, line: string, err: string, read: Reader) {
    var lines, at := Lines(detail), |Lines(detail)| - |Lines(err)| - 1;
    |err| < MAX_OUTPUT && 0 <= at && lines[at] == line && StopsAt(lines, read) == Some(at)
  }

  lemma KeptIsLineIff(open: string, line: string, room: nat)
    requires 0 < room
    ensures KeptOf(open + line, room) == line <==> |line| + 1 <= room && (open == [] || |line| + 1 == room)
  {
    var last := open + line;
    if |last| + 1 <= room {
      assert open == [] ==> last == line;
    } else {
      assert |KeptOf(last, room)| == room - 1;
      if room == |line| + 1 {
        assert last[|last| + 1 - room..] == line;
      }
    }
  }

  lemma StopsBefore(before: seq<string>, kept: string, after: seq<string>, read: Reader)
    ensures StopsAt(before + [kept] + after, read) == Some(|before|)
            <==> LastResult(after, read).Malformed? && !Read(kept, read).Malformed?
  {
    hide Read, LastResult;
    StopsAtConcat(before + [kept], after, read);
    StopsAtMeans(after, read);
    StopsAtMeans(before, read);
    assert (before + [kept])[..|before|] == before;
  }

  // A finished run is scored by its runner's line exactly when nothing on stderr reads as a
  // result, the line and stderr fit into the detail together, and stdout had ended its line
  // before the runner printed, or what it had left open is cut off to the character.
  lemma RunnerLineDecidesIff(front: string, line: string, err: string, read: Reader)
    requires Unbroken(line) && !Read(line, read).Malformed?
    ensures DecidedBy(Tail(front + (line + NEWLINE) + err, MAX_OUTPUT), line, err, read)
            <==> && LastResult(Lines(err), read).Malformed?
                 && |line| + 1 + |err| <= MAX_OUTPUT
                 && (EndsLine(front) || |line| + 1 + |err| == MAX_OUTPUT)
  {
    hide Read, LastResult, Lines, StopsAt, KeptOf, KeptBefore, Tail, IsBreak;
    var closed, open := Finished(front), Unfinished(front);
    FrontSplits(front, line);
    if |err| < MAX_OUTPUT {
      var room := MAX_OUTPUT - |err|;
      var before, kept := Lines(KeptBefore(closed, open + line, room)), KeptOf(open + line, room);
      DetailLines(closed, open + line, err);
      StopsBefore(before, kept, Lines(err), read);
      KeptIsLineIff(open, line, room);
      assert (before + [kept] + Lines(err))[|before|] == kept;
    }
  }

  lemma FrontSplits(front: string, line: string)
    requires Unbroken(line)
    ensures EndsLine(Finished(front)) && Unbroken(Unfinished(front) + line)
    ensures front + (line + NEWLINE) == Finished(front) + ((Unfinished(front) + line) + NEWLINE)
    ensures Unfinished(front) == [] <==> EndsLine(front)
  {
    UnfinishedIsSuffix(front);
    assert front == Finished(front) + Unfinished(front);
  }

  // A line of its own that reads as a result wins over the runner's if it is on stderr, though
  // the runner printed later.
  lemma StderrWins(front: string, line: string, other: string, total: nat, read: Reader)
    requires EndsLine(front) && Unbroken(line) && Unbroken(other)
    requires !Read(line, read).Malformed? && !Read(other, read).Malformed?
    requires |line| + 1 + |other| + 1 <= MAX_OUTPUT
    ensures ParseResult(Ok, Tail(front + (line + NEWLINE) + (other + NEWLINE), MAX_OUTPUT), total, read)
            == Scored(Read(other, read), total)
  {
    hide Read, Scored;
    var err := other + NEWLINE;
    DetailReads(front, line, err, read);
    assert Tail(err, MAX_OUTPUT) == err;
    LinesOfOne(other);
    OneReading(other, read);
  }

  // A program that printed its last words without a line break has its result line run on.
  lemma UnfinishedOutputLosesScore(line: string, total: nat, read: Reader)
    requires Unbroken(line) && Read(line, read).Result? && |line| + 2 <= MAX_OUTPUT
    ensures ParseResult(Ok, Tail("x" + (line + NEWLINE) + [], MAX_OUTPUT), total, read).outcome == HarnessError
  {
    var last := "x" + line;
    assert forall c :: c in last ==> c == 'x' || c in line;
    assert "x" + (line + NEWLINE) + [] == [] + (last + NEWLINE) + [];
    DetailReads([], last, [], read);
    assert !(RESULT_MARKER <= last) by {
      assert last[0] == 'x' && RESULT_MARKER[0] == '#';
    }
    NoLines();
    assert LastResult([], read).Malformed?;
  }

  // From the raw reads to the score, for any finished run: `line` is what the runner printed
  // last, and `front` whatever was printed to stdout before it.
  method ScoreRun(out: seq<string>, err: seq<string>, total: nat, read: Reader, ghost front: string, ghost line: string)
    returns (r: Response)
    requires forall k :: 0 <= k < |out| ==> IsRead(out[k])
    requires forall k :: 0 <= k < |err| ==> IsRead(err[k])
    requires Join(out) == front + (line + NEWLINE) && Unbroken(line) && !Read(line, read).Malformed?
    ensures IsScore(r, DetailReading(Finished(front), Unfinished(front) + line, Join(err), read), total)
    ensures LastResult(Lines(Join(err)), read).Malformed? && EndsLine(front)
            && |line| + 1 + |Join(err)| <= MAX_OUTPUT
            ==> IsScore(r, Read(line, read), total)
  {
    hide Lines, LastResult, IsBreak, Join, Read, DetailReading, StopsAt, EndsLine;
    var detail := CollectDetail(out, err);
    FrontSplits(front, line);
    DetailReads(Finished(front), Unfinished(front) + line, Join(err), read);
    RunnerLineDecidesIff(front, line, Join(err), read);
    StopsAtMeans(Lines(detail), read);
    r := ParseResult(Ok, detail, total, read);
  }

  // ---------------------------------------------------------------- the test runner

  // A test passes, or fails under its name whether it raised or answered wrongly.
  datatype Check = Check(name: Id, passes: bool)

  function Failing(checks: seq<Check>): seq<Id> {
    if checks == [] then []
    else Failing(checks[..|checks| - 1]) + if checks[|checks| - 1].passes then [] else [checks[|checks| - 1].name]
  }

  function Passing(checks: seq<Check>): nat {
    if checks == [] then 0 else Passing(checks[..|checks| - 1]) + if checks[|checks| - 1].passes then 1 else 0
  }

  // Just the tests that fail are named.
  lemma {:induction false} FailingAreNamed(checks: seq<Check>, name: Id)
    ensures name in Failing(checks) <==> Check(name, false) in checks
  {
    if checks != [] {
      var front, last := checks[..|checks| - 1], checks[|checks| - 1];
      FailingAreNamed(front, name);
      assert checks == front + [last];
    }
  }

  lemma {:induction false} EachIsCounted(checks: seq<Check>)
    ensures Passing(checks) + |Failing(checks)| == |checks|
  {
    if checks != [] {
      EachIsCounted(checks[..|checks| - 1]);
    }
  }

  // Every test is either counted as passed or listed as failed.
  method RunTests(checks: seq<Check>) returns (passed: nat, failures: seq<Id>)
    ensures passed == Passing(checks) && failures == Failing(checks)
  {
    passed, failures := 0, [];
    var i := 0;
    while i < |checks|
      invariant 0 <= i <= |checks|
      invariant passed == Passing(checks[..i]) && failures == Failing(checks[..i])
    {
      assert checks[..i + 1][..i] == checks[..i];
      if checks[i].passes {
        passed := passed + 1;
      } else {
        failures := failures + [checks[i].name];
      }
      i := i + 1;
    }
    assert checks[..i] == checks;
  }

  // A run whose runner reported its tests is scored by just as many as passed, and names the
  // others, whatever the program printed on lines of its own before that.
  lemma RunScoresItsTests(checks: seq<Check>, front: string, line: string, err: string, read: Reader)
    requires EndsLine(front) && Unbroken(line) && Says(line, read, Result(Passing(checks), Failing(checks)))
    requires forall other, reading :: other in Lines(err) ==> !Says(other, read, reading)
    requires |line| + 1 + |err| <= MAX_OUTPUT
    ensures ParseResult(Ok, Tail(front + (line + NEWLINE) + err, MAX_OUTPUT), |checks|, read)
            == Response(Ok, Passing(checks), |checks|, Failing(checks))
  {
    ReadMeans(line, read);
    NothingSaid(Lines(err), read);
    EachIsCounted(checks);
    RunnerLineIsRead(front, line, err, read);
    hide Lines, LastResult, Read, Tail, Says, EndsLine, Unbroken, Passing, Failing;
  }

  lemma RunnerLineIsRead(front: string, line: string, err: string, read: Reader)
    requires EndsLine(front) && Unbroken(line) && !Read(line, read).Malformed?
    requires LastResult(Lines(err), read).Malformed? && |line| + 1 + |err| <= MAX_OUTPUT
    ensures LastResult(Lines(Tail(front + (line + NEWLINE) + err, MAX_OUTPUT)), read) == Read(line, read)
  {
    hide *;
    DetailReads(front, line, err, read);
    FittingLineIsKept(front, line, err, read);
  }

  lemma FittingLineIsKept(front: string, line: string, err: string, read: Reader)
    requires !Read(line, read).Malformed?
    requires LastResult(Lines(err), read).Malformed? && |line| + 1 + |err| <= MAX_OUTPUT
    ensures DetailReading(front, line, err, read) == Read(line, read)
  {
    hide Lines, LastResult, Read, KeptBefore;
    assert Tail(err, MAX_OUTPUT) == err;
    assert KeptOf(line, MAX_OUTPUT - |err|) == line;
  }
}
