/**
 * When the scan of a stream calls it healthy, degraded, corrupt or torn, told from its terminated
 * lines and the bytes after them.
 */
module EventVerdicts {
  import opened Results
  import opened EventFrames

  /** The number a line carries, 0 when it is no frame. */
  function NumberOfLine(line: Bytes): nat {
    match ParseFrame(line)
    case None => 0
    case Some(f) => NumberOf(f.number)
  }

  function NumberBefore(lines: seq<Bytes>, k: nat): nat
    requires k <= |lines|
  {
    if k == 0 then 0 else NumberOfLine(lines[k - 1])
  }

  /** A frame with an object for its body whose length, checksum and id agree with it, numbered above the one before. */
  ghost predicate IsGood(line: Bytes, previous: nat, c: Tools) {
    && ParseFrame(line).Some?
    && IsFrameOf(line, (ParseFrame(line).value.number, ParseFrame(line).value.body), c)
    && (previous == 0 || previous < NumberOfLine(line))
  }

  ghost predicate AllGood(lines: seq<Bytes>, c: Tools) {
    forall k | 0 <= k < |lines| :: IsGood(lines[k], NumberBefore(lines, k), c)
  }

  ghost predicate CountFromOne(lines: seq<Bytes>) {
    forall k | 0 <= k < |lines| :: NumberOfLine(lines[k]) == k + 1
  }

  /** The fault is the first thing wrong with the line. */
  ghost predicate IsFaultOf(fault: Fault, line: Bytes, previous: nat, c: Tools) {
    match ParseFrame(line)
    case None => fault == Unparsable
    case Some(f) =>
      var isObject := f.body != [] && f.body[0] == BRACE;
      var isMeasured := |f.body| == NumberOf(f.length);
      var isSummed := f.sum == Decimal(c.read(f.body));
      var isAbove := previous == 0 || previous < NumberOf(f.number);
      match fault
      case Unparsable => false
      case NotAnObject => !isObject
      case LengthMismatch => isObject && !isMeasured
      case SumMismatch => isObject && isMeasured && !isSummed
      case NonMonotonic => isObject && isMeasured && isSummed && !isAbove
      case IdMismatch => isObject && isMeasured && isSummed && isAbove && c.idTail(f.body) != f.number
  }

  // --- line after line -------------------------------------------------------------------------------------

  function TakeLines(s: Scan, lines: seq<Bytes>, rule: Rule): Scan
    decreases |lines|
  {
    if lines == [] || s.status.Corrupt? then s else TakeLines(rule(s, lines[0]), lines[1..], rule)
  }

  lemma {:induction false} TakeOneMore(s: Scan, lines: seq<Bytes>, line: Bytes, rule: Rule)
    ensures
      var t := TakeLines(s, lines, rule);
      TakeLines(s, lines + [line], rule) == if t.status.Corrupt? then t else rule(t, line)
    decreases |lines|
  {
    if lines == [] {
      assert [line][1..] == [] && [] + [line] == [line];
    } else if !s.status.Corrupt? {
      assert (lines + [line])[1..] == lines[1..] + [line];
      TakeOneMore(rule(s, lines[0]), lines[1..], line, rule);
    }
  }

  /** What is left after the last terminated line. */
  function Tail(input: Bytes): Bytes {
    input[Boundary(input)..]
  }

  /** The scan takes the terminated lines and then looks at what is left. */
  lemma {:induction false} ScanTakesLines(s: Scan, input: Bytes, rule: Rule)
    ensures
      var t := TakeLines(s, Terminated(input), rule);
      ScanFrom(s, input, rule)
      == if t.status.Corrupt? || DropNul(Tail(input)) == [] then t else t.(torn := true, truncateAt := t.offset)
    decreases |input|
  {
    var i := FirstLf(input);
    if i < |input| {
      var line, rest := input[..i], input[i + 1..];
      assert input == line + [LF] + rest;
      TailAfter(line, rest);
      if !s.status.Corrupt? {
        ScanLine(s, line, rest, rule);
        ScanTakesLines(rule(s, DropNul(line)), rest, rule);
      }
    } else {
      NoBoundary(input);
      assert input[0..] == input;
      if input != [] && !s.status.Corrupt? {
        ScanLast(s, input, rule);
      }
    }
  }

  lemma TailAfter(line: Bytes, rest: Bytes)
    requires LF !in line
    ensures Tail(line + [LF] + rest) == Tail(rest)
    ensures Terminated(line + [LF] + rest) == [DropNul(line)] + Terminated(rest)
  {
    var input := line + [LF] + rest;
    BoundaryAfter(line, rest);
    FirstLfIs(line, rest);
    assert input[..|line|] == line && input[|line| + 1..] == rest;
  }

  lemma {:induction false} NoBoundary(input: Bytes)
    requires LF !in input
    ensures Boundary(input) == 0
  {
    if input != [] {
      NoBoundary(input[..|input| - 1]);
    }
  }

  lemma {:induction false} BoundaryAfter(line: Bytes, rest: Bytes)
    ensures Boundary(line + [LF] + rest) == |line| + 1 + Boundary(rest)
    decreases |rest|
  {
    var input := line + [LF] + rest;
    if rest == [] {
      assert IsWhole(input);
    } else {
      assert input[|input| - 1] == rest[|rest| - 1];
      if rest[|rest| - 1] != LF {
        assert input[..|input| - 1] == line + [LF] + rest[..|rest| - 1];
        BoundaryAfter(line, rest[..|rest| - 1]);
      }
    }
  }

  /** What one more line makes of a scan that is not corrupt. */
  ghost predicate IsNext(s: Scan, t: Scan, line: Bytes, c: Tools) {
    && (t.status.Corrupt? <==> !IsGood(line, s.previous, c))
    && (t.status.Corrupt? ==> IsFaultOf(t.status.fault, line, s.previous, c))
    && (!t.status.Corrupt? ==> t.previous == NumberOfLine(line))
    && (t.status == Healthy <==> IsGood(line, s.previous, c) && s.status == Healthy && NumberOfLine(line) == s.previous + 1)
  }

  lemma AcceptVerdict(s: Scan, line: Bytes, f: Frame, c: Tools)
    requires !s.status.Corrupt? && ParseFrame(line) == Some(f)
    ensures IsNext(s, Accept(s, f, |line|, c), line, c)
  {
  }

  lemma LineVerdict(s: Scan, line: Bytes, c: Tools)
    requires !s.status.Corrupt?
    ensures IsNext(s, LineStep(s, line, c), line, c)
  {
    match ParseFrame(line)
    case None =>
    case Some(f) => AcceptVerdict(s, line, f, c);
  }

  /** What a scan of lines knows of them. */
  ghost predicate IsVerdict(t: Scan, lines: seq<Bytes>, c: Tools) {
    && (t.status.Corrupt? <==> !AllGood(lines, c))
    && (t.status == Healthy <==> AllGood(lines, c) && CountFromOne(lines))
    && (!t.status.Corrupt? ==> t.previous == NumberBefore(lines, |lines|))
    && (t.status.Corrupt? ==>
          exists k | 0 <= k < |lines| ::
            AllGood(lines[..k], c) && IsFaultOf(t.status.fault, lines[k], NumberBefore(lines, k), c))
  }

  lemma BeforeOneMore(lines: seq<Bytes>, line: Bytes, k: nat)
    requires k <= |lines|
    ensures NumberBefore(lines + [line], k) == NumberBefore(lines, k)
    ensures k < |lines| ==> (lines + [line])[k] == lines[k]
  {
  }

  lemma GoodGrows(lines: seq<Bytes>, line: Bytes, c: Tools)
    requires AllGood(lines, c) && IsGood(line, NumberBefore(lines, |lines|), c)
    ensures AllGood(lines + [line], c)
  {
    forall k | 0 <= k < |lines + [line]| ensures IsGood((lines + [line])[k], NumberBefore(lines + [line], k), c) {
      BeforeOneMore(lines, line, k);
      GoodIs(lines + [line], k, if k < |lines| then lines[k] else line, NumberBefore(lines, k), c);
    }
  }

  lemma GoodIs(lines: seq<Bytes>, k: nat, line: Bytes, previous: nat, c: Tools)
    requires k < |lines| && lines[k] == line && NumberBefore(lines, k) == previous
    requires IsGood(line, previous, c)
    ensures IsGood(lines[k], NumberBefore(lines, k), c)
  {
  }

  lemma GoodShrinks(lines: seq<Bytes>, line: Bytes, c: Tools)
    requires AllGood(lines + [line], c)
    ensures AllGood(lines, c) && IsGood(line, NumberBefore(lines, |lines|), c)
  {
    forall k | 0 <= k < |lines| ensures IsGood(lines[k], NumberBefore(lines, k), c) {
      BeforeOneMore(lines, line, k);
      GoodIs(lines, k, (lines + [line])[k], NumberBefore(lines + [line], k), c);
    }
    BeforeOneMore(lines, line, |lines|);
    assert (lines + [line])[|lines|] == line;
  }

  lemma CountOneMore(lines: seq<Bytes>, line: Bytes)
    ensures CountFromOne(lines + [line]) <==> CountFromOne(lines) && NumberOfLine(line) == |lines| + 1
  {
    if CountFromOne(lines + [line]) {
      assert (lines + [line])[|lines|] == line;
      forall k | 0 <= k < |lines| ensures NumberOfLine(lines[k]) == k + 1 {
        assert (lines + [line])[k] == lines[k];
      }
    }
  }

  lemma CorruptOneMore(s: Scan, front: seq<Bytes>, line: Bytes, c: Tools)
    requires IsVerdict(s, front, c) && s.status.Corrupt?
    ensures IsVerdict(s, front + [line], c)
  {
    var lines := front + [line];
    if AllGood(lines, c) {
      GoodShrinks(front, line, c);
    }
    var k :| 0 <= k < |front|
             && AllGood(front[..k], c) && IsFaultOf(s.status.fault, front[k], NumberBefore(front, k), c);
    BeforeOneMore(front, line, k);
    assert lines[..k] == front[..k];
  }

  lemma LineOneMore(s: Scan, front: seq<Bytes>, line: Bytes, c: Tools)
    requires IsVerdict(s, front, c) && !s.status.Corrupt?
    ensures IsVerdict(LineStep(s, line, c), front + [line], c)
  {
    var lines, t := front + [line], LineStep(s, line, c);
    LineVerdict(s, line, c);
    CountOneMore(front, line);
    if IsGood(line, s.previous, c) {
      GoodGrows(front, line, c);
    } else {
      if AllGood(lines, c) {
        GoodShrinks(front, line, c);
      }
      BeforeOneMore(front, line, |front|);
      assert lines[..|front|] == front && lines[|front|] == line;
    }
  }

  lemma {:induction false} LinesAreJudged(lines: seq<Bytes>, c: Tools)
    ensures IsVerdict(TakeLines(START, lines, Reading(c)), lines, c)
    decreases |lines|
  {
    if lines != [] {
      var front, line := lines[..|lines| - 1], lines[|lines| - 1];
      assert lines == front + [line];
      LinesAreJudged(front, c);
      TakeOneMore(START, front, line, Reading(c));
      var s := TakeLines(START, front, Reading(c));
      if s.status.Corrupt? {
        CorruptOneMore(s, front, line, c);
      } else {
        LineOneMore(s, front, line, c);
      }
    }
  }

  /** Bytes other than NUL. */
  ghost predicate HoldsMore(s: Bytes) {
    exists k :: 0 <= k < |s| && s[k] != NUL
  }

  lemma {:induction false} DropNulLeaves(s: Bytes)
    ensures DropNul(s) != [] <==> HoldsMore(s)
  {
    if s != [] {
      DropNulLeaves(s[1..]);
      assert forall k | 0 < k < |s| :: s[k] == s[1..][k - 1];
    }
  }

  /**
   * The verdict on any bytes at all. A stream is corrupt if and only if one of its terminated lines is no
   * intact frame or does not rise above the number before it, and the fault is the first thing wrong with
   * the first such line. It is healthy if and only if its lines are intact frames counting from one; with
   * intact rising frames and a gap it is degraded. If it is not corrupt, it is torn if and only if bytes
   * other than NUL follow the last line.
   */
  lemma VerdictIff(input: Bytes, c: Tools)
    ensures
      var s, lines := ScanBytes(input, c), Terminated(input);
      && (s.status.Corrupt? <==> !AllGood(lines, c))
      && (s.status.Corrupt? ==>
            exists k | 0 <= k < |lines| ::
              AllGood(lines[..k], c) && IsFaultOf(s.status.fault, lines[k], NumberBefore(lines, k), c))
      && (s.status == Healthy <==> AllGood(lines, c) && CountFromOne(lines))
      && (s.status == Degraded <==> AllGood(lines, c) && !CountFromOne(lines))
      && (!s.status.Corrupt? ==> (s.torn <==> HoldsMore(Tail(input))))
  {
    ScanTakesLines(START, input, Reading(c));
    LinesAreJudged(Terminated(input), c);
    DropNulLeaves(Tail(input));
    ReadingKeepsBooks(c);
    TakenIsNotTorn(START, Terminated(input), Reading(c));
  }

  lemma {:induction false} TakenIsNotTorn(s: Scan, lines: seq<Bytes>, rule: Rule)
    requires KeepsBooks(rule) && !s.torn
    ensures !TakeLines(s, lines, rule).torn
    decreases |lines|
  {
    if lines != [] && !s.status.Corrupt? {
      TakenIsNotTorn(rule(s, lines[0]), lines[1..], rule);
    }
  }
}
