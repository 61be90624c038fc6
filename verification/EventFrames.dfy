/**
 * The framed event stream: one `seq crc len body LF` line per record, where the LF commits.
 * The writer frames with the POSIX checksum, the reader checks with the fast one.
 */
module EventFrames {
  import opened Results
  import C = Checksum

  newtype Byte = b: int | 0 <= b < 256
  type Bytes = seq<Byte>

  const LF: Byte := 0x0A
  const SPACE: Byte := 0x20
  const NUL: Byte := 0x00
  const BRACE: Byte := 0x7B
  const DIGITS: Bytes := [0x30, 0x31, 0x32, 0x33, 0x34, 0x35, 0x36, 0x37, 0x38, 0x39]

  // --- decimal text --------------------------------------------------------------------------

  predicate IsDigit(b: Byte) {
    b in DIGITS
  }

  predicate IsDigits(s: Bytes) {
    |s| > 0 && forall i | 0 <= i < |s| :: IsDigit(s[i])
  }

  function DigitValue(b: Byte): (d: nat)
    requires IsDigit(b)
    ensures d < 10 && DIGITS[d] == b
  {
    var d :| 0 <= d < 10 && DIGITS[d] == b; d
  }

  function Decimal(n: nat): (s: Bytes)
    ensures IsDigits(s)
  {
    if n < 10 then [DIGITS[n]] else Decimal(n / 10) + [DIGITS[n % 10]]
  }

  function NumberOf(s: Bytes): nat
    requires IsDigits(s)
  {
    if |s| == 1 then DigitValue(s[0])
    else 10 * NumberOf(s[..|s| - 1]) + DigitValue(s[|s| - 1])
  }

  // --- one line ------------------------------------------------------------------------------

  datatype Frame = Frame(number: Bytes, sum: Bytes, length: Bytes, body: Bytes)

  function DigitRun(s: Bytes): (n: nat)
    ensures n <= |s| && (n > 0 ==> IsDigits(s[..n]))
    ensures n < |s| ==> !IsDigit(s[n])
  {
    if |s| == 0 || !IsDigit(s[0]) then 0
    else
      var n := 1 + DigitRun(s[1..]);
      assert forall i | 0 < i < n :: s[i] == s[1..][..n - 1][i - 1];
      n
  }

  /** A run of digits and the space after it; the value is the digits and what follows. */
  function Token(s: Bytes): (t: Option<(Bytes, Bytes)>)
    ensures t.Some? ==> IsDigits(t.value.0)
  {
    var n := DigitRun(s);
    if 0 < n < |s| && s[n] == SPACE then Some((s[..n], s[n + 1..])) else None
  }

  /** Exactly three tokens in front of the body. */
  function ParseFrame(line: Bytes): (f: Option<Frame>)
    ensures f.Some? ==> IsDigits(f.value.number) && IsDigits(f.value.sum) && IsDigits(f.value.length)
  {
    match Token(line)
    case None => None
    case Some((number, afterNumber)) =>
      match Token(afterNumber)
      case None => None
      case Some((sum, afterSum)) =>
        match Token(afterSum)
        case None => None
        case Some((length, body)) => Some(Frame(number, sum, length, body))
  }

  function DropNul(s: Bytes): (r: Bytes) {
    if s == [] then [] else (if s[0] == NUL then [] else [s[0]]) + DropNul(s[1..])
  }

  function CountNul(s: Bytes): nat {
    if s == [] then 0 else (if s[0] == NUL then 1 else 0) + CountNul(s[1..])
  }

  // --- the scan ------------------------------------------------------------------------------

  datatype Fault = Unparsable | NotAnObject | LengthMismatch | SumMismatch | NonMonotonic | IdMismatch

  datatype Status = Healthy | Degraded | Corrupt(fault: Fault)

  datatype Scan = Scan(status: Status, previous: nat, highestText: Bytes, offset: nat, torn: bool,
                       truncateAt: nat, records: seq<(Bytes, Bytes)>)

  const START := Scan(Healthy, 0, [DIGITS[0]], 0, false, 0, [])

  /**
   * What the frame grammar takes from outside: the checksum the writer prints, the checksum the
   * reader computes, and the part of a body's event id after its last dash.
   */
  datatype Tools = Tools(written: Bytes -> nat, read: Bytes -> nat, idTail: Bytes -> Bytes)

  ghost predicate Agree(c: Tools) {
    forall b: Bytes {:trigger c.written(b)} {:trigger c.read(b)} :: c.written(b) == c.read(b)
  }

  /** The writer runs cksum, the reader its own reflected CRC. */
  function Octets(s: Bytes): seq<C.Byte> {
    seq(|s|, i requires 0 <= i < |s| => s[i] as bv8)
  }

  function TheTools(idTail: Bytes -> Bytes): Tools {
    Tools((b: Bytes) => C.Cksum(Octets(b)) as nat, (b: Bytes) => C.FastCksum(Octets(b)) as nat, idTail)
  }

  lemma TheToolsAgree(idTail: Bytes -> Bytes)
    ensures Agree(TheTools(idTail))
  {
    forall b: Bytes ensures TheTools(idTail).written(b) == TheTools(idTail).read(b) {
      C.FastCksumIsCksum(Octets(b));
    }
  }

  /** The checks on a parsed frame; size is that of the line it came from. */
  function Accept(s: Scan, f: Frame, size: nat, c: Tools): (t: Scan)
    requires IsDigits(f.number) && IsDigits(f.length)
  {
    var number := NumberOf(f.number);
    if |f.body| == 0 || f.body[0] != BRACE then s.(status := Corrupt(NotAnObject))
    else if |f.body| != NumberOf(f.length) then s.(status := Corrupt(LengthMismatch))
    else if Decimal(c.read(f.body)) != f.sum then s.(status := Corrupt(SumMismatch))
    else if s.previous != 0 && number <= s.previous then s.(status := Corrupt(NonMonotonic))
    else
      var gap := number != s.previous + 1;
      var seen := s.(status := if gap then Degraded else s.status, previous := number, highestText := f.number);
      if c.idTail(f.body) != f.number then seen.(status := Corrupt(IdMismatch))
      else seen.(records := s.records + [(f.number, f.body)], offset := s.offset + size + 1)
  }

  /** One terminated line, NUL bytes already dropped. */
  function LineStep(s: Scan, line: Bytes, c: Tools): (t: Scan) {
    match ParseFrame(line)
    case None => s.(status := Corrupt(Unparsable))
    case Some(f) => Accept(s, f, |line|, c)
  }

  function FirstLf(s: Bytes): (i: nat)
    ensures i <= |s| && LF !in s[..i]
    ensures i < |s| ==> s[i] == LF
  {
    if s == [] || s[0] == LF then 0
    else
      var i := 1 + FirstLf(s[1..]);
      assert s[..i] == [s[0]] + s[1..][..i - 1];
      i
  }

  /** The rule for one terminated line, NUL bytes already dropped. */
  type Rule = (Scan, Bytes) -> Scan

  function Reading(c: Tools): Rule {
    (s: Scan, line: Bytes) => LineStep(s, line, c)
  }

  function ScanFrom(s: Scan, input: Bytes, rule: Rule): Scan
    decreases |input|
  {
    if input == [] || s.status.Corrupt? then s
    else
      var i := FirstLf(input);
      if i < |input| then ScanFrom(rule(s, DropNul(input[..i])), input[i + 1..], rule)
      else if DropNul(input) == [] then s
      else s.(torn := true, truncateAt := s.offset)
  }

  function ScanBytes(input: Bytes, c: Tools): Scan {
    ScanFrom(START, input, Reading(c))
  }

  /** The number the writer uses next; a corrupt stream leaves it at its first value. */
  function NextNumber(s: Scan): nat {
    if s.status.Corrupt? then 1 else s.previous + 1
  }

  lemma ScanNext(s: Scan, input: Bytes, at: nat, end: nat, rule: Rule)
    requires at <= end < |input| && !s.status.Corrupt? && end == at + FirstLf(input[at..])
    ensures ScanFrom(s, input[at..], rule) == ScanFrom(rule(s, DropNul(input[at..end])), input[end + 1..], rule)
  {
    assert input[at..][end - at + 1..] == input[end + 1..] && input[at..][..end - at] == input[at..end];
  }

  lemma ScanLast(s: Scan, tail: Bytes, rule: Rule)
    requires tail != [] && !s.status.Corrupt? && FirstLf(tail) == |tail|
    ensures ScanFrom(s, tail, rule)
         == if DropNul(tail) == [] then s else s.(torn := true, truncateAt := s.offset)
  {
  }

  /** The scan as its loop over lines. */
  method ScanLines(input: Bytes, rule: Rule) returns (out: Scan)
    ensures out == ScanFrom(START, input, rule)
  {
    out := START;
    var at := 0;
    while at < |input| && !out.status.Corrupt?
      invariant at <= |input|
      invariant ScanFrom(out, input[at..], rule) == ScanFrom(START, input, rule)
      decreases |input| - at
    {
      var end := at + FirstLf(input[at..]);
      if end == |input| {
        ScanLast(out, input[at..], rule);
        if DropNul(input[at..]) != [] {
          out := out.(torn := true, truncateAt := out.offset);
        }
        return;
      }
      ScanNext(out, input, at, end, rule);
      out := rule(out, DropNul(input[at..end]));
      at := end + 1;
    }
  }

  // --- the writer ------------------------------------------------------------------------------

  function FrameLine(number: nat, body: Bytes, c: Tools): Bytes {
    Decimal(number) + [SPACE] + (Decimal(c.written(body)) + [SPACE] + (Decimal(|body|) + [SPACE] + body))
  }

  function FrameBytes(number: nat, body: Bytes, c: Tools): Bytes {
    FrameLine(number, body, c) + [LF]
  }

  function Kept(input: Bytes, s: Scan): Bytes {
    if s.torn && s.truncateAt <= |input| then input[..s.truncateAt] else input
  }

  /** What the writer keeps: everything up to the last intact boundary. */
  function Recovered(input: Bytes, c: Tools): Bytes {
    Kept(input, ScanBytes(input, c))
  }

  /** A record body the writer may compose for this number. */
  predicate IsBody(body: Bytes, number: nat, c: Tools) {
    |body| > 0 && body[0] == BRACE && LF !in body && NUL !in body && c.idTail(body) == Decimal(number)
  }

  /** The locked append: refuse a corrupt stream, drop a torn tail, append one frame. */
  function Commit(input: Bytes, compose: nat -> Bytes, c: Tools): Option<Bytes> {
    var s := ScanBytes(input, c);
    if s.status.Corrupt? then None
    else Some(Recovered(input, c) + FrameBytes(NextNumber(s), compose(NextNumber(s)), c))
  }

  // --- decimal round trips ------------------------------------------------------------------------

  lemma {:induction false} DecimalRoundTrip(n: nat)
    ensures NumberOf(Decimal(n)) == n
  {
    if n < 10 {
      DigitsDiffer(DigitValue(DIGITS[n]), n);
    } else {
      DecimalRoundTrip(n / 10);
      assert Decimal(n)[..|Decimal(n)| - 1] == Decimal(n / 10);
      DigitsDiffer(DigitValue(DIGITS[n % 10]), n % 10);
    }
  }

  lemma DigitsDiffer(i: nat, j: nat)
    requires i < 10 && j < 10 && DIGITS[i] == DIGITS[j]
    ensures i == j
  {
  }

  lemma {:induction false} RunOfDigits(digits: Bytes, rest: Bytes)
    requires forall i | 0 <= i < |digits| :: IsDigit(digits[i])
    requires rest != [] ==> !IsDigit(rest[0])
    ensures DigitRun(digits + rest) == |digits|
  {
    if digits == [] {
      assert digits + rest == rest;
    } else {
      RunOfDigits(digits[1..], rest);
      assert (digits + rest)[1..] == digits[1..] + rest;
    }
  }

  lemma TokenRoundTrip(digits: Bytes, rest: Bytes)
    requires IsDigits(digits)
    ensures Token(digits + [SPACE] + rest) == Some((digits, rest))
  {
    assert digits + [SPACE] + rest == digits + ([SPACE] + rest);
    RunOfDigits(digits, [SPACE] + rest);
  }

  /** Parsing the line the writer prints gives back its four fields. */
  lemma FrameRoundTrip(number: nat, body: Bytes, c: Tools)
    ensures ParseFrame(FrameLine(number, body, c))
         == Some(Frame(Decimal(number), Decimal(c.written(body)), Decimal(|body|), body))
  {
    TokenRoundTrip(Decimal(|body|), body);
    var third := Decimal(|body|) + [SPACE] + body;
    TokenRoundTrip(Decimal(c.written(body)), third);
    TokenRoundTrip(Decimal(number), Decimal(c.written(body)) + [SPACE] + third);
  }

  lemma DigitsArePlain(s: Bytes)
    requires IsDigits(s)
    ensures LF !in s && NUL !in s
  {
  }

  lemma FrameLineIsPlain(number: nat, body: Bytes, c: Tools)
    requires LF !in body && NUL !in body
    ensures LF !in FrameLine(number, body, c) && NUL !in FrameLine(number, body, c)
  {
    DigitsArePlain(Decimal(number));
    DigitsArePlain(Decimal(c.written(body)));
    DigitsArePlain(Decimal(|body|));
  }

  lemma {:induction false} NothingToDrop(s: Bytes)
    requires NUL !in s
    ensures DropNul(s) == s && CountNul(s) == 0
  {
    if s != [] {
      NothingToDrop(s[1..]);
    }
  }

  lemma {:induction false} DroppedBytes(s: Bytes)
    ensures |DropNul(s)| + CountNul(s) == |s|
  {
    if s != [] {
      DroppedBytes(s[1..]);
    }
  }

  lemma {:induction false} CountNulInTwo(a: Bytes, b: Bytes)
    ensures CountNul(a + b) == CountNul(a) + CountNul(b)
  {
    if a == [] {
      assert a + b == b;
    } else {
      assert (a + b)[1..] == a[1..] + b;
      CountNulInTwo(a[1..], b);
    }
  }

  // --- the scan, line by line -----------------------------------------------------------------------

  predicate IsWhole(input: Bytes) {
    input == [] || input[|input| - 1] == LF
  }

  lemma FirstLfIs(line: Bytes, rest: Bytes)
    requires LF !in line
    ensures FirstLf(line + [LF] + rest) == |line|
  {
    var i := FirstLf(line + [LF] + rest);
    BeforeLf(line, rest, i);
  }

  lemma BeforeLf(line: Bytes, rest: Bytes, i: nat)
    requires LF !in line && i <= |line + [LF] + rest| && LF !in (line + [LF] + rest)[..i]
    ensures i <= |line|
    ensures i < |line| ==> (line + [LF] + rest)[i] != LF
  {
    var s := line + [LF] + rest;
    assert s[|line|] == LF;
    assert forall k | 0 <= k < i :: s[..i][k] == s[k];
  }

  lemma ScanLine(s: Scan, line: Bytes, rest: Bytes, rule: Rule)
    requires !s.status.Corrupt? && LF !in line
    ensures ScanFrom(s, line + [LF] + rest, rule) == ScanFrom(rule(s, DropNul(line)), rest, rule)
  {
    var input := line + [LF] + rest;
    FirstLfIs(line, rest);
    assert input[..|line|] == line && input[|line| + 1..] == rest;
  }

  /** Scanning can stop and resume at any line boundary. */
  lemma {:induction false} ScanInTwo(s: Scan, a: Bytes, b: Bytes, rule: Rule)
    requires IsWhole(a)
    ensures ScanFrom(s, a + b, rule) == ScanFrom(ScanFrom(s, a, rule), b, rule)
    decreases |a|
  {
    if a == [] {
      assert a + b == b;
    } else if !s.status.Corrupt? {
      var i := FirstLf(a);
      var line, rest := a[..i], a[i + 1..];
      assert a == line + [LF] + rest;
      assert a + b == line + [LF] + (rest + b);
      ScanLine(s, line, rest + b, rule);
      ScanInTwo(rule(s, DropNul(line)), rest, b, rule);
    }
  }

  /** Where the last terminated line ends. */
  function Boundary(input: Bytes): (n: nat)
    ensures n <= |input| && IsWhole(input[..n]) && LF !in input[n..]
  {
    if IsWhole(input) then |input|
    else
      var n := Boundary(input[..|input| - 1]);
      assert input[n..] == input[..|input| - 1][n..] + [input[|input| - 1]];
      assert input[..n] == input[..|input| - 1][..n];
      n
  }

  function CountLf(s: Bytes): nat {
    if s == [] then 0 else (if s[0] == LF then 1 else 0) + CountLf(s[1..])
  }

  lemma {:induction false} CountLfInTwo(a: Bytes, b: Bytes)
    ensures CountLf(a + b) == CountLf(a) + CountLf(b)
  {
    if a == [] {
      assert a + b == b;
    } else {
      assert (a + b)[1..] == a[1..] + b;
      CountLfInTwo(a[1..], b);
    }
  }

  lemma {:induction false} NoLf(s: Bytes)
    requires LF !in s
    ensures CountLf(s) == 0
  {
    if s != [] {
      NoLf(s[1..]);
    }
  }

  /** Every line taken counts its bytes and leaves one record. */
  ghost predicate KeepsBooks(rule: Rule) {
    forall s: Scan, line: Bytes {:trigger rule(s, line)} ::
      var t := rule(s, line);
      && t.torn == s.torn && t.truncateAt == s.truncateAt
      && (!t.status.Corrupt? ==> t.offset == s.offset + |line| + 1 && |t.records| == |s.records| + 1)
  }

  lemma AcceptKeepsBooks(s: Scan, f: Frame, size: nat, c: Tools)
    requires IsDigits(f.number) && IsDigits(f.length)
    ensures var t := Accept(s, f, size, c);
      && t.torn == s.torn && t.truncateAt == s.truncateAt
      && (!t.status.Corrupt? ==> t.offset == s.offset + size + 1 && |t.records| == |s.records| + 1)
  {
  }

  lemma LineKeepsBooks(s: Scan, line: Bytes, c: Tools)
    ensures var t := LineStep(s, line, c);
      && t.torn == s.torn && t.truncateAt == s.truncateAt
      && (!t.status.Corrupt? ==> t.offset == s.offset + |line| + 1 && |t.records| == |s.records| + 1)
  {
    match ParseFrame(line)
    case None =>
    case Some(f) => AcceptKeepsBooks(s, f, |line|, c);
  }

  lemma ReadingKeepsBooks(c: Tools)
    ensures KeepsBooks(Reading(c))
  {
    forall s: Scan, line: Bytes ensures Reading(c)(s, line) == LineStep(s, line, c) {}
    forall s: Scan, line: Bytes ensures
      var t := Reading(c)(s, line);
      && t.torn == s.torn && t.truncateAt == s.truncateAt
      && (!t.status.Corrupt? ==> t.offset == s.offset + |line| + 1 && |t.records| == |s.records| + 1)
    {
      LineKeepsBooks(s, line, c);
    }
  }

  lemma LineCounts(line: Bytes, rest: Bytes)
    requires LF !in line
    ensures CountLf(line + [LF] + rest) == 1 + CountLf(rest)
    ensures |DropNul(line)| + 1 + CountNul(line + [LF] + rest) == |line| + 1 + CountNul(rest)
  {
    DroppedBytes(line);
    CountNulInTwo(line + [LF], rest);
    CountNulInTwo(line, [LF]);
    NoLf(line);
    CountLfInTwo(line + [LF], rest);
    CountLfInTwo(line, [LF]);
  }

  /** What a scan that was not refused has gone through: every terminated line, one record each. */
  lemma {:induction false} WholeScan(s: Scan, a: Bytes, rule: Rule)
    requires KeepsBooks(rule) && IsWhole(a) && !ScanFrom(s, a, rule).status.Corrupt?
    ensures var t := ScanFrom(s, a, rule);
      && t.offset + CountNul(a) == s.offset + |a|
      && |t.records| == |s.records| + CountLf(a)
      && t.torn == s.torn && t.truncateAt == s.truncateAt
    decreases |a|
  {
    if a != [] {
      var i := FirstLf(a);
      var line, rest := a[..i], a[i + 1..];
      assert a == line + [LF] + rest;
      LineCounts(line, rest);
      WholeScan(rule(s, DropNul(line)), rest, rule);
    }
  }

  /** A scan of any bytes is a scan of its terminated lines, then of its tail. */
  lemma ScanOfTail(s: Scan, whole: Bytes, tail: Bytes, rule: Rule)
    requires IsWhole(whole) && LF !in tail
    ensures
      var t := ScanFrom(s, whole, rule);
      ScanFrom(s, whole + tail, rule)
      == if t.status.Corrupt? || DropNul(tail) == [] then t else t.(torn := true, truncateAt := t.offset)
  {
    ScanInTwo(s, whole, tail, rule);
    var i := FirstLf(tail);
  }

  /** The books of a scan that was not refused: its lines, its records, its boundary. */
  lemma ScanBooks(whole: Bytes, tail: Bytes, rule: Rule)
    requires KeepsBooks(rule) && IsWhole(whole) && LF !in tail
    requires !ScanFrom(START, whole + tail, rule).status.Corrupt?
    ensures
      var t := ScanFrom(START, whole, rule);
      && !t.status.Corrupt? && !t.torn && t.offset + CountNul(whole) == |whole| && |t.records| == CountLf(whole)
      && ScanFrom(START, whole + tail, rule)
         == (if DropNul(tail) == [] then t else t.(torn := true, truncateAt := t.offset))
  {
    ScanOfTail(START, whole, tail, rule);
    WholeScan(START, whole, rule);
  }

  lemma AtBoundary(input: Bytes)
    ensures
      var n := Boundary(input);
      IsWhole(input[..n]) && LF !in input[n..] && input == input[..n] + input[n..]
  {
  }

  /**
   * The prescribed truncation is the last boundary exactly when no terminated line holds a NUL:
   * the reader counts bytes after dropping NULs.
   */
  lemma TruncationIsBoundaryIff(input: Bytes, c: Tools)
    requires ScanBytes(input, c).torn
    ensures var s := ScanBytes(input, c);
      && s.truncateAt + CountNul(input[..Boundary(input)]) == Boundary(input)
      && (s.truncateAt == Boundary(input) <==> CountNul(input[..Boundary(input)]) == 0)
  {
    var n := Boundary(input);
    AtBoundary(input);
    ReadingKeepsBooks(c);
    TornTruncation(input[..n], input[n..], Reading(c));
  }

  lemma TornTruncation(whole: Bytes, tail: Bytes, rule: Rule)
    requires KeepsBooks(rule) && IsWhole(whole) && LF !in tail && ScanFrom(START, whole + tail, rule).torn
    ensures ScanFrom(START, whole + tail, rule).truncateAt + CountNul(whole) == |whole|
  {
    ScanOfTail(START, whole, tail, rule);
    WholeIsNotTorn(START, whole, rule);
    WholeScan(START, whole, rule);
  }

  lemma {:induction false} WholeIsNotTorn(s: Scan, a: Bytes, rule: Rule)
    requires KeepsBooks(rule) && IsWhole(a) && !s.torn
    ensures !ScanFrom(s, a, rule).torn
    decreases |a|
  {
    if a != [] && !s.status.Corrupt? {
      var i := FirstLf(a);
      assert a[i + 1..] == [] || a[i + 1..][|a[i + 1..]| - 1] == LF;
      WholeIsNotTorn(rule(s, DropNul(a[..i])), a[i + 1..], rule);
    }
  }

  // --- what an accepted stream guarantees --------------------------------------------------------------

  ghost predicate IsIntact(record: (Bytes, Bytes), number: nat, c: Tools) {
    && IsDigits(record.0) && NumberOf(record.0) == number
    && |record.1| > 0 && record.1[0] == BRACE
    && c.idTail(record.1) == record.0
  }

  /** A stream is healthy only when its records are numbered one after the other from one. */
  ghost predicate CountsUp(s: Scan, c: Tools) {
    s.status == Healthy ==>
      && s.previous == |s.records|
      && forall k | 0 <= k < |s.records| :: IsIntact(s.records[k], k + 1, c)
  }

  ghost predicate KeepsCount(rule: Rule, c: Tools) {
    forall s: Scan, line: Bytes {:trigger rule(s, line)} ::
      CountsUp(s, c) && !s.status.Corrupt? ==> CountsUp(rule(s, line), c)
  }

  lemma AcceptKeepsCount(s: Scan, f: Frame, size: nat, c: Tools)
    requires IsDigits(f.number) && IsDigits(f.length) && CountsUp(s, c) && !s.status.Corrupt?
    ensures CountsUp(Accept(s, f, size, c), c)
  {
  }

  lemma LineKeepsCount(s: Scan, line: Bytes, c: Tools)
    requires CountsUp(s, c) && !s.status.Corrupt?
    ensures CountsUp(LineStep(s, line, c), c)
  {
    match ParseFrame(line)
    case None =>
    case Some(f) => AcceptKeepsCount(s, f, |line|, c);
  }

  lemma {:induction false} ScanKeepsCount(s: Scan, input: Bytes, rule: Rule, c: Tools)
    requires KeepsCount(rule, c) && CountsUp(s, c)
    ensures CountsUp(ScanFrom(s, input, rule), c)
    decreases |input|
  {
    if input != [] && !s.status.Corrupt? {
      var i := FirstLf(input);
      if i < |input| {
        ScanKeepsCount(rule(s, DropNul(input[..i])), input[i + 1..], rule, c);
      }
    }
  }

  /** The terminated lines of some bytes, NUL bytes dropped. */
  function Terminated(input: Bytes): seq<Bytes>
    decreases |input|
  {
    var i := FirstLf(input);
    if i < |input| then [DropNul(input[..i])] + Terminated(input[i + 1..]) else []
  }

  /** The line is the record's frame: its number, its checksum, its length and its body. */
  ghost predicate IsFrameOf(line: Bytes, record: (Bytes, Bytes), c: Tools) {
    var f := ParseFrame(line);
    && f.Some? && f.value.number == record.0 && f.value.body == record.1
    && NumberOf(f.value.length) == |record.1| && f.value.sum == Decimal(c.read(record.1))
    && |record.1| > 0 && record.1[0] == BRACE && c.idTail(record.1) == record.0
  }

  ghost predicate AreFramesOf(lines: seq<Bytes>, records: seq<(Bytes, Bytes)>, c: Tools) {
    |lines| == |records| && forall k | 0 <= k < |lines| :: IsFrameOf(lines[k], records[k], c)
  }

  ghost predicate TakesFrames(rule: Rule, c: Tools) {
    forall s: Scan, line: Bytes {:trigger rule(s, line)} ::
      var t := rule(s, line);
      !t.status.Corrupt? ==>
        |t.records| == |s.records| + 1 && t.records[..|s.records|] == s.records && IsFrameOf(line, t.records[|s.records|], c)
  }

  lemma LineIsFrame(s: Scan, line: Bytes, c: Tools)
    ensures
      var t := LineStep(s, line, c);
      !t.status.Corrupt? ==>
        |t.records| == |s.records| + 1 && t.records[..|s.records|] == s.records && IsFrameOf(line, t.records[|s.records|], c)
  {
  }

  lemma {:induction false} ScanTakesFrames(s: Scan, input: Bytes, rule: Rule, c: Tools)
    requires TakesFrames(rule, c) && !ScanFrom(s, input, rule).status.Corrupt?
    ensures
      var t := ScanFrom(s, input, rule);
      && s.records <= t.records && AreFramesOf(Terminated(input), t.records[|s.records|..], c)
    decreases |input|
  {
    var i := FirstLf(input);
    if input != [] && i < |input| {
      var line, rest := DropNul(input[..i]), input[i + 1..];
      var next := rule(s, line);
      CorruptStays(next, rest, rule);
      ScanTakesFrames(next, rest, rule, c);
      RecordsInTwo(s.records, next.records, ScanFrom(next, rest, rule).records);
      OneFrameMore(line, Terminated(rest), next.records[|s.records|], ScanFrom(next, rest, rule).records[|next.records|..], c);
    } else {
      assert s.records[|s.records|..] == [];
    }
  }

  lemma CorruptStays(s: Scan, input: Bytes, rule: Rule)
    ensures s.status.Corrupt? ==> ScanFrom(s, input, rule) == s
  {
  }

  lemma RecordsInTwo<T>(a: seq<T>, b: seq<T>, c: seq<T>)
    requires |b| == |a| + 1 && b[..|a|] == a && b <= c
    ensures a <= c && c[|a|..] == [b[|a|]] + c[|b|..]
  {
  }

  lemma OneFrameMore(line: Bytes, lines: seq<Bytes>, record: (Bytes, Bytes), records: seq<(Bytes, Bytes)>, c: Tools)
    requires IsFrameOf(line, record, c) && AreFramesOf(lines, records, c)
    ensures AreFramesOf([line] + lines, [record] + records, c)
  {
  }

  /** Over any bytes at all: a scan that is not corrupt returns one record for each terminated line, which is its frame. */
  lemma RecordsAreFrames(input: Bytes, c: Tools)
    requires !ScanBytes(input, c).status.Corrupt?
    ensures AreFramesOf(Terminated(input), ScanBytes(input, c).records, c)
  {
    forall s: Scan, line: Bytes
      ensures
        var t := Reading(c)(s, line);
        !t.status.Corrupt? ==>
          |t.records| == |s.records| + 1 && t.records[..|s.records|] == s.records
          && IsFrameOf(line, t.records[|s.records|], c)
    {
      LineIsFrame(s, line, c);
    }
    ScanTakesFrames(START, input, Reading(c), c);
    assert ScanBytes(input, c).records[0..] == ScanBytes(input, c).records;
  }

  /** Over any bytes at all: a healthy scan returned records 1, 2, 3, ... each intact in its frame. */
  lemma HealthyMeansGapless(input: Bytes, c: Tools)
    requires ScanBytes(input, c).status == Healthy
    ensures var s := ScanBytes(input, c);
      && NextNumber(s) == |s.records| + 1
      && AreFramesOf(Terminated(input), s.records, c)
      && forall k | 0 <= k < |s.records| :: IsIntact(s.records[k], k + 1, c)
  {
    forall s: Scan, line: Bytes | CountsUp(s, c) && !s.status.Corrupt? ensures CountsUp(Reading(c)(s, line), c) {
      LineKeepsCount(s, line, c);
    }
    ScanKeepsCount(START, input, Reading(c), c);
    RecordsAreFrames(input, c);
  }

  // --- the writer's frames and the reader's scan --------------------------------------------------------

  function WithRecord(s: Scan, number: nat, body: Bytes, c: Tools): Scan {
    s.(previous := number, highestText := Decimal(number), records := s.records + [(Decimal(number), body)],
       offset := s.offset + |FrameBytes(number, body, c)|)
  }

  /** The writer's next frame is always accepted, and adds exactly its record. */
  lemma NextFrameIsAccepted(s: Scan, body: Bytes, c: Tools)
    requires Agree(c) && !s.status.Corrupt? && IsBody(body, s.previous + 1, c)
    ensures ScanFrom(s, FrameBytes(s.previous + 1, body, c), Reading(c)) == WithRecord(s, s.previous + 1, body, c)
  {
    var number := s.previous + 1;
    var line := FrameLine(number, body, c);
    FrameLineIsPlain(number, body, c);
    NothingToDrop(line);
    assert FrameBytes(number, body, c) == line + [LF] + [];
    ScanLine(s, line, [], Reading(c));
    FrameRoundTrip(number, body, c);
    DecimalRoundTrip(number);
    DecimalRoundTrip(|body|);
  }

  /** Any proper prefix of a frame is an uncommitted tail. */
  lemma CutFrameIsTorn(s: Scan, number: nat, body: Bytes, kept: nat, c: Tools)
    requires !s.status.Corrupt? && IsBody(body, number, c) && kept < |FrameBytes(number, body, c)|
    ensures ScanFrom(s, FrameBytes(number, body, c)[..kept], Reading(c))
         == if kept == 0 then s else s.(torn := true, truncateAt := s.offset)
  {
    var cut := FrameBytes(number, body, c)[..kept];
    FrameLineIsPlain(number, body, c);
    assert cut == FrameLine(number, body, c)[..kept];
    NothingToDrop(cut);
    var i := FirstLf(cut);
  }

  function Joined(frames: seq<Bytes>): Bytes {
    if frames == [] then [] else Joined(frames[..|frames| - 1]) + frames[|frames| - 1]
  }

  lemma {:induction false} JoinedLengths(frames: seq<Bytes>, m: nat)
    requires m <= |frames|
    ensures |Joined(frames[..m])| <= |Joined(frames)|
  {
    if m < |frames| {
      assert frames[..|frames| - 1][..m] == frames[..m];
      JoinedLengths(frames[..|frames| - 1], m);
    } else {
      assert frames[..m] == frames;
    }
  }

  /** The first p bytes of joined frames are whole frames and a proper prefix of the next. */
  ghost predicate SplitsAt(frames: seq<Bytes>, p: nat, m: nat) {
    && m <= |frames| && |Joined(frames[..m])| <= p <= |Joined(frames)|
    && var kept := p - |Joined(frames[..m])|;
       if m == |frames| then kept == 0
       else kept < |frames[m]| && Joined(frames)[..p] == Joined(frames[..m]) + frames[m][..kept]
  }

  lemma {:induction false} PrefixSplits(frames: seq<Bytes>, p: nat) returns (m: nat)
    requires p <= |Joined(frames)|
    ensures SplitsAt(frames, p, m)
  {
    if p == |Joined(frames)| {
      m := |frames|;
      assert frames[..m] == frames;
    } else {
      var front, last := frames[..|frames| - 1], frames[|frames| - 1];
      if p < |Joined(front)| {
        m := PrefixSplits(front, p);
        EarlierSplit(frames, p, m);
      } else {
        m := |front|;
        assert Joined(frames)[..p] == Joined(front) + last[..p - |Joined(front)|];
      }
    }
  }

  lemma EarlierSplit(frames: seq<Bytes>, p: nat, m: nat)
    requires frames != [] && p < |Joined(frames[..|frames| - 1])| && SplitsAt(frames[..|frames| - 1], p, m)
    ensures SplitsAt(frames, p, m)
  {
    var front := frames[..|frames| - 1];
    assert front[..|front|] == front;
    assert frames[..m] == front[..m];
    assert Joined(frames)[..p] == Joined(front)[..p];
  }

  /** The frames the writer makes: bodies[k] under number k + 1. */
  function Framed(bodies: seq<Bytes>, c: Tools): (frames: seq<Bytes>)
    ensures |frames| == |bodies|
  {
    seq(|bodies|, k requires 0 <= k < |bodies| => FrameBytes(k + 1, bodies[k], c))
  }

  function Stream(bodies: seq<Bytes>, c: Tools): Bytes {
    Joined(Framed(bodies, c))
  }

  ghost predicate AreBodies(bodies: seq<Bytes>, c: Tools) {
    forall k | 0 <= k < |bodies| :: IsBody(bodies[k], k + 1, c)
  }

  function Numbered(bodies: seq<Bytes>): seq<(Bytes, Bytes)> {
    seq(|bodies|, k requires 0 <= k < |bodies| => (Decimal(k + 1), bodies[k]))
  }

  function Intact(bodies: seq<Bytes>, c: Tools): Scan {
    Scan(Healthy, |bodies|, if bodies == [] then [DIGITS[0]] else Decimal(|bodies|), |Stream(bodies, c)|, false, 0,
         Numbered(bodies))
  }

  lemma StreamGrows(front: seq<Bytes>, body: Bytes, c: Tools)
    ensures Stream(front + [body], c) == Stream(front, c) + FrameBytes(|front| + 1, body, c)
  {
    assert Framed(front + [body], c)[..|front|] == Framed(front, c);
  }

  lemma IntactGrows(front: seq<Bytes>, body: Bytes, c: Tools)
    ensures Intact(front + [body], c) == WithRecord(Intact(front, c), |front| + 1, body, c)
  {
    StreamGrows(front, body, c);
    NumberedGrows(front, body);
  }

  lemma NumberedGrows(front: seq<Bytes>, body: Bytes)
    ensures Numbered(front + [body]) == Numbered(front) + [(Decimal(|front| + 1), body)]
  {
    var all := front + [body];
    forall k | 0 <= k < |front| ensures Numbered(all)[k] == Numbered(front)[k] {
      NumberedAt(all, k);
      NumberedAt(front, k);
    }
    NumberedAt(all, |front|);
    OneAtTheEnd(Numbered(all), Numbered(front), (Decimal(|front| + 1), body));
  }

  lemma OneAtTheEnd<T>(all: seq<T>, front: seq<T>, last: T)
    requires |all| == |front| + 1 && (forall k | 0 <= k < |front| :: all[k] == front[k]) && all[|front|] == last
    ensures all == front + [last]
  {
  }

  lemma NumberedAt(bodies: seq<Bytes>, k: nat)
    requires k < |bodies|
    ensures Numbered(bodies)[k] == (Decimal(k + 1), bodies[k])
  {
  }

  lemma StreamScansOneMore(front: seq<Bytes>, body: Bytes, c: Tools)
    requires Agree(c) && IsBody(body, |front| + 1, c)
    requires IsWhole(Stream(front, c)) && ScanBytes(Stream(front, c), c) == Intact(front, c)
    ensures IsWhole(Stream(front + [body], c)) && ScanBytes(Stream(front + [body], c), c) == Intact(front + [body], c)
  {
    StreamGrows(front, body, c);
    IntactGrows(front, body, c);
    FrameIsWhole(Stream(front, c), |front| + 1, body, c);
    ScanInTwo(START, Stream(front, c), FrameBytes(|front| + 1, body, c), Reading(c));
    NextFrameIsAccepted(Intact(front, c), body, c);
  }

  lemma FrameIsWhole(input: Bytes, number: nat, body: Bytes, c: Tools)
    ensures IsWhole(input + FrameBytes(number, body, c))
  {
  }

  lemma {:induction false} StreamScans(bodies: seq<Bytes>, c: Tools)
    requires Agree(c) && AreBodies(bodies, c)
    ensures IsWhole(Stream(bodies, c)) && ScanBytes(Stream(bodies, c), c) == Intact(bodies, c)
  {
    if bodies == [] {
      assert Numbered(bodies) == [];
    } else {
      var front, body := bodies[..|bodies| - 1], bodies[|bodies| - 1];
      assert bodies == front + [body];
      StreamScans(front, c);
      StreamScansOneMore(front, body, c);
    }
  }

  lemma LfOfFrame(number: nat, body: Bytes, kept: nat, c: Tools)
    requires LF !in body && NUL !in body && kept <= |FrameBytes(number, body, c)|
    ensures CountLf(FrameBytes(number, body, c)[..kept]) == if kept == |FrameBytes(number, body, c)| then 1 else 0
  {
    var line := FrameLine(number, body, c);
    FrameLineIsPlain(number, body, c);
    if kept <= |line| {
      assert FrameBytes(number, body, c)[..kept] == line[..kept];
      NoLf(line[..kept]);
    } else {
      assert FrameBytes(number, body, c)[..kept] == line + [LF];
      NoLf(line);
      CountLfInTwo(line, [LF]);
    }
  }

  lemma {:induction false} LfsOfStream(bodies: seq<Bytes>, c: Tools)
    requires AreBodies(bodies, c)
    ensures CountLf(Stream(bodies, c)) == |bodies|
  {
    if bodies != [] {
      var front, body := bodies[..|bodies| - 1], bodies[|bodies| - 1];
      assert bodies == front + [body];
      LfsOfStream(front, c);
      StreamGrows(front, body, c);
      var frame := FrameBytes(|bodies|, body, c);
      LfOfFrame(|bodies|, body, |frame|, c);
      assert frame[..|frame|] == frame;
      CountLfInTwo(Stream(front, c), frame);
    }
  }

  /** Whole frames, then a proper prefix of the next one. */
  lemma CutStreamScans(bodies: seq<Bytes>, body: Bytes, kept: nat, c: Tools)
    requires Agree(c) && AreBodies(bodies, c) && IsBody(body, |bodies| + 1, c)
    requires kept < |FrameBytes(|bodies| + 1, body, c)|
    ensures
      var input := Stream(bodies, c) + FrameBytes(|bodies| + 1, body, c)[..kept];
      && ScanBytes(input, c)
         == (if kept == 0 then Intact(bodies, c)
             else Intact(bodies, c).(torn := true, truncateAt := |Stream(bodies, c)|))
      && Recovered(input, c) == Stream(bodies, c)
      && CountLf(input) == |bodies|
  {
    var cut := FrameBytes(|bodies| + 1, body, c)[..kept];
    StreamScans(bodies, c);
    ScanInTwo(START, Stream(bodies, c), cut, Reading(c));
    CutFrameIsTorn(Intact(bodies, c), |bodies| + 1, body, kept, c);
    LfsOfStream(bodies, c);
    LfOfFrame(|bodies| + 1, body, kept, c);
    CountLfInTwo(Stream(bodies, c), cut);
  }

  lemma PrefixOfFrames(bodies: seq<Bytes>, p: nat, m: nat, c: Tools)
    requires m < |bodies| && SplitsAt(Framed(bodies, c), p, m)
    ensures
      var kept := p - |Stream(bodies[..m], c)|;
      && 0 <= kept < |FrameBytes(m + 1, bodies[m], c)|
      && Stream(bodies, c)[..p] == Stream(bodies[..m], c) + FrameBytes(m + 1, bodies[m], c)[..kept]
  {
    assert Framed(bodies, c)[..m] == Framed(bodies[..m], c);
  }

  ghost predicate ScansTo(input: Bytes, bodies: seq<Bytes>, c: Tools) {
    var s := ScanBytes(input, c);
    && s.status == Healthy && s.records == Numbered(bodies) && s.previous == |bodies|
    && (s.torn <==> |input| > |Stream(bodies, c)|)
    && (s.torn ==> s.truncateAt == |Stream(bodies, c)|)
    && Recovered(input, c) == Stream(bodies, c)
    && CountLf(input) == |bodies|
  }

  lemma WholeStreamScans(bodies: seq<Bytes>, p: nat, c: Tools)
    requires Agree(c) && AreBodies(bodies, c) && SplitsAt(Framed(bodies, c), p, |bodies|)
    ensures bodies[..|bodies|] == bodies
    ensures Stream(bodies, c)[..p] == Stream(bodies, c) && ScansTo(Stream(bodies, c), bodies, c)
  {
    assert Framed(bodies, c)[..|bodies|] == Framed(bodies, c);
    StreamScans(bodies, c);
    LfsOfStream(bodies, c);
  }

  lemma CutPrefixScans(bodies: seq<Bytes>, p: nat, m: nat, c: Tools)
    requires Agree(c) && AreBodies(bodies, c) && m < |bodies| && SplitsAt(Framed(bodies, c), p, m)
    ensures p <= |Stream(bodies, c)| && ScansTo(Stream(bodies, c)[..p], bodies[..m], c)
  {
    PrefixOfFrames(bodies, p, m, c);
    CutStreamScans(bodies[..m], bodies[m], p - |Stream(bodies[..m], c)|, c);
  }

  /**
   * Every prefix of a well-formed stream scans without fault, to exactly the records whose LF is
   * in the prefix; it is torn exactly when bytes are left over, and then names the boundary.
   */
  lemma EveryPrefixScans(bodies: seq<Bytes>, p: nat, c: Tools)
    requires Agree(c) && AreBodies(bodies, c) && p <= |Stream(bodies, c)|
    ensures
      var input := Stream(bodies, c)[..p];
      var s := ScanBytes(input, c);
      var m := CountLf(input);
      && m <= |bodies| && s.status == Healthy
      && s.records == Numbered(bodies[..m])
      && NextNumber(s) == m + 1
      && (s.torn <==> p > |Stream(bodies[..m], c)|)
      && (s.torn ==> s.truncateAt == |Stream(bodies[..m], c)|)
      && Recovered(input, c) == Stream(bodies[..m], c)
  {
    var m := PrefixSplits(Framed(bodies, c), p);
    if m == |bodies| {
      WholeStreamScans(bodies, p, c);
    } else {
      CutPrefixScans(bodies, p, m, c);
    }
  }

  // --- runs of the writer -------------------------------------------------------------------------------

  /** One append that may be cut short: how the body depends on the number, and the bytes that got out. */
  datatype Write = Write(compose: nat -> Bytes, kept: nat)

  ghost predicate Composes(w: Write, c: Tools) {
    forall n: nat {:trigger w.compose(n)} :: IsBody(w.compose(n), n, c)
  }

  /** The stream after an append of which only the first `kept` bytes reached it. */
  function AfterWrite(input: Bytes, w: Write, c: Tools): Bytes {
    var s := ScanBytes(input, c);
    if s.status.Corrupt? then input
    else
      var frame := FrameBytes(NextNumber(s), w.compose(NextNumber(s)), c);
      Recovered(input, c) + if w.kept < |frame| then frame[..w.kept] else frame
  }

  function AfterWrites(writes: seq<Write>, c: Tools): Bytes {
    if writes == [] then []
    else AfterWrite(AfterWrites(writes[..|writes| - 1], c), writes[|writes| - 1], c)
  }

  /** The bodies whose append was complete, each composed with the number then due. */
  function CompleteWrites(writes: seq<Write>, c: Tools): seq<Bytes> {
    if writes == [] then []
    else
      var done := CompleteWrites(writes[..|writes| - 1], c);
      var w := writes[|writes| - 1];
      var body := w.compose(|done| + 1);
      if w.kept < |FrameBytes(|done| + 1, body, c)| then done else done + [body]
  }

  lemma {:induction false} CompleteWritesAreBodies(writes: seq<Write>, c: Tools)
    requires forall w | w in writes :: Composes(w, c)
    ensures AreBodies(CompleteWrites(writes, c), c)
  {
    if writes != [] {
      CompleteWritesAreBodies(writes[..|writes| - 1], c);
      assert writes[|writes| - 1] in writes;
    }
  }

  /** The stream is the complete frames and a proper prefix of one more. */
  ghost predicate HoldsWrites(input: Bytes, bodies: seq<Bytes>, c: Tools) {
    exists body: Bytes, kept: nat :: IsCutAfter(input, bodies, body, kept, c)
  }

  ghost predicate IsCutAfter(input: Bytes, bodies: seq<Bytes>, body: Bytes, kept: nat, c: Tools) {
    && IsBody(body, |bodies| + 1, c) && kept < |FrameBytes(|bodies| + 1, body, c)|
    && input == Stream(bodies, c) + FrameBytes(|bodies| + 1, body, c)[..kept]
  }

  lemma HeldStreamScans(input: Bytes, bodies: seq<Bytes>, c: Tools)
    requires Agree(c) && AreBodies(bodies, c) && HoldsWrites(input, bodies, c)
    ensures
      var s := ScanBytes(input, c);
      && s.status == Healthy && s.records == Numbered(bodies) && s.previous == |bodies|
      && Recovered(input, c) == Stream(bodies, c)
  {
    var body: Bytes, kept: nat :| IsCutAfter(input, bodies, body, kept, c);
    CutStreamScans(bodies, body, kept, c);
  }

  lemma OneWrite(input: Bytes, bodies: seq<Bytes>, w: Write, c: Tools)
    requires Agree(c) && AreBodies(bodies, c) && HoldsWrites(input, bodies, c) && Composes(w, c)
    ensures
      var body := w.compose(|bodies| + 1);
      HoldsWrites(AfterWrite(input, w, c),
        if w.kept < |FrameBytes(|bodies| + 1, body, c)| then bodies else bodies + [body], c)
  {
    HeldStreamScans(input, bodies, c);
    var body := w.compose(|bodies| + 1);
    if w.kept < |FrameBytes(|bodies| + 1, body, c)| {
      assert IsCutAfter(AfterWrite(input, w, c), bodies, body, w.kept, c);
    } else {
      StreamGrows(bodies, body, c);
      StartsEmpty(bodies + [body], w, c);
    }
  }

  lemma StartsEmpty(bodies: seq<Bytes>, w: Write, c: Tools)
    requires Composes(w, c)
    ensures HoldsWrites(Stream(bodies, c), bodies, c)
  {
    var body := w.compose(|bodies| + 1);
    assert IsBody(body, |bodies| + 1, c);
    assert IsCutAfter(Stream(bodies, c), bodies, body, 0, c);
  }

  /**
   * Over every run of appends, each cut off at any byte: the stream stays healthy, and holds
   * exactly the records whose append was complete, in order, none lost and none torn.
   */
  lemma {:induction false} NoCommittedRecordIsLost(writes: seq<Write>, c: Tools)
    requires Agree(c)
    requires forall w | w in writes :: Composes(w, c)
    ensures
      var s := ScanBytes(AfterWrites(writes, c), c);
      s.status == Healthy && s.records == Numbered(CompleteWrites(writes, c))
  {
    if writes != [] {
      WritesAreHeld(writes, c);
      CompleteWritesAreBodies(writes, c);
      HeldStreamScans(AfterWrites(writes, c), CompleteWrites(writes, c), c);
    }
  }

  lemma LastWrite(writes: seq<Write>, input: Bytes, bodies: seq<Bytes>, c: Tools)
    requires writes != [] && input == AfterWrites(writes[..|writes| - 1], c)
    requires bodies == CompleteWrites(writes[..|writes| - 1], c)
    ensures AfterWrites(writes, c) == AfterWrite(input, writes[|writes| - 1], c)
    ensures
      var body := writes[|writes| - 1].compose(|bodies| + 1);
      CompleteWrites(writes, c)
      == if writes[|writes| - 1].kept < |FrameBytes(|bodies| + 1, body, c)| then bodies else bodies + [body]
  {
  }

  lemma OneMoreWrite(writes: seq<Write>, input: Bytes, bodies: seq<Bytes>, c: Tools)
    requires writes != [] && input == AfterWrites(writes[..|writes| - 1], c)
    requires bodies == CompleteWrites(writes[..|writes| - 1], c)
    requires Agree(c) && AreBodies(bodies, c) && HoldsWrites(input, bodies, c) && Composes(writes[|writes| - 1], c)
    ensures HoldsWrites(AfterWrites(writes, c), CompleteWrites(writes, c), c)
  {
    LastWrite(writes, input, bodies, c);
    OneWrite(input, bodies, writes[|writes| - 1], c);
  }

  lemma {:induction false} WritesAreHeld(writes: seq<Write>, c: Tools)
    requires Agree(c) && writes != [] && forall w | w in writes :: Composes(w, c)
    ensures HoldsWrites(AfterWrites(writes, c), CompleteWrites(writes, c), c)
  {
    var front, w := writes[..|writes| - 1], writes[|writes| - 1];
    assert w in writes;
    if front == [] {
      StartsEmpty([], w, c);
      assert Stream([], c) == [];
    } else {
      WritesAreHeld(front, c);
    }
    CompleteWritesAreBodies(front, c);
    OneMoreWrite(writes, AfterWrites(front, c), CompleteWrites(front, c), c);
  }

  // --- appending to any stream --------------------------------------------------------------------------

  lemma {:induction false} DropNulInTwo(a: Bytes, b: Bytes)
    ensures DropNul(a + b) == DropNul(a) + DropNul(b)
  {
    if a == [] {
      assert a + b == b;
    } else {
      assert (a + b)[1..] == a[1..] + b;
      DropNulInTwo(a[1..], b);
    }
  }

  lemma LineAfterNuls(s: Scan, nuls: Bytes, line: Bytes, rule: Rule)
    requires !s.status.Corrupt? && LF !in nuls && DropNul(nuls) == [] && LF !in line && NUL !in line
    ensures ScanFrom(s, nuls + (line + [LF]), rule) == ScanFrom(s, line + [LF], rule)
  {
    NulsVanish(nuls, line);
    TerminatedLine(s, nuls + line, rule);
    TerminatedLine(s, line, rule);
    Regroup(nuls, line, [LF]);
  }

  lemma Regroup(a: Bytes, b: Bytes, c: Bytes)
    ensures a + (b + c) == a + b + c
  {
  }

  lemma TerminatedLine(s: Scan, line: Bytes, rule: Rule)
    requires !s.status.Corrupt? && LF !in line
    ensures ScanFrom(s, line + [LF], rule) == rule(s, DropNul(line))
  {
    ScanLine(s, line, [], rule);
    assert line + [LF] == line + [LF] + [];
  }

  lemma NulsVanish(nuls: Bytes, line: Bytes)
    requires DropNul(nuls) == [] && NUL !in line
    ensures DropNul(nuls + line) == DropNul(line)
  {
    DropNulInTwo(nuls, line);
  }

  /** NUL bytes in front of the frame are dropped. */
  lemma FrameAfterNuls(s: Scan, nuls: Bytes, body: Bytes, c: Tools)
    requires Agree(c) && !s.status.Corrupt? && IsBody(body, s.previous + 1, c)
    requires DropNul(nuls) == [] && LF !in nuls
    ensures ScanFrom(s, nuls + FrameBytes(s.previous + 1, body, c), Reading(c)) == WithRecord(s, s.previous + 1, body, c)
  {
    FrameLineIsPlain(s.previous + 1, body, c);
    LineAfterNuls(s, nuls, FrameLine(s.previous + 1, body, c), Reading(c));
    NextFrameIsAccepted(s, body, c);
  }

  /** The truncation the scan prescribes, if any, is at a line boundary. */
  predicate IsRecoverable(input: Bytes, c: Tools) {
    ScanBytes(input, c).torn ==> CountNul(input[..Boundary(input)]) == 0
  }

  lemma LinesKept(whole: Bytes, tail: Bytes, rule: Rule)
    requires KeepsBooks(rule) && IsWhole(whole) && LF !in tail
    requires !ScanFrom(START, whole + tail, rule).status.Corrupt?
    requires ScanFrom(START, whole + tail, rule).torn ==> CountNul(whole) == 0
    ensures
      var s, t := ScanFrom(START, whole + tail, rule), ScanFrom(START, whole, rule);
      && Kept(whole + tail, s) == (if s.torn then whole else whole + tail)
      && (!s.torn ==> DropNul(tail) == [])
      && t.status == s.status && t.previous == s.previous && t.records == s.records
  {
    ScanBooks(whole, tail, rule);
    assert (whole + tail)[..|whole|] == whole;
  }

  lemma RecoveredLines(whole: Bytes, tail: Bytes, c: Tools)
    requires IsWhole(whole) && LF !in tail && !ScanBytes(whole + tail, c).status.Corrupt?
    requires ScanBytes(whole + tail, c).torn ==> CountNul(whole) == 0
    ensures
      var s, t := ScanBytes(whole + tail, c), ScanBytes(whole, c);
      && Recovered(whole + tail, c) == (if s.torn then whole else whole + tail)
      && (!s.torn ==> DropNul(tail) == [])
      && t.status == s.status && t.previous == s.previous && t.records == s.records
  {
    ReadingKeepsBooks(c);
    LinesKept(whole, tail, Reading(c));
  }

  lemma AppendAfterLines(whole: Bytes, nuls: Bytes, body: Bytes, number: nat, c: Tools)
    requires Agree(c) && IsWhole(whole) && DropNul(nuls) == [] && LF !in nuls
    requires !ScanBytes(whole, c).status.Corrupt? && number == ScanBytes(whole, c).previous + 1 && IsBody(body, number, c)
    ensures ScanBytes(whole + nuls + FrameBytes(number, body, c), c) == WithRecord(ScanBytes(whole, c), number, body, c)
  {
    Regroup(whole, nuls, FrameBytes(number, body, c));
    ScanInTwo(START, whole, nuls + FrameBytes(number, body, c), Reading(c));
    FrameAfterNuls(ScanBytes(whole, c), nuls, body, c);
  }

  lemma RecoverableCommit(whole: Bytes, tail: Bytes, body: Bytes, c: Tools)
    requires Agree(c) && IsWhole(whole) && LF !in tail && !ScanBytes(whole + tail, c).status.Corrupt?
    requires ScanBytes(whole + tail, c).torn ==> CountNul(whole) == 0
    requires IsBody(body, NextNumber(ScanBytes(whole + tail, c)), c)
    ensures
      var s := ScanBytes(whole + tail, c);
      var number := NextNumber(s);
      var after := ScanBytes(Recovered(whole + tail, c) + FrameBytes(number, body, c), c);
      after.status == s.status && after.records == s.records + [(Decimal(number), body)]
  {
    var s := ScanBytes(whole + tail, c);
    RecoveredLines(whole, tail, c);
    AppendAfterLines(whole, if s.torn then [] else tail, body, NextNumber(s), c);
    assert whole + [] == whole;
  }

  lemma {:induction false} FewerLfs(whole: Bytes, n: nat)
    requires IsWhole(whole) && n < |whole|
    ensures CountLf(whole[..n]) < CountLf(whole)
  {
    var last := whole[|whole| - 1];
    assert whole == whole[..n] + (whole[n..|whole| - 1] + [last]);
    CountLfInTwo(whole[..n], whole[n..|whole| - 1] + [last]);
    CountLfInTwo(whole[n..|whole| - 1], [last]);
  }

  lemma LineCut(whole: Bytes, tail: Bytes, frame: Bytes, rule: Rule)
    requires KeepsBooks(rule) && IsWhole(whole) && LF !in tail
    requires !ScanFrom(START, whole + tail, rule).status.Corrupt?
    requires ScanFrom(START, whole + tail, rule).torn && CountNul(whole) > 0
    requires frame != [] && frame[|frame| - 1] == LF && CountLf(frame) == 1
    ensures
      var s := ScanFrom(START, whole + tail, rule);
      var after := ScanFrom(START, Kept(whole + tail, s) + frame, rule);
      after.status.Corrupt? || |after.records| <= |s.records|
  {
    ScanBooks(whole, tail, rule);
    var n := ScanFrom(START, whole + tail, rule).truncateAt;
    KeptBefore(whole, tail, n);
    CutLineScans(whole, n, frame, rule);
  }

  lemma KeptBefore(whole: Bytes, tail: Bytes, n: nat)
    requires n <= |whole|
    ensures (whole + tail)[..n] == whole[..n]
  {
  }

  lemma CutLineScans(whole: Bytes, n: nat, frame: Bytes, rule: Rule)
    requires KeepsBooks(rule) && IsWhole(whole) && n < |whole|
    requires frame != [] && frame[|frame| - 1] == LF && CountLf(frame) == 1
    ensures var after := ScanFrom(START, whole[..n] + frame, rule);
      after.status.Corrupt? || |after.records| <= CountLf(whole)
  {
    FewerLfs(whole, n);
    AtMostTheLfs(whole[..n] + frame, rule);
    CountLfInTwo(whole[..n], frame);
  }

  /** A truncation short of the boundary cuts the LF off a committed record. */
  lemma UnrecoverableCommit(whole: Bytes, tail: Bytes, frame: Bytes, c: Tools)
    requires IsWhole(whole) && LF !in tail && !ScanBytes(whole + tail, c).status.Corrupt?
    requires ScanBytes(whole + tail, c).torn && CountNul(whole) > 0
    requires frame != [] && frame[|frame| - 1] == LF && CountLf(frame) == 1
    ensures
      var after := ScanBytes(Recovered(whole + tail, c) + frame, c);
      after.status.Corrupt? || |after.records| <= |ScanBytes(whole + tail, c).records|
  {
    ReadingKeepsBooks(c);
    LineCut(whole, tail, frame, Reading(c));
  }

  lemma AtMostTheLfs(input: Bytes, rule: Rule)
    requires KeepsBooks(rule) && IsWhole(input)
    ensures var t := ScanFrom(START, input, rule);
      t.status.Corrupt? || |t.records| == CountLf(input)
  {
    if !ScanFrom(START, input, rule).status.Corrupt? {
      WholeScan(START, input, rule);
    }
  }

  /**
   * Truncating as the scan prescribes and appending the next frame, from any bytes that scan
   * without fault: the old records and the status stay and one record is added, exactly when the
   * stream is not torn or none of its terminated lines holds a NUL.
   */
  lemma CommitAddsOneRecordIff(input: Bytes, compose: nat -> Bytes, c: Tools)
    requires Agree(c) && !ScanBytes(input, c).status.Corrupt?
    requires IsBody(compose(NextNumber(ScanBytes(input, c))), NextNumber(ScanBytes(input, c)), c)
    ensures Commit(input, compose, c).Some?
    ensures
      var s := ScanBytes(input, c);
      var number := NextNumber(s);
      var after := ScanBytes(Commit(input, compose, c).value, c);
      (after.status == s.status && after.records == s.records + [(Decimal(number), compose(number))])
      <==> (s.torn ==> CountNul(input[..Boundary(input)]) == 0)
  {
    var number := NextNumber(ScanBytes(input, c));
    var n := Boundary(input);
    AtBoundary(input);
    if IsRecoverable(input, c) {
      RecoverableCommit(input[..n], input[n..], compose(number), c);
    } else {
      var frame := FrameBytes(number, compose(number), c);
      LfOfFrame(number, compose(number), |frame|, c);
      assert frame[..|frame|] == frame;
      UnrecoverableCommit(input[..n], input[n..], frame, c);
    }
  }

  /** Such a stream: one committed record, a NUL in front of it and one byte after it. */
  lemma TruncationCanLoseARecord(body: Bytes, c: Tools)
    requires Agree(c) && IsBody(body, 1, c)
    ensures
      var input := [NUL] + FrameBytes(1, body, c) + [BRACE];
      && ScanBytes(input, c).records == [(Decimal(1), body)]
      && ScanBytes(input, c).torn && !IsRecoverable(input, c)
  {
    var whole := [NUL] + FrameBytes(1, body, c);
    var input := whole + [BRACE];
    FrameAfterNuls(START, [NUL], body, c);
    assert DropNul([BRACE]) == [BRACE];
    ScanOfTail(START, whole, [BRACE], Reading(c));
    assert ScanBytes(whole, c).records == [(Decimal(1), body)];
    BoundaryBefore(whole, BRACE);
  }

  lemma BoundaryBefore(whole: Bytes, b: Byte)
    requires IsWhole(whole) && b != LF
    ensures Boundary(whole + [b]) == |whole| && (whole + [b])[..|whole|] == whole
  {
    assert (whole + [b])[..|whole|] == whole;
    assert Boundary(whole) == |whole|;
  }
}
