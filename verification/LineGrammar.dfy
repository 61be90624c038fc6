/**
 * The line grammar the delivery and memory journals share: fields joined by " | ", at most one
 * free-text tail, and the encoding that keeps the separator out of free text.
 */
module LineGrammar {

  const SEPARATOR := " | "

  /** No separator byte and no line break: what every field and every encoded tail is. */
  predicate IsPlain(s: string) {
    '|' !in s && '\n' !in s && '\r' !in s
  }

  /** The letters of a message or memory id. */
  predicate IsIdChar(c: char) {
    'A' <= c <= 'Z' || 'a' <= c <= 'z' || '0' <= c <= '9' || c == '.' || c == '_' || c == '-'
  }

  predicate IsId(id: string) {
    id != "" && forall k | 0 <= k < |id| :: IsIdChar(id[k])
  }

  lemma IdIsPlain(id: string)
    requires IsId(id)
    ensures IsPlain(id)
  {
  }

  lemma PlainSum(a: string, b: string)
    requires IsPlain(a) && IsPlain(b)
    ensures IsPlain(a + b)
  {
  }

  /** Free text as it is written: line breaks become spaces, the separator byte is spelled out. */
  function Sanitize(s: string): (t: string)
    ensures IsPlain(t)
  {
    if s == "" then ""
    else
      (if s[0] == '\n' || s[0] == '\r' then " " else if s[0] == '|' then "%7C" else [s[0]]) + Sanitize(s[1..])
  }

  /** The encoding leaves text that needs none alone, and so is applied at most once. */
  lemma {:induction false} SanitizeKeepsPlain(s: string)
    ensures Sanitize(s) == s <==> IsPlain(s)
    ensures Sanitize(Sanitize(s)) == Sanitize(s)
  {
    PlainIsKept(Sanitize(s));
    if IsPlain(s) {
      PlainIsKept(s);
    }
  }

  lemma {:induction false} PlainIsKept(s: string)
    requires IsPlain(s)
    ensures Sanitize(s) == s
  {
    if s != "" {
      PlainIsKept(s[1..]);
    }
  }

  /** The fields of a line, split at the leftmost separator each time. */
  function Split(line: string): (fields: seq<string>)
    ensures |fields| > 0
    decreases |line|
  {
    if line == "" then [""]
    else if SEPARATOR <= line then [""] + Split(line[3..])
    else
      var rest := Split(line[1..]);
      [[line[0]] + rest[0]] + rest[1..]
  }

  function Join(fields: seq<string>): string
    requires |fields| > 0
  {
    if |fields| == 1 then fields[0] else fields[0] + SEPARATOR + Join(fields[1..])
  }

  predicate ArePlain(fields: seq<string>) {
    |fields| > 0 && forall k | 0 <= k < |fields| :: IsPlain(fields[k])
  }

  predicate AllPlain(fields: seq<string>) {
    forall k | 0 <= k < |fields| :: IsPlain(fields[k])
  }

  lemma PlainFour(a: string, b: string, c: string, d: string, middle: seq<string>, tail: seq<string>)
    requires IsPlain(a) && IsPlain(b) && IsPlain(c) && IsPlain(d) && AllPlain(middle) && AllPlain(tail)
    ensures ArePlain([a, b, c, d] + middle + tail)
  {
  }

  lemma PlainFive(a: string, b: string, c: string, d: string, e: string, middle: seq<string>, tail: seq<string>)
    requires IsPlain(a) && IsPlain(b) && IsPlain(c) && IsPlain(d) && IsPlain(e) && AllPlain(middle) && AllPlain(tail)
    ensures ArePlain([a, b, c, d, e] + middle + tail)
  {
  }

  /** What a line starts with, letter by letter. */
  lemma PrefixLetters(prefix: string, line: string, k: nat)
    requires prefix <= line && k < |prefix|
    ensures line[k] == prefix[k]
  {
  }

  lemma NotAPrefix(prefix: string, line: string, k: nat)
    requires k < |prefix| && (k < |line| ==> line[k] != prefix[k])
    ensures !(prefix <= line)
  {
    if prefix <= line {
      PrefixLetters(prefix, line, k);
      assert false;
    }
  }

  lemma {:induction false} SplitOne(field: string)
    requires '|' !in field
    ensures Split(field) == [field]
  {
    if field != "" {
      NotAPrefix(SEPARATOR, field, 1);
      SplitOne(field[1..]);
      assert [field[0]] + field[1..] == field;
    }
  }

  lemma NotInsideField(field: string, rest: string, marker: string)
    requires field != "" && '|' !in field && rest != "" && rest[0] == ' '
    requires |marker| >= 3 && SEPARATOR <= marker
    ensures !(marker <= field + rest)
  {
    var line := field + rest;
    PrefixLetters(SEPARATOR, marker, 1);
    assert line[1] == if |field| > 1 then field[1] else rest[0];
    NotAPrefix(marker, line, 1);
  }

  lemma {:induction false} SplitFirst(field: string, rest: string)
    requires '|' !in field
    ensures Split(field + SEPARATOR + rest) == [field] + Split(rest)
  {
    var line := field + SEPARATOR + rest;
    if field == "" {
      assert line[3..] == rest;
      assert line[..3] == SEPARATOR;
    } else {
      assert line[1..] == field[1..] + SEPARATOR + rest;
      NotInsideField(field, SEPARATOR + rest, SEPARATOR);
      SplitFirst(field[1..], rest);
      assert [line[0]] + field[1..] == field;
    }
  }

  /** Splitting a printed line gives back its fields. */
  lemma {:induction false} SplitJoin(fields: seq<string>)
    requires ArePlain(fields)
    ensures Split(Join(fields)) == fields
  {
    if |fields| == 1 {
      SplitOne(fields[0]);
    } else {
      SplitFirst(fields[0], Join(fields[1..]));
      SplitJoin(fields[1..]);
    }
  }

  /** The text after the first occurrence of a marker, if there is one. */
  function After(line: string, marker: string): (found: (bool, string))
    decreases |line|
  {
    if marker <= line then (true, line[|marker|..])
    else if line == "" then (false, "")
    else After(line[1..], marker)
  }

  predicate Contains(line: string, marker: string) {
    After(line, marker).0
  }

  /** A field that some letter tells apart from a marker's text after its separator. */
  ghost predicate PartsFrom(field: string, marker: string) {
    exists k :: 0 <= k < |field| && k + 3 < |marker| && field[k] != marker[k + 3]
  }

  /** Between two fields, a marker can only start at the separator, and goes on as the next field does. */
  lemma AfterSkipsSeparator(rest: string, marker: string)
    requires rest != "" && rest[0] != '|'
    requires |marker| > 3 && SEPARATOR <= marker && PartsFrom(rest, marker)
    ensures After(SEPARATOR + rest, marker) == After(rest, marker)
  {
    var line := SEPARATOR + rest;
    PrefixLetters(SEPARATOR, marker, 0);
    PrefixLetters(SEPARATOR, marker, 1);
    var second, third := line[1..], line[2..];
    assert second[1..] == third && third[1..] == rest;
    var k :| 0 <= k < |rest| && k + 3 < |marker| && rest[k] != marker[k + 3];
    assert line[k + 3] == rest[k];
    NotAPrefix(marker, line, k + 3);
    assert After(line, marker) == After(second, marker);
    NotAPrefix(marker, second, 0);
    assert After(second, marker) == After(third, marker);
    NotAPrefix(marker, third, 1);
  }

  /** A marker is not in a field, nor at the separator after it when the next field parts from it. */
  lemma {:induction false} AfterSkipsField(field: string, rest: string, marker: string)
    requires '|' !in field && rest != "" && rest[0] != '|'
    requires |marker| > 3 && SEPARATOR <= marker && PartsFrom(rest, marker)
    ensures After(field + SEPARATOR + rest, marker) == After(rest, marker)
  {
    var line := field + SEPARATOR + rest;
    if field == "" {
      assert line == SEPARATOR + rest;
      AfterSkipsSeparator(rest, marker);
    } else {
      assert line[1..] == field[1..] + SEPARATOR + rest;
      assert line == field + (SEPARATOR + rest);
      NotInsideField(field, SEPARATOR + rest, marker);
      AfterSkipsField(field[1..], rest, marker);
    }
  }

  lemma {:induction false} AfterStopsHere(field: string, marker: string, tail: string)
    requires '|' !in field && |marker| > 3 && SEPARATOR <= marker
    ensures After(field + marker + tail, marker) == (true, tail)
  {
    var line := field + marker + tail;
    if field == "" {
      assert line[|marker|..] == tail && line[..|marker|] == marker;
    } else {
      assert line[1..] == field[1..] + marker + tail;
      assert line == field + (marker + tail);
      PrefixLetters(SEPARATOR, marker, 0);
      NotInsideField(field, marker + tail, marker);
      AfterStopsHere(field[1..], marker, tail);
    }
  }

  /**
   * The tail after a marker such as " | reason:" in a printed line: it is what follows the marker
   * when every earlier field parts from it.
   */
  lemma {:induction false} TailOfJoin(before: seq<string>, marker: string, tail: string)
    requires |before| > 0 && ArePlain(before) && |marker| > 3 && SEPARATOR <= marker
    requires forall k | 0 < k < |before| :: PartsFrom(before[k], marker)
    ensures After(Join(before) + marker + tail, marker) == (true, tail)
  {
    if |before| == 1 {
      AfterStopsHere(before[0], marker, tail);
    } else {
      TailPastField(before[0], before[1..], marker, tail);
      TailOfJoin(before[1..], marker, tail);
    }
  }

  lemma TailPastField(first: string, fields: seq<string>, marker: string, tail: string)
    requires IsPlain(first) && ArePlain(fields) && |marker| > 3 && SEPARATOR <= marker && PartsFrom(fields[0], marker)
    ensures After(first + SEPARATOR + Join(fields) + marker + tail, marker) == After(Join(fields) + marker + tail, marker)
  {
    var rest := Join(fields) + marker + tail;
    assert first + SEPARATOR + Join(fields) + marker + tail == first + SEPARATOR + rest;
    assert IsPlain(fields[0]) && fields[0][0] in fields[0];
    StartsLike(fields, marker);
    StillParts(Join(fields), marker + tail, marker);
    assert rest == Join(fields) + (marker + tail);
    AfterSkipsField(first, rest, marker);
  }

  lemma StillParts(field: string, rest: string, marker: string)
    requires PartsFrom(field, marker)
    ensures PartsFrom(field + rest, marker)
  {
    var k :| 0 <= k < |field| && k + 3 < |marker| && field[k] != marker[k + 3];
    assert (field + rest)[k] == field[k];
  }

  lemma StartsLike(fields: seq<string>, marker: string)
    requires |fields| > 0 && fields[0] != "" && PartsFrom(fields[0], marker)
    ensures Join(fields) != "" && Join(fields)[0] == fields[0][0] && PartsFrom(Join(fields), marker)
  {
    if |fields| > 1 {
      StillParts(fields[0], SEPARATOR + Join(fields[1..]), marker);
      assert Join(fields) == fields[0] + (SEPARATOR + Join(fields[1..]));
    }
  }

  lemma {:induction false} JoinInTwo(a: seq<string>, b: seq<string>)
    requires |a| > 0 && |b| > 0
    ensures Join(a + b) == Join(a) + SEPARATOR + Join(b)
  {
    if |a| == 1 {
      assert (a + b)[1..] == b;
    } else {
      assert (a + b)[1..] == a[1..] + b;
      JoinInTwo(a[1..], b);
    }
  }

  lemma {:induction false} JoinIsOneLine(fields: seq<string>)
    requires ArePlain(fields)
    ensures '\n' !in Join(fields) && '\r' !in Join(fields)
  {
    if |fields| > 1 {
      JoinIsOneLine(fields[1..]);
    }
  }

  /** A body after its marker: the marker is a whole field. */
  lemma TextAfterField(before: seq<string>, word: string, marker: string, text: string)
    requires ArePlain(before) && word != "" && marker == SEPARATOR + word + SEPARATOR
    requires forall k | 0 < k < |before| :: PartsFrom(before[k], marker)
    ensures After(Join(before + [word, text]), marker) == (true, text)
  {
    JoinInTwo(before, [word, text]);
    assert [word, text][1..] == [text];
    assert Join(before) + SEPARATOR + (word + SEPARATOR + text) == Join(before) + marker + text;
    assert marker[..3] == SEPARATOR;
    TailOfJoin(before, marker, text);
  }

  /** A reason after its marker: the marker starts the last field. */
  lemma TextAfterPrefix(before: seq<string>, word: string, marker: string, text: string)
    requires ArePlain(before) && word != "" && marker == SEPARATOR + word
    requires forall k | 0 < k < |before| :: PartsFrom(before[k], marker)
    ensures After(Join(before + [word + text]), marker) == (true, text)
  {
    JoinInTwo(before, [word + text]);
    assert Join(before) + SEPARATOR + (word + text) == Join(before) + marker + text;
    assert marker[..3] == SEPARATOR;
    TailOfJoin(before, marker, text);
  }

  lemma {:induction false} NoMarker(before: seq<string>, marker: string)
    requires ArePlain(before) && |marker| > 3 && SEPARATOR <= marker
    requires forall k | 0 < k < |before| :: PartsFrom(before[k], marker)
    ensures After(Join(before), marker) == (false, "")
  {
    if |before| == 1 {
      NoMarkerInField(before[0], marker);
    } else {
      StartsLike(before[1..], marker);
      assert IsPlain(before[1]) && before[1][0] in before[1];
      AfterSkipsField(before[0], Join(before[1..]), marker);
      NoMarker(before[1..], marker);
    }
  }

  lemma {:induction false} NoMarkerInField(field: string, marker: string)
    requires '|' !in field && |marker| > 3 && SEPARATOR <= marker
    ensures After(field, marker) == (false, "")
  {
    PrefixLetters(SEPARATOR, marker, 1);
    NotAPrefix(marker, field, 1);
    if field != "" {
      NoMarkerInField(field[1..], marker);
    }
  }

  lemma FirstLetterParts(field: string, marker: string)
    requires field != "" && |marker| > 3 && field[0] != marker[3]
    ensures PartsFrom(field, marker)
  {
  }
}
