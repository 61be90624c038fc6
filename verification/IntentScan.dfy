/** The rotating scan of the intent directory: a bounded window over the sorted names, and a cursor. */
module IntentScan {

  const SCAN_LIMIT: nat := 500

  /** Code-point order on names. */
  predicate Less(a: string, b: string) {
    if b == "" then false
    else if a == "" then true
    else a[0] < b[0] || (a[0] == b[0] && Less(a[1..], b[1..]))
  }

  lemma {:induction false} LessIsAsymmetric(a: string, b: string)
    ensures !(Less(a, b) && Less(b, a))
  {
    if a != "" && b != "" {
      LessIsAsymmetric(a[1..], b[1..]);
    }
  }

  ghost predicate InOrder(names: seq<string>, i: nat, j: nat)
    requires i < |names| && j < |names|
  {
    Less(names[i], names[j])
  }

  /** A directory listing after sorting: names are distinct. */
  ghost predicate IsSorted(names: seq<string>) {
    forall i: nat, j: nat | i < j < |names| :: InOrder(names, i, j)
  }

  function FirstAfter(names: seq<string>, cursor: string, from: nat): (first: nat)
    requires from <= |names|
    ensures from <= first <= |names|
    decreases |names| - from
  {
    if from == |names| || Less(cursor, names[from]) then from else FirstAfter(names, cursor, from + 1)
  }

  /** The first position past the cursor, or the beginning. */
  function StartAfter(names: seq<string>, cursor: string): (start: nat)
    ensures names != [] ==> start < |names|
    ensures start <= |names|
  {
    var first := FirstAfter(names, cursor, 0);
    if first == |names| then 0 else first
  }

  /** The names of one scan. */
  function Window(names: seq<string>, cursor: string): (batch: seq<string>)
    ensures |batch| == if |names| > SCAN_LIMIT then SCAN_LIMIT else |names|
  {
    if |names| > SCAN_LIMIT then
      var start := StartAfter(names, cursor);
      (names[start..] + names[..start])[..SCAN_LIMIT]
    else names
  }

  function NextCursor(names: seq<string>, cursor: string): string {
    if |names| > SCAN_LIMIT then Window(names, cursor)[SCAN_LIMIT - 1] else ""
  }

  class IntentScanner {
    var cursor: string

    constructor ()
      ensures cursor == ""
    {
      cursor := "";
    }

    method Scan(names: seq<string>) returns (batch: seq<string>)
      modifies this`cursor
      ensures batch == Window(names, old(cursor)) && cursor == NextCursor(names, old(cursor))
    {
      if |names| <= SCAN_LIMIT {
        cursor := "";
        return names;
      }
      var start := 0;
      while start < |names| && !Less(cursor, names[start])
        invariant start <= |names|
        invariant FirstAfter(names, cursor, 0) == FirstAfter(names, cursor, start)
      {
        start := start + 1;
      }
      if start == |names| {
        start := 0;
      }
      batch := (names[start..] + names[..start])[..SCAN_LIMIT];
      cursor := batch[SCAN_LIMIT - 1];
    }
  }

  /** The cursor after so many scans of one listing. */
  function CursorAfter(names: seq<string>, cursor: string, scans: nat): string {
    if scans == 0 then cursor else NextCursor(names, CursorAfter(names, cursor, scans - 1))
  }

  ghost predicate IsInScan(names: seq<string>, cursor: string, scan: nat, name: string) {
    name in Window(names, CursorAfter(names, cursor, scan))
  }

  /** One of so many scans examines the name. */
  ghost predicate IsExamined(names: seq<string>, cursor: string, scans: nat, name: string) {
    exists scan: nat :: scan < scans && IsInScan(names, cursor, scan, name)
  }

  /** Position k of a window is the name k places after its start, around the list. */
  lemma WindowWraps(names: seq<string>, cursor: string, k: nat)
    requires |names| > SCAN_LIMIT && k < SCAN_LIMIT
    ensures
      var start := StartAfter(names, cursor);
      Window(names, cursor)[k] == names[if start + k < |names| then start + k else start + k - |names|]
  {
  }

  lemma {:induction false} FirstAfterIs(names: seq<string>, cursor: string, from: nat, at: nat)
    requires from <= at <= |names| && forall k | from <= k < at :: !Less(cursor, names[k])
    requires at < |names| ==> Less(cursor, names[at])
    ensures FirstAfter(names, cursor, from) == at
    decreases at - from
  {
    if from < at {
      FirstAfterIs(names, cursor, from + 1, at);
    }
  }

  lemma PastAName(names: seq<string>, i: nat)
    requires IsSorted(names) && i < |names|
    ensures StartAfter(names, names[i]) == if i + 1 < |names| then i + 1 else 0
  {
    forall k | 0 <= k <= i ensures !Less(names[i], names[k]) {
      if k < i {
        assert InOrder(names, k, i);
        LessIsAsymmetric(names[i], names[k]);
      } else {
        LessIsAsymmetric(names[i], names[i]);
      }
    }
    assert i + 1 < |names| ==> InOrder(names, i, i + 1);
    FirstAfterIs(names, names[i], 0, i + 1);
  }

  /** Each window starts where the one before it ended, around the list. */
  lemma NextWindowFollows(names: seq<string>, cursor: string)
    requires IsSorted(names) && |names| > SCAN_LIMIT
    ensures
      var start := StartAfter(names, cursor);
      StartAfter(names, NextCursor(names, cursor))
      == if start + SCAN_LIMIT < |names| then start + SCAN_LIMIT else start + SCAN_LIMIT - |names|
  {
    var start := StartAfter(names, cursor);
    WindowWraps(names, cursor, SCAN_LIMIT - 1);
    var last := start + SCAN_LIMIT - 1;
    PastAName(names, if last < |names| then last else last - |names|);
  }

  /** A position counted round a list of n names. */
  function Around(a: nat, n: nat): (r: nat)
    requires n > 0
    ensures r < n
  {
    if a < n then a else Around(a - n, n)
  }

  lemma {:induction false} Wrap(a: nat, b: nat, n: nat)
    requires n > 0 && b <= n
    ensures Around(a + b, n) == if Around(a, n) + b < n then Around(a, n) + b else Around(a, n) + b - n
  {
    if a >= n {
      assert a + b - n == (a - n) + b;
      Wrap(a - n, b, n);
    }
  }

  lemma NextTile(names: seq<string>, cursor: string, position: nat)
    requires IsSorted(names) && |names| > SCAN_LIMIT && StartAfter(names, cursor) == Around(position, |names|)
    ensures StartAfter(names, NextCursor(names, cursor)) == Around(position + SCAN_LIMIT, |names|)
  {
    NextWindowFollows(names, cursor);
    Wrap(position, SCAN_LIMIT, |names|);
  }

  lemma {:induction false} StartsTile(names: seq<string>, cursor: string, scans: nat)
    requires IsSorted(names) && |names| > SCAN_LIMIT
    ensures StartAfter(names, CursorAfter(names, cursor, scans))
         == Around(StartAfter(names, cursor) + SCAN_LIMIT * scans, |names|)
  {
    if scans > 0 {
      var position := StartAfter(names, cursor) + SCAN_LIMIT * (scans - 1);
      StartsTile(names, cursor, scans - 1);
      NextTile(names, CursorAfter(names, cursor, scans - 1), position);
      assert position + SCAN_LIMIT == StartAfter(names, cursor) + SCAN_LIMIT * scans;
    }
  }

  lemma TileIsExamined(names: seq<string>, cursor: string, position: nat, target: nat)
    requires |names| > SCAN_LIMIT && position <= target < position + SCAN_LIMIT
    requires StartAfter(names, cursor) == Around(position, |names|)
    ensures names[Around(target, |names|)] in Window(names, cursor)
  {
    var k := target - position;
    WindowWraps(names, cursor, k);
    Wrap(position, k, |names|);
    assert Window(names, cursor)[k] in Window(names, cursor);
  }

  /** The scan whose window holds a position. */
  lemma TileOf(start: nat, scans: nat, target: nat) returns (m: nat)
    requires start <= target < start + SCAN_LIMIT * scans
    ensures m < scans && start + SCAN_LIMIT * m <= target < start + SCAN_LIMIT * m + SCAN_LIMIT
  {
    m := (target - start) / SCAN_LIMIT;
  }

  /** The window of a scan holds the names that many windows past the start. */
  lemma TilesAreExamined(names: seq<string>, cursor: string, scan: nat, target: nat)
    requires IsSorted(names) && |names| > SCAN_LIMIT
    requires StartAfter(names, cursor) + SCAN_LIMIT * scan <= target < StartAfter(names, cursor) + SCAN_LIMIT * scan + SCAN_LIMIT
    ensures IsInScan(names, cursor, scan, names[Around(target, |names|)])
  {
    StartsTile(names, cursor, scan);
    TileIsExamined(names, CursorAfter(names, cursor, scan), StartAfter(names, cursor) + SCAN_LIMIT * scan, target);
  }

  /**
   * No name starves: whatever the cursor, as many scans of an unchanged directory as it takes to
   * cover its size examine every name, and so does the first scan of a small one.
   */
  lemma EveryNameIsExamined(names: seq<string>, cursor: string, scans: nat, i: nat)
    requires IsSorted(names) && i < |names| && scans > 0 && |names| <= 500 * scans
    ensures IsExamined(names, cursor, scans, names[i])
  {
    if |names| > SCAN_LIMIT {
      var start := StartAfter(names, cursor);
      var target := if start <= i then i else i + |names|;
      var scan := TileOf(start, scans, target);
      TilesAreExamined(names, cursor, scan, target);
      assert Around(i, |names|) == i;
      assert Around(target, |names|) == i;
      assert IsInScan(names, cursor, scan, names[i]);
    } else {
      assert IsInScan(names, cursor, 0, names[i]);
    }
  }

  /** The bound is tight: one scan of a directory over the limit leaves some name unexamined. */
  lemma OneScanIsNotEnough(names: seq<string>, cursor: string)
    requires IsSorted(names) && |names| > 500
    ensures exists i :: 0 <= i < |names| && names[i] !in Window(names, cursor)
  {
    var start := StartAfter(names, cursor);
    var i := if start + SCAN_LIMIT < |names| then start + SCAN_LIMIT else start + SCAN_LIMIT - |names|;
    forall k | 0 <= k < SCAN_LIMIT ensures Window(names, cursor)[k] != names[i] {
      WindowWraps(names, cursor, k);
      var at := if start + k < |names| then start + k else start + k - |names|;
      LessIsAsymmetric(names[i], names[at]);
      assert at != i;
      if at < i {
        assert InOrder(names, at, i);
      } else {
        assert InOrder(names, i, at);
      }
    }
    assert names[i] !in Window(names, cursor);
  }
}
