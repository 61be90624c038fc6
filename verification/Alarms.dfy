/**
 * The alarm limiter: one alarm per episode, ten of a kind in an hour, one notice that more were
 * suppressed. Times are in microseconds; journal stamps keep the millisecond.
 */
module Alarms {
  import opened Results

  const WINDOW: nat := 3_600_000_000
  const LIMIT: nat := 10
  const BRAKE_TRIPPED := "brake_tripped"
  const DELIVERY_FAILED := "task_delivery_failed"

  datatype Record =
    | Sent(kind: string, episode: Option<string>, tripped: Option<string>, stamp: nat)
    | Suppressed(kind: string, stamp: nat)
    | SuppressionNotified(kind: string)
    | Failed(kind: string)
    | Attention(kind: string)
    | Other

  /** What a journal record keeps of the time it was written. */
  function Stamp(t: nat): nat {
    t / 1000 * 1000
  }

  predicate IsSame(r: Record, kind: string, episode: Option<string>, tripped: Option<string>) {
    r.Sent? && r.kind == kind && r.episode == episode && (kind == BRAKE_TRIPPED ==> r.tripped == tripped)
  }

  predicate WasSent(records: seq<Record>, kind: string, episode: Option<string>, tripped: Option<string>) {
    exists k | 0 <= k < |records| :: IsSame(records[k], kind, episode, tripped)
  }

  function CountRecent(records: seq<Record>, kind: string, now: nat): nat {
    if records == [] then 0
    else
      var r := records[|records| - 1];
      CountRecent(records[..|records| - 1], kind, now)
      + if r.Sent? && r.kind == kind && now - r.stamp < WINDOW then 1 else 0
  }

  predicate SuppressedRecently(records: seq<Record>, kind: string, now: nat) {
    exists k | 0 <= k < |records| :: records[k].Suppressed? && records[k].kind == kind && now - records[k].stamp < WINDOW
  }

  /**
   * One alarm: decided at now, journalled at written, and delivered or not. The trip time is part
   * of what is compared and kept for a tripped brake only.
   */
  function AfterAlarm(records: seq<Record>, kind: string, episode: Option<string>, brakeTripped: Option<string>,
                      now: nat, written: nat, delivered: bool): seq<Record> {
    var tripped := if kind == BRAKE_TRIPPED then brakeTripped else None;
    if WasSent(records, kind, episode, tripped) then records
    else if CountRecent(records, kind, now) >= LIMIT then
      if SuppressedRecently(records, kind, now) then records
      else records + [Suppressed(kind, Stamp(written))] + if delivered then [SuppressionNotified(kind)] else []
    else if !delivered then records + [Failed(kind), Attention(kind)]
    else records + [Sent(kind, episode, tripped, Stamp(written))]
  }

  class AlarmJournal {
    var records: seq<Record>

    constructor ()
      ensures records == []
    {
      records := [];
    }

    method CountTheRecent(kind: string, now: nat) returns (n: nat)
      ensures n == CountRecent(records, kind, now)
    {
      n := 0;
      for i := 0 to |records|
        invariant n == CountRecent(records[..i], kind, now)
      {
        assert records[..i + 1][..i] == records[..i];
        if records[i].Sent? && records[i].kind == kind && now - records[i].stamp < WINDOW {
          n := n + 1;
        }
      }
      assert records[..|records|] == records;
    }

    method WriteAlarm(kind: string, episode: Option<string>, brakeTripped: Option<string>,
                      now: nat, written: nat, delivered: bool)
      modifies this`records
      ensures records == AfterAlarm(old(records), kind, episode, brakeTripped, now, written, delivered)
    {
      var tripped := if kind == BRAKE_TRIPPED then brakeTripped else None;
      if WasSent(records, kind, episode, tripped) {
        return;
      }
      var recent := CountTheRecent(kind, now);
      if recent >= LIMIT {
        if !SuppressedRecently(records, kind, now) {
          records := records + [Suppressed(kind, Stamp(written))] + if delivered then [SuppressionNotified(kind)] else [];
        }
        return;
      }
      if !delivered {
        records := records + [Failed(kind), Attention(kind)];
        return;
      }
      records := records + [Sent(kind, episode, tripped, Stamp(written))];
    }
  }

  // --- runs ------------------------------------------------------------------------------------------

  /** An alarm, an undeliverable report's own alarm line, or any other journal record. */
  datatype Step =
    | Alarm(kind: string, episode: Option<string>, brakeTripped: Option<string>, now: nat, written: nat, delivered: bool)
    | Undeliverable(message: string, written: nat)
    | Else

  /** No clock runs backwards between deciding on an alarm and journalling it. */
  predicate IsStep(s: Step) {
    s.Alarm? ==> s.now <= s.written
  }

  function AfterStep(records: seq<Record>, s: Step): seq<Record> {
    match s
    case Alarm(kind, episode, tripped, now, written, delivered) =>
      AfterAlarm(records, kind, episode, tripped, now, written, delivered)
    case Undeliverable(message, written) => records + [Sent(DELIVERY_FAILED, Some(message), None, Stamp(written))]
    case Else => records + [Other]
  }

  function Run(steps: seq<Step>): seq<Record> {
    if steps == [] then [] else AfterStep(Run(steps[..|steps| - 1]), steps[|steps| - 1])
  }

  /** How many of a kind were sent in the window that opens at a time. */
  function CountSent(records: seq<Record>, kind: string, opens: nat): nat {
    if records == [] then 0
    else
      var r := records[|records| - 1];
      CountSent(records[..|records| - 1], kind, opens)
      + if r.Sent? && r.kind == kind && opens <= r.stamp < opens + WINDOW then 1 else 0
  }

  function CountSuppressed(records: seq<Record>, kind: string, opens: nat): nat {
    if records == [] then 0
    else
      var r := records[|records| - 1];
      CountSuppressed(records[..|records| - 1], kind, opens)
      + if r.Suppressed? && r.kind == kind && opens <= r.stamp < opens + WINDOW then 1 else 0
  }

  ghost predicate AreStamped(records: seq<Record>) {
    forall k | 0 <= k < |records| :: (records[k].Sent? || records[k].Suppressed? ==> records[k].stamp % 1000 == 0)
  }

  /** A window that holds a new stamp holds only records the decision still saw as recent. */
  lemma StillRecent(stamp: nat, opens: nat, now: nat, written: nat)
    requires stamp % 1000 == 0 && opens <= stamp && now <= written
    requires opens <= Stamp(written) < opens + WINDOW
    ensures now - stamp < WINDOW
  {
  }

  lemma {:induction false} WindowIsRecent(records: seq<Record>, kind: string, opens: nat, now: nat, written: nat)
    requires AreStamped(records) && now <= written && opens <= Stamp(written) < opens + WINDOW
    ensures CountSent(records, kind, opens) <= CountRecent(records, kind, now)
  {
    if records != [] {
      var r := records[|records| - 1];
      WindowIsRecent(records[..|records| - 1], kind, opens, now, written);
      if r.Sent? && opens <= r.stamp {
        StillRecent(r.stamp, opens, now, written);
      }
    }
  }

  lemma {:induction false} NoneSuppressed(records: seq<Record>, kind: string, opens: nat, now: nat, written: nat)
    requires AreStamped(records) && now <= written && opens <= Stamp(written) < opens + WINDOW
    requires !SuppressedRecently(records, kind, now)
    ensures CountSuppressed(records, kind, opens) == 0
  {
    if records != [] {
      var front, r := records[..|records| - 1], records[|records| - 1];
      NoneSuppressed(front, kind, opens, now, written);
      if r.Suppressed? && opens <= r.stamp {
        StillRecent(r.stamp, opens, now, written);
      }
    }
  }

  lemma CountOneMore(records: seq<Record>, r: Record, kind: string, opens: nat)
    ensures CountSent(records + [r], kind, opens)
         == CountSent(records, kind, opens) + if r.Sent? && r.kind == kind && opens <= r.stamp < opens + WINDOW then 1 else 0
    ensures CountSuppressed(records + [r], kind, opens)
         == CountSuppressed(records, kind, opens)
          + if r.Suppressed? && r.kind == kind && opens <= r.stamp < opens + WINDOW then 1 else 0
  {
    assert (records + [r])[..|records|] == records;
  }

  /** At most the limit of a kind, and at most one notice, in the window; and whole milliseconds. */
  ghost predicate WithinLimit(records: seq<Record>, kind: string, opens: nat) {
    && AreStamped(records)
    && CountSent(records, kind, opens) <= LIMIT
    && CountSuppressed(records, kind, opens) <= 1
  }

  lemma QuietRecord(records: seq<Record>, r: Record, kind: string, opens: nat)
    requires WithinLimit(records, kind, opens) && ((r.Sent? || r.Suppressed?) ==> r.stamp % 1000 == 0 && r.kind != kind)
    ensures WithinLimit(records + [r], kind, opens)
  {
    CountOneMore(records, r, kind, opens);
  }

  lemma SuppressionWithinLimit(records: seq<Record>, alarm: string, now: nat, written: nat, delivered: bool,
                               kind: string, opens: nat)
    requires WithinLimit(records, kind, opens) && now <= written && !SuppressedRecently(records, alarm, now)
    ensures WithinLimit(records + [Suppressed(alarm, Stamp(written))] + (if delivered then [SuppressionNotified(alarm)] else []),
                        kind, opens)
  {
    var notice := Suppressed(alarm, Stamp(written));
    CountOneMore(records, notice, kind, opens);
    if alarm == kind && opens <= Stamp(written) < opens + WINDOW {
      NoneSuppressed(records, kind, opens, now, written);
    }
    QuietRecord(records + [notice], SuppressionNotified(alarm), kind, opens);
    assert records + [notice] + [] == records + [notice];
  }

  lemma SentWithinLimit(records: seq<Record>, r: Record, now: nat, written: nat, kind: string, opens: nat)
    requires WithinLimit(records, kind, opens) && now <= written && r.Sent? && r.stamp == Stamp(written)
    requires CountRecent(records, r.kind, now) < LIMIT
    ensures WithinLimit(records + [r], kind, opens)
  {
    CountOneMore(records, r, kind, opens);
    if r.kind == kind && opens <= r.stamp < opens + WINDOW {
      WindowIsRecent(records, kind, opens, now, written);
    }
  }

  lemma AlarmWithinLimit(records: seq<Record>, s: Step, kind: string, opens: nat)
    requires WithinLimit(records, kind, opens) && s.Alarm? && s.now <= s.written
    ensures WithinLimit(AfterStep(records, s), kind, opens)
  {
    var tripped := if s.kind == BRAKE_TRIPPED then s.brakeTripped else None;
    if !WasSent(records, s.kind, s.episode, tripped) {
      if CountRecent(records, s.kind, s.now) >= LIMIT {
        if !SuppressedRecently(records, s.kind, s.now) {
          SuppressionWithinLimit(records, s.kind, s.now, s.written, s.delivered, kind, opens);
        }
      } else if s.delivered {
        SentWithinLimit(records, Sent(s.kind, s.episode, tripped, Stamp(s.written)), s.now, s.written, kind, opens);
      } else {
        QuietRecord(records, Failed(s.kind), kind, opens);
        QuietRecord(records + [Failed(s.kind)], Attention(s.kind), kind, opens);
        assert records + [Failed(s.kind)] + [Attention(s.kind)] == records + [Failed(s.kind), Attention(s.kind)];
      }
    }
  }

  /**
   * Over every run: any hour, wherever it opens, holds at most ten alarms of a kind and at most one
   * notice of suppression, whatever the clock does between alarms. Undeliverable reports have
   * their own line and kind, which the limit does not cover.
   */
  lemma AtMostTenAnHour(steps: seq<Step>, kind: string, opens: nat)
    requires kind != "task_delivery_failed" && forall k | 0 <= k < |steps| :: IsStep(steps[k])
    ensures |SentWithin(Run(steps), kind, opens, opens + 3_600_000_000)| <= 10
    ensures |SuppressedWithin(Run(steps), kind, opens, opens + 3_600_000_000)| <= 1
  {
    EveryRunIsWithinLimit(steps, kind, opens);
    CountSentIs(Run(steps), kind, opens);
    CountSuppressedIs(Run(steps), kind, opens);
  }

  /** Where the journal has sent alarms of a kind with a stamp from one time to before another. */
  function SentWithin(records: seq<Record>, kind: string, from: int, to: int): set<int> {
    set k | 0 <= k < |records| && records[k].Sent? && records[k].kind == kind && from <= records[k].stamp < to
  }

  function SuppressedWithin(records: seq<Record>, kind: string, from: int, to: int): set<int> {
    set k | 0 <= k < |records| && records[k].Suppressed? && records[k].kind == kind && from <= records[k].stamp < to
  }

  lemma SentOneMore(records: seq<Record>, kind: string, from: int, to: int)
    requires records != []
    ensures
      var front, r := records[..|records| - 1], records[|records| - 1];
      |SentWithin(records, kind, from, to)|
      == |SentWithin(front, kind, from, to)| + if r.Sent? && r.kind == kind && from <= r.stamp < to then 1 else 0
  {
    var front, r := records[..|records| - 1], records[|records| - 1];
    var here := if r.Sent? && r.kind == kind && from <= r.stamp < to then {|front|} else {};
    assert SentWithin(records, kind, from, to) == SentWithin(front, kind, from, to) + here;
  }

  lemma SuppressedOneMore(records: seq<Record>, kind: string, from: int, to: int)
    requires records != []
    ensures
      var front, r := records[..|records| - 1], records[|records| - 1];
      |SuppressedWithin(records, kind, from, to)|
      == |SuppressedWithin(front, kind, from, to)| + if r.Suppressed? && r.kind == kind && from <= r.stamp < to then 1 else 0
  {
    var front, r := records[..|records| - 1], records[|records| - 1];
    var here := if r.Suppressed? && r.kind == kind && from <= r.stamp < to then {|front|} else {};
    assert SuppressedWithin(records, kind, from, to) == SuppressedWithin(front, kind, from, to) + here;
  }

  lemma {:induction false} CountSentIs(records: seq<Record>, kind: string, opens: nat)
    ensures CountSent(records, kind, opens) == |SentWithin(records, kind, opens, opens + 3_600_000_000)|
  {
    if records != [] {
      CountSentIs(records[..|records| - 1], kind, opens);
      SentOneMore(records, kind, opens, opens + 3_600_000_000);
    }
  }

  lemma {:induction false} CountSuppressedIs(records: seq<Record>, kind: string, opens: nat)
    ensures CountSuppressed(records, kind, opens) == |SuppressedWithin(records, kind, opens, opens + 3_600_000_000)|
  {
    if records != [] {
      CountSuppressedIs(records[..|records| - 1], kind, opens);
      SuppressedOneMore(records, kind, opens, opens + 3_600_000_000);
    }
  }

  /** Recent is what was sent in the hour before, and at whatever later time a clock that ran back has left. */
  lemma {:induction false} CountRecentIs(records: seq<Record>, kind: string, now: nat, to: int)
    requires forall k | 0 <= k < |records| && records[k].Sent? :: records[k].stamp < to
    ensures CountRecent(records, kind, now) == |SentWithin(records, kind, now - 3_600_000_000 + 1, to)|
  {
    if records != [] {
      var front := records[..|records| - 1];
      forall k | 0 <= k < |front| && front[k].Sent? ensures front[k].stamp < to {
        assert front[k] == records[k];
      }
      CountRecentIs(front, kind, now, to);
      SentOneMore(records, kind, now - 3_600_000_000 + 1, to);
    }
  }

  /** The episode has been told already, for a tripped brake the trip. */
  ghost predicate WasTold(records: seq<Record>, kind: string, episode: Option<string>, brakeTripped: Option<string>) {
    exists k ::
      && 0 <= k < |records| && records[k].Sent? && records[k].kind == kind && records[k].episode == episode
      && (kind == "brake_tripped" ==> records[k].tripped == brakeTripped)
  }

  /**
   * What one alarm adds to the journal. It is sent, with its kind, episode and the millisecond, if and only
   * if its episode has not been told, fewer than ten of its kind were sent within the hour, and its line
   * was delivered. It is put down as suppressed if and only if it is new, ten were sent and no suppression
   * is on record within the hour; as failed if and only if it is new, the hour is not full and its line
   * was not delivered. Nothing on record is lost.
   */
  lemma AlarmIsSentIff(records: seq<Record>, kind: string, episode: Option<string>, brakeTripped: Option<string>,
                       now: nat, written: nat, delivered: bool, to: int)
    requires forall k | 0 <= k < |records| && records[k].Sent? :: records[k].stamp < to
    ensures
      var next := AfterAlarm(records, kind, episode, brakeTripped, now, written, delivered);
      var untold := !WasTold(records, kind, episode, brakeTripped);
      var full := |SentWithin(records, kind, now - 3_600_000_000 + 1, to)| >= 10;
      var noticed := exists k :: 0 <= k < |records| && records[k].Suppressed? && records[k].kind == kind
                                 && now - records[k].stamp < 3_600_000_000;
      var stamp := written - written % 1000;
      var trip := if kind == "brake_tripped" then brakeTripped else None;
      && records <= next
      && (Adds(records, next, Sent(kind, episode, trip, stamp)) <==> untold && !full && delivered)
      && (Adds(records, next, Suppressed(kind, stamp)) <==> untold && full && !noticed)
      && (Adds(records, next, Failed(kind)) <==> untold && !full && !delivered)
      && (next == records <==> !untold || (full && noticed))
  {
    CountRecentIs(records, kind, now, to);
    TellingIsOfTheTrip(records, kind, episode, brakeTripped);
  }

  /** The first record of what was added. */
  predicate Adds(before: seq<Record>, after: seq<Record>, r: Record) {
    before < after && after[|before|] == r
  }

  lemma TellingIsOfTheTrip(records: seq<Record>, kind: string, episode: Option<string>, brakeTripped: Option<string>)
    ensures WasSent(records, kind, episode, if kind == BRAKE_TRIPPED then brakeTripped else None)
       <==> WasTold(records, kind, episode, brakeTripped)
  {
    if WasTold(records, kind, episode, brakeTripped) {
      var k :| && 0 <= k < |records| && records[k].Sent? && records[k].kind == kind && records[k].episode == episode
               && (kind == "brake_tripped" ==> records[k].tripped == brakeTripped);
      assert IsSame(records[k], kind, episode, if kind == BRAKE_TRIPPED then brakeTripped else None);
    }
  }

  lemma {:induction false} EveryRunIsWithinLimit(steps: seq<Step>, kind: string, opens: nat)
    requires kind != DELIVERY_FAILED && forall k | 0 <= k < |steps| :: IsStep(steps[k])
    ensures WithinLimit(Run(steps), kind, opens)
  {
    if steps != [] {
      var front, last := steps[..|steps| - 1], steps[|steps| - 1];
      EveryRunIsWithinLimit(front, kind, opens);
      match last
      case Alarm(_, _, _, _, _, _) => AlarmWithinLimit(Run(front), last, kind, opens);
      case Undeliverable(message, written) =>
        QuietRecord(Run(front), Sent(DELIVERY_FAILED, Some(message), None, Stamp(written)), kind, opens);
      case Else => QuietRecord(Run(front), Other, kind, opens);
    }
  }

  /** Two records tell of the same episode, for a tripped brake of the same trip. */
  predicate SameEpisode(a: Record, b: Record) {
    a.Sent? && b.Sent? && a.kind == b.kind && a.episode == b.episode && (a.kind == BRAKE_TRIPPED ==> a.tripped == b.tripped)
  }

  ghost predicate OncePerEpisode(records: seq<Record>) {
    forall i, j | 0 <= i < j < |records| && records[j].Sent? && records[j].kind != DELIVERY_FAILED ::
      !SameEpisode(records[i], records[j])
  }

  lemma StepKeepsOnce(records: seq<Record>, s: Step)
    requires OncePerEpisode(records)
    ensures OncePerEpisode(AfterStep(records, s))
  {
    var next := AfterStep(records, s);
    forall i, j | 0 <= i < j < |next| && next[j].Sent? && next[j].kind != DELIVERY_FAILED
      ensures !SameEpisode(next[i], next[j])
    {
      if j == |records| {
        assert s.Alarm? && next[i] == records[i];
        assert !IsSame(records[i], next[j].kind, next[j].episode, next[j].tripped);
      } else {
        assert next[i] == records[i] && next[j] == records[j];
      }
    }
  }

  /** Over every run: an episode is told once, and a tripped brake once per trip. */
  lemma {:induction false} EachEpisodeIsToldOnce(steps: seq<Step>)
    ensures OncePerEpisode(Run(steps))
  {
    if steps != [] {
      EachEpisodeIsToldOnce(steps[..|steps| - 1]);
      StepKeepsOnce(Run(steps[..|steps| - 1]), steps[|steps| - 1]);
    }
  }

  /** And none is lost in silence: it was told before, or is told, or the hour is full, or the failure is on record. */
  lemma NoAlarmIsLostInSilence(records: seq<Record>, s: Step)
    requires s.Alarm?
    ensures
      var next := AfterStep(records, s);
      var tripped := if s.kind == BRAKE_TRIPPED then s.brakeTripped else None;
      || WasSent(next, s.kind, s.episode, tripped)
      || (!s.delivered && Failed(s.kind) in next)
      || (CountRecent(records, s.kind, s.now) >= 10 && exists r :: r in next && r.Suppressed? && r.kind == s.kind)
  {
    var next := AfterStep(records, s);
    var tripped := if s.kind == BRAKE_TRIPPED then s.brakeTripped else None;
    if !WasSent(records, s.kind, s.episode, tripped) {
      if CountRecent(records, s.kind, s.now) >= LIMIT {
        if SuppressedRecently(records, s.kind, s.now) {
          var k :| 0 <= k < |records| && records[k].Suppressed? && records[k].kind == s.kind
                   && s.now - records[k].stamp < WINDOW;
          assert records[k] in next;
        } else {
          assert next[|records|] in next && next[|records|].Suppressed?;
        }
      } else if s.delivered {
        assert IsSame(next[|records|], s.kind, s.episode, tripped);
      } else {
        assert next[|records|] == Failed(s.kind);
      }
    }
  }
}
