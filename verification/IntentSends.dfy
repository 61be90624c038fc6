/**
 * What applying an intent file owes the people around the task: the report, the receipt and the
 * continuation that its noted rows call for are sent before the attempt counts as applied.
 */
module IntentSends {
  import opened Results
  import opened IntentApply
  import opened IntentNotes

  // --- the sums over the rows -----------------------------------------------------------------------

  /** What one row adds, by its note. */
  function Adding(t: Tally, row: Row, index: nat, note: Option<Action>): Tally {
    if note.None? || (IsDelegation(row) && !note.value.Rejected?) then t else Absorb(t, index, note.value)
  }

  /** The notes of the first n rows, summed up. */
  function SumTo(journal: seq<Record>, rows: seq<Row>, n: nat): Tally
    requires n <= |rows|
  {
    if n == 0 then NO_ROWS else Adding(SumTo(journal, rows, n - 1), rows[n - 1], n - 1, NotedFor(journal, n - 1))
  }

  /** The note of a row, as far as it counts. */
  function CountedNote(journal: seq<Record>, rows: seq<Row>, r: nat): Option<Action>
    requires r < |rows|
  {
    var note := NotedFor(journal, r);
    if note.Some? && IsDelegation(rows[r]) && !note.value.Rejected? then None else note
  }

  ghost predicate HasNote(journal: seq<Record>, rows: seq<Row>, n: nat, a: Action)
    requires n <= |rows|
  {
    exists r: nat :: r < n && CountedNote(journal, rows, r) == Some(a)
  }

  ghost predicate HasDone(journal: seq<Record>, rows: seq<Row>, n: nat)
    requires n <= |rows|
  {
    HasNote(journal, rows, n, Reported(true)) || HasNote(journal, rows, n, Reported(false)) || HasNote(journal, rows, n, Continued)
  }

  ghost predicate IsLastContinued(journal: seq<Record>, rows: seq<Row>, n: nat, last: Option<nat>)
    requires n <= |rows|
  {
    match last
    case None => !HasNote(journal, rows, n, Continued)
    case Some(r) =>
      && r < n && CountedNote(journal, rows, r) == Some(Continued)
      && forall k: nat | r < k < n :: CountedNote(journal, rows, k) != Some(Continued)
  }

  lemma NoteOneMore(journal: seq<Record>, rows: seq<Row>, n: nat, a: Action)
    requires n < |rows|
    ensures HasNote(journal, rows, n + 1, a) <==> HasNote(journal, rows, n, a) || CountedNote(journal, rows, n) == Some(a)
  {
    if HasNote(journal, rows, n + 1, a) {
      var r: nat :| r < n + 1 && CountedNote(journal, rows, r) == Some(a);
    }
  }

  /** What the sums say of the notes. */
  lemma {:induction false} SumMeans(journal: seq<Record>, rows: seq<Row>, n: nat)
    requires n <= |rows|
    ensures
      var t := SumTo(journal, rows, n);
      && (t.final <==> HasNote(journal, rows, n, Reported(true)))
      && (t.rejections > 0 <==> HasNote(journal, rows, n, Rejected))
      && (t.handled <==> HasDone(journal, rows, n))
      && IsLastContinued(journal, rows, n, t.continuation)
  {
    if n > 0 {
      SumMeans(journal, rows, n - 1);
      NoteOneMore(journal, rows, n - 1, Reported(true));
      NoteOneMore(journal, rows, n - 1, Reported(false));
      NoteOneMore(journal, rows, n - 1, Continued);
      NoteOneMore(journal, rows, n - 1, Rejected);
    }
  }

  lemma {:induction false} SumStays(journal: seq<Record>, r: Record, rows: seq<Row>, n: nat)
    requires n <= |rows| && (r.Noted? ==> r.row >= n)
    ensures SumTo(journal + [r], rows, n) == SumTo(journal, rows, n)
  {
    if n > 0 {
      LogOneMore(journal, r, n - 1);
      SumStays(journal, r, rows, n - 1);
    }
  }

  // --- the procedure keeps them -------------------------------------------------------------------------

  /** The notes a row can get. */
  predicate Fits(row: Row, a: Action) {
    match row
    case Delegate => a.Rejected?
    case ForeignDelegate => false
    case Report(final) => a.Rejected? || a == Reported(final)
    case Continue => a.Rejected? || a.Continued? || a.Blocked?
  }

  predicate HasBlocked(journal: seq<Record>, n: nat) {
    n > 0 && (NotedFor(journal, n - 1) == Some(Blocked) || HasBlocked(journal, n - 1))
  }

  lemma {:induction false} BlockedStays(journal: seq<Record>, r: Record, n: nat)
    requires r.Noted? ==> r.row >= n
    ensures HasBlocked(journal + [r], n) == HasBlocked(journal, n)
  {
    if n > 0 {
      LogOneMore(journal, r, n - 1);
      BlockedStays(journal, r, n - 1);
    }
  }

  /** A tally is the sum of the notes; a row that was blocked may count as handled besides. */
  predicate IsSum(t: Tally, journal: seq<Record>, rows: seq<Row>, n: nat)
    requires n <= |rows|
  {
    var sum := SumTo(journal, rows, n);
    && t.final == sum.final && t.rejections == sum.rejections && t.continuation == sum.continuation
    && (sum.handled ==> t.handled) && (t.handled ==> sum.handled || HasBlocked(journal, n))
  }

  predicate Sums(journal: seq<Record>, p: Point) {
    match p
    case AtRow(rows, row, tally) => row <= |rows| && IsSum(tally, journal, rows, row)
    case Noting(rows, row, tally, action) => row < |rows| && Fits(rows[row], action) && IsSum(tally, journal, rows, row)
    case Blocking(rows, row, tally) => row < |rows| && rows[row].Continue? && IsSum(tally, journal, rows, row)
    case BlockReport(rows, row, tally, _) => row < |rows| && rows[row].Continue? && IsSum(tally, journal, rows, row)
    case FinalReport(rows, tally, _) => tally.final && IsSum(tally, journal, rows, |rows|)
    case SelfMessage(rows, tally) => IsSum(tally, journal, rows, |rows|)
    case _ => true
  }

  lemma IsSumStays(t: Tally, journal: seq<Record>, r: Record, rows: seq<Row>, n: nat)
    requires n <= |rows| && (r.Noted? ==> r.row >= n)
    ensures IsSum(t, journal + [r], rows, n) == IsSum(t, journal, rows, n)
  {
    SumStays(journal, r, rows, n);
    BlockedStays(journal, r, n);
  }

  lemma SumsStay(journal: seq<Record>, r: Record, p: Point)
    requires Sums(journal, p) && !r.Noted?
    ensures Sums(journal + [r], p)
  {
    match p
    case AtRow(rows, row, tally) => IsSumStays(tally, journal, r, rows, row);
    case Noting(rows, row, tally, _) => IsSumStays(tally, journal, r, rows, row);
    case Blocking(rows, row, tally) => IsSumStays(tally, journal, r, rows, row);
    case BlockReport(rows, row, tally, _) => IsSumStays(tally, journal, r, rows, row);
    case FinalReport(rows, tally, _) => IsSumStays(tally, journal, r, rows, |rows|);
    case SelfMessage(rows, tally) => IsSumStays(tally, journal, r, rows, |rows|);
    case _ =>
  }

  lemma RowKeepsSums(s: State, answer: Answer, e: Env)
    requires s.at.AtRow? && Sums(s.journal, s.at)
    ensures
      var t := StepRow(s, s.at, answer, e);
      t.journal == s.journal && Sums(t.journal, t.at)
  {
    assert s.at.row >= |s.at.rows| ==> s.at.row == |s.at.rows|;
  }

  lemma NotingKeepsSums(s: State)
    requires s.at.Noting? && Sums(s.journal, s.at)
    ensures var t := StepNoting(s, s.at); Sums(t.journal, t.at)
  {
    var p := s.at;
    IsSumStays(p.tally, s.journal, Noted(p.row, p.action), p.rows, p.row);
    LogOneMore(s.journal, Noted(p.row, p.action), p.row);
  }

  lemma ReportKeepsSums(s: State, stage: nat, again: Point, after: Point, e: Env)
    requires Sums(s.journal, again) && Sums(s.journal, after)
    ensures var t := StepReport(s, stage, again, after, e); Sums(t.journal, t.at)
  {
    SumsStay(s.journal, ReportPending, again);
    SumsStay(s.journal, ReportDelivered, after);
  }

  lemma ProceedKeepsSums(s: State, answer: Answer, e: Env)
    requires Sums(s.journal, s.at)
    ensures var t := Proceed(s, answer, e); Sums(t.journal, t.at)
  {
    match s.at
    case AtRow(_, _, _) => RowKeepsSums(s, answer, e);
    case Noting(_, _, _, _) => NotingKeepsSums(s);
    case BlockReport(rows, row, tally, stage) =>
      ReportKeepsSums(s, stage, BlockReport(rows, row, tally, stage + 1), Noting(rows, row, tally, Blocked), e);
    case FinalReport(rows, tally, stage) =>
      ReportKeepsSums(s, stage, FinalReport(rows, tally, stage + 1), SelfMessage(rows, tally), e);
    case Redelivering(stage) => ReportKeepsSums(s, stage, Redelivering(stage + 1), Idle, e);
    case _ =>
  }

  lemma {:induction false} EveryRunSums(choices: seq<Choice>)
    ensures Sums(Run(choices).journal, Run(choices).at)
  {
    if choices != [] {
      var s, c := Run(choices[..|choices| - 1]), choices[|choices| - 1];
      EveryRunSums(choices[..|choices| - 1]);
      if c.Small? {
        ProceedKeepsSums(s, Asked(s, c.env).1, c.env);
      }
    }
  }

  // --- reports that are on record as delivered are there ---------------------------------------------------

  /** A report past its sending, or delivered on record, is in the inbox. */
  ghost predicate Sent(s: State) {
    && (ReportDelivered in s.journal ==> ReportMessage in s.inbox)
    && ((s.at.BlockReport? || s.at.FinalReport? || s.at.Redelivering?) && s.at.stage >= 2 ==> ReportMessage in s.inbox)
  }

  lemma ReportKeepsSent(s: State, stage: nat, again: Point, after: Point, e: Env)
    requires stage >= 2 || ReportDelivered in s.journal ==> ReportMessage in s.inbox
    ensures ReportDelivered in StepReport(s, stage, again, after, e).journal ==> ReportMessage in s.inbox
  {
  }

  lemma OtherThanDelivered(journal: seq<Record>, r: Record)
    requires !r.ReportDelivered?
    ensures ReportDelivered in journal + [r] <==> ReportDelivered in journal
  {
  }

  lemma ProceedDelivers(s: State, answer: Answer, e: Env)
    requires !s.at.BlockReport? && !s.at.FinalReport? && !s.at.Redelivering?
    ensures ReportDelivered in Proceed(s, answer, e).journal <==> ReportDelivered in s.journal
  {
    match s.at
    case Opening(close) => OtherThanDelivered(s.journal, Closed(s.file));
    case AtRow(_, _, _) => RowWrites(s, answer, e);
    case Noting(_, row, _, action) => OtherThanDelivered(s.journal, Noted(row, action));
    case Finishing(rows) => OtherThanDelivered(s.journal, Applied(|rows|));
    case Retrying => OtherThanDelivered(s.journal, Retried);
    case Tainting => OtherThanDelivered(s.journal, Tainted);
    case ReplayNoting => OtherThanDelivered(s.journal, TaintReplayed);
    case _ =>
  }

  lemma ReportsBeginAtZero(s: State, answer: Answer, e: Env)
    requires !s.at.BlockReport? && !s.at.FinalReport? && !s.at.Redelivering?
    ensures
      var q := Proceed(s, answer, e).at;
      (q.BlockReport? || q.FinalReport? ==> q.stage == 0) && !q.Redelivering?
  {
    if s.at.AtRow? {
      RowSettles(s, answer, e);
    }
  }

  lemma StepKeepsSent(s: State, c: Choice)
    requires Sent(s)
    ensures Sent(Step(s, c))
  {
    if c.Small? {
      var e, answer := c.env, Asked(s, c.env).1;
      match s.at
      case BlockReport(rows, row, tally, stage) =>
        ReportKeepsSent(s, stage, BlockReport(rows, row, tally, stage + 1), Noting(rows, row, tally, Blocked), e);
      case FinalReport(rows, tally, stage) =>
        ReportKeepsSent(s, stage, FinalReport(rows, tally, stage + 1), SelfMessage(rows, tally), e);
      case Redelivering(stage) => ReportKeepsSent(s, stage, Redelivering(stage + 1), Idle, e);
      case _ =>
        ProceedDelivers(s, answer, e);
        ReportsBeginAtZero(s, answer, e);
    }
  }

  /** Over every run: a report that is delivered on record is in the inbox. */
  lemma {:induction false} DeliveredMeansSent(choices: seq<Choice>)
    ensures Sent(Run(choices))
    ensures ReportDelivered in Run(choices).journal ==> ReportMessage in Run(choices).inbox
  {
    if choices != [] {
      DeliveredMeansSent(choices[..|choices| - 1]);
      StepKeepsSent(Run(choices[..|choices| - 1]), choices[|choices| - 1]);
    }
  }

  /** A pending report goes out with the next redelivery whose send succeeds. */
  lemma RedeliveryDelivers(s: State, sending: Env, noting: Env)
    requires s.at.Idle? && ReportPending in s.journal && ReportDelivered !in s.journal && sending.sendOk
    ensures
      var t := Step(Step(Step(s, Redeliver), Small(sending)), Small(noting));
      t == s.(journal := s.journal + [ReportDelivered], inbox := Deliver(s.inbox, ReportMessage))
  {
  }

  // --- what is sent before the attempt counts as applied -----------------------------------------------------

  ghost predicate IsOnRecord(journal: seq<Record>) {
    ReportPending in journal || ReportDelivered in journal
  }

  /** A final report came due and could not be read. */
  ghost predicate WasUnreadable(choices: seq<Choice>) {
    exists k | 0 <= k < |choices| :: IsUnreadableStep(Run(choices[..k]), choices[k])
  }

  predicate IsUnreadableStep(s: State, c: Choice) {
    s.at.FinalReport? && s.at.stage == 0 && c.Small? && !c.env.textOk
  }

  /** The last time the supervisor was to tell itself how to go on: the sums, and what the world said. */
  function LastTelling(choices: seq<Choice>): Option<(Tally, Env)> {
    if choices == [] then None
    else Telling(Run(choices[..|choices| - 1]), choices[|choices| - 1], LastTelling(choices[..|choices| - 1]))
  }

  function Telling(s: State, c: Choice, before: Option<(Tally, Env)>): Option<(Tally, Env)> {
    if s.at.SelfMessage? && c.Small? then Some((s.at.tally, c.env)) else before
  }

  /** With the task in progress and the text readable, a send that lands puts the receipt or the continuation there. */
  predicate IsTold(inbox: seq<MessageId>, t: Tally, e: Env) {
    e.inProgress && e.textOk && (e.sendOk || e.sendLands) ==>
      if t.handled && t.rejections > 0 then ReceiptMessage in inbox
      else t.continuation.Some? ==> Continuation(t.continuation.value) in inbox
  }

  /** All that is owed for some rows has been seen to. */
  ghost predicate IsSettled(s: State, rows: seq<Row>, ok: bool, told: Option<(Tally, Env)>) {
    && told.Some? && IsSum(told.value.0, s.journal, rows, |rows|) && IsTold(s.inbox, told.value.0, told.value.1)
    && (told.value.0.final ==> ok || IsOnRecord(s.journal))
  }

  ghost predicate Settles(s: State, ok: bool, told: Option<(Tally, Env)>) {
    match s.at
    case FinalReport(_, _, stage) => stage >= 1 ==> ok || IsOnRecord(s.journal)
    case SelfMessage(_, tally) => tally.final ==> ok || IsOnRecord(s.journal)
    case Finishing(rows) => IsSettled(s, rows, ok, told)
    case _ => true
  }

  /** A final report that is past its first look is on record, or could not be read. */
  lemma FinalSettles(s: State, rows: seq<Row>, tally: Tally, stage: nat, e: Env, ok: bool, told: Option<(Tally, Env)>)
    requires s.at == FinalReport(rows, tally, stage) && Settles(s, ok, told)
    ensures
      var t := StepReport(s, stage, FinalReport(rows, tally, stage + 1), SelfMessage(rows, tally), e);
      forall u: State | u.journal == t.journal && u.at == t.at :: Settles(u, ok || (stage == 0 && !e.textOk), told)
  {
    assert ReportPending in s.journal + [ReportPending];
    assert ReportDelivered in s.journal + [ReportDelivered];
  }

  lemma TellingSettles(s: State, rows: seq<Row>, tally: Tally, e: Env, ok: bool, told: Option<(Tally, Env)>)
    requires s.at == SelfMessage(rows, tally) && Settles(s, ok, told) && Sums(s.journal, s.at)
    ensures IsSettled(Go(s, Finishing(rows)).(inbox := Delivered(s, e)), rows, ok, Some((tally, e)))
  {
  }

  /** From nowhere else does the procedure come to the sends. */
  lemma ElsewhereSettles(s: State, answer: Answer, e: Env)
    requires !s.at.AtRow? && !s.at.FinalReport? && !s.at.SelfMessage?
    ensures var q := Proceed(s, answer, e).at; !q.FinalReport? && !q.SelfMessage? && !q.Finishing?
  {
  }

  lemma ProceedSettles(s: State, answer: Answer, e: Env, ok: bool, told: Option<(Tally, Env)>)
    requires Settles(s, ok, told) && Sums(s.journal, s.at)
    ensures
      var t := Proceed(s, answer, e).(inbox := Delivered(s, e));
      Settles(t, ok || IsUnreadableStep(s, Small(e)), Telling(s, Small(e), told))
  {
    if s.at.AtRow? {
      RowSettles(s, answer, e);
    } else if s.at.FinalReport? {
      FinalSettles(s, s.at.rows, s.at.tally, s.at.stage, e, ok, told);
    } else if s.at.SelfMessage? {
      TellingSettles(s, s.at.rows, s.at.tally, e, ok, told);
    } else {
      ElsewhereSettles(s, answer, e);
    }
  }

  lemma RowSettles(s: State, answer: Answer, e: Env)
    requires s.at.AtRow?
    ensures
      var q := StepRow(s, s.at, answer, e).at;
      && !q.Finishing? && !q.BlockReport? && !q.Redelivering?
      && (q.FinalReport? ==> q.stage == 0) && (q.SelfMessage? ==> !q.tally.final)
  {
  }

  lemma StepSettles(s: State, c: Choice, ok: bool, told: Option<(Tally, Env)>)
    requires Settles(s, ok, told) && Sums(s.journal, s.at)
    ensures Settles(Step(s, c), ok || IsUnreadableStep(s, c), Telling(s, c, told))
  {
    if c.Small? {
      ProceedSettles(s, Asked(s, c.env).1, c.env, ok, told);
    }
  }

  lemma UnreadableOneMore(choices: seq<Choice>)
    requires choices != []
    ensures
      var front, c := choices[..|choices| - 1], choices[|choices| - 1];
      WasUnreadable(choices) <==> WasUnreadable(front) || IsUnreadableStep(Run(front), c)
  {
    var front := choices[..|choices| - 1];
    forall k | 0 <= k < |front| ensures front[..k] == choices[..k] {
    }
    if WasUnreadable(front) {
      var k :| 0 <= k < |front| && IsUnreadableStep(Run(front[..k]), front[k]);
      assert IsUnreadableStep(Run(choices[..k]), choices[k]);
    }
  }

  lemma {:induction false} EveryRunSettles(choices: seq<Choice>)
    ensures Settles(Run(choices), WasUnreadable(choices), LastTelling(choices))
  {
    if choices != [] {
      var front, c := choices[..|choices| - 1], choices[|choices| - 1];
      EveryRunSettles(front);
      EveryRunSums(front);
      UnreadableOneMore(choices);
      StepSettles(Run(front), c, WasUnreadable(front), LastTelling(front));
    }
  }

  // --- applied attempts --------------------------------------------------------------------------------------------

  /** What an applied attempt was closed with, and that all that is owed for it has been seen to. */
  ghost predicate AppliedSettles(s: State, ok: bool, told: Option<(Tally, Env)>) {
    forall n | Applied(n) in s.journal ::
      && ClosedAs(s.journal).Some? && ClosedAs(s.journal).value.Some? && ClosedAs(s.journal).value.value.Rows?
      && var rows := ClosedAs(s.journal).value.value.rows;
         n == |rows| && IsSettled(s, rows, ok, told)
  }

  /** Things settled stay so while the journal gains no note and the inbox loses nothing. */
  lemma StaysSettled(s: State, t: State, r: Record, rows: seq<Row>, ok: bool, more: bool, told: Option<(Tally, Env)>)
    requires IsSettled(s, rows, ok, told) && !r.Noted? && (ok ==> more)
    requires (t.journal == s.journal || t.journal == s.journal + [r]) && forall id | id in s.inbox :: id in t.inbox
    ensures IsSettled(t, rows, more, told)
  {
    IsSumStays(told.value.0, s.journal, r, rows, |rows|);
  }

  lemma InboxGrows(s: State, c: Choice)
    ensures forall id | id in s.inbox :: id in Step(s, c).inbox
  {
  }

  /** Once applied, an attempt is neither noted nor told again. */
  lemma SealedStepIsQuiet(s: State, c: Choice) returns (r: Option<Record>)
    requires Quiet(s) && HasApplied(s.journal)
    ensures Step(s, c).journal == s.journal + (if r.Some? then [r.value] else [])
    ensures r.Some? ==> !r.value.Noted? && !r.value.Applied?
    ensures !s.at.SelfMessage?
  {
    r := StepWrites(s, c);
    if r.Some? && r.value.Applied? {
      OnlyFinishingApplies(s, c, r.value.count);
    }
  }

  lemma OnlyFinishingApplies(s: State, c: Choice, n: nat)
    requires Step(s, c).journal == s.journal + [Applied(n)]
    ensures s.at.Finishing? && c.Small? && n == |s.at.rows|
  {
    assert Step(s, c).journal[|s.journal|] == Applied(n);
    if c.Small? {
      if s.at.AtRow? {
        RowWrites(s, Asked(s, c.env).1, c.env);
      }
      AppliedByFinishing(s, Asked(s, c.env).1, c.env, n);
    }
  }

  lemma AppliedByFinishing(s: State, answer: Answer, e: Env, n: nat)
    requires Proceed(s, answer, e).journal == s.journal + [Applied(n)]
    requires s.at.AtRow? ==> Proceed(s, answer, e).journal == s.journal
    ensures s.at.Finishing? && n == |s.at.rows|
  {
    assert Proceed(s, answer, e).journal[|s.journal|] == Applied(n);
  }

  lemma StepAppliedSettles(s: State, c: Choice, ok: bool, told: Option<(Tally, Env)>)
    requires AppliedSettles(s, ok, told) && Settles(s, ok, told) && Quiet(s) && IsAsClosed(s)
    ensures AppliedSettles(Step(s, c), ok || IsUnreadableStep(s, c), Telling(s, c, told))
  {
    var t := Step(s, c);
    InboxGrows(s, c);
    ClosedStays(s, c);
    var r := StepWrites(s, c);
    forall n | Applied(n) in t.journal
      ensures ClosedAs(t.journal).Some? && ClosedAs(t.journal).value.Some? && ClosedAs(t.journal).value.value.Rows?
      ensures
        var rows := ClosedAs(t.journal).value.value.rows;
        n == |rows| && IsSettled(t, rows, ok || IsUnreadableStep(s, c), Telling(s, c, told))
    {
      if Applied(n) in s.journal {
        var k :| 0 <= k < |s.journal| && s.journal[k] == Applied(n);
        assert s.journal[k].Applied?;
        var x := SealedStepIsQuiet(s, c);
        StaysSettled(s, t, if x.Some? then x.value else Retried, ClosedAs(s.journal).value.value.rows, ok,
                     ok || IsUnreadableStep(s, c), told);
      } else {
        assert r == Some(Applied(n));
        OnlyFinishingApplies(s, c, n);
        StaysSettled(s, t, Applied(n), s.at.rows, ok, ok || IsUnreadableStep(s, c), told);
      }
    }
  }

  lemma FrontClosesFirst(choices: seq<Choice>)
    requires choices != [] && ClosesFirst(choices)
    ensures ClosesFirst(choices[..|choices| - 1])
  {
    var front := choices[..|choices| - 1];
    forall k | 0 <= k < |front| && front[k].Begin? ensures front[k].close || ClosedAs(Run(front[..k]).journal).Some? {
      assert front[..k] == choices[..k];
    }
  }

  lemma {:induction false} AppliedIsSettled(choices: seq<Choice>)
    requires ClosesFirst(choices)
    ensures AppliedSettles(Run(choices), WasUnreadable(choices), LastTelling(choices))
  {
    if choices != [] {
      var front, c := choices[..|choices| - 1], choices[|choices| - 1];
      FrontClosesFirst(choices);
      AppliedIsSettled(front);
      EveryRunSettles(front);
      EveryRunIsQuiet(front);
      ClosedRunsReport(front, 0);
      UnreadableOneMore(choices);
      StepAppliedSettles(Run(front), c, WasUnreadable(front), LastTelling(front));
    }
  }

  /** The rows an attempt was closed with. */
  function ClosedRows(journal: seq<Record>): seq<Row> {
    match ClosedAs(journal)
    case Some(Some(Rows(rows))) => rows
    case _ => []
  }

  /** In every run of attempts closed before they are scanned, a row gets only a note of its own kind. */
  lemma {:induction false} NotesFitTheirRows(choices: seq<Choice>, row: nat)
    requires ClosesFirst(choices) && NotedFor(Run(choices).journal, row).Some?
    ensures
      var rows := ClosedRows(Run(choices).journal);
      row < |rows| && Fits(rows[row], NotedFor(Run(choices).journal, row).value)
  {
    if choices != [] {
      var front, c := choices[..|choices| - 1], choices[|choices| - 1];
      FrontClosesFirst(choices);
      NoteChanges(Run(front), c, row);
      ClosedStays(Run(front), c);
      if NotedFor(Run(front).journal, row) == NotedFor(Run(choices).journal, row) {
        NotesFitTheirRows(front, row);
      } else {
        EveryRunSums(front);
        ClosedRunsReport(front, row);
      }
    }
  }

  /** An applied attempt counts exactly the rows it was closed with. */
  lemma AppliedCountsTheRows(choices: seq<Choice>, count: nat)
    requires ClosesFirst(choices) && Applied(count) in Run(choices).journal
    ensures ClosedAs(Run(choices).journal) == Some(Some(Rows(ClosedRows(Run(choices).journal))))
    ensures count == |ClosedRows(Run(choices).journal)|
  {
    AppliedIsSettled(choices);
  }

  /**
   * When an attempt is applied, a final report among its noted rows is on record as pending or
   * delivered, unless it could not be read when it came due.
   */
  lemma AppliedReportsAreOnRecord(choices: seq<Choice>, count: nat, row: nat)
    requires ClosesFirst(choices) && Applied(count) in Run(choices).journal
    requires NotedFor(Run(choices).journal, row) == Some(Reported(true))
    ensures IsOnRecord(Run(choices).journal) || WasUnreadable(choices)
  {
    var journal := Run(choices).journal;
    AppliedIsSettled(choices);
    NotesFitTheirRows(choices, row);
    var rows := ClosedRows(journal);
    SumMeans(journal, rows, |rows|);
    assert CountedNote(journal, rows, row) == Some(Reported(true));
  }

  /**
   * When an attempt is applied, it has told itself how to go on: by the sums of its notes, the receipt
   * if something was handled and something rejected, and otherwise the last continuation; the message
   * is in the inbox if then the task was in progress, the text readable, and the send landed.
   */
  lemma AppliedTellsItself(choices: seq<Choice>, count: nat)
    requires ClosesFirst(choices) && Applied(count) in Run(choices).journal
    ensures LastTelling(choices).Some?
    ensures
      var s := Run(choices);
      var (t, e) := LastTelling(choices).value;
      var rows := ClosedRows(s.journal);
      && IsTold(s.inbox, t, e)
      && (t.rejections > 0 <==> HasNote(s.journal, rows, |rows|, Rejected))
      && (HasDone(s.journal, rows, |rows|) ==> t.handled)
      && (t.handled ==> HasDone(s.journal, rows, |rows|) || HasBlocked(s.journal, |rows|))
      && IsLastContinued(s.journal, rows, |rows|, t.continuation)
  {
    AppliedIsSettled(choices);
    var rows := ClosedRows(Run(choices).journal);
    SumMeans(Run(choices).journal, rows, |rows|);
  }

  /** Telling itself sends that one message, and only then. */
  lemma TellingSendsOne(s: State, e: Env)
    requires s.at.SelfMessage?
    ensures
      var t := s.at.tally;
      var lands := e.inProgress && e.textOk && (e.sendOk || e.sendLands);
      Step(s, Small(e)).inbox
      == if lands && t.handled && t.rejections > 0 then Deliver(s.inbox, ReceiptMessage)
         else if lands && t.continuation.Some? then Deliver(s.inbox, Continuation(t.continuation.value))
         else s.inbox
  {
  }

  // --- retries come to an end --------------------------------------------------------------------------------------

  /** How often a run was broken off, by a crash or an exception. */
  function Interruptions(choices: seq<Choice>): nat {
    if choices == [] then 0
    else
      Interruptions(choices[..|choices| - 1])
      + if choices[|choices| - 1].Crash? || choices[|choices| - 1].Raise? then 1 else 0
  }

  /** Five retries, and then quarantine; an interruption can put that off by one. */
  ghost predicate IsBounded(s: State, interrupted: nat) {
    var retries := CountRetries(s.journal) + if s.at.Retrying? then 1 else 0;
    && retries <= 5 + interrupted
    && (Tainted !in s.journal && !s.at.Quarantining? && !s.at.Tainting? && !s.at.Retrying? ==> retries <= 4 + interrupted)
  }

  lemma RetriesOneMore(journal: seq<Record>, r: Record)
    ensures CountRetries(journal + [r]) == CountRetries(journal) + if r.Retried? then 1 else 0
    ensures Tainted in journal + [r] <==> Tainted in journal || r.Tainted?
  {
    assert (journal + [r])[..|journal|] == journal;
  }

  /** Retries come from the gate, a row or a block, of an attempt that is not tainted. */
  lemma RetriesComeFrom(s: State, answer: Answer, e: Env)
    ensures
      var q := Proceed(s, answer, e).at;
      && (q.Retrying? ==> s.at.Gate? || s.at.AtRow? || s.at.Blocking?)
      && (s.at.Gate? && q.Retrying? ==> Tainted !in s.journal)
  {
    if s.at.AtRow? {
      assert !StepRow(s, s.at, answer, e).at.Gate?;
    }
  }

  lemma StepIsBounded(s: State, c: Choice, interrupted: nat)
    requires IsBounded(s, interrupted) && Quiet(s)
    ensures IsBounded(Step(s, c), interrupted + if c.Crash? || c.Raise? then 1 else 0)
  {
    var t := Step(s, c);
    var r := StepWrites(s, c);
    if r.Some? {
      RetriesOneMore(s.journal, r.value);
    } else {
      assert s.journal + [] == s.journal;
    }
    if c.Small? {
      RetriesComeFrom(s, Asked(s, c.env).1, c.env);
      WritesOfRetries(s, Asked(s, c.env).1, c.env);
    }
  }

  /** At most one record more, and no retry. */
  predicate AddsNoRetry(before: seq<Record>, after: seq<Record>) {
    || after == before
    || (|after| == |before| + 1 && after[..|before|] == before && !after[|before|].Retried?)
  }

  lemma OneRecordNoRetry(journal: seq<Record>, r: Record)
    requires !r.Retried?
    ensures AddsNoRetry(journal, journal + [r])
  {
  }

  lemma NoRetryCounts(before: seq<Record>, after: seq<Record>)
    requires AddsNoRetry(before, after)
    ensures CountRetries(after) == CountRetries(before)
  {
    if after != before {
      assert after == before + [after[|before|]];
      RetriesOneMore(before, after[|before|]);
    }
  }

  lemma OthersRetryNot(s: State, answer: Answer, e: Env)
    requires !s.at.Retrying?
    ensures AddsNoRetry(s.journal, Proceed(s, answer, e).journal)
  {
    match s.at
    case Opening(close) => OneRecordNoRetry(s.journal, Closed(s.file));
    case AtRow(_, _, _) => RowWrites(s, answer, e);
    case Noting(_, row, _, action) => OneRecordNoRetry(s.journal, Noted(row, action));
    case BlockReport(rows, row, tally, stage) =>
      ReportRetriesNot(s, stage, BlockReport(rows, row, tally, stage + 1), Noting(rows, row, tally, Blocked), e);
    case FinalReport(rows, tally, stage) =>
      ReportRetriesNot(s, stage, FinalReport(rows, tally, stage + 1), SelfMessage(rows, tally), e);
    case Redelivering(stage) => ReportRetriesNot(s, stage, Redelivering(stage + 1), Idle, e);
    case Finishing(rows) => OneRecordNoRetry(s.journal, Applied(|rows|));
    case Tainting => OneRecordNoRetry(s.journal, Tainted);
    case ReplayNoting => OneRecordNoRetry(s.journal, TaintReplayed);
    case _ =>
  }

  lemma ReportRetriesNot(s: State, stage: nat, again: Point, after: Point, e: Env)
    ensures AddsNoRetry(s.journal, StepReport(s, stage, again, after, e).journal)
  {
    OneRecordNoRetry(s.journal, ReportPending);
    OneRecordNoRetry(s.journal, ReportDelivered);
  }

  lemma WritesOfRetries(s: State, answer: Answer, e: Env)
    ensures s.at.Retrying? ==> Proceed(s, answer, e) == StepRetrying(s)
    ensures !s.at.Retrying? ==> CountRetries(Proceed(s, answer, e).journal) == CountRetries(s.journal)
    ensures s.at.Tainting? ==> Tainted in Proceed(s, answer, e).journal
    ensures s.at.Quarantining? && Tainted !in s.journal ==> Proceed(s, answer, e).at.Tainting?
  {
    if !s.at.Retrying? {
      OthersRetryNot(s, answer, e);
      NoRetryCounts(s.journal, Proceed(s, answer, e).journal);
    }
  }

  /** Over every run: an attempt is retried at most five times, and once more for each interruption. */
  lemma {:induction false} RetriesAreBounded(choices: seq<Choice>)
    ensures IsBounded(Run(choices), Interruptions(choices))
    ensures CountRetries(Run(choices).journal) <= 5 + Interruptions(choices)
  {
    if choices != [] {
      RetriesAreBounded(choices[..|choices| - 1]);
      EveryRunIsQuiet(choices[..|choices| - 1]);
      StepIsBounded(Run(choices[..|choices| - 1]), choices[|choices| - 1], Interruptions(choices[..|choices| - 1]));
    }
  }

  // --- why a row was not done ------------------------------------------------------------------------------------

  /** What speaks against a row: its kind, its reference, the exit code, or the ledger itself. */
  predicate IsRefusedFor(s: State, j: Judgement, row: nat) {
    || j.row.Delegate? || !j.env.referenceOk || j.env.answer.Stale? || j.env.answer.BadArgument?
    || VerdictOf(s.ledger, Intent(row)) == Some(Refused)
  }

  predicate IsUsedUp(j: Judgement) {
    j.row.Continue? && j.env.referenceOk && j.env.budgetGone
  }

  predicate IsReasoned(s: State, j: Option<Judgement>, row: nat, a: Action) {
    match a
    case Rejected => j.Some? && IsRefusedFor(s, j.value, row)
    case Blocked => j.Some? && IsUsedUp(j.value)
    case _ => true
  }

  ghost predicate Reasons(s: State, j: Option<Judgement>, row: nat) {
    && (s.at.Noting? && s.at.row == row ==> IsReasoned(s, j, row, s.at.action))
    && ((s.at.Blocking? || s.at.BlockReport?) && s.at.row == row ==> IsReasoned(s, j, row, Blocked))
    && (NotedFor(s.journal, row).Some? ==> IsReasoned(s, j, row, NotedFor(s.journal, row).value))
  }

  lemma RefusalsStay(s: State, c: Choice, row: nat)
    ensures VerdictOf(s.ledger, Intent(row)) == Some(Refused) ==> VerdictOf(Step(s, c).ledger, Intent(row)) == Some(Refused)
  {
    if c.Small? && RequestAt(s, c.env).Some? {
      OtherRequests(s.ledger, RequestAt(s, c.env).value, c.env.answer, Intent(row));
    }
  }

  lemma JudgingReasons(s: State, e: Env, row: nat, accepted: bool)
    requires Judges(s, Small(e), row)
    ensures Reasons(Step(s, Small(e)), Some(Judgement(s.at.rows[row], e, accepted)), row)
  {
    var (after, given) := Asked(s, e);
    RowWrites(s, given, e);
    RowComesFrom(s, given, e);
    if RequestAt(s, e).Some? {
      AnswersOfAsk(s.ledger, RequestAt(s, e).value, e.answer);
    }
  }

  lemma StepReasons(s: State, c: Choice, j: Option<Judgement>, row: nat)
    requires !Judges(s, c, row) && Reasons(s, j, row)
    ensures Reasons(Step(s, c), j, row)
  {
    NoteChanges(s, c, row);
    NoteComesDue(s, c, row);
    RefusalsStay(s, c, row);
    StillReasons(s, Step(s, c), j, row);
  }

  lemma StillReasons(s: State, t: State, j: Option<Judgement>, row: nat)
    requires Reasons(s, j, row) && ComesFrom(s.at, t.at)
    requires VerdictOf(s.ledger, Intent(row)) == Some(Refused) ==> VerdictOf(t.ledger, Intent(row)) == Some(Refused)
    requires s.at.AtRow? && s.at.row == row ==> !(t.at.Noting? || t.at.Blocking? || t.at.BlockReport?)
    requires
      || NotedFor(t.journal, row) == NotedFor(s.journal, row)
      || (s.at.Noting? && s.at.row == row && NotedFor(t.journal, row) == Some(s.at.action))
    ensures Reasons(t, j, row)
  {
  }

  /**
   * Over every run: a row is noted as rejected only if at the last look it was a delegation, its
   * reference was refused, the command exited 64 or 76, or the ledger has refused it; and as blocked
   * only if it was a continuation whose turns were used up.
   */
  lemma {:induction false} NotDoneHasAReason(choices: seq<Choice>, row: nat)
    ensures Reasons(Run(choices), LastJudgement(choices, row), row)
  {
    if choices != [] {
      var front, c := choices[..|choices| - 1], choices[|choices| - 1];
      NotDoneHasAReason(front, row);
      if Judges(Run(front), c, row) {
        JudgingReasons(Run(front), c.env, row, IsAccepted(Run(choices), row));
      } else {
        StepReasons(Run(front), c, LastJudgement(front, row), row);
      }
    }
  }

  // --- what is worked on at all -----------------------------------------------------------------------------------

  /** A file is worked on exactly when nothing was tainted or applied before, it is what was closed, and its task is known. */
  lemma GateAdmitsIff(s: State, e: Env)
    requires s.at.Gate?
    ensures
      var t := Step(s, Small(e));
      && (t.at == AtRow(if s.at.content.Rows? then s.at.content.rows else [], 0, NO_ROWS)
          <==> && s.at.content.Rows? && Tainted !in s.journal && !HasApplied(s.journal)
               && (ClosedAs(s.journal).Some? ==> ClosedAs(s.journal).value == Some(s.at.content))
               && e.taskKnown && e.contextOk)
      && t.journal == s.journal && t.ledger == s.ledger && t.inbox == s.inbox && t.file == s.file
  {
  }

  /** Quarantine takes the file away and leaves its mark; a marked attempt only loses its file. */
  lemma QuarantineTaints(s: State, first: Env, second: Env)
    requires s.at.Quarantining? && Tainted !in s.journal
    ensures Step(Step(s, Small(first)), Small(second)) == s.(file := None, journal := s.journal + [Tainted], at := Idle)
  {
  }
}
