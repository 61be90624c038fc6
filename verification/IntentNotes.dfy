/**
 * What the supervisor notes of an attempt's rows against what the ledger holds: when a note is true,
 * exactly, over every run of applying the intent file.
 */
module IntentNotes {
  import opened Results
  import opened IntentApply

  // --- the notes and the ledger ------------------------------------------------------------------------------------------

  predicate IsDone(a: Action) {
    a.Continued? || a.Reported?
  }

  predicate IsAccepted(s: State, row: nat) {
    VerdictOf(s.ledger, Intent(row)) == Some(Accepted)
  }

  /** What a step writes to the journal: at most one record, and which when. */
  lemma StepWrites(s: State, c: Choice) returns (r: Option<Record>)
    ensures Step(s, c).journal == s.journal + (if r.Some? then [r.value] else [])
    ensures r.Some? && r.value.Closed? ==> ClosedAs(s.journal).None?
    ensures r.Some? && r.value.Noted? ==>
      s.at.Noting? && c.Small? && r.value == Noted(s.at.row, s.at.action)
  {
    var t := Step(s, c);
    if t.journal == s.journal {
      r := None;
    } else {
      r := Some(t.journal[|s.journal|]);
      if c.Small? {
        ProceedWrites(s, Asked(s, c.env).1, c.env);
      }
    }
  }

  /** At most one record more, and which. */
  predicate Writes(before: seq<Record>, after: seq<Record>, p: Point) {
    || after == before
    || (|after| == |before| + 1 && after[..|before|] == before
        && (after[|before|].Closed? ==> ClosedAs(before).None?)
        && (after[|before|].Noted? ==> p.Noting? && after[|before|] == Noted(p.row, p.action)))
  }

  lemma ProceedWrites(s: State, answer: Answer, e: Env)
    ensures Writes(s.journal, Proceed(s, answer, e).journal, s.at)
  {
    match s.at
    case Opening(close) => OpeningWrites(s, close);
    case Noting(_, row, _, action) => OneRecord(s.journal, Noted(row, action), s.at);
    case AtRow(_, _, _) => RowWrites(s, answer, e);
    case BlockReport(rows, row, tally, stage) =>
      ReportWrites(s, stage, BlockReport(rows, row, tally, stage + 1), Noting(rows, row, tally, Blocked), e);
    case FinalReport(rows, tally, stage) =>
      ReportWrites(s, stage, FinalReport(rows, tally, stage + 1), SelfMessage(rows, tally), e);
    case Redelivering(stage) => ReportWrites(s, stage, Redelivering(stage + 1), Idle, e);
    case Finishing(rows) => OneRecord(s.journal, Applied(|rows|), s.at);
    case Retrying => OneRecord(s.journal, Retried, s.at);
    case Tainting => OneRecord(s.journal, Tainted, s.at);
    case ReplayNoting => OneRecord(s.journal, TaintReplayed, s.at);
    case _ =>
  }

  lemma OpeningWrites(s: State, close: bool)
    requires s.at.Opening?
    ensures Writes(s.journal, StepOpening(s, close).journal, s.at)
  {
    if ClosedAs(s.journal).None? {
      OneRecord(s.journal, Closed(s.file), s.at);
    }
  }

  lemma RowWrites(s: State, answer: Answer, e: Env)
    requires s.at.AtRow?
    ensures StepRow(s, s.at, answer, e).journal == s.journal
  {
  }

  lemma ReportWrites(s: State, stage: nat, again: Point, after: Point, e: Env)
    ensures Writes(s.journal, StepReport(s, stage, again, after, e).journal, s.at)
  {
    OneRecord(s.journal, ReportPending, s.at);
    OneRecord(s.journal, ReportDelivered, s.at);
  }

  lemma OneRecord(journal: seq<Record>, r: Record, p: Point)
    requires r.Closed? ==> ClosedAs(journal).None?
    requires r.Noted? ==> p.Noting? && r == Noted(p.row, p.action)
    ensures Writes(journal, journal + [r], p)
  {
  }

  /** The only way the note of a row changes. */
  lemma NoteChanges(s: State, c: Choice, row: nat)
    ensures
      var t := Step(s, c);
      || NotedFor(t.journal, row) == NotedFor(s.journal, row)
      || (s.at.Noting? && c.Small? && s.at.row == row && NotedFor(t.journal, row) == Some(s.at.action))
  {
    var r := StepWrites(s, c);
    if r.Some? {
      LogOneMore(s.journal, r.value, row);
    } else {
      assert s.journal + [] == s.journal;
    }
  }

  lemma OtherRequests(ledger: seq<(Causation, Verdict)>, c: Causation, answer: Answer, other: Causation)
    ensures c != other ==> VerdictOf(Ask(ledger, c, answer).0, other) == VerdictOf(ledger, other)
  {
    LedgerOneMore(ledger, c, Accepted, other);
    LedgerOneMore(ledger, c, Refused, other);
  }

  /** What a request comes back with, and what the ledger then holds. */
  lemma AnswersOfAsk(ledger: seq<(Causation, Verdict)>, c: Causation, answer: Answer)
    ensures
      var (after, given) := Ask(ledger, c, answer);
      && (given.Granted? ==> VerdictOf(after, c) == Some(Accepted) && (answer.Granted? || answer.Denied?))
      && (given.Denied? ==> VerdictOf(after, c) == Some(Refused) && (answer.Granted? || answer.Denied?))
      && (given.Granted? || given.Denied? <==> answer.Granted? || answer.Denied?)
      && (given.Busy? <==> answer.Busy?) && !given.Lost?
      && (given.Broken? <==> answer.Broken? || answer.Lost?)
  {
    LedgerOneMore(ledger, c, Accepted, c);
    LedgerOneMore(ledger, c, Refused, c);
  }

  /** Whether the ledger accepts a row changes only when that row's report is asked for. */
  lemma AcceptanceChanges(s: State, c: Choice, row: nat)
    ensures
      IsAccepted(Step(s, c), row) == IsAccepted(s, row) || (c.Small? && RequestAt(s, c.env) == Some(Intent(row)))
  {
    if c.Small? && RequestAt(s, c.env).Some? {
      OtherRequests(s.ledger, RequestAt(s, c.env).value, c.env.answer, Intent(row));
    }
  }

  // --- judging a row -------------------------------------------------------------------------------------------------------

  /** One look at a row that has no note yet: the row, what the world said, and whether it is then accepted. */
  datatype Judgement = Judgement(row: Row, env: Env, accepted: bool)

  predicate Judges(s: State, c: Choice, row: nat) {
    c.Small? && s.at.AtRow? && s.at.row == row && row < |s.at.rows| && NotedFor(s.journal, row).None?
  }

  function LastJudgement(choices: seq<Choice>, row: nat): Option<Judgement> {
    if choices == [] then None
    else
      var s, c := Run(choices[..|choices| - 1]), choices[|choices| - 1];
      if Judges(s, c, row) then Some(Judgement(s.at.rows[row], c.env, IsAccepted(Step(s, c), row)))
      else LastJudgement(choices[..|choices| - 1], row)
  }

  /** The answers that send a row another way than to a note that it is done, were it accepted. */
  predicate Misjudges(row: Row, e: Env) {
    if IsDelegation(row) then row.Delegate? && (e.answer.Granted? || e.answer.Denied?)
    else if !e.referenceOk then e.answer.Granted? || e.answer.Denied?
    else
      || e.answer.Stale? || e.answer.BadArgument?
      || ((e.answer.Broken? || e.answer.Lost?) && row.Continue? && e.budgetGone)
  }

  predicate IsMisled(j: Judgement) {
    j.accepted && Misjudges(j.row, j.env)
  }

  /** The point after a note or a block of a row comes from that row. */
  ghost predicate ComesFrom(p: Point, q: Point) {
    && (q.Noting? && q != p ==>
          || (p.AtRow? && q.rows == p.rows && q.row == p.row && q.row < |q.rows|)
          || ((p.Blocking? || p.BlockReport?) && q.action.Blocked? && q.rows == p.rows && q.row == p.row))
    && ((q.Blocking? || q.BlockReport?) && q != p ==>
          (p.AtRow? || p.Blocking? || p.BlockReport?) && q.rows == p.rows && q.row == p.row)
  }

  lemma RowComesFrom(s: State, answer: Answer, e: Env)
    requires s.at.AtRow?
    ensures
      var q := StepRow(s, s.at, answer, e).at;
      && ComesFrom(s.at, q) && !q.BlockReport?
      && (q.Noting? || q.Blocking? ==> s.at.row < |s.at.rows| && NotedFor(s.journal, s.at.row).None?)
  {
  }

  lemma ProceedComesFrom(s: State, answer: Answer, e: Env)
    ensures ComesFrom(s.at, Proceed(s, answer, e).at)
  {
    if s.at.AtRow? {
      RowComesFrom(s, answer, e);
    }
  }

  /** A note or a block comes due at a row only when the row is judged. */
  lemma NoteComesDue(s: State, c: Choice, row: nat)
    ensures ComesFrom(s.at, Step(s, c).at)
    ensures
      var q := Step(s, c).at;
      s.at.AtRow? && s.at.row == row && (q.Noting? || q.Blocking? || q.BlockReport?) ==> Judges(s, c, row)
  {
    if c.Small? {
      ProceedComesFrom(s, Asked(s, c.env).1, c.env);
      if s.at.AtRow? {
        RowComesFrom(s, Asked(s, c.env).1, c.env);
      }
    }
  }

  /** How the last judgement of a row shows: in what comes due for it, and in its note. */
  ghost predicate Shows(s: State, j: Option<Judgement>, row: nat) {
    && (s.at.Noting? && s.at.row == row ==>
          j.Some? && (IsMisled(j.value) <==> !IsDone(s.at.action) && IsAccepted(s, row)))
    && ((s.at.Blocking? || s.at.BlockReport?) && s.at.row == row ==>
          j.Some? && (IsMisled(j.value) <==> IsAccepted(s, row)))
    && (NotedFor(s.journal, row).Some? ==>
          j.Some? && (IsMisled(j.value) <==> !IsDone(NotedFor(s.journal, row).value) && IsAccepted(s, row)))
    && (s.at.Noting? && s.at.row == row && IsDone(s.at.action) ==> IsAccepted(s, row))
    && (NotedFor(s.journal, row).Some? && IsDone(NotedFor(s.journal, row).value) ==> IsAccepted(s, row))
  }

  /** Judging a row: a note that it is done, or anything else, by the answer and the verdict. */
  lemma JudgingShows(s: State, e: Env, row: nat)
    requires Judges(s, Small(e), row)
    ensures
      var t := Step(s, Small(e));
      Shows(t, Some(Judgement(s.at.rows[row], e, IsAccepted(t, row))), row)
  {
    var (after, given) := Asked(s, e);
    assert StepRow(s, s.at, given, e).journal == s.journal;
    RowComesFrom(s, given, e);
    if RequestAt(s, e).Some? {
      AnswersOfAsk(s.ledger, RequestAt(s, e).value, e.answer);
    }
  }

  lemma StepShows(s: State, c: Choice, j: Option<Judgement>, row: nat)
    requires !Judges(s, c, row) && Shows(s, j, row)
    ensures Shows(Step(s, c), j, row)
  {
    NoteChanges(s, c, row);
    NoteComesDue(s, c, row);
    AcceptanceChanges(s, c, row);
    StillShows(s, Step(s, c), j, row);
  }

  lemma StillShows(s: State, t: State, j: Option<Judgement>, row: nat)
    requires Shows(s, j, row) && IsAccepted(t, row) == IsAccepted(s, row) && ComesFrom(s.at, t.at)
    requires s.at.AtRow? && s.at.row == row ==> !(t.at.Noting? || t.at.Blocking? || t.at.BlockReport?)
    requires
      || NotedFor(t.journal, row) == NotedFor(s.journal, row)
      || (s.at.Noting? && s.at.row == row && NotedFor(t.journal, row) == Some(s.at.action))
    ensures Shows(t, j, row)
  {
  }

  lemma {:induction false} JudgementsShow(choices: seq<Choice>, row: nat)
    ensures Shows(Run(choices), LastJudgement(choices, row), row)
  {
    if choices != [] {
      var front, c := choices[..|choices| - 1], choices[|choices| - 1];
      JudgementsShow(front, row);
      if Judges(Run(front), c, row) {
        JudgingShows(Run(front), c.env, row);
      } else {
        StepShows(Run(front), c, LastJudgement(front, row), row);
      }
    }
  }

  /** Over every run: what the journal notes as reported or continued, the ledger has accepted. */
  lemma DoneRowsWereAccepted(choices: seq<Choice>, row: nat)
    ensures
      var s := Run(choices);
      NotedFor(s.journal, row).Some? && IsDone(NotedFor(s.journal, row).value) ==> IsAccepted(s, row)
  {
    JudgementsShow(choices, row);
  }

  /**
   * Over every run, with crashes anywhere: a noted row is noted as done exactly when the ledger
   * accepted its report, if and only if the last look at it was not misled.
   */
  lemma NotesTellTheTruthIff(choices: seq<Choice>, row: nat)
    requires NotedFor(Run(choices).journal, row).Some?
    ensures LastJudgement(choices, row).Some?
    ensures
      var s := Run(choices);
      (IsDone(NotedFor(s.journal, row).value) <==> IsAccepted(s, row)) <==> !IsMisled(LastJudgement(choices, row).value)
  {
    JudgementsShow(choices, row);
  }

  // --- attempts closed before they are scanned ---------------------------------------------------------------------------------

  /** The turn's end closes the attempt, start-up closes what a crash left open, and only then is it scanned. */
  ghost predicate ClosesFirst(choices: seq<Choice>) {
    forall k | 0 <= k < |choices| && choices[k].Begin? :: choices[k].close || ClosedAs(Run(choices[..k]).journal).Some?
  }

  function RowsAt(p: Point): Option<seq<Row>> {
    match p
    case AtRow(rows, _, _) => Some(rows)
    case Noting(rows, _, _, _) => Some(rows)
    case Blocking(rows, _, _) => Some(rows)
    case BlockReport(rows, _, _, _) => Some(rows)
    case FinalReport(rows, _, _) => Some(rows)
    case SelfMessage(rows, _) => Some(rows)
    case Finishing(rows) => Some(rows)
    case _ => None
  }

  /** Whatever is worked on is what the attempt was closed with. */
  ghost predicate IsAsClosed(s: State) {
    && (s.at.Opening? ==> s.at.close || ClosedAs(s.journal).Some?)
    && (s.at.Gate? ==> ClosedAs(s.journal).Some?)
    && (RowsAt(s.at).Some? ==> ClosedAs(s.journal) == Some(Some(Rows(RowsAt(s.at).value))))
  }

  lemma ClosedStays(s: State, c: Choice)
    ensures ClosedAs(s.journal).Some? ==> ClosedAs(Step(s, c).journal) == ClosedAs(s.journal)
  {
    var r := StepWrites(s, c);
    if r.Some? {
      LogOneMore(s.journal, r.value, 0);
    } else {
      assert s.journal + [] == s.journal;
    }
  }

  lemma OpeningCloses(s: State)
    requires s.at.Opening? && s.at.close
    ensures ClosedAs(StepOpening(s, true).journal).Some?
  {
    if ClosedAs(s.journal).None? {
      LogOneMore(s.journal, Closed(s.file), 0);
    }
  }

  /** Rows are worked on from the gate on, and the gate lets nothing else through than what was closed. */
  lemma RowsComeFrom(s: State, c: Choice)
    ensures
      var t := Step(s, c);
      && (RowsAt(t.at).Some? && RowsAt(t.at) != RowsAt(s.at) ==>
            s.at.Gate? && s.at.content == Rows(RowsAt(t.at).value)
            && (ClosedAs(s.journal).Some? ==> ClosedAs(s.journal) == Some(Some(s.at.content))))
      && (t.at.Opening? && t.at != s.at ==> c.Begin? && t.at.close == c.close)
      && (t.at.Gate? && t.at != s.at ==> s.at.Opening? && t.journal == StepOpening(s, s.at.close).journal)
  {
    if c.Small? && s.at.AtRow? {
      RowKeepsRows(s, Asked(s, c.env).1, c.env);
    }
  }

  lemma RowKeepsRows(s: State, answer: Answer, e: Env)
    requires s.at.AtRow?
    ensures
      var q := StepRow(s, s.at, answer, e).at;
      (RowsAt(q).Some? ==> RowsAt(q) == Some(s.at.rows)) && !q.Opening? && !q.Gate?
  {
  }

  lemma StepKeepsAsClosed(s: State, c: Choice)
    requires IsAsClosed(s) && (c.Begin? ==> c.close || ClosedAs(s.journal).Some?)
    ensures IsAsClosed(Step(s, c))
  {
    ClosedStays(s, c);
    RowsComeFrom(s, c);
    if s.at.Opening? && s.at.close {
      OpeningCloses(s);
    }
    StillClosed(s, Step(s, c), c);
  }

  lemma StillClosed(s: State, t: State, c: Choice)
    requires IsAsClosed(s) && (c.Begin? ==> c.close || ClosedAs(s.journal).Some?)
    requires ClosedAs(s.journal).Some? ==> ClosedAs(t.journal) == ClosedAs(s.journal)
    requires s.at.Opening? && s.at.close && t.at.Gate? && t.at != s.at ==> ClosedAs(t.journal).Some?
    requires RowsAt(t.at).Some? && RowsAt(t.at) != RowsAt(s.at) ==>
      s.at.Gate? && s.at.content == Rows(RowsAt(t.at).value)
      && (ClosedAs(s.journal).Some? ==> ClosedAs(s.journal) == Some(Some(s.at.content)))
    requires t.at.Opening? && t.at != s.at ==> c.Begin? && t.at.close == c.close
    requires t.at.Gate? && t.at != s.at ==> s.at.Opening?
    ensures IsAsClosed(t)
  {
  }

  /** The ledger accepted the row only as a report or a continuation of the closed content. */
  ghost predicate IsOfClosed(s: State, row: nat) {
    IsAccepted(s, row) ==>
      && ClosedAs(s.journal).Some? && ClosedAs(s.journal).value.Some? && ClosedAs(s.journal).value.value.Rows?
      && var rows := ClosedAs(s.journal).value.value.rows;
         row < |rows| && !IsDelegation(rows[row])
  }

  lemma StepKeepsOfClosed(s: State, c: Choice, row: nat)
    requires IsAsClosed(s) && IsOfClosed(s, row)
    ensures IsOfClosed(Step(s, c), row)
    ensures Judges(s, c, row) && IsAccepted(Step(s, c), row) ==> !IsDelegation(s.at.rows[row])
  {
    ClosedStays(s, c);
    AcceptanceChanges(s, c, row);
  }

  lemma {:induction false} ClosedRunsReport(choices: seq<Choice>, row: nat)
    requires ClosesFirst(choices)
    ensures IsAsClosed(Run(choices)) && IsOfClosed(Run(choices), row)
    ensures
      var j := LastJudgement(choices, row);
      j.Some? && j.value.accepted ==> !IsDelegation(j.value.row)
  {
    if choices != [] {
      var front, c := choices[..|choices| - 1], choices[|choices| - 1];
      forall k | 0 <= k < |front| && front[k].Begin? ensures front[k].close || ClosedAs(Run(front[..k]).journal).Some? {
        assert front[..k] == choices[..k];
      }
      ClosedRunsReport(front, row);
      StepKeepsAsClosed(Run(front), c);
      StepKeepsOfClosed(Run(front), c, row);
    }
  }

  /**
   * When attempts are closed before they are scanned, the note of a row is true exactly unless the
   * last look at it found the report accepted and went wrong in one of three ways: its reference was
   * refused, its retried request was refused, or its command broke with the turns used up.
   */
  lemma ClosedNotesTellTheTruthIff(choices: seq<Choice>, row: nat)
    requires ClosesFirst(choices) && NotedFor(Run(choices).journal, row).Some?
    ensures LastJudgement(choices, row).Some?
    ensures
      var s := Run(choices);
      var j := LastJudgement(choices, row).value;
      var e := j.env;
      (IsDone(NotedFor(s.journal, row).value) <==> IsAccepted(s, row))
      <==> !(j.accepted
             && (if !e.referenceOk then e.answer.Granted? || e.answer.Denied?
                 else || e.answer.Stale? || e.answer.BadArgument?
                      || ((e.answer.Broken? || e.answer.Lost?) && j.row.Continue? && e.budgetGone)))
  {
    NotesTellTheTruthIff(choices, row);
    ClosedRunsReport(choices, row);
  }

  // --- each of the three ways happens ----------------------------------------------------------------------------------------------

  /** The attempt of one row, accepted, and the crash before it is noted. */
  lemma AcceptedThenCrashed(row: Row, e: Env)
    requires !IsDelegation(row) && e.taskKnown && e.contextOk && e.referenceOk && e.answer.Granted?
    ensures
      var file := Some(Rows([row]));
      Run([WorkerWrites(file), Begin(true), Small(e), Small(e), Small(e), Crash])
      == State(file, [(Intent(0), Accepted)], [Closed(file)], [], Idle)
  {
    var rows := [row];
    var file := Some(Rows(rows));
    var choices := [WorkerWrites(file), Begin(true), Small(e), Small(e), Small(e), Crash];
    PrefixesOfRun(choices);
    assert Run(choices[..2]) == State(file, [], [], [], Opening(true));
    LogOneMore([], Closed(file), 0);
    assert [Closed(file)] == [] + [Closed(file)];
    assert Run(choices[..3]) == State(file, [], [Closed(file)], [], Gate(Rows(rows)));
    assert Run(choices[..4]) == State(file, [], [Closed(file)], [], AtRow(rows, 0, NO_ROWS));
    assert Run(choices[..5]) == State(file, [(Intent(0), Accepted)], [Closed(file)], [], Noting(rows, 0, NO_ROWS, Done(row)));
  }

  lemma PrefixesOfRun(choices: seq<Choice>)
    ensures forall k | 0 < k <= |choices| :: Run(choices[..k]) == Step(Run(choices[..k - 1]), choices[k - 1])
    ensures Run(choices[..0]) == INITIAL && choices[..|choices|] == choices
  {
    forall k | 0 < k <= |choices| ensures Run(choices[..k]) == Step(Run(choices[..k - 1]), choices[k - 1]) {
      assert choices[..k][..k - 1] == choices[..k - 1];
    }
  }

  lemma OneMore(choices: seq<Choice>, c: Choice)
    ensures Run(choices + [c]) == Step(Run(choices), c)
  {
    assert (choices + [c])[..|choices|] == choices;
  }

  /** The row is found again after the restart, accepted and not noted. */
  lemma FoundAgain(choices: seq<Choice>, row: Row, e: Env)
    requires !IsDelegation(row) && e.taskKnown && e.contextOk
    requires Run(choices) == State(Some(Rows([row])), [(Intent(0), Accepted)], [Closed(Some(Rows([row])))], [], Idle)
    ensures Run(choices + [Begin(true)] + [Small(e)] + [Small(e)]) == Go(Run(choices), AtRow([row], 0, NO_ROWS))
  {
    var file := Some(Rows([row]));
    var s := Run(choices);
    assert s.journal[..0] == [];
    assert ClosedAs(s.journal) == Some(file) && !HasApplied(s.journal) && Tainted !in s.journal;
    OneMore(choices, Begin(true));
    OneMore(choices + [Begin(true)], Small(e));
    assert Run(choices + [Begin(true)] + [Small(e)]) == Go(s, Gate(Rows([row])));
    OneMore(choices + [Begin(true)] + [Small(e)], Small(e));
  }

  /** A misjudgement of that row leads to a note that it is not done, at once or by way of a block. */
  lemma MisjudgedIsNotDone(row: Row, e: Env)
    requires !IsDelegation(row) && Misjudges(row, e)
    ensures
      var file := Some(Rows([row]));
      var s := State(file, [(Intent(0), Accepted)], [Closed(file)], [], AtRow([row], 0, NO_ROWS));
      var t := Step(s, Small(e));
      && IsAccepted(t, 0) && NotedFor(t.journal, 0).None? && VerdictOf(t.ledger, Block).None?
      && (t.at == Noting([row], 0, NO_ROWS, Rejected) || t.at == Blocking([row], 0, NO_ROWS))
  {
    var file := Some(Rows([row]));
    var s := State(file, [(Intent(0), Accepted)], [Closed(file)], [], AtRow([row], 0, NO_ROWS));
    assert s.journal[..0] == [] && s.ledger[..0] == [];
    assert NotedFor(s.journal, 0) == NotedFor([], 0) == None;
    OtherRequests(s.ledger, RejectReference(0), e.answer, Intent(0));
    OtherRequests(s.ledger, RejectReference(0), e.answer, Block);
    OtherRequests(s.ledger, Intent(0), e.answer, Block);
    assert VerdictOf(s.ledger, RejectReference(0)) == VerdictOf([], RejectReference(0)) == None;
    assert VerdictOf(s.ledger, Block) == VerdictOf([], Block) == None;
  }

  lemma NotingIsNoted(s: State, e: Env)
    requires s.at.Noting? && NotedFor(s.journal, s.at.row).None?
    ensures
      var t := Step(s, Small(e));
      t.ledger == s.ledger && NotedFor(t.journal, s.at.row) == Some(s.at.action)
  {
    LogOneMore(s.journal, Noted(s.at.row, s.at.action), s.at.row);
  }

  lemma RefusedBlockIsDue(s: State, e: Env)
    requires s.at.Blocking? && e.answer.Denied? && VerdictOf(s.ledger, Block).None?
    ensures
      var t := Step(s, Small(e));
      t.journal == s.journal && t.at == Noting(s.at.rows, s.at.row, s.at.tally, Blocked)
      && t.ledger == s.ledger + [(Block, Refused)]
  {
  }

  /** A run at whose end the ledger has accepted row zero and the journal says it was not done. */
  ghost predicate Misleads(choices: seq<Choice>) {
    var s := Run(choices);
    IsAccepted(s, 0) && NotedFor(s.journal, 0).Some? && !IsDone(NotedFor(s.journal, 0).value)
  }

  /** A wrong note that is due is written, and the ledger's verdict stands. */
  lemma DueIsNoted(choices: seq<Choice>, after: Env) returns (more: seq<Choice>)
    requires after.answer.Denied?
    requires
      var s := Run(choices);
      && IsAccepted(s, 0) && NotedFor(s.journal, 0).None? && VerdictOf(s.ledger, Block).None?
      && ((s.at.Noting? && !IsDone(s.at.action)) || s.at.Blocking?) && s.at.row == 0
    ensures Misleads(choices + more) && forall c | c in more :: c.Small?
  {
    var s := Run(choices);
    if s.at.Noting? {
      NotingIsNoted(s, after);
      more := [Small(after)];
      OneMore(choices, Small(after));
    } else {
      RefusedBlockIsDue(s, after);
      OneMore(choices, Small(after));
      LedgerOneMore(s.ledger, Block, Refused, Intent(0));
      NotingIsNoted(Run(choices + [Small(after)]), after);
      more := [Small(after)] + [Small(after)];
      OneMore(choices + [Small(after)], Small(after));
      assert choices + more == choices + [Small(after)] + [Small(after)];
    }
  }

  lemma AlwaysClosing(choices: seq<Choice>)
    requires forall c | c in choices :: c.Begin? ==> c.close
    ensures ClosesFirst(choices)
  {
    forall k | 0 <= k < |choices| && choices[k].Begin? ensures choices[k].close {
      assert choices[k] in choices;
    }
  }

  /**
   * Whatever world misjudges an accepted row: a run of a closed attempt, with one crash, at whose end
   * the ledger has accepted the report and the journal says it was rejected or blocked.
   */
  lemma EveryMisjudgementMisleads(row: Row, e: Env, good: Env) returns (choices: seq<Choice>)
    requires !IsDelegation(row) && Misjudges(row, e)
    requires good.taskKnown && good.contextOk && good.referenceOk && good.answer.Granted?
    ensures Misleads(choices) && Small(e) in choices && ClosesFirst(choices)
  {
    var first := [WorkerWrites(Some(Rows([row]))), Begin(true), Small(good), Small(good), Small(good), Crash];
    AcceptedThenCrashed(row, good);
    FoundAgain(first, row, good);
    var found := first + [Begin(true)] + [Small(good)] + [Small(good)];
    MisjudgedIsNotDone(row, e);
    OneMore(found, Small(e));
    var after := good.(answer := Denied);
    var more := DueIsNoted(found + [Small(e)], after);
    choices := found + [Small(e)] + more;
    AlwaysClosing(choices);
  }

  /** A reference judged differently after a crash: the accepted report is noted as rejected. */
  lemma UnstableReferencesMislead(good: Env) returns (choices: seq<Choice>)
    requires good.taskKnown && good.contextOk && good.referenceOk && good.answer.Granted?
    ensures Misleads(choices) && Small(good.(referenceOk := false)) in choices && ClosesFirst(choices)
  {
    choices := EveryMisjudgementMisleads(Report(true), good.(referenceOk := false), good);
  }

  /** A team that has lost its lead when the report is retried, exit code 64: the same, with a good reference. */
  lemma RefusedRetriesMislead(good: Env) returns (choices: seq<Choice>)
    requires good.taskKnown && good.contextOk && good.referenceOk && good.answer.Granted?
    ensures Misleads(choices) && Small(good.(answer := BadArgument)) in choices && ClosesFirst(choices)
  {
    choices := EveryMisjudgementMisleads(Report(true), good.(answer := BadArgument), good);
  }

  /** A continuation whose retried command breaks when its own turn was the last: noted as blocked. */
  lemma BrokenContinuationsMislead(good: Env) returns (choices: seq<Choice>)
    requires good.taskKnown && good.contextOk && good.referenceOk && good.answer.Granted?
    ensures Misleads(choices) && ClosesFirst(choices)
    ensures Small(good.(answer := Broken, budgetGone := true)) in choices
  {
    choices := EveryMisjudgementMisleads(Continue, good.(answer := Broken, budgetGone := true), good);
  }
}
