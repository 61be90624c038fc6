/**
 * Where the procedure of an intent file leads from each place, a few small steps at a time: what is then
 * in the file, the journal, the ledger and the inbox.
 */
module IntentPaths {
  import opened Results
  import opened IntentApply
  import opened IntentSends

  function Steps(s: State, envs: seq<Env>): State
    decreases |envs|
  {
    if envs == [] then s else Steps(Step(s, Small(envs[0])), envs[1..])
  }

  lemma TwoSteps(s: State, a: Env, b: Env)
    ensures Steps(s, [a, b]) == Step(Step(s, Small(a)), Small(b))
  {
    assert [a, b][1..] == [b] && [b][1..] == [];
    assert Steps(Step(s, Small(a)), [b]) == Step(Step(s, Small(a)), Small(b));
  }

  lemma ThreeSteps(s: State, a: Env, b: Env, c: Env)
    ensures Steps(s, [a, b, c]) == Step(Step(Step(s, Small(a)), Small(b)), Small(c))
  {
    assert [a, b, c][1..] == [b, c];
    TwoSteps(Step(s, Small(a)), b, c);
  }

  lemma FourSteps(s: State, a: Env, b: Env, c: Env, d: Env)
    ensures Steps(s, [a, b, c, d]) == Step(Step(Step(Step(s, Small(a)), Small(b)), Small(c)), Small(d))
  {
    assert [a, b, c, d][1..] == [b, c, d];
    ThreeSteps(Step(s, Small(a)), b, c, d);
  }

  /** The journal with what the file is closed as, once. */
  function WithClosing(s: State, close: bool): seq<Record> {
    if close && forall k | 0 <= k < |s.journal| :: !s.journal[k].Closed? then s.journal + [Closed(s.file)] else s.journal
  }

  lemma {:induction false} ClosedAsIff(journal: seq<Record>)
    ensures ClosedAs(journal).None? <==> forall k | 0 <= k < |journal| :: !journal[k].Closed?
  {
    if journal != [] {
      ClosedAsIff(journal[..|journal| - 1]);
      assert forall k | 0 <= k < |journal| - 1 :: journal[k] == journal[..|journal| - 1][k];
    }
  }

  // --- what is put away ------------------------------------------------------------------------------------

  /** Opening closes the attempt with what is in the file, if it was not closed before, and an absent file ends there. */
  lemma AbsentFileIsClosed(s: State, close: bool, e: Env)
    requires s.at == Opening(close) && s.file.None?
    ensures Step(s, Small(e)) == s.(journal := WithClosing(s, close), at := Idle)
  {
    ClosedAsIff(s.journal);
  }

  /** Start-up closes an attempt that was left open the same way, and a turn's end or a scan opens its file. */
  lemma StartUpCloses(s: State, close: bool)
    requires s.at.Idle?
    ensures Step(s, CloseOpen) == s.(journal := WithClosing(s, true))
    ensures Step(s, Begin(close)) == s.(at := Opening(close))
  {
    ClosedAsIff(s.journal);
  }

  lemma NotTaintedByClosing(s: State, close: bool)
    ensures Tainted in WithClosing(s, close) <==> Tainted in s.journal
    ensures TaintReplayed in WithClosing(s, close) <==> TaintReplayed in s.journal
  {
  }

  /** A file that cannot be read is taken away, and the attempt is marked. */
  lemma UnreadableIsQuarantined(s: State, close: bool, a: Env, b: Env, c: Env)
    requires s.at == Opening(close) && s.file == Some(Unreadable) && Tainted !in s.journal
    ensures Steps(s, [a, b, c]) == s.(file := None, journal := WithClosing(s, close) + [Tainted], at := Idle)
  {
    ThreeSteps(s, a, b, c);
    ClosedAsIff(s.journal);
    NotTaintedByClosing(s, close);
    var q := s.(journal := WithClosing(s, close), at := Quarantining);
    assert Step(s, Small(a)) == q;
    QuarantineTaints(q, b, c);
  }

  /** So is one that is no list of rows, is not what was closed, or is of another context. */
  lemma UnfitIsQuarantined(s: State, a: Env, b: Env, c: Env)
    requires s.at.Gate? && Tainted !in s.journal
    requires
      || (ClosedAs(s.journal).Some? && ClosedAs(s.journal).value != Some(s.at.content))
      || (!HasApplied(s.journal) && (!s.at.content.Rows? || (a.taskKnown && !a.contextOk)))
    ensures Steps(s, [a, b, c]) == s.(file := None, journal := s.journal + [Tainted], at := Idle)
  {
    ThreeSteps(s, a, b, c);
  }

  /** A file that comes back after it was applied is taken away, and that is all. */
  lemma AppliedFileIsDropped(s: State, a: Env, b: Env)
    requires s.at.Gate? && Tainted !in s.journal && HasApplied(s.journal)
    requires ClosedAs(s.journal).Some? ==> ClosedAs(s.journal).value == Some(s.at.content)
    ensures Steps(s, [a, b]) == s.(file := None, at := Idle)
  {
    TwoSteps(s, a, b);
  }

  /** A file of a marked attempt is taken away, and noted the first time. */
  lemma MarkedFileIsDropped(s: State, a: Env, b: Env, c: Env)
    requires s.at.Gate? && Tainted in s.journal
    ensures Steps(s, [a, b, c])
         == s.(file := None, at := Idle,
               journal := if TaintReplayed in s.journal then s.journal else s.journal + [TaintReplayed])
  {
    ThreeSteps(s, a, b, c);
    assert Step(s, Small(a)) == s.(at := Replaying);
    ReplayDrops(s.(at := Replaying), b, c);
  }

  lemma ReplayDrops(s: State, b: Env, c: Env)
    requires s.at.Replaying?
    ensures Step(Step(s, Small(b)), Small(c))
         == s.(file := None, at := Idle,
               journal := if TaintReplayed in s.journal then s.journal else s.journal + [TaintReplayed])
  {
  }

  lemma RetryCounts(journal: seq<Record>)
    ensures CountRetries(journal + [Retried]) == CountRetries(journal) + 1
  {
    assert (journal + [Retried])[..|journal|] == journal;
  }

  /** A retry is noted, and the file stays for the next time if there are not five yet. */
  lemma RetryKeepsTheFile(s: State, e: Env)
    requires s.at.Retrying? && CountRetries(s.journal) < 4
    ensures Step(s, Small(e)) == s.(journal := s.journal + [Retried], at := Idle)
  {
    RetryCounts(s.journal);
  }

  /** The fifth takes it away. */
  lemma FifthRetryQuarantines(s: State, a: Env, b: Env, c: Env)
    requires s.at.Retrying? && Tainted !in s.journal && CountRetries(s.journal) >= 4
    ensures Steps(s, [a, b, c]) == s.(file := None, journal := s.journal + [Retried] + [Tainted], at := Idle)
  {
    ThreeSteps(s, a, b, c);
    RetryLeads(s, a);
    var q := s.(journal := s.journal + [Retried], at := Quarantining);
    assert Tainted !in q.journal;
    QuarantineTaints(q, b, c);
  }

  lemma RetryLeads(s: State, e: Env)
    requires s.at.Retrying? && CountRetries(s.journal) >= 4
    ensures Step(s, Small(e)) == s.(journal := s.journal + [Retried], at := Quarantining)
  {
    RetryCounts(s.journal);
  }

  /** An exception anywhere is a retry, except while a report is sent again. */
  lemma RaisedIsRetried(s: State)
    ensures Step(s, Raise) == s.(at := if s.at.Idle? || s.at.Redelivering? then Idle else Retrying)
  {
  }

  // --- one row ---------------------------------------------------------------------------------------------------

  /** What the answer to a row's request leaves in the journal, when it is not the turns that are used up. */
  function OutcomeOf(row: nat, r: Row, answer: Answer, e: Env): Record {
    var refusedAnyway := r.Delegate? || !e.referenceOk;
    match answer
    case Granted => Noted(row, if refusedAnyway then Rejected else if r.Report? then Reported(r.final) else Continued)
    case Denied => Noted(row, Rejected)
    case Stale => if refusedAnyway then Retried else Noted(row, Rejected)
    case BadArgument => if refusedAnyway then Retried else Noted(row, Rejected)
    case _ => Retried
  }

  /** The row's turns are used up, and its request did not go through. */
  predicate IsUsedUp(r: Row, answer: Answer, e: Env) {
    r.Continue? && e.referenceOk && e.budgetGone && !answer.Granted? && !answer.Busy?
  }

  lemma RowLeads(s: State, answer: Answer, e: Env)
    requires s.at.AtRow? && s.at.row < |s.at.rows| && NotedFor(s.journal, s.at.row).None?
    requires !s.at.rows[s.at.row].ForeignDelegate? && !IsUsedUp(s.at.rows[s.at.row], answer, e)
    ensures
      var p := s.at;
      Proceed(s, answer, e) == s.(at := match OutcomeOf(p.row, p.rows[p.row], answer, e)
                                        case Noted(row, action) => Noting(p.rows, row, p.tally, action)
                                        case _ => Retrying)
  {
  }

  lemma RecordingLeads(s: State, p: Point, r: Record, e: Env)
    requires r.Noted? || r.Retried?
    requires s.at == if r.Noted? && p.AtRow? then Noting(p.rows, r.row, p.tally, r.action) else Retrying
    requires p.AtRow?
    ensures
      var t := Step(s, Small(e));
      t.journal == s.journal + [r] && t.ledger == s.ledger && t.inbox == s.inbox && t.file == s.file
  {
  }

  /** A row that is not noted yet is noted or retried as its request is answered. */
  lemma RowIsAnswered(s: State, e: Env, next: Env)
    requires s.at.AtRow? && s.at.row < |s.at.rows| && NotedFor(s.journal, s.at.row).None?
    requires !s.at.rows[s.at.row].ForeignDelegate? && !IsUsedUp(s.at.rows[s.at.row], Asked(s, e).1, e)
    ensures
      Steps(s, [e, next]).journal == s.journal + [OutcomeOf(s.at.row, s.at.rows[s.at.row], Asked(s, e).1, e)]
    ensures Steps(s, [e, next]).ledger == Asked(s, e).0 && Steps(s, [e, next]).inbox == s.inbox && Steps(s, [e, next]).file == s.file
  {
    TwoSteps(s, e, next);
    RowLeads(s, Asked(s, e).1, e);
    RecordingLeads(Step(s, Small(e)), s.at, OutcomeOf(s.at.row, s.at.rows[s.at.row], Asked(s, e).1, e), next);
  }

  /** A delegation to another run is a reason to take the file away. */
  lemma ForeignRowIsQuarantined(s: State, a: Env, b: Env, c: Env)
    requires s.at.AtRow? && s.at.row < |s.at.rows| && NotedFor(s.journal, s.at.row).None? && Tainted !in s.journal
    requires s.at.rows[s.at.row].ForeignDelegate?
    ensures Steps(s, [a, b, c]) == s.(file := None, journal := s.journal + [Tainted], at := Idle)
  {
    ThreeSteps(s, a, b, c);
  }

  /** A row noted now counts: as handled unless it was rejected, as final if its report was, as the one to go on from if it continues. */
  lemma NotingCounts(s: State, e: Env)
    requires s.at.Noting?
    ensures
      var t, before, action := Step(s, Small(e)), s.at.tally, s.at.action;
      && t.journal == s.journal + [Noted(s.at.row, action)] && t.inbox == s.inbox && t.ledger == s.ledger && t.file == s.file
      && t.at.AtRow? && t.at.rows == s.at.rows && t.at.row == s.at.row + 1
      && (t.at.tally.handled <==> before.handled || action != Rejected)
      && t.at.tally.rejections == before.rejections + (if action == Rejected then 1 else 0)
      && (t.at.tally.final <==> before.final || action == Reported(true))
      && t.at.tally.continuation == (if action == Continued then Some(s.at.row) else before.continuation)
  {
  }

  /** A continuation whose turns are used up is reported to the requester as blocked, once, and then noted so. */
  lemma BlockIsReported(s: State, asking: Env, due: Env, sending: Env, noting: Env)
    requires s.at.Blocking? && Asked(s, asking).1.Granted? && ReportDelivered !in s.journal && due.textOk && sending.sendOk
    ensures
      var t := Steps(s, [asking, due, sending, noting]);
      && t.at == Noting(s.at.rows, s.at.row, s.at.tally, Blocked)
      && t.journal == (if ReportPending in s.journal then s.journal else s.journal + [ReportPending]) + [ReportDelivered]
      && ReportMessage in t.inbox && t.ledger == Asked(s, asking).0
  {
    FourSteps(s, asking, due, sending, noting);
  }

  /** One whose block the ledger refuses is noted at once, and any other answer is a retry. */
  lemma UnblockedIsNotReported(s: State, e: Env, next: Env)
    requires s.at.Blocking? && !Asked(s, e).1.Granted?
    ensures
      var t := Steps(s, [e, next]);
      && t.journal == s.journal + [if Asked(s, e).1.Denied? then Noted(s.at.row, Blocked) else Retried]
      && t.inbox == s.inbox && t.ledger == Asked(s, e).0
  {
    TwoSteps(s, e, next);
  }

  // --- the end ------------------------------------------------------------------------------------------------------

  /** After the last message the attempt is applied, with the number of its rows, and the file is taken away. */
  lemma FinishedFileIsDropped(s: State, a: Env, b: Env, c: Env)
    requires s.at.SelfMessage?
    ensures
      var t := Steps(s, [a, b, c]);
      && t.file.None? && t.at.Idle? && t.journal == s.journal + [Applied(|s.at.rows|)] && t.ledger == s.ledger
  {
    ThreeSteps(s, a, b, c);
  }
}
