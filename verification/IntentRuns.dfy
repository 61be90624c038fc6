/**
 * Applying an intent file on the real stores: the task stream with its locked step and the message
 * journals with theirs, with everybody else's requests and messages between any two steps.
 */
module IntentRuns {
  import opened Results
  import L = TaskLedger
  import D = TaskDecisions
  import opened TaskCli
  import opened IntentApply
  import opened IntentNotes
  import opened IntentSends
  import opened IntentLedger
  import opened IntentMail
  import C = CausationHistory
  import M = MessageJournal

  /** The supervisor's own state, whose ledger and inbox stay empty, beside the stream and the inboxes. */
  datatype Real = Real(engine: State, entries: seq<L.Entry>, mail: Mail)

  const START := Real(INITIAL, [], map[])

  /** What the commands of a step are run with. */
  datatype Tools = Tools(req: D.Request, world: World, caller: M.Caller, body: string)

  datatype Act =
    | Engine(choice: Choice, tools: Tools)
    | Requesting(req: D.Request, world: World)
    | Mailing(to: string, caller: M.Caller, cmd: M.Command)

  /** A small step on the real stores. */
  function Advanced(r: Real, a: Attempt, e: Env, t: Tools): Real
    requires NextSeq(r.entries) >= 0
  {
    var s := r.engine;
    var (entries, given) :=
      if RequestAt(s, e).Some? then Outcome(r.entries, t.req, t.world, e.answer) else (r.entries, e.answer);
    var mail :=
      if SendAt(s, e).Some? && (e.sendOk || e.sendLands)
      then Commanded(r.mail, Recipient(a, SendAt(s, e).value), t.caller, SendOf(a, SendAt(s, e).value, t.body))
      else r.mail;
    Real(Proceed(s, given, e), entries, mail)
  }

  function RealStep(r: Real, a: Attempt, act: Act): Real
    requires NextSeq(r.entries) >= 0
  {
    match act
    case Engine(Small(e), tools) => Advanced(r, a, e, tools)
    case Engine(choice, _) => r.(engine := Step(r.engine, choice))
    case Requesting(req, world) => r.(entries := Submit(r.entries, req, world).entries)
    case Mailing(to, caller, cmd) => r.(mail := Commanded(r.mail, to, caller, cmd))
  }

  lemma NumbersStayPositive(r: Real, a: Attempt, act: Act)
    requires NextSeq(r.entries) >= 0
    ensures NextSeq(RealStep(r, a, act).entries) >= 0
  {
  }

  function RealRun(a: Attempt, acts: seq<Act>): (r: Real)
    ensures NextSeq(r.entries) >= 0
  {
    if acts == [] then START
    else
      var before := RealRun(a, acts[..|acts| - 1]);
      NumbersStayPositive(before, a, acts[|acts| - 1]);
      RealStep(before, a, acts[|acts| - 1])
  }

  /** The supervisor asks what its place says; nobody else uses the attempt's causations or message ids. */
  ghost predicate IsAct(r: Real, a: Attempt, act: Act) {
    match act
    case Engine(choice, t) =>
      choice.Small? ==>
        && (RequestAt(r.engine, choice.env).Some? ==>
              IsRequestOf(t.req, a.id, RequestAt(r.engine, choice.env).value, a.task))
        && M.IsCaller(t.caller) && t.body != ""
    case Requesting(req, _) => forall c :: req.causation != Name(a.id, c)
    case Mailing(_, caller, cmd) =>
      M.IsCaller(caller) && M.IsCommand(cmd) && (cmd.Send? ==> forall m :: cmd.id != MessageName(a, m))
  }

  ghost predicate AreActs(a: Attempt, acts: seq<Act>) {
    IsAttempt(a) && forall k | 0 <= k < |acts| :: IsAct(RealRun(a, acts[..k]), a, acts[k])
  }

  lemma FrontIsActs(a: Attempt, acts: seq<Act>)
    requires AreActs(a, acts) && acts != []
    ensures AreActs(a, acts[..|acts| - 1])
    ensures IsAct(RealRun(a, acts[..|acts| - 1]), a, acts[|acts| - 1])
  {
    var front := acts[..|acts| - 1];
    forall k | 0 <= k < |front| ensures IsAct(RealRun(a, front[..k]), a, front[k]) {
      assert front[..k] == acts[..k];
    }
  }

  // --- a real run is a run -------------------------------------------------------------------------------

  /** Stream and inboxes hold what the abstract state's ledger and inbox hold; the rest is the same. */
  ghost predicate Simulates(r: Real, a: Attempt, s: State) {
    && r.engine == s.(ledger := [], inbox := [])
    && Holds(r.entries, a.id, s.ledger) && IsOwn(r.entries, a.id, a.task)
    && HoldsMail(r.mail, a, s.inbox)
  }

  /** The choice of the supervisor, with the answer the stream gives. */
  function Translated(r: Real, choice: Choice, t: Tools): Choice
    requires NextSeq(r.entries) >= 0
  {
    if choice.Small? && RequestAt(r.engine, choice.env).Some?
    then Small(choice.env.(answer := AnswerFor(r.entries, t.req, t.world, choice.env.answer)))
    else choice
  }

  function Choices(a: Attempt, acts: seq<Act>): seq<Choice> {
    if acts == [] then []
    else
      var front, act := acts[..|acts| - 1], acts[|acts| - 1];
      Choices(a, front) + if act.Engine? then [Translated(RealRun(a, front), act.choice, act.tools)] else []
  }

  /** The supervisor's own part of a step does not look into ledger or inbox. */
  lemma ProceedOnItsOwn(s: State, answer: Answer, e: Env)
    ensures Proceed(s.(ledger := [], inbox := []), answer, e) == Proceed(s, answer, e).(ledger := [], inbox := [])
  {
    match s.at
    case AtRow(_, _, _) => RowOnItsOwn(s, answer, e);
    case BlockReport(rows, row, tally, stage) =>
      ReportOnItsOwn(s, stage, BlockReport(rows, row, tally, stage + 1), Noting(rows, row, tally, Blocked), e);
    case FinalReport(rows, tally, stage) =>
      ReportOnItsOwn(s, stage, FinalReport(rows, tally, stage + 1), SelfMessage(rows, tally), e);
    case Redelivering(stage) => ReportOnItsOwn(s, stage, Redelivering(stage + 1), Idle, e);
    case Gate(content) => GateOnItsOwn(s, content, e);
    case _ =>
  }

  lemma RowOnItsOwn(s: State, answer: Answer, e: Env)
    requires s.at.AtRow?
    ensures StepRow(s.(ledger := [], inbox := []), s.at, answer, e) == StepRow(s, s.at, answer, e).(ledger := [], inbox := [])
  {
  }

  lemma GateOnItsOwn(s: State, content: Content, e: Env)
    ensures StepGate(s.(ledger := [], inbox := []), content, e) == StepGate(s, content, e).(ledger := [], inbox := [])
  {
  }

  lemma ReportOnItsOwn(s: State, stage: nat, again: Point, after: Point, e: Env)
    ensures StepReport(s.(ledger := [], inbox := []), stage, again, after, e)
         == StepReport(s, stage, again, after, e).(ledger := [], inbox := [])
  {
    var t := s.(ledger := [], inbox := []);
    if stage == 0 {
      assert ReportDelivered in t.journal <==> ReportDelivered in s.journal;
      assert ReportPending in t.journal <==> ReportPending in s.journal;
      LogOnItsOwn(s, ReportPending, again);
    } else {
      LogOnItsOwn(s, ReportDelivered, after);
    }
  }

  lemma LogOnItsOwn(s: State, r: Record, p: Point)
    ensures Go(Log(s.(ledger := [], inbox := []), r), p) == Go(Log(s, r), p).(ledger := [], inbox := [])
  {
  }

  lemma StepOnItsOwn(s: State, choice: Choice)
    requires !choice.Small?
    ensures Step(s.(ledger := [], inbox := []), choice) == Step(s, choice).(ledger := [], inbox := [])
    ensures Step(s, choice).ledger == s.ledger && Step(s, choice).inbox == s.inbox
  {
  }

  /** What a step asks and sends is asked and sent whatever the answer. */
  lemma SameRequests(s: State, e: Env, answer: Answer)
    ensures RequestAt(s, e.(answer := answer)) == RequestAt(s, e) == RequestAt(s.(ledger := [], inbox := []), e)
    ensures SendAt(s, e.(answer := answer)) == SendAt(s, e) == SendAt(s.(ledger := [], inbox := []), e)
  {
  }

  lemma ProceedWithGiven(s: State, given: Answer, e: Env, answer: Answer)
    ensures Proceed(s, given, e.(answer := answer)) == Proceed(s, given, e)
  {
  }

  /** The stream's part of a small step. */
  lemma RequestSimulates(r: Real, a: Attempt, s: State, e: Env, t: Tools)
    requires NextSeq(r.entries) >= 0 && Simulates(r, a, s) && IsAct(r, a, Engine(Small(e), t))
    requires RequestAt(r.engine, e).Some?
    ensures
      var f := e.(answer := AnswerFor(r.entries, t.req, t.world, e.answer));
      var (entries, given) := Outcome(r.entries, t.req, t.world, e.answer);
      && Asked(s, f).1 == given
      && Holds(entries, a.id, Asked(s, f).0) && IsOwn(entries, a.id, a.task)
  {
    SameRequests(s, e, AnswerFor(r.entries, t.req, t.world, e.answer));
    AskFollowsSubmit(r.entries, t.req, t.world, a.id, a.task, RequestAt(s, e).value, s.ledger, e.answer);
  }

  /** The inboxes' part of a small step. */
  lemma SendSimulates(r: Real, a: Attempt, s: State, e: Env, t: Tools)
    requires IsAttempt(a) && NextSeq(r.entries) >= 0 && Simulates(r, a, s) && IsAct(r, a, Engine(Small(e), t))
    ensures HoldsMail(Advanced(r, a, e, t).mail, a, Delivered(s, e))
  {
    SameRequests(s, e, e.answer);
    if SendAt(s, e).Some? && (e.sendOk || e.sendLands) {
      DeliverFollowsSend(r.mail, a, SendAt(s, e).value, t.caller, t.body, s.inbox);
    }
  }

  lemma SmallStepSimulates(r: Real, a: Attempt, s: State, e: Env, t: Tools)
    requires IsAttempt(a) && NextSeq(r.entries) >= 0 && Simulates(r, a, s) && IsAct(r, a, Engine(Small(e), t))
    ensures Simulates(Advanced(r, a, e, t), a, Step(s, Translated(r, Small(e), t)))
  {
    SameRequests(s, e, e.answer);
    SendSimulates(r, a, s, e, t);
    if RequestAt(r.engine, e).Some? {
      var answer := AnswerFor(r.entries, t.req, t.world, e.answer);
      RequestSimulates(r, a, s, e, t);
      SameRequests(s, e, answer);
      ProceedWithGiven(s, Outcome(r.entries, t.req, t.world, e.answer).1, e, answer);
      ProceedOnItsOwn(s, Outcome(r.entries, t.req, t.world, e.answer).1, e);
    } else {
      ProceedOnItsOwn(s, e.answer, e);
    }
  }

  lemma StartSimulates(a: Attempt)
    ensures Simulates(START, a, INITIAL)
  {
  }

  /** Every run on the real stores is a run of the procedure, other people's steps left out. */
  lemma {:induction false} RealRunsAreRuns(a: Attempt, acts: seq<Act>)
    requires AreActs(a, acts)
    ensures Simulates(RealRun(a, acts), a, Run(Choices(a, acts)))
  {
    if acts == [] {
      StartSimulates(a);
    } else {
      var front, act := acts[..|acts| - 1], acts[|acts| - 1];
      FrontIsActs(a, acts);
      RealRunsAreRuns(a, front);
      var r, s := RealRun(a, front), Run(Choices(a, front));
      match act
      case Engine(choice, t) =>
        OneMore(Choices(a, front), Translated(r, choice, t));
        if choice.Small? {
          SmallStepSimulates(r, a, s, choice.env, t);
        } else {
          StepOnItsOwn(s, choice);
        }
      case Requesting(req, world) =>
        OthersLeaveTheVerdicts(r.entries, req, world, a.id, a.task, s.ledger);
        assert Choices(a, acts) == Choices(a, front);
      case Mailing(to, caller, cmd) =>
        OthersLeaveTheMail(r.mail, a, to, caller, cmd, s.inbox);
        assert Choices(a, acts) == Choices(a, front);
    }
  }

  // --- what that means for the stream and the inboxes ----------------------------------------------------------

  /** On the stream: a row noted as reported or continued has an accepted record there. */
  lemma DoneRowsAreOnTheStream(a: Attempt, acts: seq<Act>, row: nat)
    requires AreActs(a, acts)
    ensures
      var r := RealRun(a, acts);
      NotedFor(r.engine.journal, row).Some? && IsDone(NotedFor(r.engine.journal, row).value) ==>
        VerdictIn(r.entries, Name(a.id, Intent(row))) == Some(Verdict.Accepted)
  {
    RealRunsAreRuns(a, acts);
    DoneRowsWereAccepted(Choices(a, acts), row);
  }

  /** On the stream: a noted row is done exactly when its report was accepted there, unless the last look was misled. */
  lemma NotesAgreeWithTheStreamIff(a: Attempt, acts: seq<Act>, row: nat)
    requires AreActs(a, acts) && NotedFor(RealRun(a, acts).engine.journal, row).Some?
    ensures LastJudgement(Choices(a, acts), row).Some?
    ensures
      var r := RealRun(a, acts);
      (IsDone(NotedFor(r.engine.journal, row).value)
       <==> VerdictIn(r.entries, Name(a.id, Intent(row))) == Some(Verdict.Accepted))
      <==> !IsMisled(LastJudgement(Choices(a, acts), row).value)
  {
    RealRunsAreRuns(a, acts);
    NotesTellTheTruthIff(Choices(a, acts), row);
  }

  /** An applied attempt has exactly one note for each of its rows. */
  lemma AppliedRowsAreNotedOnce(a: Attempt, acts: seq<Act>, count: nat, row: nat)
    requires AreActs(a, acts) && Applied(count) in RealRun(a, acts).engine.journal && row < count
    ensures CountNoted(RealRun(a, acts).engine.journal, row) == 1
  {
    RealRunsAreRuns(a, acts);
    AppliedMeansEachRowNotedOnce(Choices(a, acts), count, row);
  }

  /** A report that is delivered on record is in its requester's inbox. */
  lemma DeliveredReportsAreInTheInbox(a: Attempt, acts: seq<Act>)
    requires AreActs(a, acts) && ReportDelivered in RealRun(a, acts).engine.journal
    ensures IsDelivered(RealRun(a, acts).mail, a, ReportMessage)
  {
    RealRunsAreRuns(a, acts);
    DeliveredMeansSent(Choices(a, acts));
  }

  /** Receipt or continuation: what an applied attempt told itself is in the agent's own inbox. */
  lemma AppliedTellsTheAgent(a: Attempt, acts: seq<Act>, count: nat)
    requires AreActs(a, acts) && ClosesFirst(Choices(a, acts)) && Applied(count) in RealRun(a, acts).engine.journal
    ensures LastTelling(Choices(a, acts)).Some?
    ensures
      var (t, e) := LastTelling(Choices(a, acts)).value;
      e.inProgress && e.textOk && (e.sendOk || e.sendLands) ==>
        if t.handled && t.rejections > 0 then IsDelivered(RealRun(a, acts).mail, a, ReceiptMessage)
        else t.continuation.Some? ==> IsDelivered(RealRun(a, acts).mail, a, Continuation(t.continuation.value))
  {
    RealRunsAreRuns(a, acts);
    AppliedTellsItself(Choices(a, acts), count);
  }

  lemma {:induction false} ChoicesInTwo(a: Attempt, acts: seq<Act>, more: seq<Act>) returns (choices: seq<Choice>)
    ensures Choices(a, acts + more) == Choices(a, acts) + choices
    decreases |more|
  {
    if more == [] {
      choices := [];
      assert acts + more == acts;
    } else {
      var front, act := more[..|more| - 1], more[|more| - 1];
      var before := ChoicesInTwo(a, acts, front);
      assert (acts + more)[..|acts + more| - 1] == acts + front && (acts + more)[|acts + more| - 1] == act;
      choices := before
        + if act.Engine? then [Translated(RealRun(a, acts + front), act.choice, act.tools)] else [];
    }
  }

  /** On the stream: once an attempt is applied or tainted, nothing that follows changes what it holds of the attempt. */
  lemma SealedAttemptsLeaveTheStream(a: Attempt, acts: seq<Act>, more: seq<Act>, c: Causation)
    requires AreActs(a, acts) && AreActs(a, acts + more) && IsSealed(RealRun(a, acts).engine.journal)
    ensures VerdictIn(RealRun(a, acts + more).entries, Name(a.id, c)) == VerdictIn(RealRun(a, acts).entries, Name(a.id, c))
    ensures IsSealed(RealRun(a, acts + more).engine.journal)
  {
    RealRunsAreRuns(a, acts);
    RealRunsAreRuns(a, acts + more);
    var choices := ChoicesInTwo(a, acts, more);
    SealedAttemptsAskNothing(Choices(a, acts), choices);
  }

  // --- one record and one message, whoever else writes -----------------------------------------------------------

  /** The locked step an act makes, if it makes one. */
  function Submitted(r: Real, act: Act): Option<C.Act> {
    match act
    case Requesting(req, world) => Some(C.Act(req, world))
    case Engine(Small(e), t) =>
      if RequestAt(r.engine, e).Some? && !e.answer.Busy? && !e.answer.Broken? then Some(C.Act(t.req, t.world)) else None
    case _ => None
  }

  /** The locked steps of a run, whoever made them. */
  function Submissions(a: Attempt, acts: seq<Act>): seq<C.Act> {
    if acts == [] then []
    else
      var front := acts[..|acts| - 1];
      AppendSome(Submissions(a, front), Submitted(RealRun(a, front), acts[|acts| - 1]))
  }

  function AppendSome<T>(s: seq<T>, x: Option<T>): seq<T> {
    if x.Some? then s + [x.value] else s
  }

  lemma StepSubmits(r: Real, a: Attempt, act: Act)
    requires NextSeq(r.entries) >= 0
    ensures
      var x := Submitted(r, act);
      RealStep(r, a, act).entries == if x.Some? then Submit(r.entries, x.value.req, x.value.world).entries else r.entries
  {
  }

  lemma SubmitOneMore(before: seq<C.Act>, x: Option<C.Act>, entries: seq<L.Entry>, after: seq<L.Entry>)
    requires NextSeq(entries) >= 0 && C.RunAll([], before) == entries
    requires after == if x.Some? then Submit(entries, x.value.req, x.value.world).entries else entries
    ensures C.RunAll([], AppendSome(before, x)) == after
  {
    if x.Some? {
      assert (before + [x.value])[..|before|] == before;
    }
  }

  lemma {:induction false} StreamIsSubmitted(a: Attempt, acts: seq<Act>)
    ensures RealRun(a, acts).entries == C.RunAll([], Submissions(a, acts))
  {
    if acts != [] {
      var front, act := acts[..|acts| - 1], acts[|acts| - 1];
      StreamIsSubmitted(a, front);
      var r := RealRun(a, front);
      StepSubmits(r, a, act);
      SubmitOneMore(Submissions(a, front), Submitted(r, act), r.entries, RealStep(r, a, act).entries);
    }
  }

  /** Each request of the attempt is on the stream at most once, whatever crashes and whoever else writes. */
  lemma OneRecordOnTheStream(a: Attempt, acts: seq<Act>, c: Causation)
    ensures C.Labels(RealRun(a, acts).entries, Name(a.id, c)) <= 1
  {
    StreamIsSubmitted(a, acts);
    C.OneRecordPerCausation([], Submissions(a, acts), Name(a.id, c));
  }

  /** The command an act gives on one inbox, if it gives one. */
  function Commanding(r: Real, a: Attempt, act: Act, to: string): Option<(M.Caller, M.Command)> {
    match act
    case Mailing(at, caller, cmd) => if at == to then Some((caller, cmd)) else None
    case Engine(Small(e), t) =>
      if SendAt(r.engine, e).Some? && (e.sendOk || e.sendLands) && Recipient(a, SendAt(r.engine, e).value) == to
      then Some((t.caller, SendOf(a, SendAt(r.engine, e).value, t.body))) else None
    case _ => None
  }

  /** The commands of a run on one inbox, whoever gave them. */
  function Commands(a: Attempt, acts: seq<Act>, to: string): seq<(M.Caller, M.Command)> {
    if acts == [] then []
    else
      var front := acts[..|acts| - 1];
      AppendSome(Commands(a, front, to), Commanding(RealRun(a, front), a, acts[|acts| - 1], to))
  }

  lemma StepCommands(r: Real, a: Attempt, act: Act, to: string)
    requires NextSeq(r.entries) >= 0
    ensures
      var x := Commanding(r, a, act, to);
      LinesOf(RealStep(r, a, act).mail, to)
      == if x.Some? then M.Committed(LinesOf(r.mail, to), x.value.0, x.value.1) else LinesOf(r.mail, to)
  {
  }

  lemma CommandsAreSteps(r: Real, a: Attempt, act: Act, to: string)
    requires IsAttempt(a) && IsAct(r, a, act)
    ensures
      var x := Commanding(r, a, act, to);
      x.Some? ==> M.IsCaller(x.value.0) && M.IsCommand(x.value.1)
  {
  }

  lemma CommandOneMore(before: seq<(M.Caller, M.Command)>, x: Option<(M.Caller, M.Command)>,
                       lines: seq<string>, after: seq<string>)
    requires M.Run([], before) == lines
    requires after == if x.Some? then M.Committed(lines, x.value.0, x.value.1) else lines
    ensures M.Run([], AppendSome(before, x)) == after
  {
    if x.Some? {
      assert (before + [x.value])[..|before|] == before;
    }
  }

  lemma {:induction false} InboxIsCommanded(a: Attempt, acts: seq<Act>, to: string)
    ensures LinesOf(RealRun(a, acts).mail, to) == M.Run([], Commands(a, acts, to))
  {
    if acts != [] {
      var front, act := acts[..|acts| - 1], acts[|acts| - 1];
      InboxIsCommanded(a, front, to);
      var r := RealRun(a, front);
      StepCommands(r, a, act, to);
      CommandOneMore(Commands(a, front, to), Commanding(r, a, act, to), LinesOf(r.mail, to),
                     LinesOf(RealStep(r, a, act).mail, to));
    }
  }

  lemma {:induction false} AllAreCommands(a: Attempt, acts: seq<Act>, to: string)
    requires AreActs(a, acts)
    ensures M.AreSteps(Commands(a, acts, to))
  {
    if acts != [] {
      FrontIsActs(a, acts);
      AllAreCommands(a, acts[..|acts| - 1], to);
      CommandsAreSteps(RealRun(a, acts[..|acts| - 1]), a, acts[|acts| - 1], to);
    }
  }

  /** Each message of the attempt is in its inbox at most once, whatever crashes and whoever else writes. */
  lemma OneLineInTheInbox(a: Attempt, acts: seq<Act>, m: MessageId)
    requires AreActs(a, acts)
    ensures M.MessageLines(LinesOf(RealRun(a, acts).mail, Recipient(a, m)), MessageName(a, m)) <= 1
  {
    InboxIsCommanded(a, acts, Recipient(a, m));
    AllAreCommands(a, acts, Recipient(a, m));
    MessageNamesAreIds(a, m);
    M.AtMostFourLines(Commands(a, acts, Recipient(a, m)), MessageName(a, m));
  }
}
