/**
 * Applying one attempt's intent file: a protocol over four durable stores (the file, the task
 * ledger, the supervisor's journal and the inboxes) that may stop after any write and start again.
 */
module IntentApply {
  import opened Results

  // --- what a worker may leave in the file ------------------------------------------------------

  /** One row of a file that passed the schema; a delegation may still name another run. */
  datatype Row = Delegate | ForeignDelegate | Report(final: bool) | Continue

  predicate IsDelegation(r: Row) {
    r.Delegate? || r.ForeignDelegate?
  }

  datatype Content = Unreadable | Invalid | Rows(rows: seq<Row>)

  // --- the durable stores --------------------------------------------------------------------------

  /** The causation ids of the requests an attempt makes; rows count from zero. */
  datatype Causation = Intent(row: nat) | RejectDelegate(row: nat) | RejectReference(row: nat) | Block

  datatype Verdict = Accepted | Refused

  datatype Action = Rejected | Continued | Reported(final: bool) | Blocked

  datatype Record =
    | Closed(content: Option<Content>)
    | Noted(row: nat, action: Action)
    | Retried
    | Tainted
    | TaintReplayed
    | Applied(count: nat)
    | ReportPending
    | ReportDelivered

  datatype MessageId = ReportMessage | ReceiptMessage | Continuation(row: nat)

  // --- the procedure's own state ---------------------------------------------------------------------

  /** What the rows so far add up to. */
  datatype Tally = Tally(handled: bool, rejections: nat, continuation: Option<nat>, final: bool)

  const NO_ROWS := Tally(false, 0, None, false)

  /** Where the procedure stands: between any two of these there is at most one durable write. */
  datatype Point =
    | Idle
    | Opening(close: bool)
    | Gate(content: Content)
    | AtRow(rows: seq<Row>, row: nat, tally: Tally)
    | Noting(rows: seq<Row>, row: nat, tally: Tally, action: Action)
    | Blocking(rows: seq<Row>, row: nat, tally: Tally)
    | BlockReport(rows: seq<Row>, row: nat, tally: Tally, stage: nat)
    | FinalReport(rows: seq<Row>, tally: Tally, stage: nat)
    | SelfMessage(rows: seq<Row>, tally: Tally)
    | Finishing(rows: seq<Row>)
    | Redelivering(stage: nat)
    | Dropping
    | Retrying
    | Quarantining
    | Tainting
    | Replaying
    | ReplayNoting

  datatype State = State(
    file: Option<Content>, ledger: seq<(Causation, Verdict)>, journal: seq<Record>, inbox: seq<MessageId>, at: Point)

  const INITIAL := State(None, [], [], [], Idle)

  /**
   * The exit codes of a ledger request: 0, 77, 75, 76, 64 and the rest; a command that is killed
   * after its commit is one of the rest, and its verdict is on record all the same.
   */
  datatype Answer = Granted | Denied | Busy | Stale | BadArgument | Broken | Lost(granted: bool)

  /** What the world answers to one small step; a send that is reported failed may have landed. */
  datatype Env = Env(
    taskKnown: bool, contextOk: bool, referenceOk: bool, answer: Answer, budgetGone: bool,
    inProgress: bool, textOk: bool, sendOk: bool, sendLands: bool)

  // --- reading the stores -------------------------------------------------------------------------------

  function VerdictOf(ledger: seq<(Causation, Verdict)>, c: Causation): Option<Verdict> {
    if ledger == [] then None
    else if ledger[|ledger| - 1].0 == c then Some(ledger[|ledger| - 1].1)
    else VerdictOf(ledger[..|ledger| - 1], c)
  }

  function NotedFor(journal: seq<Record>, row: nat): Option<Action> {
    if journal == [] then None
    else
      var last := journal[|journal| - 1];
      if last.Noted? && last.row == row then Some(last.action) else NotedFor(journal[..|journal| - 1], row)
  }

  function ClosedAs(journal: seq<Record>): Option<Option<Content>> {
    if journal == [] then None
    else
      var last := journal[|journal| - 1];
      if last.Closed? then Some(last.content) else ClosedAs(journal[..|journal| - 1])
  }

  predicate HasApplied(journal: seq<Record>) {
    exists k | 0 <= k < |journal| :: journal[k].Applied?
  }

  function CountRetries(journal: seq<Record>): nat {
    if journal == [] then 0
    else CountRetries(journal[..|journal| - 1]) + if journal[|journal| - 1].Retried? then 1 else 0
  }

  // --- one ledger request ---------------------------------------------------------------------------------

  function OfVerdict(granted: bool): Verdict {
    if granted then Accepted else Refused
  }

  /**
   * A request under its causation id: a known id appends nothing and repeats its verdict, unless
   * the stream is busy or the command fails; a new one is decided now.
   */
  function Ask(ledger: seq<(Causation, Verdict)>, c: Causation, answer: Answer): (seq<(Causation, Verdict)>, Answer) {
    match VerdictOf(ledger, c)
    case Some(v) =>
      (ledger,
       if answer.Granted? || answer.Denied? then if v.Accepted? then Granted else Denied
       else if answer.Lost? then Broken
       else answer)
    case None =>
      (match answer
       case Granted => (ledger + [(c, Accepted)], Granted)
       case Denied => (ledger + [(c, Refused)], Denied)
       case Lost(granted) => (ledger + [(c, OfVerdict(granted))], Broken)
       case _ => (ledger, answer))
  }

  /** A send under its id: an inbox holds it once. */
  function Deliver(inbox: seq<MessageId>, id: MessageId): seq<MessageId> {
    if id in inbox then inbox else inbox + [id]
  }

  function Log(s: State, r: Record): State {
    s.(journal := s.journal + [r])
  }

  function Go(s: State, p: Point): State {
    s.(at := p)
  }

  // --- what a point asks of the other stores -----------------------------------------------------------------

  /** The ledger request made at the present point, if one is. */
  function RequestAt(s: State, e: Env): Option<Causation> {
    match s.at
    case Blocking(_, _, _) => Some(Block)
    case AtRow(rows, row, _) =>
      if row >= |rows| || NotedFor(s.journal, row).Some? || rows[row].ForeignDelegate? then None
      else if rows[row].Delegate? then Some(RejectDelegate(row))
      else if !e.referenceOk then Some(RejectReference(row))
      else Some(Intent(row))
    case _ => None
  }

  /** The message sent at the present point, if one is. */
  function SendAt(s: State, e: Env): Option<MessageId> {
    match s.at
    case BlockReport(_, _, _, 1) => Some(ReportMessage)
    case FinalReport(_, _, 1) => Some(ReportMessage)
    case Redelivering(1) => Some(ReportMessage)
    case SelfMessage(_, tally) =>
      if !e.inProgress || !e.textOk then None
      else if tally.handled && tally.rejections > 0 then Some(ReceiptMessage)
      else if tally.continuation.Some? then Some(Continuation(tally.continuation.value))
      else None
    case _ => None
  }

  // --- the small steps ----------------------------------------------------------------------------------------

  /** What a noted row adds to the tally. */
  function Absorb(t: Tally, row: nat, a: Action): Tally {
    match a
    case Rejected => t.(rejections := t.rejections + 1)
    case Continued => t.(continuation := Some(row), handled := true)
    case Reported(final) => t.(handled := true, final := t.final || final)
    case Blocked => t
  }

  function Close(s: State, content: Option<Content>): State {
    if ClosedAs(s.journal).Some? then s else Log(s, Closed(content))
  }

  function StepOpening(s: State, close: bool): State {
    var closed := if close then Close(s, s.file) else s;
    match s.file
    case None => Go(closed, Idle)
    case Some(Unreadable) => Go(closed, Quarantining)
    case Some(content) => Go(closed, Gate(content))
  }

  function StepGate(s: State, content: Content, e: Env): State {
    if Tainted in s.journal then Go(s, Replaying)
    else if ClosedAs(s.journal).Some? && ClosedAs(s.journal) != Some(Some(content)) then Go(s, Quarantining)
    else if HasApplied(s.journal) then Go(s, Dropping)
    else if !content.Rows? then Go(s, Quarantining)
    else if !e.taskKnown then Go(s, Retrying)
    else if !e.contextOk then Go(s, Quarantining)
    else Go(s, AtRow(content.rows, 0, NO_ROWS))
  }

  /** After the request that says a row is rejected. */
  function AfterReject(s: State, p: Point, answer: Answer): State
    requires p.AtRow?
  {
    if answer.Granted? || answer.Denied? then Go(s, Noting(p.rows, p.row, p.tally, Rejected)) else Go(s, Retrying)
  }

  function Done(row: Row): Action {
    if row.Report? then Reported(row.final) else Continued
  }

  /** After the request of a report or a continuation: what its exit code leads to. */
  function AfterReport(s: State, p: Point, row: Row, answer: Answer, e: Env): State
    requires p.AtRow?
  {
    if answer.Granted? then Go(s, Noting(p.rows, p.row, p.tally, Done(row)))
    else if answer.Busy? then Go(s, Retrying)
    else if row.Continue? && e.budgetGone then Go(s, Blocking(p.rows, p.row, p.tally))
    else if answer.Broken? || answer.Lost? then Go(s, Retrying)
    else Go(s, Noting(p.rows, p.row, p.tally, Rejected))
  }

  function StepRow(s: State, p: Point, answer: Answer, e: Env): State
    requires p.AtRow?
  {
    if p.row >= |p.rows| then
      Go(s, if p.tally.final then FinalReport(p.rows, p.tally, 0) else SelfMessage(p.rows, p.tally))
    else
      var row := p.rows[p.row];
      match NotedFor(s.journal, p.row)
      case Some(action) =>
        Go(s, AtRow(p.rows, p.row + 1,
                    if IsDelegation(row) && !action.Rejected? then p.tally else Absorb(p.tally, p.row, action)))
      case None =>
        if row.ForeignDelegate? then Go(s, Quarantining)
        else if row.Delegate? || !e.referenceOk then AfterReject(s, p, answer)
        else AfterReport(s, p, row, answer, e)
  }

  function StepNoting(s: State, p: Point): State
    requires p.Noting?
  {
    var tally := if p.action.Blocked? then p.tally.(handled := true) else Absorb(p.tally, p.row, p.action);
    Go(Log(s, Noted(p.row, p.action)), AtRow(p.rows, p.row + 1, tally))
  }

  function StepBlocking(s: State, p: Point, answer: Answer): State
    requires p.Blocking?
  {
    if answer.Denied? then Go(s, Noting(p.rows, p.row, p.tally, Blocked))
    else if answer.Granted? then Go(s, BlockReport(p.rows, p.row, p.tally, 0))
    else Go(s, Retrying)
  }

  /** Delivering a report: pending, sent, delivered; after that, or when it cannot go on, where to. */
  function StepReport(s: State, stage: nat, again: Point, after: Point, e: Env): State {
    if stage == 0 then
      if ReportDelivered in s.journal || !e.textOk then Go(s, after)
      else Go(if ReportPending in s.journal then s else Log(s, ReportPending), again)
    else if stage == 1 then Go(s, if e.sendOk then again else after)
    else Go(Log(s, ReportDelivered), after)
  }

  function StepRetrying(s: State): State {
    var logged := Log(s, Retried);
    Go(logged, if CountRetries(logged.journal) >= 5 then Quarantining else Idle)
  }

  /** The supervisor's own part of a step: the file, the journal and its place, given the answer it got. */
  function Proceed(s: State, answer: Answer, e: Env): State {
    match s.at
    case Idle => s
    case Opening(close) => StepOpening(s, close)
    case Gate(content) => StepGate(s, content, e)
    case AtRow(_, _, _) => StepRow(s, s.at, answer, e)
    case Noting(_, _, _, _) => StepNoting(s, s.at)
    case Blocking(_, _, _) => StepBlocking(s, s.at, answer)
    case BlockReport(rows, row, tally, stage) =>
      StepReport(s, stage, BlockReport(rows, row, tally, stage + 1), Noting(rows, row, tally, Blocked), e)
    case FinalReport(rows, tally, stage) =>
      StepReport(s, stage, FinalReport(rows, tally, stage + 1), SelfMessage(rows, tally), e)
    case SelfMessage(rows, _) => Go(s, Finishing(rows))
    case Finishing(rows) => Go(Log(s, Applied(|rows|)), Dropping)
    case Redelivering(stage) => StepReport(s, stage, Redelivering(stage + 1), Idle, e)
    case Dropping => Go(s.(file := None), Idle)
    case Retrying => StepRetrying(s)
    case Quarantining => if Tainted in s.journal then Go(s, Replaying) else Go(s.(file := None), Tainting)
    case Tainting => Go(Log(s, Tainted), Idle)
    case Replaying => Go(s.(file := None), if TaintReplayed in s.journal then Idle else ReplayNoting)
    case ReplayNoting => Go(Log(s, TaintReplayed), Idle)
  }

  /** What the step asks of the ledger: the ledger afterwards, and the answer. */
  function Asked(s: State, e: Env): (seq<(Causation, Verdict)>, Answer) {
    match RequestAt(s, e)
    case Some(c) => Ask(s.ledger, c, e.answer)
    case None => (s.ledger, e.answer)
  }

  function Delivered(s: State, e: Env): seq<MessageId> {
    match SendAt(s, e)
    case Some(id) => if e.sendOk || e.sendLands then Deliver(s.inbox, id) else s.inbox
    case None => s.inbox
  }

  /** The next small step of the procedure. */
  function Advance(s: State, e: Env): State {
    Proceed(s, Asked(s, e).1, e).(ledger := Asked(s, e).0, inbox := Delivered(s, e))
  }

  /**
   * Everything that can happen: the worker rewrites or removes the file at any time; the turn ends
   * or a scan comes by; start-up closes what was left open; a report that is still pending is sent
   * again; an exception becomes a retry; a crash loses the procedure's place and nothing else.
   */
  datatype Choice =
    | WorkerWrites(file: Option<Content>)
    | Begin(close: bool)
    | CloseOpen
    | Redeliver
    | Small(env: Env)
    | Raise
    | Crash

  function Step(s: State, c: Choice): State {
    match c
    case WorkerWrites(file) => s.(file := file)
    case Begin(close) => if s.at.Idle? then Go(s, Opening(close)) else s
    case CloseOpen => if s.at.Idle? then Close(s, s.file) else s
    case Redeliver =>
      if s.at.Idle? && ReportPending in s.journal && ReportDelivered !in s.journal then Go(s, Redelivering(1)) else s
    case Small(env) => Advance(s, env)
    case Raise => if s.at.Idle? then s else Go(s, if s.at.Redelivering? then Idle else Retrying)
    case Crash => Go(s, Idle)
  }

  function Run(choices: seq<Choice>): State {
    if choices == [] then INITIAL else Step(Run(choices[..|choices| - 1]), choices[|choices| - 1])
  }

  // --- counting ---------------------------------------------------------------------------------------------------

  function CountLedger(ledger: seq<(Causation, Verdict)>, c: Causation): nat {
    if ledger == [] then 0
    else CountLedger(ledger[..|ledger| - 1], c) + if ledger[|ledger| - 1].0 == c then 1 else 0
  }

  function CountNoted(journal: seq<Record>, row: nat): nat {
    if journal == [] then 0
    else
      var last := journal[|journal| - 1];
      CountNoted(journal[..|journal| - 1], row) + if last.Noted? && last.row == row then 1 else 0
  }

  function CountInbox(inbox: seq<MessageId>, id: MessageId): nat {
    if inbox == [] then 0
    else CountInbox(inbox[..|inbox| - 1], id) + if inbox[|inbox| - 1] == id then 1 else 0
  }

  lemma {:induction false} LedgerCounts(ledger: seq<(Causation, Verdict)>, c: Causation)
    ensures CountLedger(ledger, c) == 0 <==> VerdictOf(ledger, c).None?
  {
    if ledger != [] {
      LedgerCounts(ledger[..|ledger| - 1], c);
    }
  }

  lemma {:induction false} NotesCount(journal: seq<Record>, row: nat)
    ensures CountNoted(journal, row) == 0 <==> NotedFor(journal, row).None?
  {
    if journal != [] {
      NotesCount(journal[..|journal| - 1], row);
    }
  }

  lemma {:induction false} InboxCounts(inbox: seq<MessageId>, id: MessageId)
    ensures CountInbox(inbox, id) == 0 <==> id !in inbox
  {
    if inbox != [] {
      InboxCounts(inbox[..|inbox| - 1], id);
      assert inbox == inbox[..|inbox| - 1] + [inbox[|inbox| - 1]];
    }
  }

  lemma LogOneMore(journal: seq<Record>, r: Record, row: nat)
    ensures NotedFor(journal + [r], row) == if r.Noted? && r.row == row then Some(r.action) else NotedFor(journal, row)
    ensures CountNoted(journal + [r], row) == CountNoted(journal, row) + if r.Noted? && r.row == row then 1 else 0
    ensures ClosedAs(journal + [r]) == if r.Closed? then Some(r.content) else ClosedAs(journal)
  {
    assert (journal + [r])[..|journal|] == journal;
  }

  lemma LedgerOneMore(ledger: seq<(Causation, Verdict)>, c: Causation, v: Verdict, other: Causation)
    ensures VerdictOf(ledger + [(c, v)], other) == if c == other then Some(v) else VerdictOf(ledger, other)
    ensures CountLedger(ledger + [(c, v)], other) == CountLedger(ledger, other) + if c == other then 1 else 0
  {
    assert (ledger + [(c, v)])[..|ledger|] == ledger;
  }

  // --- one record per request, one message per id --------------------------------------------------------------

  /** What a small step does to the ledger: nothing, or one request under one causation id. */
  ghost predicate AsksOnce(before: seq<(Causation, Verdict)>, after: seq<(Causation, Verdict)>) {
    after == before || exists c, v :: VerdictOf(before, c).None? && after == before + [(c, v)]
  }

  lemma AskAppendsOnce(ledger: seq<(Causation, Verdict)>, c: Causation, answer: Answer)
    ensures AsksOnce(ledger, Ask(ledger, c, answer).0)
  {
  }

  lemma StepAsksOnce(s: State, c: Choice)
    ensures AsksOnce(s.ledger, Step(s, c).ledger)
  {
    if c.Small? && RequestAt(s, c.env).Some? {
      AskAppendsOnce(s.ledger, RequestAt(s, c.env).value, c.env.answer);
    }
  }

  lemma AsksKeepCount(before: seq<(Causation, Verdict)>, after: seq<(Causation, Verdict)>, c: Causation)
    requires AsksOnce(before, after) && CountLedger(before, c) <= 1
    ensures CountLedger(after, c) <= 1
  {
    if after != before {
      var d, v :| VerdictOf(before, d).None? && after == before + [(d, v)];
      LedgerOneMore(before, d, v, c);
      LedgerCounts(before, d);
    }
  }

  /** Over every run, with crashes anywhere: a causation id labels at most one ledger record. */
  lemma {:induction false} OneRecordPerRequest(choices: seq<Choice>, c: Causation)
    ensures CountLedger(Run(choices).ledger, c) <= 1
  {
    if choices != [] {
      var front, last := choices[..|choices| - 1], choices[|choices| - 1];
      OneRecordPerRequest(front, c);
      StepAsksOnce(Run(front), last);
      AsksKeepCount(Run(front).ledger, Run(choices).ledger, c);
    }
  }

  ghost predicate SendsOnce(before: seq<MessageId>, after: seq<MessageId>) {
    after == before || exists id :: id !in before && after == before + [id]
  }

  lemma StepSendsOnce(s: State, c: Choice)
    ensures SendsOnce(s.inbox, Step(s, c).inbox)
  {
  }

  /** Over every run: an inbox holds a continuation, a receipt or a report at most once. */
  lemma {:induction false} OneMessagePerId(choices: seq<Choice>, id: MessageId)
    ensures CountInbox(Run(choices).inbox, id) <= 1
  {
    if choices != [] {
      var front, last := choices[..|choices| - 1], choices[|choices| - 1];
      OneMessagePerId(front, id);
      StepSendsOnce(Run(front), last);
      var before, after := Run(front).inbox, Run(choices).inbox;
      if after != before {
        var new_ :| new_ !in before && after == before + [new_];
        assert after[..|before|] == before;
        InboxCounts(before, new_);
      }
    }
  }

  // --- sealed attempts are quiet -----------------------------------------------------------------------------------

  /** Applied or tainted: nothing more is asked of the ledger. */
  ghost predicate IsSealed(journal: seq<Record>) {
    HasApplied(journal) || Tainted in journal
  }

  predicate IsWorking(p: Point) {
    p.AtRow? || p.Noting? || p.Blocking? || p.BlockReport? || p.FinalReport? || p.SelfMessage? || p.Finishing?
  }

  ghost predicate Quiet(s: State) {
    && (IsSealed(s.journal) ==> !IsWorking(s.at))
    && (s.at.Tainting? ==> Tainted !in s.journal)
  }

  lemma LogSeals(journal: seq<Record>, r: Record)
    ensures HasApplied(journal + [r]) <==> HasApplied(journal) || r.Applied?
    ensures Tainted in journal + [r] <==> Tainted in journal || r.Tainted?
  {
    if HasApplied(journal) {
      var k :| 0 <= k < |journal| && journal[k].Applied?;
      assert (journal + [r])[k].Applied?;
    }
    if r.Applied? {
      assert (journal + [r])[|journal|].Applied?;
    }
  }

  lemma LogKeepsQuiet(s: State, r: Record, p: Point)
    requires Quiet(s) && (IsSealed(s.journal) || r.Applied? || r.Tainted? ==> !IsWorking(p))
    requires p.Tainting? ==> Tainted !in s.journal && !r.Tainted?
    ensures Quiet(Go(Log(s, r), p))
  {
    LogSeals(s.journal, r);
  }

  lemma ReportKeepsQuiet(s: State, stage: nat, again: Point, after: Point, e: Env)
    requires Quiet(s) && !again.Tainting? && !after.Tainting?
    requires IsSealed(s.journal) ==> !IsWorking(again) && !IsWorking(after)
    ensures Quiet(StepReport(s, stage, again, after, e))
  {
    LogKeepsQuiet(s, ReportPending, again);
    LogKeepsQuiet(s, ReportDelivered, after);
  }

  lemma RowKeepsQuiet(s: State, answer: Answer, e: Env)
    requires Quiet(s) && s.at.AtRow?
    ensures Quiet(StepRow(s, s.at, answer, e)) && StepRow(s, s.at, answer, e).journal == s.journal
  {
  }

  lemma GateKeepsQuiet(s: State, content: Content, e: Env)
    requires Quiet(s)
    ensures Quiet(StepGate(s, content, e))
  {
  }

  lemma ProceedKeepsQuiet(s: State, answer: Answer, e: Env)
    requires Quiet(s)
    ensures Quiet(Proceed(s, answer, e))
  {
    match s.at
    case Gate(content) => GateKeepsQuiet(s, content, e);
    case Opening(close) => LogKeepsQuiet(s, Closed(s.file), Proceed(s, answer, e).at);
    case AtRow(_, _, _) => RowKeepsQuiet(s, answer, e);
    case Noting(rows, row, tally, action) => LogKeepsQuiet(s, Noted(row, action), Proceed(s, answer, e).at);
    case BlockReport(rows, row, tally, stage) =>
      ReportKeepsQuiet(s, stage, BlockReport(rows, row, tally, stage + 1), Noting(rows, row, tally, Blocked), e);
    case FinalReport(rows, tally, stage) =>
      ReportKeepsQuiet(s, stage, FinalReport(rows, tally, stage + 1), SelfMessage(rows, tally), e);
    case Redelivering(stage) => ReportKeepsQuiet(s, stage, Redelivering(stage + 1), Idle, e);
    case Finishing(rows) => LogKeepsQuiet(s, Applied(|rows|), Dropping);
    case Retrying => LogKeepsQuiet(s, Retried, Proceed(s, answer, e).at);
    case Tainting => LogKeepsQuiet(s, Tainted, Idle);
    case ReplayNoting => LogKeepsQuiet(s, TaintReplayed, Idle);
    case _ =>
  }

  lemma StepKeepsQuiet(s: State, c: Choice)
    requires Quiet(s)
    ensures Quiet(Step(s, c))
  {
    match c
    case Small(e) => ProceedKeepsQuiet(s, Asked(s, e).1, e);
    case CloseOpen => LogKeepsQuiet(s, Closed(s.file), s.at);
    case _ =>
  }

  lemma {:induction false} EveryRunIsQuiet(choices: seq<Choice>)
    ensures Quiet(Run(choices))
  {
    if choices != [] {
      EveryRunIsQuiet(choices[..|choices| - 1]);
      StepKeepsQuiet(Run(choices[..|choices| - 1]), choices[|choices| - 1]);
    }
  }

  lemma SealedStep(s: State, c: Choice)
    requires Quiet(s) && IsSealed(s.journal)
    ensures Step(s, c).ledger == s.ledger && IsSealed(Step(s, c).journal)
  {
    var t := Step(s, c);
    if t.journal != s.journal {
      LogSeals(s.journal, t.journal[|s.journal|]);
    }
  }

  /** Once an attempt is applied or tainted, whatever happens afterwards, the ledger is not asked again. */
  lemma {:induction false} SealedAttemptsAskNothing(choices: seq<Choice>, more: seq<Choice>)
    requires IsSealed(Run(choices).journal)
    ensures Run(choices + more).ledger == Run(choices).ledger && IsSealed(Run(choices + more).journal)
    decreases |more|
  {
    if more == [] {
      assert choices + more == choices;
    } else {
      var front := more[..|more| - 1];
      assert (choices + more)[..|choices + more| - 1] == choices + front;
      SealedAttemptsAskNothing(choices, front);
      EveryRunIsQuiet(choices + front);
      SealedStep(Run(choices + front), more[|more| - 1]);
    }
  }

  // --- every row noted once ----------------------------------------------------------------------------------------------

  ghost predicate NotedBelow(journal: seq<Record>, n: nat) {
    forall row: nat | row < n :: NotedFor(journal, row).Some?
  }

  /** The procedure has noted the rows before the one it is at, and not that one. */
  ghost predicate IsInPlace(journal: seq<Record>, p: Point) {
    match p
    case AtRow(rows, row, _) => row <= |rows| && NotedBelow(journal, row)
    case Noting(rows, row, _, _) => row < |rows| && NotedBelow(journal, row) && NotedFor(journal, row).None?
    case Blocking(rows, row, _) => row < |rows| && NotedBelow(journal, row) && NotedFor(journal, row).None?
    case BlockReport(rows, row, _, _) => row < |rows| && NotedBelow(journal, row) && NotedFor(journal, row).None?
    case FinalReport(rows, _, _) => NotedBelow(journal, |rows|)
    case SelfMessage(rows, _) => NotedBelow(journal, |rows|)
    case Finishing(rows) => NotedBelow(journal, |rows|)
    case _ => true
  }

  ghost predicate NotesAreKept(s: State) {
    && IsInPlace(s.journal, s.at)
    && (forall row: nat :: CountNoted(s.journal, row) <= 1)
    && (forall n: nat | Applied(n) in s.journal :: NotedBelow(s.journal, n))
  }

  lemma NotesStay(journal: seq<Record>, r: Record, n: nat)
    requires NotedBelow(journal, n)
    ensures NotedBelow(journal + [r], n)
    ensures r.Noted? && r.row == n ==> NotedBelow(journal + [r], n + 1)
  {
    forall row: nat | row < n ensures NotedFor(journal + [r], row).Some? {
      LogOneMore(journal, r, row);
    }
    LogOneMore(journal, r, n);
  }

  /** A record that is not a note leaves the place of every row. */
  lemma OtherRecordKeepsPlace(journal: seq<Record>, r: Record, p: Point)
    requires IsInPlace(journal, p) && !r.Noted?
    ensures IsInPlace(journal + [r], p)
  {
    var n := match p
      case AtRow(_, row, _) => row
      case Noting(_, row, _, _) => row
      case Blocking(_, row, _) => row
      case BlockReport(_, row, _, _) => row
      case FinalReport(rows, _, _) => |rows|
      case SelfMessage(rows, _) => |rows|
      case Finishing(rows) => |rows|
      case _ => 0;
    LogOneMore(journal, r, n);
    if NotedBelow(journal, n) {
      NotesStay(journal, r, n);
    }
  }

  lemma LogKeepsNotes(s: State, r: Record, p: Point)
    requires NotesAreKept(s) && IsInPlace(s.journal + [r], p)
    requires r.Noted? ==> NotedFor(s.journal, r.row).None?
    requires r.Applied? ==> NotedBelow(s.journal, r.count)
    ensures NotesAreKept(Go(Log(s, r), p))
  {
    forall row: nat ensures CountNoted(s.journal + [r], row) <= 1 {
      LogOneMore(s.journal, r, row);
      NotesCount(s.journal, row);
    }
    forall n: nat | Applied(n) in s.journal + [r] ensures NotedBelow(s.journal + [r], n) {
      NotesStay(s.journal, r, n);
    }
  }

  lemma NotingKeepsNotes(s: State)
    requires NotesAreKept(s) && s.at.Noting?
    ensures NotesAreKept(StepNoting(s, s.at))
  {
    var p := s.at;
    NotesStay(s.journal, Noted(p.row, p.action), p.row);
    LogKeepsNotes(s, Noted(p.row, p.action), StepNoting(s, p).at);
  }

  lemma ReportKeepsNotes(s: State, stage: nat, again: Point, after: Point, e: Env)
    requires NotesAreKept(s) && IsInPlace(s.journal, again) && IsInPlace(s.journal, after)
    ensures NotesAreKept(StepReport(s, stage, again, after, e))
  {
    OtherRecordKeepsPlace(s.journal, ReportPending, again);
    OtherRecordKeepsPlace(s.journal, ReportDelivered, after);
    LogKeepsNotes(s, ReportPending, again);
    LogKeepsNotes(s, ReportDelivered, after);
  }

  /** Looking at a row writes nothing to the journal and stays in place. */
  lemma RowStaysInPlace(s: State, answer: Answer, e: Env)
    requires s.at.AtRow? && IsInPlace(s.journal, s.at)
    ensures
      var t := StepRow(s, s.at, answer, e);
      t.journal == s.journal && IsInPlace(s.journal, t.at)
  {
    assert s.at.row >= |s.at.rows| ==> s.at.row == |s.at.rows|;
  }

  /** The points whose step writes nothing to the journal. */
  predicate IsSilent(p: Point) {
    p.Idle? || p.Gate? || p.AtRow? || p.Blocking? || p.SelfMessage? || p.Dropping? || p.Quarantining? || p.Replaying?
  }

  lemma SilentStep(s: State, answer: Answer, e: Env)
    requires IsSilent(s.at) && IsInPlace(s.journal, s.at)
    ensures
      var t := Proceed(s, answer, e);
      t.journal == s.journal && IsInPlace(s.journal, t.at)
  {
    if s.at.AtRow? {
      RowStaysInPlace(s, answer, e);
    }
  }

  lemma SilentKeepsNotes(s: State, t: State)
    requires NotesAreKept(s) && t.journal == s.journal && IsInPlace(s.journal, t.at)
    ensures NotesAreKept(t)
  {
  }

  lemma LoggingKeepsNotes(s: State, answer: Answer, e: Env)
    requires NotesAreKept(s) && !IsSilent(s.at) && !s.at.Noting?
    requires !s.at.BlockReport? && !s.at.FinalReport? && !s.at.Redelivering?
    ensures NotesAreKept(Proceed(s, answer, e))
  {
    var next := Proceed(s, answer, e).at;
    match s.at
    case Opening(close) =>
      if close && ClosedAs(s.journal).None? {
        LogKeepsNotes(s, Closed(s.file), next);
      }
    case Finishing(rows) => LogKeepsNotes(s, Applied(|rows|), next);
    case Retrying => LogKeepsNotes(s, Retried, next);
    case Tainting => LogKeepsNotes(s, Tainted, next);
    case ReplayNoting => LogKeepsNotes(s, TaintReplayed, next);
  }

  lemma ProceedKeepsNotes(s: State, answer: Answer, e: Env)
    requires NotesAreKept(s)
    ensures NotesAreKept(Proceed(s, answer, e))
  {
    if IsSilent(s.at) {
      SilentStep(s, answer, e);
      SilentKeepsNotes(s, Proceed(s, answer, e));
    } else {
      match s.at
      case Noting(_, _, _, _) => NotingKeepsNotes(s);
      case BlockReport(rows, row, tally, stage) =>
        ReportKeepsNotes(s, stage, BlockReport(rows, row, tally, stage + 1), Noting(rows, row, tally, Blocked), e);
      case FinalReport(rows, tally, stage) =>
        ReportKeepsNotes(s, stage, FinalReport(rows, tally, stage + 1), SelfMessage(rows, tally), e);
      case Redelivering(stage) => ReportKeepsNotes(s, stage, Redelivering(stage + 1), Idle, e);
      case _ => LoggingKeepsNotes(s, answer, e);
    }
  }

  lemma StepKeepsNotes(s: State, c: Choice)
    requires NotesAreKept(s)
    ensures NotesAreKept(Step(s, c))
  {
    match c
    case Small(e) =>
      ProceedKeepsNotes(s, Asked(s, e).1, e);
      SilentKeepsNotes(Proceed(s, Asked(s, e).1, e), Step(s, c));
    case CloseOpen =>
      if s.at.Idle? {
        LogKeepsNotes(s, Closed(s.file), s.at);
      }
    case _ =>
  }

  lemma {:induction false} EveryRunKeepsNotes(choices: seq<Choice>)
    ensures NotesAreKept(Run(choices))
  {
    if choices != [] {
      EveryRunKeepsNotes(choices[..|choices| - 1]);
      StepKeepsNotes(Run(choices[..|choices| - 1]), choices[|choices| - 1]);
    }
  }

  /** Over every run: an applied attempt has exactly one ledger note for each of its rows. */
  lemma AppliedMeansEachRowNotedOnce(choices: seq<Choice>, count: nat, row: nat)
    requires Applied(count) in Run(choices).journal && row < count
    ensures CountNoted(Run(choices).journal, row) == 1
  {
    EveryRunKeepsNotes(choices);
    NotesCount(Run(choices).journal, row);
  }
}
