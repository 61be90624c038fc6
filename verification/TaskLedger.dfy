/** The task ledger's event records and the fold that rebuilds runs and tasks from them. */
module TaskLedger {
  import opened Results
  import opened Text

  /** A JSON value read with a default of null, so an absent key and a null are the same. */
  datatype Json = Null | Boolean(b: bool) | Number(n: int) | Text(s: string) | Other

  datatype Kind =
    | RunRequested | RunStarted | RunClosed
    | TaskCreated | TaskStarted | TaskReported | TaskCancelled | TaskReassigned | TaskReopened
    | TaskOverdue | TaskRejected | ReviewPassed | ReviewFailed

  function KindName(k: Kind): string {
    match k
    case RunRequested => "run.requested"
    case RunStarted => "run.started"
    case RunClosed => "run.closed"
    case TaskCreated => "task.created"
    case TaskStarted => "task.started"
    case TaskReported => "task.reported"
    case TaskCancelled => "task.cancelled"
    case TaskReassigned => "task.reassigned"
    case TaskReopened => "task.reopened"
    case TaskOverdue => "task.overdue"
    case TaskRejected => "task.rejected"
    case ReviewPassed => "task.review_passed"
    case ReviewFailed => "task.review_failed"
  }

  predicate IsRunKind(k: Kind) {
    k.RunRequested? || k.RunStarted? || k.RunClosed?
  }

  /** The closed vocabularies; the last constructor is any other value, a missing one included. */
  datatype ActorType = Human | Agent | Service | OtherActor
  datatype Outcome = Complete | Fail | Cancel | OtherOutcome
  datatype Report = Progress | Done | Failure | Blockage | OtherReport
  datatype Gate = NoGate | CodeGate | ComplianceGate | GatekeeperGate | OtherGate | UntextualGate

  datatype Budget = Budget(maxTurns: nat, maxAttempts: nat)

  datatype Payload = Payload(
    caller: Json, via: Json, requester: Json,
    requestedType: Json, reason: Json, outcome: Outcome, report: Report, resultRef: Json,
    parent: Json, depth: Json, source: Json, owner: Json, assignee: Json, title: Json,
    bodyRef: Json, deadline: Json, budget: Option<Budget>, gate: Gate)

  const EMPTY_PAYLOAD := Payload(Null, Null, Null, Null, Null, OtherOutcome, OtherReport, Null,
                                 Null, Null, Null, Null, Null, Null, Null, Null, None, UntextualGate)

  /** One decoded envelope; kind and payload are None when they have no usable value. */
  datatype Record = Record(
    kind: Option<Kind>, eventId: Json, project: Json, team: Json, run: Json, task: Json,
    attempt: Json, correlation: Json, causation: Json,
    actorType: ActorType, actorId: Json, payload: Option<Payload>)

  /** One line of the stream: a decoded object, or why the reader could not decode it. */
  datatype Entry =
    | Undecodable(seqNo: int, why: string)
    | Event(seqNo: int, record: Record)

  datatype TaskState = TQueued | Assigned | InProgress | Blocked | Review | TDone | TFailed | TCancelled

  datatype RunState = RQueued | Running | RBlocked | Completed | RFailed | RCancelled

  predicate IsTerminal(s: TaskState) {
    s.TDone? || s.TFailed? || s.TCancelled?
  }

  /** The states the max_open limit counts. */
  predicate IsOpen(s: TaskState) {
    s.TQueued? || s.Assigned?
  }

  predicate IsClosed(s: RunState) {
    s.Completed? || s.RFailed? || s.RCancelled?
  }

  datatype Task = Task(
    run: string, team: string, source: string, owner: Json, assignee: string, title: string,
    bodyRef: Json, deadline: string, budget: Option<Budget>, gate: Gate,
    state: TaskState, assignments: nat, attempts: nat, turns: nat, turnsTotal: nat,
    resultRef: Json, lastReason: Json, createdSeq: int, lastSeq: int, stateSeq: int)

  datatype Run = Run(team: string, state: RunState, createdSeq: int)

  datatype Rejection = Rejection(seqNo: int, team: string, task: Json, run: string,
                                 requestedType: string, reason: string)

  datatype Invalid = Invalid(seqNo: int, reason: string)

  /** The tables the fold builds; order is the insertion order of the task table. */
  datatype View = View(
    project: Option<string>, runs: map<string, Run>, tasks: map<string, Task>, order: seq<string>,
    rejections: seq<Rejection>, invalid: seq<Invalid>)

  const EMPTY_VIEW := View(None, map[], map[], [], [], [])

  // --- admission of one record by the reader ---------------------------------------------

  /** Whether the actor an event names may have been relayed the way its payload says. */
  predicate CallerMatches(actorType: ActorType, actorId: Json, p: Payload) {
    && p.caller == Text("root:root")
    && match actorType
       case Service => actorId.Text? && "supervisor:" <= actorId.s && p.via.Null? && p.requester.Null?
       case Agent => p.via.Text? && IsIntentRelay(p.via.s) && p.requester.Null?
       case Human =>
         && p.via.Text? && IsControlRelay(p.via.s) && actorId.Text?
         && p.requester == if "gateway:" <= actorId.s then actorId else Text("human:" + actorId.s)
       case OtherActor => false
  }

  /** The event id is composed of the record's own project and sequence number. */
  predicate NamesItself(seqNo: int, r: Record) {
    && r.project.Text? && IsToken(r.project.s) && seqNo >= 0
    && r.eventId == Text(r.project.s + "-tasks-" + Decimal(seqNo))
  }

  /** The identity fields are well-formed and belong to the stream's project. */
  predicate BelongsTo(project: string, r: Record)
    requires r.kind.Some?
  {
    && r.project == Text(project) && r.attempt.Null? && r.correlation == r.run
    && r.run.Text? && IsRunId(r.run.s) && r.causation.Text? && IsToken(r.causation.s)
    && r.team.Text? && project + "-" <= r.team.s && IsUid(r.team.s)
    && (IsRunKind(r.kind.value)
        || (r.task.Null? && r.kind.value.TaskRejected?)
        || (r.task.Text? && IsTaskId(r.task.s)))
  }

  predicate IsReasonOk(reason: Json) {
    reason.Null? || (reason.Text? && |reason.s| <= 512 && IsSafeText(reason.s))
  }

  predicate IsEngineReason(reason: Json) {
    reason == Text("turn_failed") || reason == Text("turn_budget") || reason == Text("no_report")
  }

  /** depth != 1 as the interpreter compares it: a JSON true equals one. */
  predicate IsOne(j: Json) {
    j == Number(1) || j == Boolean(true)
  }

  function Supervisor(agent: string): Json {
    Text("supervisor:" + agent)
  }

  predicate IsHumanOrAgent(a: ActorType) {
    a.Human? || a.Agent?
  }

  // --- transitions -------------------------------------------------------------------------

  function RequestRun(v: View, seqNo: int, r: Record): Result<View>
    requires r.run.Text? && r.team.Text?
  {
    if r.run.s in v.runs || !r.actorType.Human? then Err("invalid_run_request")
    else Ok(v.(runs := v.runs[r.run.s := Run(r.team.s, RQueued, seqNo)]))
  }

  function StartRun(v: View, seqNo: int, r: Record): Result<View>
    requires r.run.Text? && r.team.Text?
  {
    if r.run.s !in v.runs || !v.runs[r.run.s].state.RQueued? then Err("invalid_run_start")
    else if v.runs[r.run.s].team != r.team.s then Err("cross_team")
    else if !r.actorType.Service? then Err("invalid_run_start_actor")
    else Ok(v.(runs := v.runs[r.run.s := v.runs[r.run.s].(state := Running)]))
  }

  predicate HasOpenTask(tasks: map<string, Task>, run: string) {
    exists id | id in tasks :: tasks[id].run == run && !IsTerminal(tasks[id].state)
  }

  /** What closing a run does to one of its tasks that is still open. */
  function CancelledBy(t: Task, seqNo: int): Task {
    t.(state := TCancelled, lastReason := Text("run_closed"), lastSeq := seqNo, stateSeq := seqNo)
  }

  /** The cascade of a closed run over its open tasks. */
  function CancelOpen(tasks: map<string, Task>, run: string, seqNo: int): map<string, Task> {
    map id | id in tasks ::
      if tasks[id].run == run && !IsTerminal(tasks[id].state) then CancelledBy(tasks[id], seqNo)
      else tasks[id]
  }

  function OutcomeState(o: Outcome): RunState
    requires !o.OtherOutcome?
  {
    match o
    case Complete => Completed
    case Fail => RFailed
    case Cancel => RCancelled
  }

  function CloseRun(v: View, seqNo: int, r: Record): Result<View>
    requires r.run.Text? && r.team.Text? && r.payload.Some?
  {
    var outcome := r.payload.value.outcome;
    if r.run.s !in v.runs || IsClosed(v.runs[r.run.s].state) then Err("invalid_run_close")
    else if v.runs[r.run.s].team != r.team.s then Err("cross_team")
    else if !IsHumanOrAgent(r.actorType) then Err("invalid_run_close_actor")
    else if outcome.OtherOutcome? then Err("invalid_run_outcome")
    else if HasOpenTask(v.tasks, r.run.s) && outcome.Complete? then Err("open_tasks")
    else Ok(v.(runs := v.runs[r.run.s := v.runs[r.run.s].(state := OutcomeState(outcome))],
               tasks := CancelOpen(v.tasks, r.run.s, seqNo)))
  }

  /** A freshly assigned task, from the payload of its creation event. */
  function BaseTask(seqNo: int, r: Record): Result<Task>
    requires r.run.Text? && r.team.Text? && r.task.Text? && r.payload.Some?
  {
    var p := r.payload.value;
    if !IsOne(p.depth) || p.parent != r.run then Err("invalid task parent/depth")
    else if !p.assignee.Text? || !IsOneLine(p.assignee.s) then Err("invalid assignee")
    else if !p.source.Text? || !IsOneLine(p.source.s) then Err("invalid source_msg_id")
    else if p.gate.UntextualGate? then Err("invalid gate")
    else if !p.title.Text? || !IsOneLine(p.title.s) then Err("invalid title")
    else if !IsUid(p.assignee.s) || !IsToken(p.source.s) then Err("invalid task assignee/source")
    else if p.gate.OtherGate? then Err("invalid task gate")
    else if p.title.s == "" || |p.title.s| > 120 || !IsSafeText(p.title.s) then Err("invalid_title")
    else if !p.deadline.Text? || !IsDeadline(p.deadline.s) then Err("invalid_deadline_at")
    else Ok(Task(r.run.s, r.team.s, p.source.s, p.owner, p.assignee.s, p.title.s, p.bodyRef,
                 p.deadline.s, p.budget, p.gate, Assigned, 1, 1, 0, 0, Null, Null, seqNo, seqNo, seqNo))
  }

  function CreateTask(v: View, seqNo: int, r: Record): Result<View>
    requires r.run.Text? && r.team.Text? && r.task.Text? && r.payload.Some?
  {
    if r.run.s !in v.runs || r.task.s in v.tasks then Err("invalid_task_create")
    else if v.runs[r.run.s].team != r.team.s then Err("cross_team")
    else if IsClosed(v.runs[r.run.s].state) then Err("run_closed")
    else match BaseTask(seqNo, r)
      case Err(why) => Err(why)
      case Ok(t) =>
        if r.actorType.Agent? && r.actorId != t.owner then Err("invalid_creator")
        else if !IsHumanOrAgent(r.actorType) then Err("invalid_creator")
        else
          var run := v.runs[r.run.s];
          Ok(v.(tasks := v.tasks[r.task.s := t], order := v.order + [r.task.s],
                runs := if run.state.RQueued? then v.runs[r.run.s := run.(state := Running)] else v.runs))
  }

  /** The state a report moves a task in progress to. */
  function ReportedState(report: Report, gate: Gate): TaskState
    requires !report.OtherReport?
  {
    match report
    case Progress => InProgress
    case Done => if gate.NoGate? then TDone else Review
    case Failure => TFailed
    case Blockage => Blocked
  }

  /** The task after one of its own events, without the sequence bookkeeping. */
  function NextTask(k: Kind, t: Task, r: Record): Result<Task>
    requires r.payload.Some?
  {
    var p := r.payload.value;
    match k
    case TaskStarted =>
      if !t.state.Assigned? || !r.actorType.Service? || r.actorId != Supervisor(t.assignee)
      then Err("invalid_start")
      else Ok(t.(state := InProgress))
    case TaskReported =>
      var byAgent := r.actorType.Agent? && r.actorId == Text(t.assignee);
      var byService :=
        && r.actorType.Service? && r.actorId == Supervisor(t.assignee)
        && (p.report.Failure? || p.report.Blockage?) && IsEngineReason(p.reason);
      if !IsReasonOk(p.reason) then Err("invalid_reason")
      else if !t.state.InProgress? || !(byAgent || byService) || p.report.OtherReport?
      then Err("invalid_report")
      else
        var step := if p.report.Progress? then 1 else 0;
        Ok(t.(turns := t.turns + step, turnsTotal := t.turnsTotal + step,
              resultRef := p.resultRef, lastReason := p.reason,
              state := ReportedState(p.report, t.gate)))
    case TaskCancelled =>
      var delivery :=
        && r.actorType.Service? && r.actorId == Supervisor(t.assignee)
        && p.reason == Text("delivery_failed") && t.state.Assigned?;
      if IsTerminal(t.state) then Err("invalid_cancel")
      else if !IsReasonOk(p.reason) then Err("invalid_reason")
      else if !IsHumanOrAgent(r.actorType) && !delivery then Err("invalid_cancel_actor")
      else Ok(t.(state := TCancelled, lastReason := p.reason))
    case TaskReassigned | TaskReopened =>
      if !IsHumanOrAgent(r.actorType) then Err("invalid_reassignment_actor")
      else if !(t.state.Blocked? || (k.TaskReopened? && t.state.TFailed?)) then Err("invalid_reassignment")
      else if !p.assignee.Text? || !IsUid(p.assignee.s) then Err("invalid_assignee")
      else Ok(t.(assignee := p.assignee.s, assignments := t.assignments + 1, attempts := t.attempts + 1,
                 turns := 0, state := Assigned))
    case TaskOverdue =>
      if IsTerminal(t.state) || !r.actorType.Service? || !r.actorId.Text? || !("supervisor:" <= r.actorId.s)
      then Err("invalid_overdue")
      else Ok(t.(lastReason := Text("overdue")))
    case _ => Err("reserved_event")
  }

  function Stamped(before: Task, after: Task, seqNo: int): Task {
    after.(lastSeq := seqNo,
           stateSeq := if after.state != before.state || after.assignee != before.assignee then seqNo
                       else after.stateSeq)
  }

  function TouchTask(v: View, seqNo: int, k: Kind, r: Record): Result<View>
    requires r.run.Text? && r.team.Text? && r.payload.Some?
  {
    if !r.task.Text? || r.task.s !in v.tasks || v.tasks[r.task.s].run != r.run.s then Err("unknown_task")
    else
      var t := v.tasks[r.task.s];
      if t.team != r.team.s then Err("cross_team")
      else if r.run.s !in v.runs || v.runs[r.run.s].team != t.team then Err("invalid_task_run")
      else if IsClosed(v.runs[r.run.s].state) then Err("run_closed")
      else match NextTask(k, t, r)
        case Err(why) => Err(why)
        case Ok(next) => Ok(v.(tasks := v.tasks[r.task.s := Stamped(t, next, seqNo)]))
  }

  function Transition(v: View, seqNo: int, r: Record): Result<View>
    requires r.kind.Some? && r.payload.Some? && r.run.Text? && r.team.Text?
    requires r.kind.value.TaskCreated? ==> r.task.Text?
  {
    match r.kind.value
    case RunRequested => RequestRun(v, seqNo, r)
    case RunStarted => StartRun(v, seqNo, r)
    case RunClosed => CloseRun(v, seqNo, r)
    case TaskCreated => CreateTask(v, seqNo, r)
    case k => TouchTask(v, seqNo, k, r)
  }

  function Reject(v: View, seqNo: int, reason: string): View {
    v.(invalid := v.invalid + [Invalid(seqNo, reason)])
  }

  /** One record that the stream framing delivered: the tables afterwards. */
  function Step(v: View, e: Entry): View {
    match e
    case Undecodable(seqNo, why) => Reject(v, seqNo, why)
    case Event(seqNo, r) =>
      if r.kind.None? || r.payload.None? then Reject(v, seqNo, "invalid_shape")
      else if !NamesItself(seqNo, r) then Reject(v, seqNo, "invalid_envelope_identity")
      else
        var v1 := v.(project := if v.project.None? then Some(r.project.s) else v.project);
        if !BelongsTo(v1.project.value, r) then Reject(v1, seqNo, "invalid_envelope_identity")
        else if r.kind.value.TaskRejected? then StepRejection(v1, seqNo, r)
        else if !CallerMatches(r.actorType, r.actorId, r.payload.value)
        then Reject(v1, seqNo, "caller_actor_mismatch")
        else match Transition(v1, seqNo, r)
          case Err(why) => Reject(v1, seqNo, why)
          case Ok(next) => next
  }

  function StepRejection(v: View, seqNo: int, r: Record): View
    requires r.payload.Some? && r.run.Text? && r.team.Text?
  {
    var p := r.payload.value;
    if p.reason.Text? && p.requestedType.Text? && p.caller == Text("root:root")
    then v.(rejections := v.rejections
                          + [Rejection(seqNo, r.team.s, r.task, r.run.s, p.requestedType.s, p.reason.s)])
    else Reject(v, seqNo, "invalid_rejection")
  }

  /** The tables after a whole stream, before the run states are derived. */
  function Replay(entries: seq<Entry>): View {
    if |entries| == 0 then EMPTY_VIEW
    else Step(Replay(entries[..|entries| - 1]), entries[|entries| - 1])
  }

  predicate HasTask(tasks: map<string, Task>, run: string) {
    exists id | id in tasks :: tasks[id].run == run
  }

  /** The derived state of a run that is not closed: blocked when every open task is. */
  function DerivedState(s: RunState, tasks: map<string, Task>, run: string): RunState {
    if IsClosed(s) then s
    else if HasOpenTask(tasks, run)
            && forall id | id in tasks && tasks[id].run == run && !IsTerminal(tasks[id].state)
                 :: tasks[id].state.Blocked?
    then RBlocked
    else if HasTask(tasks, run) then Running
    else RQueued
  }

  function DeriveRuns(v: View): View {
    v.(runs := map id | id in v.runs :: v.runs[id].(state := DerivedState(v.runs[id].state, v.tasks, id)))
  }

  /** What every reader of the stream is given. */
  function Fold(entries: seq<Entry>): View {
    DeriveRuns(Replay(entries))
  }
}
