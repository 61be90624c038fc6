/** The writer's side of the task ledger: the registry limits and the acceptance decision. */
module TaskDecisions {
  import opened Results
  import opened Text
  import opened TaskLedger

  /** A team's delegation table is None when the registry holds something that is not an object. */
  datatype TeamEntry = TeamEntry(project: string, delegation: Option<map<string, Json>>)

  datatype AgentEntry = AgentEntry(team: string, supervised: bool, lead: bool)

  datatype Registry = Registry(projects: set<string>, teams: map<string, TeamEntry>, agents: map<string, AgentEntry>)

  datatype Limits = Limits(
    maxOpen: nat, maxNewPerTurn: nat, maxTasksPerRun: nat, maxAssignments: nat,
    maxDepth: nat, deadlineSeconds: nat, maxTurns: nat)

  const LIMIT_NAMES := {"max_open", "max_new_per_turn", "max_tasks_per_run", "max_assignments_per_task",
                        "max_depth", "task_deadline_s", "max_turns_per_task"}

  /** One limit: absent means the default; a decimal string or a positive integer is taken as is. */
  function LimitOr(delegation: map<string, Json>, name: string, default: nat): Result<nat> {
    if name !in delegation then Ok(default)
    else match delegation[name]
      case Number(n) => if n >= 1 then Ok(n) else Err("invalid_" + name)
      case Text(s) => if IsDecimal(s) && ParseDecimal(s) >= 1 then Ok(ParseDecimal(s)) else Err("invalid_" + name)
      case _ => Err("invalid_" + name)
  }

  function TeamLimits(registry: Registry, team: string): Result<Limits> {
    if team !in registry.teams then Err("unknown_team")
    else if registry.teams[team].delegation.None? then Err("invalid_delegation_limits")
    else
      var d := registry.teams[team].delegation.value;
      if !(d.Keys <= LIMIT_NAMES) then Err("invalid_delegation_limits")
      else
        var open :- LimitOr(d, "max_open", 8);
        var perTurn :- LimitOr(d, "max_new_per_turn", 4);
        var perRun :- LimitOr(d, "max_tasks_per_run", 20);
        var assignments :- LimitOr(d, "max_assignments_per_task", 3);
        var depth :- LimitOr(d, "max_depth", 1);
        var deadline :- LimitOr(d, "task_deadline_s", 14400);
        var turns :- LimitOr(d, "max_turns_per_task", 8);
        if depth > 1 then Err("invalid_max_depth")
        else Ok(Limits(open, perTurn, perRun, assignments, depth, deadline, turns))
  }

  /** The one lead of a team; a team without exactly one lead has none. */
  function TeamLead(registry: Registry, team: string): Option<string> {
    var found := set uid | uid in registry.agents && registry.agents[uid].team == team && registry.agents[uid].lead;
    if exists uid | uid in found :: found == {uid} then
      var lead :| lead in found && found == {lead};
      Some(lead)
    else None
  }

  predicate ScopeOk(registry: Registry, project: string, team: string) {
    && project in registry.projects && team in registry.teams
    && registry.teams[team].project == project && project + "-" <= team
    && TeamLead(registry, team).Some?
  }

  /** Why an agent cannot be given a team's task. */
  function AssigneeFault(registry: Registry, assignee: Json, team: string): Option<string> {
    if !assignee.Text? || assignee.s !in registry.agents then Some("unknown_assignee")
    else
      var a := registry.agents[assignee.s];
      if a.team != team then Some("cross_team")
      else if !a.supervised || a.lead then Some("invalid_assignee")
      else None
  }

  datatype Request = Request(
    kind: Kind, project: string, team: string, run: string, task: Option<string>, causation: string,
    actorType: ActorType, actorId: string, caller: string, payload: Payload, expectedSeq: Option<int>)

  /** A decision that is appended to the stream, or the error that leaves the stream alone. */
  datatype Decision =
    | Undecided(why: string)
    | Decided(kind: Kind, payload: Payload, accepted: bool, reason: string)

  function Refuse(req: Request, reason: string): Decision {
    Decided(TaskRejected,
            EMPTY_PAYLOAD.(caller := Text(req.caller), requestedType := Text(KindName(req.kind)), reason := Text(reason)),
            false, reason)
  }

  // --- tallies over the task table -----------------------------------------------------------

  /** What a limit sums over the task table. */
  datatype Measure = OpenIn(team: string) | AssignedIn(run: string) | TurnsIn(run: string)

  function Weigh(m: Measure, t: Task): nat {
    match m
    case OpenIn(team) => if IsOpen(t.state) && t.team == team then 1 else 0
    case AssignedIn(run) => if t.run == run then t.assignments else 0
    case TurnsIn(run) => if t.run == run then t.turnsTotal else 0
  }

  function WeighAt(v: View, m: Measure, i: nat): nat
    requires i < |v.order|
  {
    if v.order[i] in v.tasks then Weigh(m, v.tasks[v.order[i]]) else 0
  }

  /** The sum over the first n tasks of the table. */
  function TallyTo(v: View, m: Measure, n: nat): nat
    requires n <= |v.order|
  {
    if n == 0 then 0 else TallyTo(v, m, n - 1) + WeighAt(v, m, n - 1)
  }

  function Tally(v: View, m: Measure): nat {
    TallyTo(v, m, |v.order|)
  }

  predicate HasOpenDuplicate(tasks: map<string, Task>, source: Json, assignee: Json) {
    exists id | id in tasks ::
      !IsTerminal(tasks[id].state) && Text(tasks[id].source) == source && Text(tasks[id].assignee) == assignee
  }

  // --- the decision ----------------------------------------------------------------------------

  predicate IsHumanRequest(req: Request) {
    req.actorType.Human? && req.payload.requester.Text? && "human:" <= req.payload.requester.s
  }

  predicate IsGatewayRequest(req: Request) {
    req.actorType.Human? && req.payload.requester.Text? && "gateway:" <= req.payload.requester.s
  }

  predicate IsRejectReason(j: Json) {
    j.Text? && 1 <= |j.s| <= 64 && forall c | c in j.s :: c == '_' || 'a' <= c <= 'z'
  }

  /** The kinds a rejection may be about: every known name except the rejection itself. */
  predicate IsRequestable(j: Json) {
    exists k: Kind :: !k.TaskRejected? && j == Text(KindName(k))
  }

  /** A supervisor of the team may put a rejection of a known kind on record. */
  predicate MayReject(req: Request, registry: Registry) {
    var uid := if "supervisor:" <= req.actorId then req.actorId[11..] else req.actorId;
    && req.actorType.Service? && uid in registry.agents && registry.agents[uid].team == req.team
    && IsRequestable(req.payload.requestedType) && IsRejectReason(req.payload.reason)
  }

  function DecideReject(req: Request, registry: Registry): Decision {
    if MayReject(req, registry)
    then Decided(TaskRejected, req.payload.(caller := Text(req.caller)), false, req.payload.reason.s)
    else Refuse(req, "unauthorized")
  }

  function DecideClose(req: Request, v: View, isLead: bool): Option<string> {
    if req.run !in v.runs then Some("unknown_run")
    else if v.runs[req.run].team != req.team then Some("cross_team")
    else if IsClosed(v.runs[req.run].state) then Some("run_closed")
    else if !(IsHumanRequest(req) || isLead) then Some("not_lead")
    else if req.payload.outcome.Complete? && HasOpenTask(v.tasks, req.run) then Some("open_tasks")
    else None
  }

  function DecideCreate(req: Request, v: View, registry: Registry, limits: Limits, isLead: bool): Option<string>
    requires req.task.Some?
  {
    var p := req.payload;
    if !(IsHumanRequest(req) || isLead) then Some("not_lead")
    else if req.run !in v.runs then Some("unknown_run")
    else if v.runs[req.run].team != req.team then Some("cross_team")
    else if IsClosed(v.runs[req.run].state) then Some("run_closed")
    else if req.task.value in v.tasks then Some("duplicate")
    else if !p.gate.NoGate? then Some("gate_not_available")
    else if !IsOne(p.depth) || limits.maxDepth < 1 then Some("max_depth")
    else if AssigneeFault(registry, p.assignee, req.team).Some? then AssigneeFault(registry, p.assignee, req.team)
    else if HasOpenDuplicate(v.tasks, p.source, p.assignee) then Some("duplicate")
    else if Tally(v, OpenIn(req.team)) >= limits.maxOpen then Some("max_open")
    else if Tally(v, AssignedIn(req.run)) >= limits.maxTasksPerRun then Some("max_tasks_per_run")
    else None
  }

  function DecideReport(req: Request, t: Task, limits: Limits): Option<string> {
    var p := req.payload;
    var byAgent := req.actorType.Agent? && req.actorId == t.assignee;
    var byService :=
      && req.actorType.Service? && Text(req.actorId) == Supervisor(t.assignee)
      && (p.report.Failure? || p.report.Blockage?) && IsEngineReason(p.reason);
    if !(byAgent || byService) then Some(if req.actorType.Service? then "unauthorized_reason" else "not_assignee")
    else if !t.state.InProgress? then Some("invalid_transition")
    else if p.report.Progress? && t.turns >= limits.maxTurns then Some("max_turns_per_task")
    else None
  }

  function DecideReassign(req: Request, v: View, t: Task, registry: Registry, limits: Limits, isLead: bool)
    : Option<string>
  {
    if !(IsHumanRequest(req) || isLead) then Some("not_lead")
    else if !(t.state.Blocked? || (req.kind.TaskReopened? && t.state.TFailed?)) then Some("invalid_transition")
    else if AssigneeFault(registry, req.payload.assignee, req.team).Some?
    then AssigneeFault(registry, req.payload.assignee, req.team)
    else if t.assignments >= limits.maxAssignments then Some("max_assignments_per_task")
    else if Tally(v, OpenIn(req.team)) >= limits.maxOpen then Some("max_open")
    else if Tally(v, AssignedIn(req.run)) >= limits.maxTasksPerRun then Some("max_tasks_per_run")
    else None
  }

  /** Why an event on an existing task is refused. */
  function DecideTask(req: Request, v: View, registry: Registry, limits: Limits, lead: string): Option<string> {
    var isLead := req.actorType.Agent? && req.actorId == lead;
    if req.task.None? || req.task.value !in v.tasks || v.tasks[req.task.value].run != req.run then Some("unknown_task")
    else
      var t := v.tasks[req.task.value];
      if t.team != req.team then Some("cross_team")
      else if req.run !in v.runs || v.runs[req.run].team != t.team then Some("unknown_run")
      else if IsClosed(v.runs[req.run].state) then Some("run_closed")
      else if (req.kind.TaskReassigned? || req.kind.TaskReopened? || req.kind.TaskCancelled?)
              && (IsHumanRequest(req) || IsGatewayRequest(req) || isLead)
              && req.expectedSeq.Some? && t.stateSeq != req.expectedSeq.value
      then Some("concurrent_update")
      else match req.kind
        case TaskStarted =>
          if !(req.actorType.Service? && Text(req.actorId) == Supervisor(t.assignee)) then Some("not_assignee")
          else if !t.state.Assigned? then Some("invalid_transition")
          else None
        case TaskReported => DecideReport(req, t, limits)
        case TaskCancelled =>
          var delivery :=
            && req.actorType.Service? && Text(req.actorId) == Supervisor(t.assignee)
            && req.payload.reason == Text("delivery_failed") && t.state.Assigned?;
          if !(IsHumanRequest(req) || IsGatewayRequest(req) || isLead || delivery) then Some("unauthorized")
          else if IsTerminal(t.state) then Some("invalid_transition")
          else None
        case TaskReassigned | TaskReopened => DecideReassign(req, v, t, registry, limits, isLead)
        case TaskOverdue =>
          if !(req.actorType.Service? && Text(req.actorId) == Supervisor(lead)) then Some("not_lead")
          else if IsTerminal(t.state) then Some("invalid_transition")
          else None
        case _ => Some("unsupported_event")
  }

  /** The payload a created task is recorded with: default deadline, and the team's budget. */
  function CreatedPayload(req: Request, limits: Limits, defaultDeadline: string): Payload {
    req.payload.(
      caller := Text(req.caller),
      deadline := if req.payload.deadline.Null? then Text(defaultDeadline) else req.payload.deadline,
      budget := Some(Budget(limits.maxTurns, limits.maxAssignments)))
  }

  /**
   * The acceptance decision. bodyStored says whether the task body could be written beside the
   * stream; defaultDeadline is the clock's now plus the team's deadline, as the source formats it.
   */
  function Decide(req: Request, v: View, registry: Registry, bodyStored: bool, defaultDeadline: string)
    : Decision
  {
    if req.caller != "root:root" then Refuse(req, "caller_unauthorized")
    else if !CallerMatches(req.actorType, Text(req.actorId), req.payload.(caller := Text(req.caller)))
    then Refuse(req, "caller_actor_mismatch")
    else match (TeamLimits(registry, req.team), TeamLead(registry, req.team))
      case (Err(why), _) => Undecided(why)
      case (_, None) => Undecided("team must have exactly one lead")
      case (Ok(limits), Some(lead)) =>
        var isLead := req.actorType.Agent? && req.actorId == lead;
        var accepted := Decided(req.kind, req.payload.(caller := Text(req.caller)), true, "accepted");
        match req.kind
        case TaskRejected => DecideReject(req, registry)
        case RunRequested =>
          if !(IsHumanRequest(req) || IsGatewayRequest(req)) then Refuse(req, "unauthorized")
          else if req.run in v.runs then Refuse(req, "duplicate")
          else accepted
        case RunClosed =>
          var fault := DecideClose(req, v, isLead);
          if fault.Some? then Refuse(req, fault.value) else accepted
        case TaskCreated =>
          if req.task.None? then Undecided("missing task id")
          else
            var fault := DecideCreate(req, v, registry, limits, isLead);
            if fault.Some? then Refuse(req, fault.value)
            else if !bodyStored then Refuse(req, "unsafe_body_sidecar")
            else Decided(TaskCreated, CreatedPayload(req, limits, defaultDeadline), true, "accepted")
        case _ =>
          var fault := DecideTask(req, v, registry, limits, lead);
          if fault.Some? then Refuse(req, fault.value) else accepted
  }
}
