/**
 * Who may have what accepted by the task ledger, in its own words: the guards of each kind of
 * request, over the request, the tables and the registry, and the reason each failing guard gives.
 */
module TaskAuthority {
  import opened Results
  import opened Text
  import opened TaskLedger
  import opened LedgerInvariants
  import opened TaskDecisions
  import opened TaskCli

  // --- who is asking -------------------------------------------------------------------------------

  /** A human at the controls, and not one of the gateways. */
  predicate IsPerson(req: Request) {
    req.actorType.Human? && !("gateway:" <= req.actorId)
  }

  predicate IsGateway(req: Request) {
    req.actorType.Human? && "gateway:" <= req.actorId
  }

  /** The one lead of a team. */
  ghost predicate IsLeadOf(registry: Registry, team: string, uid: string) {
    && uid in registry.agents && registry.agents[uid].team == team && registry.agents[uid].lead
    && forall other | other in registry.agents && registry.agents[other].team == team && registry.agents[other].lead ::
         other == uid
  }

  ghost predicate IsLead(req: Request, registry: Registry) {
    req.actorType.Agent? && IsLeadOf(registry, req.team, req.actorId)
  }

  predicate IsSupervisorOf(req: Request, uid: string) {
    req.actorType.Service? && req.actorId == "supervisor:" + uid
  }

  /** The actor was relayed the way its kind must be. */
  predicate IsRelayed(req: Request) {
    var via, requester := req.payload.via, req.payload.requester;
    match req.actorType
    case Service => "supervisor:" <= req.actorId && via.Null? && requester.Null?
    case Agent => via.Text? && IsIntentRelay(via.s) && requester.Null?
    case Human =>
      && via.Text? && IsControlRelay(via.s)
      && requester == Text(if "gateway:" <= req.actorId then req.actorId else "human:" + req.actorId)
    case OtherActor => false
  }

  // --- what it is about ------------------------------------------------------------------------------

  predicate IsKnownRun(req: Request, v: View) {
    req.run in v.runs
  }

  predicate IsOwnRun(req: Request, v: View) {
    IsKnownRun(req, v) && v.runs[req.run].team == req.team
  }

  predicate IsOpenRun(req: Request, v: View) {
    IsOwnRun(req, v) && !v.runs[req.run].state.Completed? && !v.runs[req.run].state.RFailed? && !v.runs[req.run].state.RCancelled?
  }

  predicate IsUnfinished(t: Task) {
    !t.state.TDone? && !t.state.TFailed? && !t.state.TCancelled?
  }

  predicate IsKnownTask(req: Request, v: View) {
    req.task.Some? && req.task.value in v.tasks && v.tasks[req.task.value].run == req.run
  }

  predicate IsOwnTask(req: Request, v: View) {
    IsKnownTask(req, v) && v.tasks[req.task.value].team == req.team
  }

  predicate IsOpenTask(req: Request, v: View) {
    IsOwnTask(req, v) && IsOpenRun(req, v)
  }

  /** A stamp that was sent along by someone who commands is the task's own. */
  ghost predicate SawTheStamp(req: Request, v: View, registry: Registry)
    requires IsKnownTask(req, v)
  {
    req.expectedSeq.Some? && (req.actorType.Human? || IsLead(req, registry)) ==>
      v.tasks[req.task.value].stateSeq == req.expectedSeq.value
  }

  predicate IsAssignable(registry: Registry, assignee: Json, team: string) {
    && assignee.Text? && assignee.s in registry.agents
    && var a := registry.agents[assignee.s];
    && a.team == team && a.supervised && !a.lead
  }

  function WaitingTasks(v: View, team: string): set<string> {
    set id | id in v.tasks && (v.tasks[id].state.TQueued? || v.tasks[id].state.Assigned?) && v.tasks[id].team == team
  }

  /** Room for one more assignment, in the team and in the run. */
  predicate HasTeamRoom(req: Request, v: View, l: Limits) {
    |WaitingTasks(v, req.team)| < l.maxOpen
  }

  predicate HasRunRoom(req: Request, v: View, l: Limits) {
    Tally(v, AssignedIn(req.run)) < l.maxTasksPerRun
  }

  predicate IsNew(req: Request, v: View) {
    forall id | id in v.tasks && IsUnfinished(v.tasks[id]) ::
      Text(v.tasks[id].source) != req.payload.source || Text(v.tasks[id].assignee) != req.payload.assignee
  }

  // --- the guards ------------------------------------------------------------------------------------

  ghost predicate Commands(req: Request, registry: Registry) {
    IsPerson(req) || IsLead(req, registry)
  }

  ghost predicate MayClose(req: Request, v: View, registry: Registry) {
    && IsOpenRun(req, v) && Commands(req, registry)
    && (req.payload.outcome.Complete? ==> forall id | id in v.tasks && v.tasks[id].run == req.run :: !IsUnfinished(v.tasks[id]))
  }

  ghost predicate MayCreate(req: Request, v: View, registry: Registry, l: Limits, bodyStored: bool) {
    && Commands(req, registry) && IsOpenRun(req, v) && req.task.Some? && req.task.value !in v.tasks
    && req.payload.gate.NoGate? && req.payload.depth in [Number(1), Boolean(true)]
    && IsAssignable(registry, req.payload.assignee, req.team) && IsNew(req, v)
    && HasTeamRoom(req, v, l) && HasRunRoom(req, v, l) && bodyStored
  }

  predicate MayReport(req: Request, v: View, l: Limits) {
    && IsOpenTask(req, v)
    && var t, p := v.tasks[req.task.value], req.payload;
    && IsReporter(req, t) && t.state.InProgress? && (p.report.Progress? ==> t.turns < l.maxTurns)
  }

  /** The assignee, or its supervisor with one of the engine's reasons to give up. */
  predicate IsReporter(req: Request, t: Task) {
    || (req.actorType.Agent? && req.actorId == t.assignee)
    || (IsSupervisorOf(req, t.assignee) && (req.payload.report.Failure? || req.payload.report.Blockage?)
        && req.payload.reason in [Text("turn_failed"), Text("turn_budget"), Text("no_report")])
  }

  ghost predicate IsCanceller(req: Request, t: Task, registry: Registry) {
    || req.actorType.Human? || IsLead(req, registry)
    || (IsSupervisorOf(req, t.assignee) && req.payload.reason == Text("delivery_failed") && t.state.Assigned?)
  }

  ghost predicate MayReassign(req: Request, v: View, registry: Registry, l: Limits) {
    && IsOpenTask(req, v) && SawTheStamp(req, v, registry) && Commands(req, registry)
    && var t := v.tasks[req.task.value];
    && (t.state.Blocked? || (req.kind.TaskReopened? && t.state.TFailed?))
    && IsAssignable(registry, req.payload.assignee, req.team) && t.assignments < l.maxAssignments
    && HasTeamRoom(req, v, l) && HasRunRoom(req, v, l)
  }

  /** What each kind of request needs to be accepted. */
  ghost predicate MayBeAccepted(req: Request, v: View, registry: Registry, l: Limits, bodyStored: bool) {
    match req.kind
    case RunRequested => req.actorType.Human? && !IsKnownRun(req, v)
    case RunClosed => MayClose(req, v, registry)
    case TaskCreated => MayCreate(req, v, registry, l, bodyStored)
    case TaskStarted =>
      IsOpenTask(req, v) && var t := v.tasks[req.task.value]; IsSupervisorOf(req, t.assignee) && t.state.Assigned?
    case TaskReported => MayReport(req, v, l)
    case TaskCancelled =>
      && IsOpenTask(req, v) && SawTheStamp(req, v, registry)
      && var t := v.tasks[req.task.value]; IsCanceller(req, t, registry) && IsUnfinished(t)
    case TaskReassigned => MayReassign(req, v, registry, l)
    case TaskReopened => MayReassign(req, v, registry, l)
    case TaskOverdue =>
      && IsOpenTask(req, v) && IsUnfinished(v.tasks[req.task.value])
      && exists lead :: IsLeadOf(registry, req.team, lead) && IsSupervisorOf(req, lead)
    case _ => false
  }

  // --- the same people and the same counts ---------------------------------------------------------------

  lemma LeadIsTheOne(registry: Registry, team: string, lead: string)
    requires TeamLead(registry, team) == Some(lead)
    ensures forall uid :: IsLeadOf(registry, team, uid) <==> uid == lead
  {
    var found := set uid | uid in registry.agents && registry.agents[uid].team == team && registry.agents[uid].lead;
    assert found == {lead};
    assert lead in found;
    forall uid ensures IsLeadOf(registry, team, uid) <==> uid == lead {
      if IsLeadOf(registry, team, uid) {
        assert uid in found;
      }
      forall other | other in registry.agents && registry.agents[other].team == team && registry.agents[other].lead
        ensures other == lead
      {
        assert other in found;
      }
    }
  }

  /** Relayed the right way, people and gateways are told apart by their requester as by their id. */
  lemma PeopleAreTold(req: Request)
    requires IsRelayed(req)
    ensures IsHumanRequest(req) <==> IsPerson(req)
    ensures IsGatewayRequest(req) <==> IsGateway(req)
  {
    if req.actorType.Human? && !("gateway:" <= req.actorId) {
      assert ("human:" + req.actorId)[0] == 'h' && "gateway:"[0] == 'g';
    } else if req.actorType.Human? {
      assert req.actorId[0] == "gateway:"[0] && "human:"[0] == 'h';
    }
  }

  predicate Waits(v: View, team: string, id: string) {
    id in v.tasks && IsOpen(v.tasks[id].state) && v.tasks[id].team == team
  }

  function WaitingUpTo(v: View, team: string, n: nat): set<string>
    requires n <= |v.order|
  {
    if n == 0 then {}
    else WaitingUpTo(v, team, n - 1) + if Waits(v, team, v.order[n - 1]) then {v.order[n - 1]} else {}
  }

  lemma {:induction false} InWaiting(v: View, team: string, n: nat, id: string)
    requires n <= |v.order|
    ensures id in WaitingUpTo(v, team, n) <==> id in v.order[..n] && Waits(v, team, id)
  {
    if n > 0 {
      assert v.order[..n] == v.order[..n - 1] + [v.order[n - 1]];
      InWaiting(v, team, n - 1, id);
    }
  }

  lemma OneWeight(v: View, team: string, i: nat)
    requires i < |v.order|
    ensures WeighAt(v, OpenIn(team), i) == if Waits(v, team, v.order[i]) then 1 else 0
  {
  }

  lemma NotBefore(order: seq<string>, i: nat)
    requires i < |order| && forall j, k | 0 <= j < k < |order| :: order[j] != order[k]
    ensures order[i] !in order[..i]
  {
  }

  lemma LastIsNotWaiting(v: View, team: string, i: nat)
    requires i < |v.order| && IsOrder(v.order, v.tasks)
    ensures v.order[i] !in WaitingUpTo(v, team, i)
  {
    InWaiting(v, team, i, v.order[i]);
    NotBefore(v.order, i);
  }

  lemma OneWaitingMore(v: View, team: string, i: nat)
    requires i < |v.order| && IsOrder(v.order, v.tasks)
    ensures |WaitingUpTo(v, team, i + 1)| == |WaitingUpTo(v, team, i)| + if Waits(v, team, v.order[i]) then 1 else 0
  {
    LastIsNotWaiting(v, team, i);
    OneElementMore(WaitingUpTo(v, team, i), v.order[i]);
  }

  lemma OneElementMore<T>(s: set<T>, x: T)
    requires x !in s
    ensures |s + {x}| == |s| + 1 && |s + {}| == |s|
  {
    assert s + {} == s;
  }

  lemma {:induction false} TallyIsCount(v: View, team: string, n: nat)
    requires n <= |v.order| && IsOrder(v.order, v.tasks)
    ensures TallyTo(v, OpenIn(team), n) == |WaitingUpTo(v, team, n)|
  {
    if n > 0 {
      TallyIsCount(v, team, n - 1);
      OneWeight(v, team, n - 1);
      OneWaitingMore(v, team, n - 1);
    }
  }

  /** The tally a decision compares with max_open is the number of the team's waiting tasks. */
  lemma TallyCountsWaiting(v: View, team: string)
    requires IsOrder(v.order, v.tasks)
    ensures Tally(v, OpenIn(team)) == |WaitingTasks(v, team)|
  {
    var n := |v.order|;
    TallyIsCount(v, team, n);
    forall id ensures id in WaitingUpTo(v, team, n) <==> id in WaitingTasks(v, team) {
      InWaiting(v, team, n, id);
      assert v.order[..n] == v.order;
    }
    assert WaitingUpTo(v, team, n) == WaitingTasks(v, team);
  }

  // --- accepted if and only if the guards hold --------------------------------------------------------------

  /** A creation and its guards, in the same order. */
  lemma CreationIff(req: Request, v: View, registry: Registry, l: Limits, lead: string)
    requires req.kind.TaskCreated? && req.task.Some? && IsRelayed(req) && IsOrder(v.order, v.tasks) && l.maxDepth >= 1
    requires TeamLead(registry, req.team) == Some(lead)
    ensures DecideCreate(req, v, registry, l, req.actorType.Agent? && req.actorId == lead).None?
       <==> MayCreate(req, v, registry, l, true)
  {
    LeadIsTheOne(registry, req.team, lead);
    PeopleAreTold(req);
    TallyCountsWaiting(v, req.team);
  }

  lemma ClosingIff(req: Request, v: View, registry: Registry, lead: string)
    requires req.kind.RunClosed? && IsRelayed(req) && TeamLead(registry, req.team) == Some(lead)
    ensures DecideClose(req, v, req.actorType.Agent? && req.actorId == lead).None? <==> MayClose(req, v, registry)
  {
    LeadIsTheOne(registry, req.team, lead);
    PeopleAreTold(req);
  }

  lemma ReportIff(req: Request, v: View, l: Limits)
    requires req.kind.TaskReported? && IsOpenTask(req, v)
    ensures DecideReport(req, v.tasks[req.task.value], l).None? <==> MayReport(req, v, l)
  {
  }

  lemma ReassignIff(req: Request, v: View, registry: Registry, l: Limits, lead: string)
    requires IsOpenTask(req, v) && SawTheStamp(req, v, registry) && IsRelayed(req) && IsOrder(v.order, v.tasks)
    requires TeamLead(registry, req.team) == Some(lead)
    ensures DecideReassign(req, v, v.tasks[req.task.value], registry, l, req.actorType.Agent? && req.actorId == lead).None?
       <==> MayReassign(req, v, registry, l)
  {
    LeadIsTheOne(registry, req.team, lead);
    PeopleAreTold(req);
    TallyCountsWaiting(v, req.team);
  }

  lemma OverdueIff(req: Request, v: View, registry: Registry, l: Limits, lead: string)
    requires req.kind.TaskOverdue? && IsOpenTask(req, v) && TeamLead(registry, req.team) == Some(lead)
    ensures DecideTask(req, v, registry, l, lead).None? <==> MayBeAccepted(req, v, registry, l, true)
  {
    LeadIsTheOne(registry, req.team, lead);
    assert IsLeadOf(registry, req.team, lead);
  }

  lemma CancelIff(req: Request, v: View, registry: Registry, l: Limits, lead: string)
    requires req.kind.TaskCancelled? && IsOpenTask(req, v) && TeamLead(registry, req.team) == Some(lead)
    requires IsRelayed(req)
    ensures DecideTask(req, v, registry, l, lead).None? <==> MayBeAccepted(req, v, registry, l, true)
  {
    LeadIsTheOne(registry, req.team, lead);
    PeopleAreTold(req);
  }

  lemma ChangeIff(req: Request, v: View, registry: Registry, l: Limits, lead: string)
    requires req.kind.TaskReassigned? || req.kind.TaskReopened?
    requires IsOpenTask(req, v) && IsRelayed(req) && IsOrder(v.order, v.tasks) && TeamLead(registry, req.team) == Some(lead)
    ensures DecideTask(req, v, registry, l, lead).None? <==> MayBeAccepted(req, v, registry, l, true)
  {
    LeadIsTheOne(registry, req.team, lead);
    PeopleAreTold(req);
    if SawTheStamp(req, v, registry) {
      ReassignIff(req, v, registry, l, lead);
    }
  }

  lemma TaskEventIff(req: Request, v: View, registry: Registry, l: Limits, lead: string)
    requires !IsRunKind(req.kind) && !req.kind.TaskCreated? && !req.kind.TaskRejected? && IsRelayed(req)
    requires IsOrder(v.order, v.tasks) && TeamLead(registry, req.team) == Some(lead)
    ensures DecideTask(req, v, registry, l, lead).None? <==> MayBeAccepted(req, v, registry, l, true)
  {
    if IsOpenTask(req, v) {
      match req.kind
      case TaskReported => ReportIff(req, v, l);
      case TaskReassigned | TaskReopened => ChangeIff(req, v, registry, l, lead);
      case TaskCancelled => CancelIff(req, v, registry, l, lead);
      case TaskOverdue => OverdueIff(req, v, registry, l, lead);
      case _ =>
    }
  }

  /** What a decision needs besides the request: limits that parse and one lead. */
  predicate CanDecide(req: Request, w: World) {
    TeamLimits(w.registry, req.team).Ok? && TeamLead(w.registry, req.team).Some? && (req.kind.TaskCreated? ==> req.task.Some?)
  }

  lemma AcceptedRunEventIff(req: Request, v: View, w: World, l: Limits, lead: string)
    requires req.caller == "root:root" && IsRunKind(req.kind) && CommandKindOf(req.kind) && IsRelayed(req)
    requires TeamLimits(w.registry, req.team) == Ok(l) && TeamLead(w.registry, req.team) == Some(lead)
    ensures
      var d := Decide(req, v, w.registry, w.bodyStored, w.defaultDeadline);
      d.Decided? && (d.accepted <==> MayBeAccepted(req, v, w.registry, l, w.bodyStored))
  {
    PeopleAreTold(req);
    if req.kind.RunClosed? {
      ClosingIff(req, v, w.registry, lead);
    }
  }

  lemma AcceptedCreationIff(req: Request, v: View, w: World, l: Limits, lead: string)
    requires req.caller == "root:root" && req.kind.TaskCreated? && req.task.Some? && IsRelayed(req) && IsOrder(v.order, v.tasks)
    requires TeamLimits(w.registry, req.team) == Ok(l) && TeamLead(w.registry, req.team) == Some(lead)
    ensures
      var d := Decide(req, v, w.registry, w.bodyStored, w.defaultDeadline);
      d.Decided? && (d.accepted <==> MayCreate(req, v, w.registry, l, w.bodyStored))
  {
    CreationIff(req, v, w.registry, l, lead);
  }

  lemma AcceptedTaskEventIff(req: Request, v: View, w: World, l: Limits, lead: string)
    requires req.caller == "root:root" && !IsRunKind(req.kind) && !req.kind.TaskCreated? && IsRelayed(req)
    requires IsOrder(v.order, v.tasks)
    requires TeamLimits(w.registry, req.team) == Ok(l) && TeamLead(w.registry, req.team) == Some(lead)
    ensures
      var d := Decide(req, v, w.registry, w.bodyStored, w.defaultDeadline);
      d.Decided? && (d.accepted <==> MayBeAccepted(req, v, w.registry, l, w.bodyStored))
  {
    if !req.kind.TaskRejected? {
      TaskEventIff(req, v, w.registry, l, lead);
    }
  }

  lemma UnrelayedIsRefused(req: Request, v: View, w: World)
    requires req.caller == "root:root" && !IsRelayed(req)
    ensures Decide(req, v, w.registry, w.bodyStored, w.defaultDeadline) == Refuse(req, "caller_actor_mismatch")
  {
  }

  /** A request is accepted if and only if it was relayed the right way and the guards of its kind hold. */
  lemma AcceptedIff(req: Request, v: View, w: World)
    requires req.caller == "root:root" && IsOrder(v.order, v.tasks) && CanDecide(req, w) && CommandKindOf(req.kind)
    ensures
      var d := Decide(req, v, w.registry, w.bodyStored, w.defaultDeadline);
      var l := TeamLimits(w.registry, req.team).value;
      d.Decided? && (d.accepted <==> IsRelayed(req) && MayBeAccepted(req, v, w.registry, l, w.bodyStored))
  {
    var l, lead := TeamLimits(w.registry, req.team).value, TeamLead(w.registry, req.team).value;
    if !IsRelayed(req) {
      UnrelayedIsRefused(req, v, w);
    } else if IsRunKind(req.kind) {
      AcceptedRunEventIff(req, v, w, l, lead);
    } else if req.kind.TaskCreated? {
      AcceptedCreationIff(req, v, w, l, lead);
    } else {
      AcceptedTaskEventIff(req, v, w, l, lead);
    }
  }

  /** The kinds the command can ask for. */
  predicate CommandKindOf(k: Kind) {
    exists c: Command :: CommandKind(c) == k
  }

  // --- refused for the first guard that fails ---------------------------------------------------------------

  /** A guard, and the reason it gives when it fails. */
  type Guard = (bool, string)

  ghost predicate IsFirstFailing(guards: seq<Guard>, reason: string) {
    exists k | 0 <= k < |guards| :: IsFirstAt(guards, k) && guards[k].1 == reason
  }

  ghost predicate AllHold(guards: seq<Guard>) {
    forall k | 0 <= k < |guards| :: guards[k].0
  }

  ghost predicate IsFirstAt(guards: seq<Guard>, k: nat)
    requires k < |guards|
  {
    !guards[k].0 && forall j | 0 <= j < k :: guards[j].0
  }

  ghost function RequestGuards(req: Request, v: View): seq<Guard> {
    [(req.actorType.Human?, "unauthorized"), (!IsKnownRun(req, v), "duplicate")]
  }

  ghost function RunGuards(req: Request, v: View): seq<Guard> {
    [(IsKnownRun(req, v), "unknown_run"), (IsOwnRun(req, v), "cross_team"), (IsOpenRun(req, v), "run_closed")]
  }

  ghost function CloseGuards(req: Request, v: View, registry: Registry): seq<Guard> {
    RunGuards(req, v)
    + [(Commands(req, registry), "not_lead"),
       (req.payload.outcome.Complete? ==> forall id | id in v.tasks && v.tasks[id].run == req.run :: !IsUnfinished(v.tasks[id]),
        "open_tasks")]
  }

  ghost function AssigneeGuards(registry: Registry, assignee: Json, team: string): seq<Guard> {
    var known := assignee.Text? && assignee.s in registry.agents;
    [(known, "unknown_assignee"), (known ==> registry.agents[assignee.s].team == team, "cross_team"),
     (known ==> registry.agents[assignee.s].supervised && !registry.agents[assignee.s].lead, "invalid_assignee")]
  }

  ghost function RoomGuards(req: Request, v: View, l: Limits): seq<Guard> {
    [(HasTeamRoom(req, v, l), "max_open"), (HasRunRoom(req, v, l), "max_tasks_per_run")]
  }

  ghost function CreateGuards(req: Request, v: View, registry: Registry, l: Limits, bodyStored: bool): seq<Guard>
    requires req.task.Some?
  {
    [(Commands(req, registry), "not_lead")] + RunGuards(req, v)
    + [(req.task.value !in v.tasks, "duplicate"), (req.payload.gate.NoGate?, "gate_not_available"),
       (req.payload.depth in [Number(1), Boolean(true)], "max_depth")]
    + AssigneeGuards(registry, req.payload.assignee, req.team)
    + [(IsNew(req, v), "duplicate")] + RoomGuards(req, v, l) + [(bodyStored, "unsafe_body_sidecar")]
  }

  ghost predicate IsStampChecked(req: Request, v: View, registry: Registry) {
    (req.kind.TaskReassigned? || req.kind.TaskReopened? || req.kind.TaskCancelled?) && IsKnownTask(req, v) ==>
      SawTheStamp(req, v, registry)
  }

  /** What every event on a task needs first. */
  ghost function TaskGuards(req: Request, v: View, registry: Registry): seq<Guard> {
    [(IsKnownTask(req, v), "unknown_task"), (IsOwnTask(req, v), "cross_team"), (IsOwnRun(req, v), "unknown_run"),
     (IsOpenRun(req, v), "run_closed"), (IsStampChecked(req, v, registry), "concurrent_update")]
  }

  /** What each of them needs then. */
  ghost function EventGuards(req: Request, v: View, t: Task, registry: Registry, l: Limits): seq<Guard> {
    match req.kind
    case TaskStarted =>
      [(IsSupervisorOf(req, t.assignee), "not_assignee"), (t.state.Assigned?, "invalid_transition")]
    case TaskReported =>
      [(IsReporter(req, t), if req.actorType.Service? then "unauthorized_reason" else "not_assignee"),
       (t.state.InProgress?, "invalid_transition"),
       (req.payload.report.Progress? ==> t.turns < l.maxTurns, "max_turns_per_task")]
    case TaskCancelled =>
      [(IsCanceller(req, t, registry), "unauthorized"), (IsUnfinished(t), "invalid_transition")]
    case TaskOverdue =>
      [(exists lead :: IsLeadOf(registry, req.team, lead) && IsSupervisorOf(req, lead), "not_lead"),
       (IsUnfinished(t), "invalid_transition")]
    case TaskReassigned => ChangeGuards(req, v, t, registry, l)
    case TaskReopened => ChangeGuards(req, v, t, registry, l)
    case _ => [(false, "unsupported_event")]
  }

  ghost function ChangeGuards(req: Request, v: View, t: Task, registry: Registry, l: Limits): seq<Guard> {
    [(Commands(req, registry), "not_lead"),
     (t.state.Blocked? || (req.kind.TaskReopened? && t.state.TFailed?), "invalid_transition")]
    + AssigneeGuards(registry, req.payload.assignee, req.team)
    + [(t.assignments < l.maxAssignments, "max_assignments_per_task")] + RoomGuards(req, v, l)
  }

  /** All the guards of a request, in the order they are tried. */
  ghost function Guards(req: Request, v: View, registry: Registry, l: Limits, bodyStored: bool): seq<Guard>
    requires req.kind.TaskCreated? ==> req.task.Some?
  {
    [(IsRelayed(req), "caller_actor_mismatch")]
    + match req.kind
      case RunRequested => RequestGuards(req, v)
      case RunClosed => CloseGuards(req, v, registry)
      case TaskCreated => CreateGuards(req, v, registry, l, bodyStored)
      case _ =>
        TaskGuards(req, v, registry)
        + if IsKnownTask(req, v) then EventGuards(req, v, v.tasks[req.task.value], registry, l) else []
  }

  lemma FirstOf(guards: seq<Guard>, k: nat, reason: string)
    requires k < |guards| && IsFirstAt(guards, k) && guards[k].1 == reason
    ensures IsFirstFailing(guards, reason)
  {
  }

  /** Failing first in the later part, after a part that holds. */
  lemma FirstInTwo(a: seq<Guard>, b: seq<Guard>, reason: string)
    ensures IsFirstFailing(a, reason) ==> IsFirstFailing(a + b, reason)
    ensures AllHold(a) && IsFirstFailing(b, reason) ==> IsFirstFailing(a + b, reason)
    ensures AllHold(a) && AllHold(b) ==> AllHold(a + b)
  {
    if IsFirstFailing(a, reason) {
      var k :| 0 <= k < |a| && IsFirstAt(a, k) && a[k].1 == reason;
      assert (a + b)[k] == a[k] && forall j | 0 <= j < k :: (a + b)[j] == a[j];
      FirstOf(a + b, k, reason);
    }
    if AllHold(a) && IsFirstFailing(b, reason) {
      var k :| 0 <= k < |b| && IsFirstAt(b, k) && b[k].1 == reason;
      assert (a + b)[|a| + k] == b[k];
      forall j | 0 <= j < |a| + k ensures (a + b)[j].0 {
        assert j >= |a| ==> (a + b)[j] == b[j - |a|];
      }
      FirstOf(a + b, |a| + k, reason);
    }
  }

  // --- the decision gives that reason ------------------------------------------------------------------------

  /** A fault is none, and the guards hold, or it is the reason of the first that fails. */
  ghost predicate Explains(guards: seq<Guard>, fault: Option<string>) {
    if fault.Some? then IsFirstFailing(guards, fault.value) else AllHold(guards)
  }

  lemma RunExplained(req: Request, v: View, fault: Option<string>)
    requires fault == if !IsKnownRun(req, v) then Some("unknown_run") else if !IsOwnRun(req, v) then Some("cross_team")
                      else if !IsOpenRun(req, v) then Some("run_closed") else None
    ensures Explains(RunGuards(req, v), fault)
  {
    var gs := RunGuards(req, v);
    if !gs[0].0 {
      FirstOf(gs, 0, "unknown_run");
    } else if !gs[1].0 {
      FirstOf(gs, 1, "cross_team");
    } else if !gs[2].0 {
      FirstOf(gs, 2, "run_closed");
    }
  }

  lemma AssigneeExplained(registry: Registry, assignee: Json, team: string)
    ensures Explains(AssigneeGuards(registry, assignee, team), AssigneeFault(registry, assignee, team))
  {
    var gs := AssigneeGuards(registry, assignee, team);
    if !gs[0].0 {
      FirstOf(gs, 0, "unknown_assignee");
    } else if !gs[1].0 {
      FirstOf(gs, 1, "cross_team");
    } else if !gs[2].0 {
      FirstOf(gs, 2, "invalid_assignee");
    }
  }

  lemma TwoExplained(first: Guard, second: Guard)
    ensures Explains([first, second], if !first.0 then Some(first.1) else if !second.0 then Some(second.1) else None)
  {
    var gs := [first, second];
    if !first.0 {
      FirstOf(gs, 0, first.1);
    } else if !second.0 {
      FirstOf(gs, 1, second.1);
    }
  }

  lemma ThreeExplained(first: Guard, second: Guard, third: Guard)
    ensures Explains([first, second, third],
                     if !first.0 then Some(first.1) else if !second.0 then Some(second.1)
                     else if !third.0 then Some(third.1) else None)
  {
    var gs := [first, second, third];
    if !first.0 {
      FirstOf(gs, 0, first.1);
    } else if !second.0 {
      FirstOf(gs, 1, second.1);
    } else if !third.0 {
      FirstOf(gs, 2, third.1);
    }
  }

  lemma OneExplained(first: Guard)
    ensures Explains([first], if !first.0 then Some(first.1) else None)
  {
    if !first.0 {
      FirstOf([first], 0, first.1);
    }
  }

  function Then(first: Option<string>, second: Option<string>): Option<string> {
    if first.Some? then first else second
  }

  lemma ExplainedInTwo(a: seq<Guard>, b: seq<Guard>, first: Option<string>, second: Option<string>)
    requires Explains(a, first) && (first.None? ==> Explains(b, second))
    ensures Explains(a + b, Then(first, second))
  {
    if first.Some? {
      FirstInTwo(a, b, first.value);
    } else if second.Some? {
      FirstInTwo(a, b, second.value);
    } else {
      FirstInTwo(a, b, "");
    }
  }

  function RunFault(req: Request, v: View): Option<string> {
    if !IsKnownRun(req, v) then Some("unknown_run")
    else if !IsOwnRun(req, v) then Some("cross_team")
    else if !IsOpenRun(req, v) then Some("run_closed")
    else None
  }

  lemma CloseExplained(req: Request, v: View, registry: Registry, lead: string)
    requires IsRelayed(req) && TeamLead(registry, req.team) == Some(lead)
    ensures Explains(CloseGuards(req, v, registry), DecideClose(req, v, req.actorType.Agent? && req.actorId == lead))
  {
    LeadIsTheOne(registry, req.team, lead);
    PeopleAreTold(req);
    RunExplained(req, v, RunFault(req, v));
    var done := req.payload.outcome.Complete? ==> forall id | id in v.tasks && v.tasks[id].run == req.run :: !IsUnfinished(v.tasks[id]);
    assert done <==> !(req.payload.outcome.Complete? && HasOpenTask(v.tasks, req.run));
    TwoExplained((Commands(req, registry), "not_lead"), (done, "open_tasks"));
    ExplainedInTwo(RunGuards(req, v), [(Commands(req, registry), "not_lead"), (done, "open_tasks")], RunFault(req, v),
                   if !Commands(req, registry) then Some("not_lead") else if !done then Some("open_tasks") else None);
  }

  function RoomFault(req: Request, v: View, l: Limits): Option<string> {
    if !HasTeamRoom(req, v, l) then Some("max_open") else if !HasRunRoom(req, v, l) then Some("max_tasks_per_run") else None
  }

  lemma RoomExplained(req: Request, v: View, l: Limits)
    ensures Explains(RoomGuards(req, v, l), RoomFault(req, v, l))
  {
    TwoExplained((HasTeamRoom(req, v, l), "max_open"), (HasRunRoom(req, v, l), "max_tasks_per_run"));
  }

  lemma ChangeExplained(req: Request, v: View, t: Task, registry: Registry, l: Limits, lead: string)
    requires IsRelayed(req) && IsOrder(v.order, v.tasks) && TeamLead(registry, req.team) == Some(lead)
    ensures Explains(ChangeGuards(req, v, t, registry, l),
                     DecideReassign(req, v, t, registry, l, req.actorType.Agent? && req.actorId == lead))
  {
    LeadIsTheOne(registry, req.team, lead);
    PeopleAreTold(req);
    TallyCountsWaiting(v, req.team);
    var a: seq<Guard> := [(Commands(req, registry), "not_lead"),
                          (t.state.Blocked? || (req.kind.TaskReopened? && t.state.TFailed?), "invalid_transition")];
    var fa := if !a[0].0 then Some("not_lead") else if !a[1].0 then Some("invalid_transition") else None;
    TwoExplained(a[0], a[1]);
    var b, fb := AssigneeGuards(registry, req.payload.assignee, req.team), AssigneeFault(registry, req.payload.assignee, req.team);
    AssigneeExplained(registry, req.payload.assignee, req.team);
    ExplainedInTwo(a, b, fa, fb);
    var c: seq<Guard> := [(t.assignments < l.maxAssignments, "max_assignments_per_task")];
    var fc := if !c[0].0 then Some("max_assignments_per_task") else None;
    OneExplained(c[0]);
    ExplainedInTwo(a + b, c, Then(fa, fb), fc);
    RoomExplained(req, v, l);
    ExplainedInTwo(a + b + c, RoomGuards(req, v, l), Then(Then(fa, fb), fc), RoomFault(req, v, l));
  }

  lemma CommandOfRunExplained(req: Request, v: View, registry: Registry)
    ensures Explains([(Commands(req, registry), "not_lead")] + RunGuards(req, v),
                     Then(if !Commands(req, registry) then Some("not_lead") else None, RunFault(req, v)))
  {
    OneExplained((Commands(req, registry), "not_lead"));
    RunExplained(req, v, RunFault(req, v));
    ExplainedInTwo([(Commands(req, registry), "not_lead")], RunGuards(req, v),
                   if !Commands(req, registry) then Some("not_lead") else None, RunFault(req, v));
  }

  lemma CreateExplained(req: Request, v: View, registry: Registry, l: Limits, lead: string, bodyStored: bool)
    requires req.task.Some? && IsRelayed(req) && IsOrder(v.order, v.tasks) && l.maxDepth >= 1
    requires TeamLead(registry, req.team) == Some(lead)
    ensures Explains(CreateGuards(req, v, registry, l, bodyStored),
                     Then(DecideCreate(req, v, registry, l, req.actorType.Agent? && req.actorId == lead),
                          if bodyStored then None else Some("unsafe_body_sidecar")))
  {
    LeadIsTheOne(registry, req.team, lead);
    PeopleAreTold(req);
    TallyCountsWaiting(v, req.team);
    var a: seq<Guard> := [(Commands(req, registry), "not_lead")];
    var fa := if !Commands(req, registry) then Some("not_lead") else None;
    var ab, fab := a + RunGuards(req, v), Then(fa, RunFault(req, v));
    CommandOfRunExplained(req, v, registry);
    var c: seq<Guard> := [(req.task.value !in v.tasks, "duplicate"), (req.payload.gate.NoGate?, "gate_not_available"),
                          (req.payload.depth in [Number(1), Boolean(true)], "max_depth")];
    var fc := if !c[0].0 then Some("duplicate") else if !c[1].0 then Some("gate_not_available")
              else if !c[2].0 then Some("max_depth") else None;
    ThreeExplained(c[0], c[1], c[2]);
    ExplainedInTwo(ab, c, fab, fc);
    var d, fd := AssigneeGuards(registry, req.payload.assignee, req.team), AssigneeFault(registry, req.payload.assignee, req.team);
    AssigneeExplained(registry, req.payload.assignee, req.team);
    ExplainedInTwo(ab + c, d, Then(fab, fc), fd);
    CreateExplainedFurther(req, v, registry, l, ab + c + d, Then(Then(fab, fc), fd), bodyStored);
    assert a + RunGuards(req, v) + c + d == ab + c + d;
  }

  lemma CreateExplainedFurther(req: Request, v: View, registry: Registry, l: Limits, before: seq<Guard>, fault: Option<string>,
                               bodyStored: bool)
    requires Explains(before, fault)
    ensures Explains(before + [(IsNew(req, v), "duplicate")] + RoomGuards(req, v, l) + [(bodyStored, "unsafe_body_sidecar")],
                     Then(Then(Then(fault, if IsNew(req, v) then None else Some("duplicate")), RoomFault(req, v, l)),
                          if bodyStored then None else Some("unsafe_body_sidecar")))
  {
    var e: seq<Guard> := [(IsNew(req, v), "duplicate")];
    var fe := if IsNew(req, v) then None else Some("duplicate");
    OneExplained(e[0]);
    ExplainedInTwo(before, e, fault, fe);
    RoomExplained(req, v, l);
    ExplainedInTwo(before + e, RoomGuards(req, v, l), Then(fault, fe), RoomFault(req, v, l));
    var g: seq<Guard> := [(bodyStored, "unsafe_body_sidecar")];
    OneExplained(g[0]);
    ExplainedInTwo(before + e + RoomGuards(req, v, l), g, Then(Then(fault, fe), RoomFault(req, v, l)),
                   if bodyStored then None else Some("unsafe_body_sidecar"));
  }

  lemma ReportExplained(req: Request, v: View, t: Task, registry: Registry, l: Limits, lead: string)
    requires req.kind.TaskReported? && req.task.Some? && req.task.value in v.tasks && t == v.tasks[req.task.value]
    ensures Explains(EventGuards(req, v, t, registry, l), DecideReport(req, t, l))
  {
    ThreeExplained((IsReporter(req, t), if req.actorType.Service? then "unauthorized_reason" else "not_assignee"),
                   (t.state.InProgress?, "invalid_transition"),
                   (req.payload.report.Progress? ==> t.turns < l.maxTurns, "max_turns_per_task"));
  }

  lemma EventExplained(req: Request, v: View, registry: Registry, l: Limits, lead: string)
    requires !IsRunKind(req.kind) && !req.kind.TaskCreated? && !req.kind.TaskRejected? && IsRelayed(req)
    requires IsOrder(v.order, v.tasks) && TeamLead(registry, req.team) == Some(lead)
    requires IsOpenTask(req, v) && IsStampChecked(req, v, registry)
    ensures Explains(EventGuards(req, v, v.tasks[req.task.value], registry, l), DecideTask(req, v, registry, l, lead))
  {
    var t := v.tasks[req.task.value];
    LeadIsTheOne(registry, req.team, lead);
    PeopleAreTold(req);
    match req.kind
    case TaskReported => ReportExplained(req, v, t, registry, l, lead);
    case TaskReassigned | TaskReopened => ChangeExplained(req, v, t, registry, l, lead);
    case TaskStarted => TwoExplained((IsSupervisorOf(req, t.assignee), "not_assignee"), (t.state.Assigned?, "invalid_transition"));
    case TaskCancelled => TwoExplained((IsCanceller(req, t, registry), "unauthorized"), (IsUnfinished(t), "invalid_transition"));
    case TaskOverdue =>
      assert IsLeadOf(registry, req.team, lead);
      TwoExplained((exists uid :: IsLeadOf(registry, req.team, uid) && IsSupervisorOf(req, uid), "not_lead"),
                   (IsUnfinished(t), "invalid_transition"));
    case _ => OneExplained((false, "unsupported_event"));
  }

  /** What an event on a task needs first, and the reason it gives. */
  lemma TaskExplained(req: Request, v: View, registry: Registry, l: Limits, lead: string)
    requires !IsRunKind(req.kind) && !req.kind.TaskCreated? && !req.kind.TaskRejected? && IsRelayed(req)
    requires TeamLead(registry, req.team) == Some(lead)
    ensures AllHold(TaskGuards(req, v, registry)) <==> IsOpenTask(req, v) && IsStampChecked(req, v, registry)
    ensures !AllHold(TaskGuards(req, v, registry)) ==> Explains(TaskGuards(req, v, registry), DecideTask(req, v, registry, l, lead))
  {
    LeadIsTheOne(registry, req.team, lead);
    PeopleAreTold(req);
    var gs := TaskGuards(req, v, registry);
    assert |gs| == 5;
    if !gs[0].0 {
      FirstOf(gs, 0, "unknown_task");
    } else if !gs[1].0 {
      FirstOf(gs, 1, "cross_team");
    } else if !gs[2].0 {
      FirstOf(gs, 2, "unknown_run");
    } else if !gs[3].0 {
      FirstOf(gs, 3, "run_closed");
    } else if !gs[4].0 {
      FirstOf(gs, 4, "concurrent_update");
    }
  }

  lemma TaskEventExplained(req: Request, v: View, registry: Registry, l: Limits, lead: string)
    requires !IsRunKind(req.kind) && !req.kind.TaskCreated? && !req.kind.TaskRejected? && IsRelayed(req)
    requires IsOrder(v.order, v.tasks) && TeamLead(registry, req.team) == Some(lead)
    ensures
      var later := if IsKnownTask(req, v) then EventGuards(req, v, v.tasks[req.task.value], registry, l) else [];
      Explains(TaskGuards(req, v, registry) + later, DecideTask(req, v, registry, l, lead))
  {
    var fault := DecideTask(req, v, registry, l, lead);
    var a := TaskGuards(req, v, registry);
    var b := if IsKnownTask(req, v) then EventGuards(req, v, v.tasks[req.task.value], registry, l) else [];
    TaskExplained(req, v, registry, l, lead);
    if AllHold(a) {
      EventExplained(req, v, registry, l, lead);
      ExplainedInTwo(a, b, None, fault);
    } else {
      ExplainedInTwo(a, b, fault, None);
    }
  }

  /** Why a decision refuses, if it does. */
  function FaultOf(d: Decision): Option<string>
    requires d.Decided?
  {
    if d.accepted then None else Some(d.reason)
  }

  lemma DecidedRunEvent(req: Request, v: View, w: World, l: Limits, lead: string)
    requires req.caller == "root:root" && (req.kind.RunRequested? || req.kind.RunClosed?) && IsRelayed(req)
    requires TeamLimits(w.registry, req.team) == Ok(l) && TeamLead(w.registry, req.team) == Some(lead)
    ensures
      var d := Decide(req, v, w.registry, w.bodyStored, w.defaultDeadline);
      d.Decided? && Explains(Guards(req, v, w.registry, l, w.bodyStored)[1..], FaultOf(d))
  {
    PeopleAreTold(req);
    if req.kind.RunClosed? {
      CloseExplained(req, v, w.registry, lead);
      assert Guards(req, v, w.registry, l, w.bodyStored)[1..] == CloseGuards(req, v, w.registry);
    } else {
      TwoExplained((req.actorType.Human?, "unauthorized"), (!IsKnownRun(req, v), "duplicate"));
      assert Guards(req, v, w.registry, l, w.bodyStored)[1..] == RequestGuards(req, v);
    }
  }

  lemma DecidedCreation(req: Request, v: View, w: World, l: Limits, lead: string)
    requires req.caller == "root:root" && req.kind.TaskCreated? && req.task.Some? && IsRelayed(req) && IsOrder(v.order, v.tasks)
    requires TeamLimits(w.registry, req.team) == Ok(l) && TeamLead(w.registry, req.team) == Some(lead)
    ensures
      var d := Decide(req, v, w.registry, w.bodyStored, w.defaultDeadline);
      d.Decided? && Explains(Guards(req, v, w.registry, l, w.bodyStored)[1..], FaultOf(d))
  {
    CreateExplained(req, v, w.registry, l, lead, w.bodyStored);
    assert Guards(req, v, w.registry, l, w.bodyStored)[1..] == CreateGuards(req, v, w.registry, l, w.bodyStored);
  }

  lemma DecidedTaskEvent(req: Request, v: View, w: World, l: Limits, lead: string)
    requires req.caller == "root:root" && !IsRunKind(req.kind) && !req.kind.TaskCreated? && !req.kind.TaskRejected? && IsRelayed(req)
    requires IsOrder(v.order, v.tasks)
    requires TeamLimits(w.registry, req.team) == Ok(l) && TeamLead(w.registry, req.team) == Some(lead)
    ensures
      var d := Decide(req, v, w.registry, w.bodyStored, w.defaultDeadline);
      d.Decided? && Explains(Guards(req, v, w.registry, l, w.bodyStored)[1..], FaultOf(d))
  {
    TaskEventExplained(req, v, w.registry, l, lead);
    var later := if IsKnownTask(req, v) then EventGuards(req, v, v.tasks[req.task.value], w.registry, l) else [];
    assert Guards(req, v, w.registry, l, w.bodyStored)[1..] == TaskGuards(req, v, w.registry) + later;
  }

  /** A request is refused for the first of its guards that fails, and otherwise accepted. */
  lemma RefusedForTheFirst(req: Request, v: View, w: World)
    requires req.caller == "root:root" && IsOrder(v.order, v.tasks) && CanDecide(req, w)
    requires CommandKindOf(req.kind) && !req.kind.TaskRejected?
    ensures
      var d := Decide(req, v, w.registry, w.bodyStored, w.defaultDeadline);
      d.Decided? && Explains(Guards(req, v, w.registry, TeamLimits(w.registry, req.team).value, w.bodyStored), FaultOf(d))
  {
    var l, lead := TeamLimits(w.registry, req.team).value, TeamLead(w.registry, req.team).value;
    var gs := Guards(req, v, w.registry, l, w.bodyStored);
    var d := Decide(req, v, w.registry, w.bodyStored, w.defaultDeadline);
    if !IsRelayed(req) {
      UnrelayedIsRefused(req, v, w);
      FirstOf(gs, 0, "caller_actor_mismatch");
    } else {
      if IsRunKind(req.kind) {
        DecidedRunEvent(req, v, w, l, lead);
      } else if req.kind.TaskCreated? {
        DecidedCreation(req, v, w, l, lead);
      } else {
        DecidedTaskEvent(req, v, w, l, lead);
      }
      OneExplained(gs[0]);
      ExplainedInTwo([gs[0]], gs[1..], None, FaultOf(d));
      assert [gs[0]] + gs[1..] == gs;
    }
  }

  // --- what is then put on record -------------------------------------------------------------------------------

  /**
   * An accepted request is recorded as it was asked, a creation with its team's budget and a deadline;
   * a refusal as nothing but the kind it refuses and its reason.
   */
  predicate IsRecordedAs(req: Request, w: World, d: Decision)
    requires d.Decided?
  {
    var p, q := req.payload, d.payload;
    if !d.accepted then
      && d.kind.TaskRejected?
      && q == EMPTY_PAYLOAD.(caller := Text("root:root"), requestedType := Text(KindName(req.kind)), reason := Text(d.reason))
    else
      && d.kind == req.kind && q.caller == Text("root:root")
      && q.(caller := p.caller, deadline := p.deadline, budget := p.budget) == p
      && (if req.kind.TaskCreated? then
            && TeamLimits(w.registry, req.team).Ok?
            && var l := TeamLimits(w.registry, req.team).value;
            && q.deadline == (if p.deadline.Null? then Text(w.defaultDeadline) else p.deadline)
            && q.budget == Some(Budget(l.maxTurns, l.maxAssignments))
          else q.deadline == p.deadline && q.budget == p.budget)
  }

  lemma RunEventRecorded(req: Request, v: View, w: World)
    requires req.caller == "root:root" && !req.kind.TaskRejected? && IsRunKind(req.kind)
    requires Decide(req, v, w.registry, w.bodyStored, w.defaultDeadline).Decided?
    ensures IsRecordedAs(req, w, Decide(req, v, w.registry, w.bodyStored, w.defaultDeadline))
  {
  }

  lemma CreationRecorded(req: Request, v: View, w: World)
    requires req.caller == "root:root" && !req.kind.TaskRejected? && req.kind.TaskCreated?
    requires Decide(req, v, w.registry, w.bodyStored, w.defaultDeadline).Decided?
    ensures IsRecordedAs(req, w, Decide(req, v, w.registry, w.bodyStored, w.defaultDeadline))
  {
  }

  lemma TaskEventRecorded(req: Request, v: View, w: World)
    requires req.caller == "root:root" && !req.kind.TaskRejected? && !IsRunKind(req.kind) && !req.kind.TaskCreated?
    requires Decide(req, v, w.registry, w.bodyStored, w.defaultDeadline).Decided?
    ensures IsRecordedAs(req, w, Decide(req, v, w.registry, w.bodyStored, w.defaultDeadline))
  {
  }

  /** Every decision is recorded so. */
  lemma DecisionsAreRecorded(req: Request, v: View, w: World)
    requires req.caller == "root:root" && !req.kind.TaskRejected?
    requires Decide(req, v, w.registry, w.bodyStored, w.defaultDeadline).Decided?
    ensures IsRecordedAs(req, w, Decide(req, v, w.registry, w.bodyStored, w.defaultDeadline))
  {
    if IsRunKind(req.kind) {
      RunEventRecorded(req, v, w);
    } else if req.kind.TaskCreated? {
      CreationRecorded(req, v, w);
    } else {
      TaskEventRecorded(req, v, w);
    }
  }

  /** The supervisor of one of the team's agents, and a reason in small letters for a kind the ledger knows. */
  ghost predicate MayRecordRejection(req: Request, registry: Registry) {
    var p := req.payload;
    && IsRelayed(req)
    && (exists uid :: IsSupervisorOf(req, uid) && uid in registry.agents && registry.agents[uid].team == req.team)
    && (exists k: Kind :: !k.TaskRejected? && p.requestedType == Text(KindName(k)))
    && p.reason.Text? && 1 <= |p.reason.s| <= 64 && forall c | c in p.reason.s :: c == '_' || 'a' <= c <= 'z'
  }

  /** A rejection is never accepted; it is recorded with its own reason exactly for those who may. */
  lemma RejectionIff(req: Request, v: View, w: World)
    requires req.caller == "root:root" && req.kind.TaskRejected? && CanDecide(req, w)
    ensures
      var d := Decide(req, v, w.registry, w.bodyStored, w.defaultDeadline);
      && d.Decided? && d.kind.TaskRejected? && !d.accepted
      && (if MayRecordRejection(req, w.registry)
          then d.payload == req.payload.(caller := Text("root:root")) && Text(d.reason) == req.payload.reason
          else d.reason == if IsRelayed(req) then "unauthorized" else "caller_actor_mismatch")
  {
    if IsRelayed(req) {
      SupervisorIsNamed(req);
      if req.actorType.Service? {
        assert IsSupervisorOf(req, req.actorId[11..]);
      }
    }
  }

  lemma SupervisorIsNamed(req: Request)
    requires IsRelayed(req)
    ensures forall uid :: IsSupervisorOf(req, uid) <==> req.actorType.Service? && uid == req.actorId[11..]
  {
    forall uid ensures IsSupervisorOf(req, uid) <==> req.actorType.Service? && uid == req.actorId[11..] {
      assert ("supervisor:" + uid)[11..] == uid;
      if req.actorType.Service? {
        assert req.actorId == "supervisor:" + req.actorId[11..];
      }
    }
  }

  /** The limits of a team that sets none, and the ones it may set. */
  lemma DefaultLimits(registry: Registry, team: string)
    requires team in registry.teams && registry.teams[team].delegation == Some(map[])
    ensures TeamLimits(registry, team) == Ok(Limits(8, 4, 20, 3, 1, 14400, 8))
  {
  }

  lemma SetLimit(registry: Registry, team: string, name: string, n: int)
    requires team in registry.teams && registry.teams[team].delegation == Some(map[name := Number(n)])
    requires name in {"max_open", "max_tasks_per_run", "max_assignments_per_task", "max_turns_per_task", "max_depth"}
    ensures TeamLimits(registry, team).Ok? <==> n >= 1 && (name == "max_depth" ==> n == 1)
    ensures
      n >= 1 && name != "max_depth" ==>
        var l := TeamLimits(registry, team).value;
        && l.maxOpen == (if name == "max_open" then n else 8)
        && l.maxTasksPerRun == (if name == "max_tasks_per_run" then n else 20)
        && l.maxAssignments == (if name == "max_assignments_per_task" then n else 3)
        && l.maxTurns == (if name == "max_turns_per_task" then n else 8)
  {
  }

  // --- the locked step -----------------------------------------------------------------------------------------

  /** The registry knows the project and the team, the team is the project's, and it has one lead. */
  ghost predicate IsWithinScope(registry: Registry, project: string, team: string) {
    && project in registry.projects && team in registry.teams
    && registry.teams[team].project == project && project + "-" <= team
    && exists lead :: IsLeadOf(registry, team, lead)
  }

  lemma ScopeIff(registry: Registry, project: string, team: string)
    ensures ScopeOk(registry, project, team) <==> IsWithinScope(registry, project, team)
  {
    if TeamLead(registry, team).Some? {
      LeadIsTheOne(registry, team, TeamLead(registry, team).value);
      assert IsLeadOf(registry, team, TeamLead(registry, team).value);
    }
    if lead :| IsLeadOf(registry, team, lead) {
      var found := set uid | uid in registry.agents && registry.agents[uid].team == team && registry.agents[uid].lead;
      assert lead in found && found == {lead};
    }
  }

  /** Out of scope every request fails and leaves the stream alone, whatever it holds; within it a known or decidable one is answered. */
  lemma ScopeDecidesFirst(entries: seq<Entry>, req: Request, w: World)
    requires NextSeq(entries) >= 0 && (CausationReplay(entries, req).Some? || (IsCliRequest(req) && CanDecide(req, w)))
    ensures
      var after := Submit(entries, req, w);
      && (after.response.Failed? <==> !IsWithinScope(w.registry, req.project, req.team))
      && (after.response.Failed? ==> after.entries == entries)
  {
    ScopeIff(w.registry, req.project, req.team);
    if ScopeOk(w.registry, req.project, req.team) && CausationReplay(entries, req).None? {
      NewRequestIsAnsweredIff(entries, req, w);
    } else if ScopeOk(w.registry, req.project, req.team) {
      KnownIsAnswered(entries, req);
    }
  }

  lemma {:induction false} KnownIsAnswered(entries: seq<Entry>, req: Request)
    requires CausationReplay(entries, req).Some?
    ensures !CausationReplay(entries, req).value.Failed?
  {
    if !Carries(entries[0], req.causation) {
      KnownIsAnswered(entries[1..], req);
    }
  }

  /** A new request, on a stream and under a registry that knows its team: who it is from and what it is about decide. */
  lemma NewRequestIsAnsweredIff(entries: seq<Entry>, req: Request, w: World)
    requires NextSeq(entries) >= 0 && IsCliRequest(req) && CanDecide(req, w) && IsWithinScope(w.registry, req.project, req.team)
    requires CausationReplay(entries, req).None?
    ensures
      var v := Fold(entries);
      var l := TeamLimits(w.registry, req.team).value;
      var response := Submit(entries, req, w).response;
      && (response.Accepted? <==> IsRelayed(req) && MayBeAccepted(req, v, w.registry, l, w.bodyStored))
      && (!response.Accepted? ==> response.Rejected? && response.reason.Text?)
      && (!response.Accepted? && !req.kind.TaskRejected? ==>
            IsFirstFailing(Guards(req, v, w.registry, l, w.bodyStored), response.reason.s))
  {
    EveryStreamIsSound(entries);
    ScopeIff(w.registry, req.project, req.team);
    var v := Fold(entries);
    AcceptedIff(req, v, w);
    if !req.kind.TaskRejected? {
      RefusedForTheFirst(req, v, w);
    }
  }

  // --- the command line ------------------------------------------------------------------------------------------

  /** What the arguments all commands share must be. */
  predicate IsWellNamed(a: Args) {
    && IsToken(a.project) && IsUid(a.team) && IsRunId(a.run) && IsToken(a.causation) && (a.task.Some? ==> IsTaskId(a.task.value))
    && (match a.actorType
        case Human => IsName(a.actorId) || ("gateway:" <= a.actorId && IsName(a.actorId[8..]))
        case Agent => IsUid(a.actorId)
        case Service => "supervisor:" <= a.actorId && IsUid(a.actorId[11..])
        case OtherActor => IsToken(a.actorId))
    && (a.via.Some? ==> IsIntentRelay(a.via.value) || IsControlRelay(a.via.value))
    && (a.requester.Some? ==>
          || ("human:" <= a.requester.value && IsName(a.requester.value[6..]))
          || ("gateway:" <= a.requester.value && IsName(a.requester.value[8..])))
    && (a.expectedSeq.Some? ==> a.expectedSeq.value > 0 && (a.actorType.Human? || a.actorType.Agent?))
  }

  lemma WellNamedIff(a: Args)
    ensures CommonFault(a).None? <==> IsWellNamed(a)
  {
  }

  predicate IsShortReason(reason: Json) {
    reason.Text? ==> |reason.s| <= 512 && IsSafeText(reason.s)
  }

  /** What the arguments of each command must be, beyond the ones all commands share. */
  predicate IsWellGiven(a: Args) {
    match a.command
    case RunClose => !a.outcome.OtherOutcome?
    case Create =>
      && 1 <= a.intentN <= 10 && IsToken(a.source) && 1 <= |a.title| <= 120 && IsSafeText(a.title)
      && (a.deadline.Some? ==> IsDeadline(a.deadline.value))
    case ReportOn => a.task.Some? && !a.report.OtherReport? && IsShortReason(OrNull(a.reason))
    case CancelTask => a.task.Some? && IsShortReason(OrNull(a.reason))
    case RejectFor =>
      && (exists k: Kind :: k != TaskRejected && a.requestedType == KindName(k) && CommandKindOf(k))
      && a.reason.Some? && 1 <= |a.reason.value| <= 64 && forall c | c in a.reason.value :: c == '_' || 'a' <= c <= 'z'
    case RunCreate => true
    case _ => a.task.Some?
  }

  /** The payload field by field: what the command sets, and nothing else. */
  predicate CarriesArguments(a: Args, p: Payload) {
    && p.caller == Text("root:root") && p.via == OrNull(a.via) && p.requester == OrNull(a.requester)
    && (p.assignee == if a.command.Create? || a.command.Assign? || a.command.Reopen? then Text(a.assignee) else Null)
    && (p.resultRef == if a.command.ReportOn? then OrNull(a.resultRef) else Null)
    && (p.reason == if a.command.ReportOn? || a.command.CancelTask? || a.command.RejectFor? then OrNull(a.reason) else Null)
    && (p.requestedType == if a.command.RejectFor? then Text(a.requestedType) else Null)
    && (a.command.ReportOn? ==> p.report == a.report) && (a.command.RunClose? ==> p.outcome == a.outcome)
    && (if a.command.Create? then
          && p.parent == Text(a.run) && p.depth == Number(a.depth) && p.source == Text(a.source) && p.title == Text(a.title)
          && p.bodyRef == Text(a.bodyRef) && p.deadline == OrNull(a.deadline) && p.gate == a.gate
          && p.owner == Text(if a.actorType.Agent? then a.actorId else "human:" + a.actorId)
        else p.parent.Null? && p.depth.Null? && p.source.Null? && p.title.Null? && p.deadline.Null? && p.owner.Null?)
  }

  /** A command line becomes a request exactly when its arguments are well given, and the request carries them. */
  lemma RequestCarriesTheArguments(a: Args, derivedId: string)
    ensures var r := BuildRequest(a, derivedId); r.Ok? <==> IsWellNamed(a) && IsWellGiven(a)
    ensures
      var r := BuildRequest(a, derivedId);
      r.Ok? ==>
        var req := r.value;
        && CommandKind(a.command) == req.kind && req.caller == "root:root"
        && req.project == a.project && req.team == a.team && req.run == a.run && req.causation == a.causation
        && req.actorType == a.actorType && req.actorId == a.actorId && req.expectedSeq == a.expectedSeq
        && req.task == (if a.command.Create? then Some(derivedId)
                        else if a.command.RunCreate? || a.command.RunClose? then None else a.task)
        && CarriesArguments(a, req.payload)
  {
    WellNamedIff(a);
    if a.command.RejectFor? {
      RequestableByName(a.requestedType);
    }
  }

  lemma RequestableByName(name: string)
    ensures (exists c: Command :: !c.RejectFor? && name == KindName(CommandKind(c)))
       <==> (exists k: Kind :: k != TaskRejected && name == KindName(k) && CommandKindOf(k))
  {
    if c: Command :| !c.RejectFor? && name == KindName(CommandKind(c)) {
      assert CommandKindOf(CommandKind(c));
    }
    if k: Kind :| k != TaskRejected && name == KindName(k) && CommandKindOf(k) {
      var c: Command :| CommandKind(c) == k;
    }
  }
}
