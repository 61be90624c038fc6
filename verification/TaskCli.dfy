/** The locked step of the task command: validate, replay a known causation, decide, append. */
module TaskCli {
  import opened Results
  import opened Text
  import opened TaskLedger
  import opened TaskDecisions

  // --- arguments to request ----------------------------------------------------------------

  datatype Command =
    | RunCreate | RunClose | Create | Start | Assign | ReportOn | CancelTask | Reopen | Overdue | RejectFor

  function CommandKind(c: Command): Kind {
    match c
    case RunCreate => RunRequested
    case RunClose => RunClosed
    case Create => TaskCreated
    case Start => TaskStarted
    case Assign => TaskReassigned
    case ReportOn => TaskReported
    case CancelTask => TaskCancelled
    case Reopen => TaskReopened
    case Overdue => TaskOverdue
    case RejectFor => TaskRejected
  }

  /** The parsed command line; fields a command does not take are ignored by it. */
  datatype Args = Args(
    command: Command, project: string, team: string, actorType: ActorType, actorId: string,
    causation: string, run: string, task: Option<string>, via: Option<string>, requester: Option<string>,
    outcome: Outcome, report: Report, resultRef: Option<string>, reason: Option<string>,
    requestedType: string, intentN: int, source: string, assignee: string, title: string, bodyRef: string,
    deadline: Option<string>, depth: int, gate: Gate, expectedSeq: Option<int>)

  function OrNull(s: Option<string>): Json {
    if s.Some? then Text(s.value) else Null
  }

  /** [a-z0-9][a-z0-9_-]* */
  predicate IsName(s: string) {
    && |s| > 0 && (IsDigit(s[0]) || 'a' <= s[0] <= 'z')
    && forall c | c in s :: IsTokenChar(c) || c == '_'
  }

  predicate IsActorId(actorType: ActorType, id: string) {
    match actorType
    case Human => IsName(id) || ("gateway:" <= id && IsName(id[8..]))
    case Agent => IsUid(id)
    case Service => "supervisor:" <= id && IsUid(id[11..])
    case OtherActor => IsToken(id)
  }

  function CommonFault(a: Args): Option<string> {
    if !IsToken(a.project) || !IsUid(a.team) then Some("invalid project/team id")
    else if !IsRunId(a.run) then Some("invalid run_id")
    else if a.task.Some? && !IsTaskId(a.task.value) then Some("invalid task_id")
    else if !IsToken(a.causation) then Some("invalid causation_id token")
    else if !IsActorId(a.actorType, a.actorId) then Some("invalid actor_id for actor_type")
    else if a.via.Some? && !IsIntentRelay(a.via.value) && !IsControlRelay(a.via.value) then Some("invalid relay reference")
    else if a.requester.Some? && !("human:" <= a.requester.value && IsName(a.requester.value[6..]))
            && !("gateway:" <= a.requester.value && IsName(a.requester.value[8..]))
    then Some("invalid requester")
    else if a.expectedSeq.Some? && (a.expectedSeq.value < 1 || !IsHumanOrAgent(a.actorType))
    then Some("invalid expect-seq")
    else None
  }

  predicate TakesTask(c: Command) {
    c.Start? || c.Assign? || c.ReportOn? || c.CancelTask? || c.Reopen? || c.Overdue?
  }

  function ArgsFault(a: Args): Option<string> {
    if CommonFault(a).Some? then CommonFault(a)
    else if TakesTask(a.command) && a.task.None? then Some("usage")
    else match a.command
      case RunClose => if a.outcome.OtherOutcome? then Some("usage") else None
      case Create =>
        if !(1 <= a.intentN <= 10) then Some("intent_n must be in 1..10")
        else if !IsToken(a.source) then Some("invalid source_msg_id token")
        else if |a.title| > 120 || a.title == "" || !IsSafeText(a.title) then Some("invalid title")
        else if a.deadline.Some? && !IsDeadline(a.deadline.value) then Some("invalid deadline_at")
        else None
      case ReportOn =>
        if a.report.OtherReport? then Some("usage")
        else if !IsReasonOk(OrNull(a.reason)) then Some("invalid reason")
        else None
      case CancelTask => if !IsReasonOk(OrNull(a.reason)) then Some("invalid reason") else None
      case RejectFor =>
        if !(exists c: Command :: !c.RejectFor? && a.requestedType == KindName(CommandKind(c)))
        then Some("invalid requested event type")
        else if !IsRejectReason(OrNull(a.reason)) then Some("invalid rejection reason")
        else None
      case _ => None
  }

  function PayloadFor(a: Args, caller: string): Payload {
    var p := EMPTY_PAYLOAD.(caller := Text(caller), via := OrNull(a.via), requester := OrNull(a.requester));
    match a.command
    case RunClose => p.(outcome := a.outcome)
    case Create =>
      p.(parent := Text(a.run), depth := Number(a.depth), source := Text(a.source),
         owner := Text(if a.actorType.Agent? then a.actorId else "human:" + a.actorId),
         assignee := Text(a.assignee), title := Text(a.title), bodyRef := Text(a.bodyRef),
         deadline := OrNull(a.deadline), budget := Some(Budget(8, 3)), gate := a.gate)
    case Assign | Reopen => p.(assignee := Text(a.assignee))
    case ReportOn => p.(report := a.report, resultRef := OrNull(a.resultRef), reason := OrNull(a.reason))
    case CancelTask => p.(reason := OrNull(a.reason))
    case RejectFor => p.(requestedType := Text(a.requestedType), reason := OrNull(a.reason))
    case _ => p
  }

  /** The request of a root caller; derivedId is the digest a created task is named by. */
  function BuildRequest(a: Args, derivedId: string): (r: Result<Request>)
    ensures r.Ok? && IsTaskId(derivedId) ==> IsCliRequest(r.value)
  {
    if ArgsFault(a).Some? then Err(ArgsFault(a).value)
    else
      var task := match a.command
        case RunCreate => None
        case RunClose => None
        case Create => Some(derivedId)
        case _ => a.task;
      Ok(Request(CommandKind(a.command), a.project, a.team, a.run, task, a.causation, a.actorType, a.actorId,
                 "root:root", PayloadFor(a, "root:root"), a.expectedSeq))
  }

  /** What the command line has checked before the lock is taken. */
  predicate IsCliRequest(req: Request) {
    && req.caller == "root:root"
    && IsToken(req.project) && IsUid(req.team) && IsRunId(req.run) && IsToken(req.causation)
    && (req.task.Some? ==> IsTaskId(req.task.value))
    && (exists c: Command :: CommandKind(c) == req.kind)
    && (!IsRunKind(req.kind) && !req.kind.TaskRejected? ==> req.task.Some?)
    && match req.kind
       case RunClosed => !req.payload.outcome.OtherOutcome?
       case TaskCreated => IsCreatePayload(req)
       case TaskReported => !req.payload.report.OtherReport? && IsReasonOk(req.payload.reason)
       case TaskCancelled => IsReasonOk(req.payload.reason)
       case TaskRejected =>
         req.payload.requestedType.Text? && req.payload.requestedType != Text(KindName(TaskRejected))
         && IsRejectReason(req.payload.reason)
       case _ => true
  }

  predicate IsCreatePayload(req: Request) {
    var p := req.payload;
    && p.parent == Text(req.run)
    && p.source.Text? && IsToken(p.source.s)
    && p.title.Text? && 0 < |p.title.s| <= 120 && IsSafeText(p.title.s)
    && (p.deadline.Null? || (p.deadline.Text? && IsDeadline(p.deadline.s)))
    && (req.actorType.Agent? ==> p.owner == Text(req.actorId))
  }

  // --- one locked step ---------------------------------------------------------------------

  /** What a request is answered with; an event id is whatever the stream records under that key. */
  datatype Response =
    | Accepted(eventId: Json)
    | Rejected(eventId: Json, reason: Json)
    | Failed(why: string)

  /** The answer to a request whose causation a record of the stream already carries. */
  function AnswerFrom(r: Record, req: Request): Response {
    var rejection := r.kind == Some(TaskRejected);
    var same :=
      if req.kind.TaskRejected? && rejection then
        && r.payload.Some?
        && r.payload.value.requestedType == req.payload.requestedType
        && r.payload.value.reason == req.payload.reason
      else if rejection && r.payload.Some? then r.payload.value.requestedType == Text(KindName(req.kind))
      else r.kind == Some(req.kind);
    if !same || r.task != OrNull(req.task) then Rejected(r.eventId, Text("causation_conflict"))
    else if rejection then Rejected(r.eventId, r.payload.value.reason)
    else Accepted(r.eventId)
  }

  predicate Carries(e: Entry, causation: string) {
    e.Event? && e.record.causation == Text(causation)
  }

  /** The first record that carries a causation decides every later request with it. */
  function CausationReplay(entries: seq<Entry>, req: Request): Option<Response> {
    if |entries| == 0 then None
    else if Carries(entries[0], req.causation) then Some(AnswerFrom(entries[0].record, req))
    else CausationReplay(entries[1..], req)
  }

  /** The number the next record is framed with: one above the last one read. */
  function NextSeq(entries: seq<Entry>): int {
    if |entries| == 0 then 1 else entries[|entries| - 1].seqNo + 1
  }

  /** The record the stream writer composes for a decided request. */
  function Compose(req: Request, kind: Kind, payload: Payload, seqNo: nat): Record {
    Record(Some(kind), Text(req.project + "-tasks-" + Decimal(seqNo)), Text(req.project), Text(req.team),
           Text(req.run), OrNull(req.task), Null, Text(req.run), Text(req.causation),
           req.actorType, Text(req.actorId), Some(payload))
  }

  /** Everything the step reads besides the stream: taken afresh under the lock by each attempt. */
  datatype World = World(registry: Registry, bodyStored: bool, defaultDeadline: string)

  datatype StepResult = StepResult(entries: seq<Entry>, response: Response)

  function Append(entries: seq<Entry>, req: Request, d: Decision): StepResult
    requires d.Decided? && NextSeq(entries) >= 0
  {
    var r := Compose(req, d.kind, d.payload, NextSeq(entries));
    StepResult(entries + [Event(NextSeq(entries), r)],
             if d.accepted then Accepted(r.eventId) else Rejected(r.eventId, Text(d.reason)))
  }

  /** The locked step as a function of the stream. */
  function Submit(entries: seq<Entry>, req: Request, w: World): StepResult
    requires NextSeq(entries) >= 0
  {
    if !ScopeOk(w.registry, req.project, req.team) then StepResult(entries, Failed("scope"))
    else
      var known := CausationReplay(entries, req);
      if known.Some? then StepResult(entries, known.value)
      else
        var d := Decide(req, Fold(entries), w.registry, w.bodyStored, w.defaultDeadline);
        if d.Undecided? then StepResult(entries, Failed(d.why)) else Append(entries, req, d)
  }

  /** The task stream of one project, changed only under its lock. */
  class TaskStream {
    var entries: seq<Entry>

    constructor ()
      ensures entries == []
    {
      entries := [];
    }

    /** The scan for an earlier record with the same causation. */
    method FindCausation(req: Request) returns (known: Option<Response>)
      ensures known == CausationReplay(entries, req)
    {
      var i := 0;
      while i < |entries|
        invariant 0 <= i <= |entries|
        invariant CausationReplay(entries, req) == CausationReplay(entries[i..], req)
      {
        if Carries(entries[i], req.causation) {
          return Some(AnswerFrom(entries[i].record, req));
        }
        assert entries[i..][1..] == entries[i + 1..];
        i := i + 1;
      }
      known := None;
    }

    method Commit(req: Request, kind: Kind, payload: Payload) returns (eventId: Json)
      requires NextSeq(entries) >= 0
      modifies this
      ensures eventId == Compose(req, kind, payload, NextSeq(old(entries))).eventId
      ensures entries == old(entries) + [Event(NextSeq(old(entries)), Compose(req, kind, payload, NextSeq(old(entries))))]
    {
      var r := Compose(req, kind, payload, NextSeq(entries));
      entries := entries + [Event(NextSeq(entries), r)];
      eventId := r.eventId;
    }

    /** The body of the command between taking and releasing the lock. */
    method Handle(req: Request, w: World) returns (response: Response)
      requires NextSeq(entries) >= 0
      modifies this
      ensures StepResult(entries, response) == Submit(old(entries), req, w)
    {
      if !ScopeOk(w.registry, req.project, req.team) {
        return Failed("scope");
      }
      var current := Fold(entries);
      var known := FindCausation(req);
      if known.Some? {
        return known.value;
      }
      var d := Decide(req, current, w.registry, w.bodyStored, w.defaultDeadline);
      if d.Undecided? {
        return Failed(d.why);
      }
      var eventId := Commit(req, d.kind, d.payload);
      if d.accepted {
        return Accepted(eventId);
      }
      return Rejected(eventId, Text(d.reason));
    }
  }
}
