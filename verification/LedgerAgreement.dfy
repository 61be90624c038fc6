/** The writer's decision and the reader's fold are two separate pieces of code; here they agree. */
module LedgerAgreement {
  import opened Results
  import opened Text
  import opened TaskLedger
  import opened TaskDecisions
  import opened TaskCli
  import opened LedgerInvariants

  /** Agents are registered under identities of the form the reader accepts as assignees. */
  predicate HasUidKeys(registry: Registry) {
    forall uid | uid in registry.agents :: IsUid(uid)
  }

  /** The stream belongs to no project yet, or to the one the request names. */
  predicate IsStreamOf(v: View, project: string) {
    v.project.None? || v.project == Some(project)
  }

  lemma {:induction false} TallyIgnoresRuns(v: View, w: View, m: Measure, n: nat)
    requires w.tasks == v.tasks && w.order == v.order && n <= |v.order|
    ensures TallyTo(w, m, n) == TallyTo(v, m, n)
  {
    if n > 0 {
      TallyIgnoresRuns(v, w, m, n - 1);
    }
  }

  /** The same tasks, and runs that differ at most in which unclosed state they show. */
  predicate Alike(v: View, w: View) {
    && w.tasks == v.tasks && w.order == v.order && w.runs.Keys == v.runs.Keys
    && forall run | run in v.runs ::
         w.runs[run].team == v.runs[run].team && IsClosed(w.runs[run].state) == IsClosed(v.runs[run].state)
  }

  lemma CreateDecidesAlike(req: Request, v: View, w: View, registry: Registry, limits: Limits, isLead: bool)
    requires req.task.Some? && Alike(v, w)
    ensures DecideCreate(req, w, registry, limits, isLead) == DecideCreate(req, v, registry, limits, isLead)
  {
    TallyIgnoresRuns(v, w, OpenIn(req.team), |v.order|);
    TallyIgnoresRuns(v, w, AssignedIn(req.run), |v.order|);
  }

  lemma TaskDecidesAlike(req: Request, v: View, w: View, registry: Registry, limits: Limits, lead: string)
    requires Alike(v, w)
    ensures DecideTask(req, w, registry, limits, lead) == DecideTask(req, v, registry, limits, lead)
  {
    TallyIgnoresRuns(v, w, OpenIn(req.team), |v.order|);
    TallyIgnoresRuns(v, w, AssignedIn(req.run), |v.order|);
  }

  lemma CloseDecidesAlike(req: Request, v: View, w: View, isLead: bool)
    requires Alike(v, w)
    ensures DecideClose(req, w, isLead) == DecideClose(req, v, isLead)
  {
  }

  lemma RunRequestsDecideAlike(req: Request, v: View, w: View, world: World)
    requires Alike(v, w)
    requires IsRunKind(req.kind)
    ensures Decide(req, w, world.registry, world.bodyStored, world.defaultDeadline)
         == Decide(req, v, world.registry, world.bodyStored, world.defaultDeadline)
  {
    match (TeamLimits(world.registry, req.team), TeamLead(world.registry, req.team))
    case (Ok(limits), Some(lead)) =>
      CloseDecidesAlike(req, v, w, req.actorType.Agent? && req.actorId == lead);
    case _ =>
  }

  lemma CreationsDecideAlike(req: Request, v: View, w: View, world: World)
    requires Alike(v, w)
    requires req.kind.TaskCreated?
    ensures Decide(req, w, world.registry, world.bodyStored, world.defaultDeadline)
         == Decide(req, v, world.registry, world.bodyStored, world.defaultDeadline)
  {
    match (TeamLimits(world.registry, req.team), TeamLead(world.registry, req.team))
    case (Ok(limits), Some(lead)) =>
      if req.task.Some? {
        CreateDecidesAlike(req, v, w, world.registry, limits, req.actorType.Agent? && req.actorId == lead);
      }
    case _ =>
  }

  lemma EventsDecideAlike(req: Request, v: View, w: View, world: World)
    requires Alike(v, w)
    requires !IsRunKind(req.kind) && !req.kind.TaskCreated?
    ensures Decide(req, w, world.registry, world.bodyStored, world.defaultDeadline)
         == Decide(req, v, world.registry, world.bodyStored, world.defaultDeadline)
  {
    match (TeamLimits(world.registry, req.team), TeamLead(world.registry, req.team))
    case (Ok(limits), Some(lead)) =>
      TaskDecidesAlike(req, v, w, world.registry, limits, lead);
    case _ =>
  }

  lemma AlikeViewsDecideAlike(req: Request, v: View, w: View, world: World)
    requires Alike(v, w)
    ensures Decide(req, w, world.registry, world.bodyStored, world.defaultDeadline)
         == Decide(req, v, world.registry, world.bodyStored, world.defaultDeadline)
  {
    if IsRunKind(req.kind) {
      RunRequestsDecideAlike(req, v, w, world);
    } else if req.kind.TaskCreated? {
      CreationsDecideAlike(req, v, w, world);
    } else {
      EventsDecideAlike(req, v, w, world);
    }
  }

  /** Deriving the run states never alters a decision. */
  lemma DerivedRunsDecideAlike(req: Request, v: View, world: World)
    ensures Decide(req, DeriveRuns(v), world.registry, world.bodyStored, world.defaultDeadline)
         == Decide(req, v, world.registry, world.bodyStored, world.defaultDeadline)
  {
    assert Alike(v, DeriveRuns(v));
    AlikeViewsDecideAlike(req, v, DeriveRuns(v), world);
  }

  // --- every decided record is a valid event ---------------------------------------------------

  lemma CreatedTaskIsAdmitted(req: Request, v: View, world: World, limits: Limits, isLead: bool, seqNo: nat)
    requires IsCliRequest(req) && req.kind.TaskCreated?
    requires HasUidKeys(world.registry) && IsDeadline(world.defaultDeadline)
    requires DecideCreate(req, v, world.registry, limits, isLead).None?
    requires isLead ==> req.actorType.Agent?
    ensures
      var r := Compose(req, TaskCreated, CreatedPayload(req, limits, world.defaultDeadline), seqNo);
      CreateTask(v, seqNo, r).Ok?
  {
    var p := CreatedPayload(req, limits, world.defaultDeadline);
    assert IsUid(p.assignee.s);
    TokenIsOneLine(p.assignee.s);
    TokenIsOneLine(p.source.s);
    SafeTextIsOneLine(p.title.s);
    assert BaseTask(seqNo, Compose(req, TaskCreated, p, seqNo)).Ok?;
  }

  lemma TaskEventIsAdmitted(req: Request, v: View, world: World, limits: Limits, lead: string, seqNo: nat)
    requires IsCliRequest(req) && HasUidKeys(world.registry)
    requires DecideTask(req, v, world.registry, limits, lead).None?
    ensures
      var r := Compose(req, req.kind, req.payload.(caller := Text(req.caller)), seqNo);
      TouchTask(v, seqNo, req.kind, r).Ok?
  {
    var r := Compose(req, req.kind, req.payload.(caller := Text(req.caller)), seqNo);
    var t := v.tasks[req.task.value];
    assert NextTask(req.kind, t, r).Ok?;
  }

  lemma EnvelopeIsWellFormed(req: Request, kind: Kind, payload: Payload, seqNo: nat)
    requires IsCliRequest(req) && (req.project + "-" <= req.team)
    requires kind == req.kind || kind.TaskRejected?
    ensures NamesItself(seqNo, Compose(req, kind, payload, seqNo))
    ensures BelongsTo(req.project, Compose(req, kind, payload, seqNo))
  {
  }

  lemma AcceptedRunEventIsTransition(req: Request, v: View, world: World, seqNo: nat)
    requires IsCliRequest(req) && HasUidKeys(world.registry) && IsDeadline(world.defaultDeadline)
    requires IsRunKind(req.kind)
    requires var d := Decide(req, v, world.registry, world.bodyStored, world.defaultDeadline);
             d.Decided? && d.accepted
    ensures
      var d := Decide(req, v, world.registry, world.bodyStored, world.defaultDeadline);
      var r := Compose(req, d.kind, d.payload, seqNo);
      && d.kind == req.kind && !d.kind.TaskRejected?
      && CallerMatches(r.actorType, r.actorId, d.payload)
      && Transition(v, seqNo, r).Ok?
  {
  }

  lemma AcceptedCreationIsTransition(req: Request, v: View, world: World, seqNo: nat)
    requires IsCliRequest(req) && HasUidKeys(world.registry) && IsDeadline(world.defaultDeadline)
    requires req.kind.TaskCreated?
    requires var d := Decide(req, v, world.registry, world.bodyStored, world.defaultDeadline);
             d.Decided? && d.accepted
    ensures
      var d := Decide(req, v, world.registry, world.bodyStored, world.defaultDeadline);
      var r := Compose(req, d.kind, d.payload, seqNo);
      && d.kind == req.kind && !d.kind.TaskRejected?
      && CallerMatches(r.actorType, r.actorId, d.payload)
      && Transition(v, seqNo, r).Ok?
  {
    var limits, lead := TeamLimits(world.registry, req.team).value, TeamLead(world.registry, req.team).value;
    CreatedTaskIsAdmitted(req, v, world, limits, req.actorType.Agent? && req.actorId == lead, seqNo);
  }

  lemma AcceptedTaskEventIsTransition(req: Request, v: View, world: World, seqNo: nat)
    requires IsCliRequest(req) && HasUidKeys(world.registry) && IsDeadline(world.defaultDeadline)
    requires !IsRunKind(req.kind) && !req.kind.TaskCreated?
    requires var d := Decide(req, v, world.registry, world.bodyStored, world.defaultDeadline);
             d.Decided? && d.accepted
    ensures
      var d := Decide(req, v, world.registry, world.bodyStored, world.defaultDeadline);
      var r := Compose(req, d.kind, d.payload, seqNo);
      && d.kind == req.kind && !d.kind.TaskRejected?
      && CallerMatches(r.actorType, r.actorId, d.payload)
      && Transition(v, seqNo, r).Ok?
  {
    var limits, lead := TeamLimits(world.registry, req.team).value, TeamLead(world.registry, req.team).value;
    TaskEventIsAdmitted(req, v, world, limits, lead, seqNo);
  }

  /** An accepted decision is a transition of the reader, on the very tables it was decided on. */
  lemma AcceptedDecisionIsTransition(req: Request, v: View, world: World, seqNo: nat)
    requires IsCliRequest(req) && HasUidKeys(world.registry) && IsDeadline(world.defaultDeadline)
    requires var d := Decide(req, v, world.registry, world.bodyStored, world.defaultDeadline);
             d.Decided? && d.accepted
    ensures
      var d := Decide(req, v, world.registry, world.bodyStored, world.defaultDeadline);
      var r := Compose(req, d.kind, d.payload, seqNo);
      && d.kind == req.kind && !d.kind.TaskRejected?
      && CallerMatches(r.actorType, r.actorId, d.payload)
      && Transition(v, seqNo, r).Ok?
  {
    if IsRunKind(req.kind) {
      AcceptedRunEventIsTransition(req, v, world, seqNo);
    } else if req.kind.TaskCreated? {
      AcceptedCreationIsTransition(req, v, world, seqNo);
    } else {
      AcceptedTaskEventIsTransition(req, v, world, seqNo);
    }
  }

  /** A refusal is recorded as a readable rejection. */
  lemma RefusalIsReadable(req: Request, v: View, world: World)
    requires IsCliRequest(req)
    requires var d := Decide(req, v, world.registry, world.bodyStored, world.defaultDeadline);
             d.Decided? && !d.accepted
    ensures
      var d := Decide(req, v, world.registry, world.bodyStored, world.defaultDeadline);
      && d.kind.TaskRejected? && d.payload.caller == Text("root:root")
      && d.payload.reason == Text(d.reason) && d.payload.requestedType.Text?
  {
  }

  /** How the reader takes a well-formed record of a project: only on a stream of that project. */
  lemma StepOnWellFormed(v: View, seqNo: int, r: Record, project: string)
    requires r.kind.Some? && r.payload.Some? && NamesItself(seqNo, r)
    requires r.project == Text(project) && BelongsTo(project, r)
    ensures !IsStreamOf(v, project) ==> Step(v, Event(seqNo, r)) == Reject(v, seqNo, "invalid_envelope_identity")
    ensures
      var v1 := v.(project := Some(project));
      IsStreamOf(v, project) ==>
        if r.kind.value.TaskRejected? then Step(v, Event(seqNo, r)) == StepRejection(v1, seqNo, r)
        else if CallerMatches(r.actorType, r.actorId, r.payload.value) && Transition(v1, seqNo, r).Ok?
        then Step(v, Event(seqNo, r)) == Transition(v1, seqNo, r).value
        else true
  {
    if IsStreamOf(v, project) {
      assert v.(project := Some(project)) == v.(project := if v.project.None? then Some(project) else v.project);
    } else {
      assert v.(project := v.project) == v;
    }
  }

  /** How the record of a decision lands: valid on a stream of its project only, and then as decided. */
  predicate Lands(v: View, w: View, project: string, seqNo: int, r: Record, accepted: bool, reason: string)
    requires r.kind.Some? && r.payload.Some? && r.run.Text? && r.team.Text?
    requires r.kind.value.TaskCreated? ==> r.task.Text?
  {
    && (w.invalid == v.invalid <==> IsStreamOf(v, project))
    && (IsStreamOf(v, project) ==> w.project == Some(project))
    && (!IsStreamOf(v, project) ==> SameTables(v, w))
    && (IsStreamOf(v, project) && accepted ==> Transition(v.(project := Some(project)), seqNo, r) == Ok(w))
    && (IsStreamOf(v, project) && !accepted ==>
          SameTables(v, w) && |w.rejections| == |v.rejections| + 1 && w.rejections[|v.rejections|].reason == reason)
  }

  lemma AcceptedLands(req: Request, v: View, world: World, seqNo: nat)
    requires IsCliRequest(req) && (req.project + "-" <= req.team)
    requires HasUidKeys(world.registry) && IsDeadline(world.defaultDeadline)
    requires var d := Decide(req, v, world.registry, world.bodyStored, world.defaultDeadline);
             d.Decided? && d.accepted
    ensures
      var d := Decide(req, v, world.registry, world.bodyStored, world.defaultDeadline);
      var r := Compose(req, d.kind, d.payload, seqNo);
      Lands(v, Step(v, Event(seqNo, r)), req.project, seqNo, r, true, d.reason)
  {
    var v1 := v.(project := Some(req.project));
    AlikeViewsDecideAlike(req, v, v1, world);
    var d := Decide(req, v, world.registry, world.bodyStored, world.defaultDeadline);
    var r := Compose(req, d.kind, d.payload, seqNo);
    AcceptedDecisionIsTransition(req, v1, world, seqNo);
    EnvelopeIsWellFormed(req, d.kind, d.payload, seqNo);
    StepOnWellFormed(v, seqNo, r, req.project);
    TransitionOnLists(v1, seqNo, r);
  }

  lemma RefusedLands(req: Request, v: View, world: World, seqNo: nat)
    requires IsCliRequest(req) && (req.project + "-" <= req.team)
    requires var d := Decide(req, v, world.registry, world.bodyStored, world.defaultDeadline);
             d.Decided? && !d.accepted
    ensures
      var d := Decide(req, v, world.registry, world.bodyStored, world.defaultDeadline);
      d.kind.TaskRejected? &&
      var r := Compose(req, d.kind, d.payload, seqNo);
      Lands(v, Step(v, Event(seqNo, r)), req.project, seqNo, r, false, d.reason)
  {
    var d := Decide(req, v, world.registry, world.bodyStored, world.defaultDeadline);
    RefusalIsReadable(req, v, world);
    EnvelopeIsWellFormed(req, d.kind, d.payload, seqNo);
    StepOnWellFormed(v, seqNo, Compose(req, d.kind, d.payload, seqNo), req.project);
  }

  lemma AppendedIsReplayed(entries: seq<Entry>, e: Entry)
    ensures Replay(entries + [e]) == Step(Replay(entries), e)
  {
    assert (entries + [e])[..|entries|] == entries;
  }

  /**
   * Writer and reader agree: the record appended for a decided request is a valid event exactly
   * when the stream is not another project's; then an acceptance is a transition of the tables it
   * was decided on, and a refusal leaves runs and tasks as they were.
   */
  lemma DecidedRecordIsValid(entries: seq<Entry>, req: Request, world: World)
    requires IsCliRequest(req) && ScopeOk(world.registry, req.project, req.team)
    requires HasUidKeys(world.registry) && IsDeadline(world.defaultDeadline) && NextSeq(entries) >= 0
    requires Decide(req, Fold(entries), world.registry, world.bodyStored, world.defaultDeadline).Decided?
    ensures
      var d := Decide(req, Fold(entries), world.registry, world.bodyStored, world.defaultDeadline);
      && (req.kind.TaskCreated? ==> req.task.Some?)
      && (d.kind == req.kind || d.kind.TaskRejected?)
      && Lands(Replay(entries), Replay(Append(entries, req, d).entries), req.project, NextSeq(entries),
               Compose(req, d.kind, d.payload, NextSeq(entries)), d.accepted, d.reason)
  {
    var v, n := Replay(entries), NextSeq(entries);
    DerivedRunsDecideAlike(req, v, world);
    var d := Decide(req, v, world.registry, world.bodyStored, world.defaultDeadline);
    AppendedIsReplayed(entries, Event(n, Compose(req, d.kind, d.payload, n)));
    if d.accepted {
      AcceptedDecisionIsTransition(req, v, world, n);
      AcceptedLands(req, v, world, n);
    } else {
      RefusedLands(req, v, world, n);
    }
  }

  /** One record of another project, as it would stand at the head of a stream that was put in the wrong place. */
  const STRAY_EVENT: Entry :=
    Event(1, Record(Some(RunRequested), Text("q-tasks-1"), Text("q"), Text("q-t"), Text("r-000000000000"), Null, Null,
                    Text("r-000000000000"), Text("c"), Human, Text("x"), Some(EMPTY_PAYLOAD)))

  lemma StrayEventNamesTheStream()
    ensures Replay([STRAY_EVENT]).project == Some("q")
  {
    assert [STRAY_EVENT][..0] == [];
    assert Decimal(1) == "1";
    assert "q" + "-tasks-" + "1" == "q-tasks-1";
    assert Step(EMPTY_VIEW, STRAY_EVENT).project == Some("q") by {
      assert IsToken("q") && NamesItself(1, STRAY_EVENT.record);
    }
  }

  /** Behind it, every decided record of any other project is an invalid event that changes nothing. */
  lemma StrayStreamTakesNoRecord(req: Request, world: World)
    requires IsCliRequest(req) && ScopeOk(world.registry, req.project, req.team) && req.project != "q"
    requires HasUidKeys(world.registry) && IsDeadline(world.defaultDeadline)
    requires Decide(req, Fold([STRAY_EVENT]), world.registry, world.bodyStored, world.defaultDeadline).Decided?
    ensures
      var d := Decide(req, Fold([STRAY_EVENT]), world.registry, world.bodyStored, world.defaultDeadline);
      var v, w := Replay([STRAY_EVENT]), Replay(Append([STRAY_EVENT], req, d).entries);
      w.invalid != v.invalid && SameTables(v, w)
  {
    StrayEventNamesTheStream();
    DecidedRecordIsValid([STRAY_EVENT], req, world);
  }

  // --- what an accepted event does -------------------------------------------------------------

  /** The life cycle of a task: what each of its events requires and leaves. */
  predicate IsLifeCycleStep(k: Kind, p: Payload, t: Task, u: Task) {
    match k
    case TaskStarted => t.state.Assigned? && u.state.InProgress? && u.turns == t.turns
    case TaskReported =>
      && t.state.InProgress? && u.resultRef == p.resultRef && u.lastReason == p.reason
      && (match p.report
          case Progress => u.state.InProgress? && u.turns == t.turns + 1
          case Done => u.state == (if t.gate.NoGate? then TDone else Review) && u.turns == t.turns
          case Failure => u.state.TFailed? && u.turns == t.turns
          case Blockage => u.state.Blocked? && u.turns == t.turns
          case OtherReport => false)
    case TaskCancelled =>
      !IsTerminal(t.state) && u.state.TCancelled? && u.lastReason == p.reason && u.turns == t.turns
    case TaskReassigned => t.state.Blocked? && u.state.Assigned? && Text(u.assignee) == p.assignee && u.turns == 0
    case TaskReopened =>
      (t.state.Blocked? || t.state.TFailed?) && u.state.Assigned? && Text(u.assignee) == p.assignee && u.turns == 0
    case TaskOverdue =>
      !IsTerminal(t.state) && u.state == t.state && u.lastReason == Text("overdue") && u.turns == t.turns
    case _ => false
  }

  predicate IsNewAssignment(k: Kind) {
    k.TaskReassigned? || k.TaskReopened?
  }

  /** An accepted event on a task moves that task one step of its life cycle and nothing else. */
  lemma AcceptedEventMovesOneTask(v: View, seqNo: int, k: Kind, r: Record)
    requires r.kind == Some(k) && r.payload.Some? && r.run.Text? && r.team.Text?
    requires !IsRunKind(k) && !k.TaskCreated?
    requires Transition(v, seqNo, r).Ok?
    ensures
      var w := Transition(v, seqNo, r).value;
      && r.task.Text? && r.task.s in v.tasks && r.task.s in w.tasks
      && w.runs == v.runs && w.order == v.order && w.tasks == v.tasks[r.task.s := w.tasks[r.task.s]]
      && var t, u := v.tasks[r.task.s], w.tasks[r.task.s];
      && IsLifeCycleStep(k, r.payload.value, t, u)
      && (!IsNewAssignment(k) ==> u.assignee == t.assignee)
      && u.assignments == t.assignments + (if IsNewAssignment(k) then 1 else 0)
      && u.turnsTotal == t.turnsTotal + (if k.TaskReported? && r.payload.value.report.Progress? then 1 else 0)
      && u.run == t.run && u.team == t.team && u.gate == t.gate && u.budget == t.budget && u.lastSeq == seqNo
  {
  }

  /** Closing a run settles every task of it: open ones are cancelled for that reason, others are kept. */
  lemma AcceptedClosingSettlesTasks(v: View, seqNo: int, r: Record)
    requires r.kind == Some(RunClosed) && r.payload.Some? && r.run.Text? && r.team.Text?
    requires Transition(v, seqNo, r).Ok?
    ensures
      var w := Transition(v, seqNo, r).value;
      var outcome := r.payload.value.outcome;
      && r.run.s in v.runs && !IsClosed(v.runs[r.run.s].state) && r.run.s in w.runs
      && (outcome.Complete? ==> w.runs[r.run.s].state.Completed? && w.tasks == v.tasks)
      && (outcome.Fail? ==> w.runs[r.run.s].state.RFailed?)
      && (outcome.Cancel? ==> w.runs[r.run.s].state.RCancelled?)
      && w.tasks.Keys == v.tasks.Keys && w.order == v.order
      && (forall id | id in v.tasks && v.tasks[id].run == r.run.s ::
            if IsTerminal(v.tasks[id].state) then w.tasks[id] == v.tasks[id]
            else w.tasks[id].state.TCancelled? && w.tasks[id].lastReason == Text("run_closed"))
      && (forall id | id in v.tasks && v.tasks[id].run != r.run.s :: w.tasks[id] == v.tasks[id])
  {
    var w := Transition(v, seqNo, r).value;
    assert w.tasks == CancelOpen(v.tasks, r.run.s, seqNo);
  }

  /** A created task is assigned once, unstarted, and exactly what the request asked for. */
  lemma AcceptedCreationAddsTheTask(v: View, seqNo: int, r: Record)
    requires r.kind == Some(TaskCreated) && r.payload.Some? && r.run.Text? && r.team.Text? && r.task.Text?
    requires Transition(v, seqNo, r).Ok?
    ensures
      var w := Transition(v, seqNo, r).value;
      var p, id := r.payload.value, r.task.s;
      && id !in v.tasks && id in w.tasks && w.tasks == v.tasks[id := w.tasks[id]] && w.order == v.order + [id]
      && var t := w.tasks[id];
      && t.run == r.run.s && t.team == r.team.s && t.state.Assigned?
      && t.assignments == t.attempts == 1 && t.turns == t.turnsTotal == 0
      && Text(t.assignee) == p.assignee && Text(t.source) == p.source && Text(t.title) == p.title
      && t.owner == p.owner && Text(t.deadline) == p.deadline && t.gate == p.gate && t.budget == p.budget
      && w.runs.Keys == v.runs.Keys && (forall run | run in v.runs :: w.runs[run].team == v.runs[run].team)
      && t.run in w.runs && (v.runs[t.run].state.RQueued? ==> w.runs[t.run].state.Running?)
  {
    assert BaseTask(seqNo, r).Ok?;
  }

  lemma AcceptedChangeSawTheStamp(req: Request, v: View, world: World, id: string)
    requires req.kind.TaskReassigned? || req.kind.TaskReopened? || req.kind.TaskCancelled?
    requires req.task == Some(id) && req.expectedSeq.Some? && IsHumanOrAgent(req.actorType)
    requires var d := Decide(req, v, world.registry, world.bodyStored, world.defaultDeadline);
             d.Decided? && d.accepted
    ensures id in v.tasks && v.tasks[id].stateSeq == req.expectedSeq.value
  {
    var l, lead := TeamLimits(world.registry, req.team).value, TeamLead(world.registry, req.team).value;
    assert DecideTask(req, v, world.registry, l, lead).None?;
  }

  /**
   * Compare-and-set: a caller that read a task after one prefix and names the state_seq it saw gets
   * an event accepted only while the task is in the state, and with the assignee, that it read.
   */
  lemma AcceptedChangeActsOnWhatWasRead(read: seq<Entry>, since: seq<Entry>, req: Request, world: World, id: string)
    requires Increasing(read + since) && id in Replay(read).tasks
    requires req.kind.TaskReassigned? || req.kind.TaskReopened? || req.kind.TaskCancelled?
    requires req.task == Some(id) && req.expectedSeq == Some(Replay(read).tasks[id].stateSeq)
    requires IsHumanOrAgent(req.actorType)
    requires var d := Decide(req, Fold(read + since), world.registry, world.bodyStored, world.defaultDeadline);
             d.Decided? && d.accepted
    ensures
      var now := Replay(read + since).tasks;
      && id in now && now[id].state == Replay(read).tasks[id].state
      && now[id].assignee == Replay(read).tasks[id].assignee
  {
    AcceptedChangeSawTheStamp(req, Fold(read + since), world, id);
    StateSeqGrows(read, since, id);
  }
}
