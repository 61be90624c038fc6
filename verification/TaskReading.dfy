/** What the reader takes from a stream and what it makes of it, as conditions on one entry and the tables before it. */
module TaskReading {
  import opened Results
  import opened Text
  import opened TaskLedger
  import opened TaskAuthority

  // --- what the reader takes ---------------------------------------------------------------------------------

  predicate IsRecordOfOwnTask(v: View, r: Record) {
    && r.task.Text? && r.run.Text? && r.team.Text? && r.task.s in v.tasks && r.run.s in v.runs
    && v.tasks[r.task.s].run == r.run.s && v.tasks[r.task.s].team == r.team.s && v.runs[r.run.s].team == r.team.s
    && !IsClosed(v.runs[r.run.s].state)
  }

  predicate IsBySupervisor(r: Record, t: Task) {
    r.actorType.Service? && r.actorId == Text("supervisor:" + t.assignee)
  }

  /** A creation the reader takes: of its own run, one level deep, well formed, and by its owner or a human. */
  predicate IsCreationTaken(v: View, r: Record)
    requires r.payload.Some? && r.run.Text? && r.team.Text? && r.task.Text?
  {
    var p := r.payload.value;
    && r.run.s in v.runs && v.runs[r.run.s].team == r.team.s && !IsClosed(v.runs[r.run.s].state) && r.task.s !in v.tasks
    && p.depth in [Number(1), Boolean(true)] && p.parent == r.run
    && p.assignee.Text? && IsUid(p.assignee.s) && p.source.Text? && IsToken(p.source.s)
    && (p.gate.NoGate? || p.gate.CodeGate? || p.gate.ComplianceGate? || p.gate.GatekeeperGate?)
    && p.title.Text? && 1 <= |p.title.s| <= 120 && IsSafeText(p.title.s) && p.deadline.Text? && IsDeadline(p.deadline.s)
    && (r.actorType.Human? || (r.actorType.Agent? && r.actorId == p.owner))
  }

  /** An event on a task that the reader takes, by its kind, the state of the task and who reports it. */
  predicate IsEventTaken(k: Kind, t: Task, r: Record)
    requires r.payload.Some?
  {
    var p := r.payload.value;
    match k
    case TaskStarted => t.state.Assigned? && IsBySupervisor(r, t)
    case TaskReported =>
      && t.state.InProgress? && !p.report.OtherReport? && (p.reason.Null? || p.reason.Text?) && IsShortReason(p.reason)
      && ((r.actorType.Agent? && r.actorId == Text(t.assignee))
          || (IsBySupervisor(r, t) && (p.report.Failure? || p.report.Blockage?)
              && p.reason in [Text("turn_failed"), Text("turn_budget"), Text("no_report")]))
    case TaskCancelled =>
      && IsUnfinished(t) && (p.reason.Null? || p.reason.Text?) && IsShortReason(p.reason)
      && (r.actorType.Human? || r.actorType.Agent?
          || (IsBySupervisor(r, t) && p.reason == Text("delivery_failed") && t.state.Assigned?))
    case TaskReassigned => IsChangeTaken(t, r) && t.state.Blocked?
    case TaskReopened => IsChangeTaken(t, r) && (t.state.Blocked? || t.state.TFailed?)
    case TaskOverdue =>
      IsUnfinished(t) && r.actorType.Service? && r.actorId.Text? && "supervisor:" <= r.actorId.s
    case _ => false
  }

  predicate IsChangeTaken(t: Task, r: Record)
    requires r.payload.Some?
  {
    (r.actorType.Human? || r.actorType.Agent?) && r.payload.value.assignee.Text? && IsUid(r.payload.value.assignee.s)
  }

  predicate IsTaken(v: View, r: Record)
    requires r.kind.Some? && r.payload.Some? && r.run.Text? && r.team.Text?
    requires r.kind.value.TaskCreated? ==> r.task.Text?
  {
    var run := r.run.s;
    match r.kind.value
    case RunRequested => run !in v.runs && r.actorType.Human?
    case RunStarted => run in v.runs && v.runs[run].state.RQueued? && v.runs[run].team == r.team.s && r.actorType.Service?
    case RunClosed =>
      && run in v.runs && !IsClosed(v.runs[run].state) && v.runs[run].team == r.team.s
      && (r.actorType.Human? || r.actorType.Agent?) && !r.payload.value.outcome.OtherOutcome?
      && (r.payload.value.outcome.Complete? ==> forall id | id in v.tasks && v.tasks[id].run == run :: !IsUnfinished(v.tasks[id]))
    case TaskCreated => IsCreationTaken(v, r)
    case k => IsRecordOfOwnTask(v, r) && IsEventTaken(k, v.tasks[r.task.s], r)
  }

  lemma EventTakenIff(k: Kind, t: Task, r: Record)
    requires r.payload.Some? && !IsRunKind(k) && !k.TaskCreated?
    ensures NextTask(k, t, r).Ok? <==> IsEventTaken(k, t, r)
  {
  }

  lemma CreationTakenIff(v: View, seqNo: int, r: Record)
    requires r.payload.Some? && r.run.Text? && r.team.Text? && r.task.Text?
    ensures CreateTask(v, seqNo, r).Ok? <==> IsCreationTaken(v, r)
  {
    var p := r.payload.value;
    if p.assignee.Text? && IsUid(p.assignee.s) {
      TokenIsOneLine(p.assignee.s);
    }
    if p.source.Text? && IsToken(p.source.s) {
      TokenIsOneLine(p.source.s);
    }
    if p.title.Text? && IsSafeText(p.title.s) {
      SafeTextIsOneLine(p.title.s);
    }
  }

  /** The reader carries an event out if and only if its own rules allow it. */
  lemma ReaderTakesIff(v: View, seqNo: int, r: Record)
    requires r.kind.Some? && r.payload.Some? && r.run.Text? && r.team.Text?
    requires r.kind.value.TaskCreated? ==> r.task.Text?
    ensures Transition(v, seqNo, r).Ok? <==> IsTaken(v, r)
  {
    var k := r.kind.value;
    if k.TaskCreated? {
      CreationTakenIff(v, seqNo, r);
    } else if !IsRunKind(k) && IsRecordOfOwnTask(v, r) {
      EventTakenIff(k, v.tasks[r.task.s], r);
    }
  }

  // --- the states runs are shown in ----------------------------------------------------------------------------

  /** A run shows how it was closed, or what its tasks make of it: blocked, running, or still queued. */
  lemma RunsShowTheirTasks(entries: seq<Entry>, run: string)
    ensures run in Fold(entries).runs <==> run in Replay(entries).runs
    ensures
      run in Fold(entries).runs ==>
        var v := Replay(entries);
        var own := set id | id in v.tasks && v.tasks[id].run == run;
        var unfinished := set id | id in own && IsUnfinished(v.tasks[id]);
        var shown := Fold(entries).runs[run].state;
        if IsClosed(v.runs[run].state) then shown == v.runs[run].state
        else
          && (shown.RBlocked? <==> unfinished != {} && forall id | id in unfinished :: v.tasks[id].state.Blocked?)
          && (shown.RQueued? <==> own == {})
          && (shown.Running? || shown.RBlocked? || shown.RQueued?)
  {
    var v := Replay(entries);
    var own := set id | id in v.tasks && v.tasks[id].run == run;
    var unfinished := set id | id in own && IsUnfinished(v.tasks[id]);
    assert HasTask(v.tasks, run) <==> own != {} by {
      if HasTask(v.tasks, run) {
        var id :| id in v.tasks && v.tasks[id].run == run;
        assert id in own;
      }
    }
    assert HasOpenTask(v.tasks, run) <==> unfinished != {} by {
      if HasOpenTask(v.tasks, run) {
        var id :| id in v.tasks && v.tasks[id].run == run && !IsTerminal(v.tasks[id].state);
        assert id in unfinished;
      }
    }
  }

  // --- whole entries ---------------------------------------------------------------------------------------------

  /** A known kind with an object for its payload. */
  predicate IsShaped(e: Entry) {
    e.Event? && e.record.kind.Some? && e.record.payload.Some?
  }

  /** The record names itself by its project and number. */
  predicate IsSelfNamed(seqNo: int, r: Record) {
    && r.project.Text? && IsToken(r.project.s) && seqNo >= 0
    && r.eventId == Text(r.project.s + "-tasks-" + Decimal(seqNo))
  }

  /** Its ids are well formed and agree, and it is of the stream's project. */
  predicate IsEnveloped(project: Option<string>, seqNo: int, r: Record)
    requires r.kind.Some?
  {
    && IsSelfNamed(seqNo, r) && (project.Some? ==> project.value == r.project.s)
    && r.attempt.Null? && r.run.Text? && IsRunId(r.run.s) && r.correlation == r.run
    && r.causation.Text? && IsToken(r.causation.s)
    && r.team.Text? && IsUid(r.team.s) && r.project.s + "-" <= r.team.s
    && match r.kind.value
       case RunRequested | RunStarted | RunClosed => true
       case TaskRejected => r.task.Null? || (r.task.Text? && IsTaskId(r.task.s))
       case _ => r.task.Text? && IsTaskId(r.task.s)
  }

  predicate IsRejectionTaken(p: Payload) {
    p.reason.Text? && p.requestedType.Text? && p.caller == Text("root:root")
  }

  /** Written by root, and for an agent by an intent, for a person or gateway by a control in their own name. */
  predicate IsRelayedRecord(r: Record)
    requires r.payload.Some?
  {
    var p := r.payload.value;
    && p.caller == Text("root:root")
    && match r.actorType
       case Service => r.actorId.Text? && "supervisor:" <= r.actorId.s && p.via.Null? && p.requester.Null?
       case Agent => p.via.Text? && IsIntentRelay(p.via.s) && p.requester.Null?
       case Human =>
         && p.via.Text? && IsControlRelay(p.via.s) && r.actorId.Text?
         && (if "gateway:" <= r.actorId.s then p.requester == r.actorId else p.requester == Text("human:" + r.actorId.s))
       case OtherActor => false
  }

  predicate IsEntryTaken(v: View, e: Entry) {
    && IsShaped(e) && IsEnveloped(v.project, e.seqNo, e.record)
    && if e.record.kind.value.TaskRejected? then IsRejectionTaken(e.record.payload.value)
       else IsRelayedRecord(e.record) && IsTaken(v, e.record)
  }

  /** The reason an entry that is not taken is reported with, up to the last: a rule of its own kind is broken. */
  predicate IsReportedAs(v: View, e: Entry, reason: string) {
    match e
    case Undecodable(_, why) => reason == why
    case Event(seqNo, r) =>
      if !IsShaped(e) then reason == "invalid_shape"
      else if !IsEnveloped(v.project, seqNo, r) then reason == "invalid_envelope_identity"
      else if r.kind.value.TaskRejected? then reason == "invalid_rejection"
      else !IsRelayedRecord(r) ==> reason == "caller_actor_mismatch"
  }

  /** Nothing of the tables has changed. */
  predicate KeepsTables(v: View, w: View) {
    w.runs == v.runs && w.tasks == v.tasks && w.order == v.order
  }

  lemma EnvelopeIff(v: View, seqNo: int, r: Record)
    requires r.kind.Some? && r.payload.Some?
    ensures IsEnveloped(v.project, seqNo, r) <==>
              NamesItself(seqNo, r) && BelongsTo(if v.project.None? then r.project.s else v.project.value, r)
  {
  }

  lemma RelayIff(r: Record)
    requires r.payload.Some?
    ensures IsRelayedRecord(r) <==> CallerMatches(r.actorType, r.actorId, r.payload.value)
  {
  }

  /**
   * One entry of any shape: it is taken if and only if it is shaped and enveloped, and is a rejection from
   * root or an event that was relayed the right way and that the rules of its kind allow. A rejection
   * taken goes on the list as it says; an entry not taken is reported with its number and its fault and changes no table.
   */
  lemma EntryIsTakenIff(v: View, e: Entry)
    ensures
      var w := Step(v, e);
      && (w.invalid == v.invalid <==> IsEntryTaken(v, e))
      && (!IsEntryTaken(v, e) ==>
            && KeepsTables(v, w) && w.rejections == v.rejections
            && |w.invalid| == |v.invalid| + 1 && v.invalid <= w.invalid && w.invalid[|v.invalid|].seqNo == e.seqNo
            && IsReportedAs(v, e, w.invalid[|v.invalid|].reason))
      && (IsEntryTaken(v, e) ==>
            var r := e.record;
            if r.kind.value.TaskRejected? then
              && KeepsTables(v, w)
              && w.rejections == v.rejections + [Rejection(e.seqNo, r.team.s, r.task, r.run.s,
                                                           r.payload.value.requestedType.s, r.payload.value.reason.s)]
            else w.rejections == v.rejections)
  {
    if IsShaped(e) {
      EnvelopeIff(v, e.seqNo, e.record);
      if IsEnveloped(v.project, e.seqNo, e.record) {
        EnvelopedIsTakenIff(v, v.(project := Some(e.record.project.s)), e);
      }
    }
  }

  /** The rules of a kind look at the tables only. */
  lemma EnvelopedIsTakenIff(v: View, v1: View, e: Entry)
    requires IsShaped(e) && IsEnveloped(v.project, e.seqNo, e.record) && v1 == v.(project := Some(e.record.project.s))
    ensures
      var w, r := Step(v, e), e.record;
      if r.kind.value.TaskRejected? then
        if IsRejectionTaken(r.payload.value) then
          w == v1.(rejections := v.rejections + [Rejection(e.seqNo, r.team.s, r.task, r.run.s,
                                                           r.payload.value.requestedType.s, r.payload.value.reason.s)])
        else w == Reject(v1, e.seqNo, "invalid_rejection")
      else if !IsRelayedRecord(r) then w == Reject(v1, e.seqNo, "caller_actor_mismatch")
      else if IsTaken(v, r) then w.invalid == v.invalid && w.rejections == v.rejections
      else
        && w == v1.(invalid := w.invalid) && |w.invalid| == |v.invalid| + 1 && v.invalid <= w.invalid
        && w.invalid[|v.invalid|].seqNo == e.seqNo
  {
    var r := e.record;
    EnvelopeIff(v, e.seqNo, r);
    RelayIff(r);
    if !r.kind.value.TaskRejected? && IsRelayedRecord(r) {
      ReaderTakesIff(v1, e.seqNo, r);
      TakenByTables(v, v1, r);
      TransitionKeepsLists(v1, e.seqNo, r);
    }
  }

  lemma TakenByTables(v: View, v1: View, r: Record)
    requires r.kind.Some? && r.payload.Some? && r.run.Text? && r.team.Text?
    requires r.kind.value.TaskCreated? ==> r.task.Text?
    requires v1.runs == v.runs && v1.tasks == v.tasks
    ensures IsTaken(v1, r) <==> IsTaken(v, r)
  {
  }

  lemma TransitionKeepsLists(v: View, seqNo: int, r: Record)
    requires r.kind.Some? && r.payload.Some? && r.run.Text? && r.team.Text?
    requires r.kind.value.TaskCreated? ==> r.task.Text?
    ensures
      match Transition(v, seqNo, r)
      case Ok(w) => w.invalid == v.invalid && w.rejections == v.rejections
      case Err(_) => true
  {
  }

  /** A run requested is there and queued, of its team and number; a run started is running; no other run and no task changes. */
  lemma RunEventIsCarriedOut(v: View, e: Entry)
    requires IsEntryTaken(v, e) && (e.record.kind.value.RunRequested? || e.record.kind.value.RunStarted?)
    ensures
      var w, run := Step(v, e), e.record.run.s;
      && w.tasks == v.tasks && w.order == v.order && w.runs.Keys == v.runs.Keys + {run}
      && (forall other | other in v.runs && other != run :: w.runs[other] == v.runs[other])
      && w.runs[run].team == e.record.team.s
      && (if e.record.kind.value.RunRequested? then w.runs[run].state.RQueued? && w.runs[run].createdSeq == e.seqNo
          else w.runs[run].state.Running? && w.runs[run].createdSeq == v.runs[run].createdSeq)
  {
    var v1 := v.(project := Some(e.record.project.s));
    EnvelopeIff(v, e.seqNo, e.record);
    RelayIff(e.record);
    ReaderTakesIff(v1, e.seqNo, e.record);
    TakenByTables(v, v1, e.record);
  }
}
