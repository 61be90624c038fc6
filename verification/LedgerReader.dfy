/** The fold as the source runs it: one pass that changes the tables in place. */
module LedgerReader {
  import opened Results
  import opened TaskLedger

  class Reader {
    var project: Option<string>
    var runs: map<string, Run>
    var tasks: map<string, Task>
    var order: seq<string>
    var rejections: seq<Rejection>
    var invalid: seq<Invalid>

    function Tables(): View
      reads this
    {
      View(project, runs, tasks, order, rejections, invalid)
    }

    constructor ()
      ensures Tables() == EMPTY_VIEW
    {
      project, runs, tasks, order, rejections, invalid := None, map[], map[], [], [], [];
    }

    method Invalidate(seqNo: int, reason: string)
      modifies this`invalid
      ensures Tables() == Reject(old(Tables()), seqNo, reason)
    {
      invalid := invalid + [Invalid(seqNo, reason)];
    }

    /** The cascade: each open task of the run is cancelled, one after the other. */
    method CancelOpenTasks(run: string, seqNo: int)
      modifies this`tasks
      ensures tasks == CancelOpen(old(tasks), run, seqNo)
    {
      var todo := set id | id in tasks && tasks[id].run == run && !IsTerminal(tasks[id].state);
      while todo != {}
        invariant tasks.Keys == old(tasks).Keys && todo <= tasks.Keys
        invariant forall id | id in todo :: tasks[id] == old(tasks)[id] && tasks[id].run == run && !IsTerminal(tasks[id].state)
        invariant forall id | id in tasks && id !in todo :: tasks[id] == CancelOpen(old(tasks), run, seqNo)[id]
        decreases |todo|
      {
        var id :| id in todo;
        tasks := tasks[id := CancelledBy(tasks[id], seqNo)];
        todo := todo - {id};
      }
    }

    /** A run event: refused before anything is changed, or carried out. */
    method ApplyRunEvent(seqNo: int, k: Kind, r: Record) returns (fault: Option<string>)
      requires r.kind == Some(k) && IsRunKind(k) && r.payload.Some? && r.run.Text? && r.team.Text?
      modifies this`runs, this`tasks
      ensures match Transition(old(Tables()), seqNo, r)
              case Ok(next) => fault.None? && Tables() == next
              case Err(why) => fault == Some(why) && Tables() == old(Tables())
    {
      var id := r.run.s;
      if k.RunRequested? {
        if id in runs || !r.actorType.Human? {
          return Some("invalid_run_request");
        }
        runs := runs[id := Run(r.team.s, RQueued, seqNo)];
      } else if k.RunStarted? {
        if id !in runs || !runs[id].state.RQueued? {
          return Some("invalid_run_start");
        }
        if runs[id].team != r.team.s {
          return Some("cross_team");
        }
        if !r.actorType.Service? {
          return Some("invalid_run_start_actor");
        }
        runs := runs[id := runs[id].(state := Running)];
      } else {
        if id !in runs || IsClosed(runs[id].state) {
          return Some("invalid_run_close");
        }
        if runs[id].team != r.team.s {
          return Some("cross_team");
        }
        if !IsHumanOrAgent(r.actorType) {
          return Some("invalid_run_close_actor");
        }
        var outcome := r.payload.value.outcome;
        if outcome.OtherOutcome? {
          return Some("invalid_run_outcome");
        }
        if HasOpenTask(tasks, id) && outcome.Complete? {
          return Some("open_tasks");
        }
        CancelOpenTasks(id, seqNo);
        runs := runs[id := runs[id].(state := OutcomeState(outcome))];
      }
      fault := None;
    }

    method ApplyCreation(seqNo: int, r: Record) returns (fault: Option<string>)
      requires r.payload.Some? && r.run.Text? && r.team.Text? && r.task.Text?
      modifies this`runs, this`tasks, this`order
      ensures match CreateTask(old(Tables()), seqNo, r)
              case Ok(next) => fault.None? && Tables() == next
              case Err(why) => fault == Some(why) && Tables() == old(Tables())
    {
      var run, id := r.run.s, r.task.s;
      if run !in runs || id in tasks {
        return Some("invalid_task_create");
      }
      if runs[run].team != r.team.s {
        return Some("cross_team");
      }
      if IsClosed(runs[run].state) {
        return Some("run_closed");
      }
      var task := BaseTask(seqNo, r);
      if task.Err? {
        return Some(task.reason);
      }
      if !IsHumanOrAgent(r.actorType) || (r.actorType.Agent? && r.actorId != task.value.owner) {
        return Some("invalid_creator");
      }
      tasks := tasks[id := task.value];
      order := order + [id];
      if runs[run].state.RQueued? {
        runs := runs[run := runs[run].(state := Running)];
      }
      fault := None;
    }

    method ApplyTaskEvent(seqNo: int, k: Kind, r: Record) returns (fault: Option<string>)
      requires r.payload.Some? && r.run.Text? && r.team.Text?
      modifies this`tasks
      ensures match TouchTask(old(Tables()), seqNo, k, r)
              case Ok(next) => fault.None? && Tables() == next
              case Err(why) => fault == Some(why) && Tables() == old(Tables())
    {
      if !r.task.Text? || r.task.s !in tasks || tasks[r.task.s].run != r.run.s {
        return Some("unknown_task");
      }
      var id := r.task.s;
      var before := tasks[id];
      if before.team != r.team.s {
        return Some("cross_team");
      }
      if before.run !in runs || runs[before.run].team != before.team {
        return Some("invalid_task_run");
      }
      if IsClosed(runs[before.run].state) {
        return Some("run_closed");
      }
      var next := NextTask(k, before, r);
      if next.Err? {
        return Some(next.reason);
      }
      var after := next.value.(lastSeq := seqNo);
      if after.state != before.state || after.assignee != before.assignee {
        after := after.(stateSeq := seqNo);
      }
      tasks := tasks[id := after];
      fault := None;
    }

    method ApplyRejection(seqNo: int, r: Record)
      requires r.payload.Some? && r.run.Text? && r.team.Text?
      modifies this`rejections, this`invalid
      ensures Tables() == StepRejection(old(Tables()), seqNo, r)
    {
      var p := r.payload.value;
      if p.reason.Text? && p.requestedType.Text? && p.caller == Text("root:root") {
        rejections := rejections + [Rejection(seqNo, r.team.s, r.task, r.run.s, p.requestedType.s, p.reason.s)];
      } else {
        Invalidate(seqNo, "invalid_rejection");
      }
    }

    /** One pass of the loop over the stream. */
    method Read(e: Entry)
      modifies this
      ensures Tables() == Step(old(Tables()), e)
    {
      if e.Undecodable? {
        Invalidate(e.seqNo, e.why);
        return;
      }
      var seqNo, r := e.seqNo, e.record;
      if r.kind.None? || r.payload.None? {
        Invalidate(seqNo, "invalid_shape");
        return;
      }
      if !NamesItself(seqNo, r) {
        Invalidate(seqNo, "invalid_envelope_identity");
        return;
      }
      if project.None? {
        project := Some(r.project.s);
      }
      if !BelongsTo(project.value, r) {
        Invalidate(seqNo, "invalid_envelope_identity");
        return;
      }
      var k := r.kind.value;
      if k.TaskRejected? {
        ApplyRejection(seqNo, r);
        return;
      }
      if !CallerMatches(r.actorType, r.actorId, r.payload.value) {
        Invalidate(seqNo, "caller_actor_mismatch");
        return;
      }
      var fault: Option<string>;
      if IsRunKind(k) {
        fault := ApplyRunEvent(seqNo, k, r);
      } else if k.TaskCreated? {
        fault := ApplyCreation(seqNo, r);
      } else {
        fault := ApplyTaskEvent(seqNo, k, r);
      }
      if fault.Some? {
        Invalidate(seqNo, fault.value);
      }
    }

    /** The derived run states, written over the stored ones in a last pass. */
    method DeriveRunStates()
      modifies this`runs
      ensures Tables() == DeriveRuns(old(Tables()))
    {
      var todo := runs.Keys;
      while todo != {}
        invariant runs.Keys == old(runs).Keys && todo <= runs.Keys
        invariant forall id | id in todo :: runs[id] == old(runs)[id]
        invariant forall id | id in runs && id !in todo :: runs[id] == DeriveRuns(old(Tables())).runs[id]
        decreases |todo|
      {
        var id :| id in todo;
        runs := runs[id := runs[id].(state := DerivedState(runs[id].state, tasks, id))];
        todo := todo - {id};
      }
    }
  }

  /** The whole fold over the records of a stream. */
  method FoldStream(entries: seq<Entry>) returns (reader: Reader)
    ensures fresh(reader) && reader.Tables() == Fold(entries)
  {
    reader := new Reader();
    var i := 0;
    assert entries[..0] == [];
    while i < |entries|
      invariant 0 <= i <= |entries| && fresh(reader)
      invariant reader.Tables() == Replay(entries[..i])
    {
      assert entries[..i + 1][..i] == entries[..i];
      reader.Read(entries[i]);
      i := i + 1;
    }
    assert entries[..i] == entries;
    reader.DeriveRunStates();
  }
}
