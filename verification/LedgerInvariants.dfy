/** What every event stream keeps in the reader's tables, whoever wrote it. */
module LedgerInvariants {
  import opened Results
  import opened Text
  import opened TaskLedger

  predicate SameTables(v: View, w: View) {
    w.tasks == v.tasks && w.order == v.order && w.runs == v.runs
  }

  /** The order list names each task once. */
  predicate IsOrder(order: seq<string>, tasks: map<string, Task>) {
    && (forall i | 0 <= i < |order| :: order[i] in tasks)
    && (forall id | id in tasks :: id in order)
    && (forall i, j | 0 <= i < j < |order| :: order[i] != order[j])
  }

  predicate TaskOk(t: Task, runs: map<string, Run>) {
    && t.run in runs && runs[t.run].team == t.team
    && t.attempts == t.assignments >= 1
    && t.turns <= t.turnsTotal
    && (IsClosed(runs[t.run].state) ==> IsTerminal(t.state))
  }

  predicate Sound(v: View) {
    && IsOrder(v.order, v.tasks)
    && forall id | id in v.tasks :: TaskOk(v.tasks[id], v.runs)
  }

  lemma CreateKeepsSound(v: View, seqNo: int, r: Record)
    requires r.run.Text? && r.team.Text? && r.task.Text? && r.payload.Some?
    requires Sound(v) && CreateTask(v, seqNo, r).Ok?
    ensures Sound(CreateTask(v, seqNo, r).value)
  {
    var w := CreateTask(v, seqNo, r).value;
    assert BaseTask(seqNo, r).Ok?;
    forall id | id in w.tasks ensures TaskOk(w.tasks[id], w.runs) {
      if id != r.task.s {
        assert TaskOk(v.tasks[id], v.runs);
      }
    }
    assert w.order[|v.order|] == r.task.s;
    forall id | id in w.tasks ensures id in w.order {
      if id != r.task.s {
        assert id in v.order;
      }
    }
  }

  lemma CloseKeepsSound(v: View, seqNo: int, r: Record)
    requires r.run.Text? && r.team.Text? && r.payload.Some?
    requires Sound(v) && CloseRun(v, seqNo, r).Ok?
    ensures Sound(CloseRun(v, seqNo, r).value)
  {
    var w := CloseRun(v, seqNo, r).value;
    forall id | id in w.tasks ensures TaskOk(w.tasks[id], w.runs) {
      assert TaskOk(v.tasks[id], v.runs);
    }
  }

  lemma TouchKeepsSound(v: View, seqNo: int, k: Kind, r: Record)
    requires r.run.Text? && r.team.Text? && r.payload.Some?
    requires Sound(v) && TouchTask(v, seqNo, k, r).Ok?
    ensures Sound(TouchTask(v, seqNo, k, r).value)
  {
    var w := TouchTask(v, seqNo, k, r).value;
    forall id | id in w.tasks ensures TaskOk(w.tasks[id], w.runs) {
      assert TaskOk(v.tasks[id], v.runs);
    }
  }

  lemma RunKeepsSound(v: View, w: View, id: string)
    requires Sound(v) && id in w.runs
    requires w.tasks == v.tasks && w.order == v.order && w.runs == v.runs[id := w.runs[id]]
    requires id in v.runs ==> w.runs[id].team == v.runs[id].team
    requires !IsClosed(w.runs[id].state)
    ensures Sound(w)
  {
    forall t | t in w.tasks ensures TaskOk(w.tasks[t], w.runs) {
      assert TaskOk(v.tasks[t], v.runs);
    }
  }

  lemma TransitionKeepsSound(v: View, seqNo: int, r: Record)
    requires r.kind.Some? && r.payload.Some? && r.run.Text? && r.team.Text?
    requires r.kind.value.TaskCreated? ==> r.task.Text?
    requires Sound(v) && Transition(v, seqNo, r).Ok?
    ensures Sound(Transition(v, seqNo, r).value)
  {
    match r.kind.value
    case RunRequested => RunKeepsSound(v, RequestRun(v, seqNo, r).value, r.run.s);
    case RunStarted => RunKeepsSound(v, StartRun(v, seqNo, r).value, r.run.s);
    case RunClosed => CloseKeepsSound(v, seqNo, r);
    case TaskCreated => CreateKeepsSound(v, seqNo, r);
    case k => TouchKeepsSound(v, seqNo, k, r);
  }

  lemma SameTablesSound(v: View, w: View)
    requires Sound(v) && w.tasks == v.tasks && w.order == v.order && w.runs == v.runs
    ensures Sound(w)
  {
  }

  /** What an accepted transition does to one task it finds in the table. */
  predicate MovesTask(v: View, seqNo: int, r: Record, id: string, after: Task)
    requires r.kind.Some? && r.payload.Some? && r.run.Text? && id in v.tasks
  {
    var t := v.tasks[id];
    || after == t
    || (t.run == r.run.s && t.run in v.runs && !IsClosed(v.runs[t.run].state)
        && ((r.kind.value.RunClosed? && !IsTerminal(t.state) && after == CancelledBy(t, seqNo))
            || (r.task == Text(id) && NextTask(r.kind.value, t, r).Ok?
                && after == Stamped(t, NextTask(r.kind.value, t, r).value, seqNo))))
  }

  lemma TransitionOnTask(v: View, seqNo: int, r: Record, id: string)
    requires r.kind.Some? && r.payload.Some? && r.run.Text? && r.team.Text?
    requires r.kind.value.TaskCreated? ==> r.task.Text?
    requires Transition(v, seqNo, r).Ok?
    ensures
      var w := Transition(v, seqNo, r).value;
      && (id in v.tasks ==> id in w.tasks && MovesTask(v, seqNo, r, id, w.tasks[id]))
      && (id in w.tasks && id !in v.tasks ==>
            && r.kind.value.TaskCreated? && r.task == Text(id)
            && BaseTask(seqNo, r) == Ok(w.tasks[id])
            && r.run.s in v.runs && !IsClosed(v.runs[r.run.s].state))
  {
    match r.kind.value
    case TaskCreated => assert CreateTask(v, seqNo, r).Ok?;
    case RunClosed => assert CloseRun(v, seqNo, r).Ok?;
    case _ =>
  }

  lemma TransitionOnLists(v: View, seqNo: int, r: Record)
    requires r.kind.Some? && r.payload.Some? && r.run.Text? && r.team.Text?
    requires r.kind.value.TaskCreated? ==> r.task.Text?
    requires Transition(v, seqNo, r).Ok?
    ensures
      var w := Transition(v, seqNo, r).value;
      && w.invalid == v.invalid && w.rejections == v.rejections && w.project == v.project
      && forall run | run in v.runs && (run != r.run.s || IsClosed(v.runs[run].state))
           :: run in w.runs && w.runs[run] == v.runs[run]
  {
    match r.kind.value
    case TaskCreated => assert CreateTask(v, seqNo, r).Ok?;
    case RunClosed => assert CloseRun(v, seqNo, r).Ok?;
    case _ =>
  }

  /** One line more on the list of invalid records, and nothing else. */
  predicate AddsInvalid(v: View, w: View, seqNo: int) {
    && SameTables(v, w) && w.rejections == v.rejections && |w.invalid| == |v.invalid| + 1
    && w.invalid[..|v.invalid|] == v.invalid && w.invalid[|v.invalid|].seqNo == seqNo
  }

  predicate AddsRejection(v: View, w: View, seqNo: int) {
    && SameTables(v, w) && w.invalid == v.invalid && |w.rejections| == |v.rejections| + 1
    && w.rejections[..|v.rejections|] == v.rejections && w.rejections[|v.rejections|].seqNo == seqNo
  }

  lemma RejectionIsListed(v: View, seqNo: int, r: Record)
    requires r.payload.Some? && r.run.Text? && r.team.Text?
    ensures var w := StepRejection(v, seqNo, r); AddsInvalid(v, w, seqNo) || AddsRejection(v, w, seqNo)
  {
  }

  /** The record has passed every check of its envelope and caller. */
  predicate GetsThrough(v: View, e: Entry) {
    && e.Event? && e.record.kind.Some? && e.record.payload.Some? && NamesItself(e.seqNo, e.record)
    && BelongsTo(if v.project.None? then e.record.project.s else v.project.value, e.record)
    && !e.record.kind.value.TaskRejected?
    && CallerMatches(e.record.actorType, e.record.actorId, e.record.payload.value)
  }

  lemma StepOfOther(v: View, e: Entry)
    requires !GetsThrough(v, e)
    ensures AddsInvalid(v, Step(v, e), e.seqNo) || (e.Event? && AddsRejection(v, Step(v, e), e.seqNo))
  {
    if e.Event? && e.record.kind.Some? && e.record.payload.Some? && NamesItself(e.seqNo, e.record) {
      var v1 := v.(project := if v.project.None? then Some(e.record.project.s) else v.project);
      if BelongsTo(v1.project.value, e.record) && e.record.kind.value.TaskRejected? {
        RejectionIsListed(v1, e.seqNo, e.record);
      }
    }
  }

  lemma StepOfEvent(v: View, e: Entry)
    requires GetsThrough(v, e)
    ensures
      var v1 := v.(project := if v.project.None? then Some(e.record.project.s) else v.project);
      || AddsInvalid(v, Step(v, e), e.seqNo)
      || Transition(v1, e.seqNo, e.record) == Ok(Step(v, e))
  {
  }

  /** What a record can do: nothing to the tables, or one accepted transition. */
  lemma StepCases(v: View, e: Entry) returns (v1: View)
    ensures v1.tasks == v.tasks && v1.order == v.order && v1.runs == v.runs
    ensures v1.invalid == v.invalid && v1.rejections == v.rejections
    ensures
      var w := Step(v, e);
      || AddsInvalid(v, w, e.seqNo)
      || (e.Event? && AddsRejection(v, w, e.seqNo))
      || (&& e.Event? && e.record.kind.Some? && e.record.payload.Some?
          && v1.project.Some? && BelongsTo(v1.project.value, e.record)
          && !e.record.kind.value.TaskRejected?
          && Transition(v1, e.seqNo, e.record) == Ok(w))
  {
    if GetsThrough(v, e) {
      v1 := v.(project := if v.project.None? then Some(e.record.project.s) else v.project);
      StepOfEvent(v, e);
    } else {
      v1 := v;
      StepOfOther(v, e);
    }
  }

  /** StepCases for one task: untouched, moved, or created. */
  lemma StepOnTask(v: View, e: Entry, id: string)
    ensures id in v.tasks ==>
              && id in Step(v, e).tasks
              && (Step(v, e).tasks[id] == v.tasks[id]
                  || (e.Event? && e.record.kind.Some? && e.record.payload.Some? && e.record.run.Text?
                      && MovesTask(v, e.seqNo, e.record, id, Step(v, e).tasks[id])))
    ensures id in Step(v, e).tasks && id !in v.tasks ==>
              && e.Event? && e.record.payload.Some?
              && e.record.run.Text? && e.record.team.Text? && e.record.task == Text(id)
              && BaseTask(e.seqNo, e.record) == Ok(Step(v, e).tasks[id])
              && e.record.run.s in v.runs && !IsClosed(v.runs[e.record.run.s].state)
  {
    var v1 := StepCases(v, e);
    if !SameTables(v, Step(v, e)) {
      TransitionOnTask(v1, e.seqNo, e.record, id);
    }
  }

  lemma StepKeepsSound(v: View, e: Entry)
    requires Sound(v)
    ensures Sound(Step(v, e))
  {
    var w := Step(v, e);
    var v1 := StepCases(v, e);
    SameTablesSound(v, v1);
    if SameTables(v, w) {
      SameTablesSound(v, w);
    } else {
      TransitionKeepsSound(v1, e.seqNo, e.record);
    }
  }

  /** Each task's run exists with its team, attempts equal assignments, a closed run has only terminal tasks. */
  lemma {:induction false} EveryStreamIsSound(entries: seq<Entry>)
    ensures Sound(Replay(entries))
  {
    if |entries| > 0 {
      EveryStreamIsSound(entries[..|entries| - 1]);
      StepKeepsSound(Replay(entries[..|entries| - 1]), entries[|entries| - 1]);
    }
  }

  // --- what never changes again ----------------------------------------------------------------

  /** A record adds at most one line to the lists of refusals, and only if it changes no table. */
  lemma OneVerdictPerRecord(v: View, e: Entry)
    ensures
      var w := Step(v, e);
      || (w.invalid == v.invalid && w.rejections == v.rejections)
      || AddsInvalid(v, w, e.seqNo)
      || AddsRejection(v, w, e.seqNo)
  {
    var v1 := StepCases(v, e);
    var w := Step(v, e);
    if !AddsInvalid(v, w, e.seqNo) && !AddsRejection(v, w, e.seqNo) {
      TransitionOnLists(v1, e.seqNo, e.record);
    }
  }

  /** Whether a record asks for a task to be opened again. */
  predicate Reopens(e: Entry, id: string) {
    e.Event? && e.record.kind == Some(TaskReopened) && e.record.task == Text(id)
  }

  /** A task that nothing can move, or that only a reopen can. */
  predicate Rests(t: Task, e: Entry, id: string) {
    t.state.TDone? || t.state.TCancelled? || (t.state.TFailed? && !Reopens(e, id))
  }

  lemma StepKeepsResting(v: View, e: Entry, id: string)
    requires Sound(v) && id in v.tasks && Rests(v.tasks[id], e, id)
    ensures id in Step(v, e).tasks && Step(v, e).tasks[id] == v.tasks[id]
  {
    StepOnTask(v, e, id);
  }

  lemma StepKeepsClosed(v: View, e: Entry, run: string)
    requires run in v.runs && IsClosed(v.runs[run].state)
    ensures run in Step(v, e).runs && Step(v, e).runs[run] == v.runs[run]
  {
    var v1 := StepCases(v, e);
    if !SameTables(v, Step(v, e)) {
      TransitionOnLists(v1, e.seqNo, e.record);
    }
  }

  lemma StepKeepsTaskOfClosed(v: View, e: Entry, run: string, id: string)
    requires Sound(v) && run in v.runs && IsClosed(v.runs[run].state)
    ensures id in v.tasks && v.tasks[id].run == run ==> id in Step(v, e).tasks && Step(v, e).tasks[id] == v.tasks[id]
    ensures id in Step(v, e).tasks && Step(v, e).tasks[id].run == run ==> id in v.tasks && v.tasks[id].run == run
  {
    StepOnTask(v, e, id);
    if id in v.tasks && Step(v, e).tasks[id] != v.tasks[id] {
      MovingKeepsRun(v, e.seqNo, e.record, id, Step(v, e).tasks[id]);
    }
    if id in Step(v, e).tasks && id !in v.tasks {
      NewTaskIsStamped(e.seqNo, e.record);
    }
  }

  /** Moving a task leaves it with its run, which is open, and either stamps it or leaves its stamp. */
  lemma MovingKeepsRun(v: View, seqNo: int, r: Record, id: string, after: Task)
    requires r.kind.Some? && r.payload.Some? && r.run.Text? && id in v.tasks
    requires MovesTask(v, seqNo, r, id, after) && after != v.tasks[id]
    ensures var t := v.tasks[id]; after.run == t.run && t.run in v.runs && !IsClosed(v.runs[t.run].state)
    ensures after.stateSeq == seqNo || after.stateSeq == v.tasks[id].stateSeq
  {
  }

  lemma NewTaskIsStamped(seqNo: int, r: Record)
    requires r.run.Text? && r.team.Text? && r.task.Text? && r.payload.Some? && BaseTask(seqNo, r).Ok?
    ensures BaseTask(seqNo, r).value.stateSeq == seqNo && BaseTask(seqNo, r).value.run == r.run.s
  {
  }

  lemma StepKeepsClosedRun(v: View, e: Entry, run: string)
    requires Sound(v) && run in v.runs && IsClosed(v.runs[run].state)
    ensures run in Step(v, e).runs && Step(v, e).runs[run] == v.runs[run]
    ensures forall id | id in v.tasks && v.tasks[id].run == run
              :: id in Step(v, e).tasks && Step(v, e).tasks[id] == v.tasks[id]
    ensures forall id | id in Step(v, e).tasks && Step(v, e).tasks[id].run == run
              :: id in v.tasks && v.tasks[id].run == run
  {
    StepKeepsClosed(v, e, run);
    forall id
      ensures id in v.tasks && v.tasks[id].run == run ==> id in Step(v, e).tasks && Step(v, e).tasks[id] == v.tasks[id]
      ensures id in Step(v, e).tasks && Step(v, e).tasks[id].run == run ==> id in v.tasks && v.tasks[id].run == run
    {
      StepKeepsTaskOfClosed(v, e, run, id);
    }
  }

  lemma ExtendReplay(entries: seq<Entry>, more: seq<Entry>)
    requires |more| > 0
    ensures Replay(entries + more) == Step(Replay(entries + more[..|more| - 1]), more[|more| - 1])
  {
    assert (entries + more)[..|entries + more| - 1] == entries + more[..|more| - 1];
  }

  /** DONE and CANCELLED are absorbing, and FAILED is left only by a reopen of that task. */
  lemma {:induction false} RestingTasksNeverChange(entries: seq<Entry>, more: seq<Entry>, id: string)
    requires id in Replay(entries).tasks
    requires forall i | 0 <= i < |more| :: Rests(Replay(entries).tasks[id], more[i], id)
    ensures id in Replay(entries + more).tasks
    ensures Replay(entries + more).tasks[id] == Replay(entries).tasks[id]
  {
    if |more| == 0 {
      assert entries + more == entries;
    } else {
      RestingTasksNeverChange(entries, more[..|more| - 1], id);
      ExtendReplay(entries, more);
      EveryStreamIsSound(entries + more[..|more| - 1]);
      StepKeepsResting(Replay(entries + more[..|more| - 1]), more[|more| - 1], id);
    }
  }

  /** A closed run, its set of tasks and each of them stay exactly as they are, whatever is appended. */
  lemma {:induction false} ClosedRunsNeverChange(entries: seq<Entry>, more: seq<Entry>, run: string)
    requires run in Replay(entries).runs && IsClosed(Replay(entries).runs[run].state)
    ensures run in Replay(entries + more).runs
    ensures Replay(entries + more).runs[run] == Replay(entries).runs[run]
    ensures forall id | id in Replay(entries).tasks && Replay(entries).tasks[id].run == run
              :: id in Replay(entries + more).tasks && Replay(entries + more).tasks[id] == Replay(entries).tasks[id]
    ensures forall id | id in Replay(entries + more).tasks && Replay(entries + more).tasks[id].run == run
              :: id in Replay(entries).tasks && Replay(entries).tasks[id].run == run
  {
    if |more| == 0 {
      assert entries + more == entries;
    } else {
      ClosedRunsNeverChange(entries, more[..|more| - 1], run);
      ExtendReplay(entries, more);
      EveryStreamIsSound(entries + more[..|more| - 1]);
      StepKeepsClosedRun(Replay(entries + more[..|more| - 1]), more[|more| - 1], run);
    }
  }

  // --- compare-and-set -------------------------------------------------------------------------

  predicate Increasing(entries: seq<Entry>) {
    forall i, j | 0 <= i < j < |entries| :: entries[i].seqNo < entries[j].seqNo
  }

  lemma StepStampsItsNumber(v: View, e: Entry, id: string)
    requires id in Step(v, e).tasks
    ensures
      || Step(v, e).tasks[id].stateSeq == e.seqNo
      || (id in v.tasks && Step(v, e).tasks[id].stateSeq == v.tasks[id].stateSeq)
  {
    StepOnTask(v, e, id);
    if id !in v.tasks {
      NewTaskIsStamped(e.seqNo, e.record);
    } else if Step(v, e).tasks[id] != v.tasks[id] {
      MovingKeepsRun(v, e.seqNo, e.record, id, Step(v, e).tasks[id]);
    }
  }

  /** A task's last change of state or assignee is among the records read so far. */
  lemma {:induction false} StateSeqIsPast(entries: seq<Entry>, bound: int, id: string)
    requires forall i | 0 <= i < |entries| :: entries[i].seqNo <= bound
    requires id in Replay(entries).tasks
    ensures Replay(entries).tasks[id].stateSeq <= bound
  {
    if |entries| > 0 {
      var before, last := Replay(entries[..|entries| - 1]), entries[|entries| - 1];
      StepStampsItsNumber(before, last, id);
      if id in before.tasks {
        StateSeqIsPast(entries[..|entries| - 1], bound, id);
      }
    }
  }

  /** One record either leaves state, assignee and state_seq of a task, or stamps its own number. */
  lemma StepStampsChanges(v: View, e: Entry, id: string)
    requires id in v.tasks
    ensures id in Step(v, e).tasks
    ensures
      var t, u := v.tasks[id], Step(v, e).tasks[id];
      (u.state == t.state && u.assignee == t.assignee && u.stateSeq == t.stateSeq) || u.stateSeq == e.seqNo
  {
    StepOnTask(v, e, id);
  }

  lemma {:induction false} StateSeqGrows(entries: seq<Entry>, more: seq<Entry>, id: string)
    requires Increasing(entries + more) && id in Replay(entries).tasks
    ensures id in Replay(entries + more).tasks
    ensures
      var t, u := Replay(entries).tasks[id], Replay(entries + more).tasks[id];
      t.stateSeq < u.stateSeq || (t.stateSeq == u.stateSeq && t.state == u.state && t.assignee == u.assignee)
  {
    if |more| == 0 {
      assert entries + more == entries;
    } else {
      var all, last := entries + more, more[|more| - 1];
      var init := entries + more[..|more| - 1];
      assert init == all[..|all| - 1] && last == all[|all| - 1];
      assert forall i, j | 0 <= i < j < |init| :: init[i] == all[i] && init[j] == all[j];
      StateSeqGrows(entries, more[..|more| - 1], id);
      ExtendReplay(entries, more);
      forall i | 0 <= i < |init| ensures init[i].seqNo <= last.seqNo - 1 {
        assert all[i].seqNo < all[|all| - 1].seqNo;
      }
      forall i | 0 <= i < |entries| ensures entries[i].seqNo <= last.seqNo - 1 {
        assert entries[i] == init[i];
      }
      StateSeqIsPast(entries, last.seqNo - 1, id);
      StepStampsChanges(Replay(init), last, id);
    }
  }

  /** No ABA: equal state_seq after two prefixes means equal state and assignee there and in between. */
  lemma EqualStateSeqMeansUntouched(first: seq<Entry>, middle: seq<Entry>, last: seq<Entry>, id: string)
    requires Increasing(first + middle + last)
    requires id in Replay(first).tasks && id in Replay(first + middle + last).tasks
    requires Replay(first).tasks[id].stateSeq == Replay(first + middle + last).tasks[id].stateSeq
    ensures id in Replay(first + middle).tasks
    ensures
      var t, u, w := Replay(first).tasks[id], Replay(first + middle).tasks[id],
                     Replay(first + middle + last).tasks[id];
      t.state == u.state == w.state && t.assignee == u.assignee == w.assignee
  {
    var all := first + middle + last;
    assert forall i | 0 <= i < |first + middle| :: (first + middle)[i] == all[i];
    assert Increasing(first + middle);
    StateSeqGrows(first, middle, id);
    StateSeqGrows(first + middle, last, id);
  }
}
