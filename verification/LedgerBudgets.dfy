/** Budget conservation over every stream that only the task command has written. */
module LedgerBudgets {
  import opened Results
  import opened Text
  import opened TaskLedger
  import opened TaskDecisions
  import opened TaskCli
  import opened LedgerInvariants
  import opened LedgerAgreement

  /** A command-line request together with the body and clock readings of its locked step. */
  datatype Submission = Submission(req: Request, bodyStored: bool, defaultDeadline: string)

  predicate IsSubmission(s: Submission) {
    IsCliRequest(s.req) && IsDeadline(s.defaultDeadline)
  }

  /** The stream after a list of submissions under one registry. */
  function Written(registry: Registry, subs: seq<Submission>): (entries: seq<Entry>)
    ensures NextSeq(entries) >= 1
  {
    if |subs| == 0 then []
    else
      var s := subs[|subs| - 1];
      Submit(Written(registry, subs[..|subs| - 1]), s.req,
             World(registry, s.bodyStored, s.defaultDeadline)).entries
  }

  /** The budget of one task under its team's limits: current turns, all turns, assignments. */
  predicate TaskWithin(t: Task, l: Limits) {
    && 1 <= t.assignments <= l.maxAssignments
    && t.turns <= l.maxTurns
    && t.turnsTotal <= l.maxTurns * (t.assignments - 1) + t.turns
  }

  predicate TasksWithin(v: View, registry: Registry) {
    forall id | id in v.tasks ::
      TeamLimits(registry, v.tasks[id].team).Ok?
      && TaskWithin(v.tasks[id], TeamLimits(registry, v.tasks[id].team).value)
  }

  predicate TalliesWithin(v: View, registry: Registry) {
    && (forall run | run in v.runs && TeamLimits(registry, v.runs[run].team).Ok? ::
          Tally(v, AssignedIn(run)) <= TeamLimits(registry, v.runs[run].team).value.maxTasksPerRun)
    && (forall team | team in registry.teams && TeamLimits(registry, team).Ok? ::
          Tally(v, OpenIn(team)) <= TeamLimits(registry, team).value.maxOpen)
  }

  predicate WithinBudgets(v: View, registry: Registry) {
    Sound(v) && TasksWithin(v, registry) && TalliesWithin(v, registry)
  }

  // --- how one change moves a tally ------------------------------------------------------------

  /** If no task weighs more than before, except one that gains at most d, the sum gains at most d. */
  lemma {:induction false} TallyGainsAtMost(v: View, w: View, m: Measure, n: nat, changed: string, d: nat)
    requires n <= |v.order| && IsOrder(v.order, v.tasks)
    requires |w.order| >= n && w.order[..n] == v.order[..n]
    requires forall i | 0 <= i < n :: WeighAt(w, m, i) <= WeighAt(v, m, i) + if v.order[i] == changed then d else 0
    ensures TallyTo(w, m, n) <= TallyTo(v, m, n) + d
    ensures changed !in v.order[..n] ==> TallyTo(w, m, n) <= TallyTo(v, m, n)
  {
    if n > 0 {
      assert v.order[..n - 1] == v.order[..n][..n - 1] == w.order[..n - 1];
      assert v.order[..n][n - 1] == v.order[n - 1];
      TallyGainsAtMost(v, w, m, n - 1, changed, d);
      if v.order[n - 1] == changed {
        assert changed !in v.order[..n - 1];
      }
    }
  }

  /** A tally in which nothing grows. */
  lemma TallyDoesNotGrow(v: View, w: View, m: Measure)
    requires IsOrder(v.order, v.tasks) && w.order == v.order
    requires forall id | id in v.tasks :: id in w.tasks && Weigh(m, w.tasks[id]) <= Weigh(m, v.tasks[id])
    ensures Tally(w, m) <= Tally(v, m)
  {
    TallyGainsAtMost(v, w, m, |v.order|, "", 0);
  }

  lemma TallyOfChanged(v: View, w: View, m: Measure, id: string)
    requires IsOrder(v.order, v.tasks) && w.order == v.order && id in v.tasks && id in w.tasks
    requires w.tasks == v.tasks[id := w.tasks[id]]
    ensures Weigh(m, w.tasks[id]) <= Weigh(m, v.tasks[id]) ==> Tally(w, m) <= Tally(v, m)
    ensures Weigh(m, w.tasks[id]) <= Weigh(m, v.tasks[id]) + 1 ==> Tally(w, m) <= Tally(v, m) + 1
  {
    if Weigh(m, w.tasks[id]) <= Weigh(m, v.tasks[id]) {
      TallyDoesNotGrow(v, w, m);
    } else if Weigh(m, w.tasks[id]) <= Weigh(m, v.tasks[id]) + 1 {
      TallyGainsAtMost(v, w, m, |v.order|, id, 1);
    }
  }

  lemma TallyOfAdded(v: View, w: View, m: Measure, id: string)
    requires IsOrder(v.order, v.tasks) && id !in v.tasks && id in w.tasks
    requires w.order == v.order + [id] && w.tasks == v.tasks[id := w.tasks[id]]
    ensures Tally(w, m) <= Tally(v, m) + Weigh(m, w.tasks[id])
  {
    TallyGainsAtMost(v, w, m, |v.order|, "", 0);
  }

  lemma TallyOfAbsentRun(v: View, run: string)
    requires Sound(v) && run !in v.runs
    ensures Tally(v, AssignedIn(run)) == 0
  {
    var none := v.(tasks := map[]);
    forall i | 0 <= i < |v.order| ensures WeighAt(v, AssignedIn(run), i) <= WeighAt(none, AssignedIn(run), i) {
      assert TaskOk(v.tasks[v.order[i]], v.runs);
    }
    TallyOfNothing(none, AssignedIn(run), |v.order|);
    TallyUpTo(none, v, AssignedIn(run), |v.order|);
  }

  lemma {:induction false} TallyOfNothing(v: View, m: Measure, n: nat)
    requires n <= |v.order| && v.tasks == map[]
    ensures TallyTo(v, m, n) == 0
  {
    if n > 0 {
      TallyOfNothing(v, m, n - 1);
    }
  }

  lemma {:induction false} TallyUpTo(v: View, w: View, m: Measure, n: nat)
    requires w.order == v.order && n <= |v.order|
    requires forall i | 0 <= i < n :: WeighAt(w, m, i) <= WeighAt(v, m, i)
    ensures TallyTo(w, m, n) <= TallyTo(v, m, n)
  {
    if n > 0 {
      TallyUpTo(v, w, m, n - 1);
    }
  }

  // --- each accepted event keeps the budgets -------------------------------------------------

  lemma RequestedRunKeepsBudgets(v: View, w: View, registry: Registry, run: string)
    requires WithinBudgets(v, registry) && Sound(w)
    requires run !in v.runs && run in w.runs && w.runs == v.runs[run := w.runs[run]]
    requires w.tasks == v.tasks && w.order == v.order
    ensures WithinBudgets(w, registry)
  {
    TallyOfAbsentRun(v, run);
    forall id | id in w.runs ensures Tally(w, AssignedIn(id)) == Tally(v, AssignedIn(id)) {
      TallyIgnoresRuns(v, w, AssignedIn(id), |v.order|);
    }
    forall team | team in registry.teams ensures Tally(w, OpenIn(team)) == Tally(v, OpenIn(team)) {
      TallyIgnoresRuns(v, w, OpenIn(team), |v.order|);
    }
  }

  /** An event after which no task weighs more keeps the tallies. */
  lemma LighterTasksKeepTallies(v: View, w: View, registry: Registry)
    requires WithinBudgets(v, registry) && w.order == v.order && w.runs.Keys == v.runs.Keys
    requires forall run | run in v.runs :: w.runs[run].team == v.runs[run].team
    requires forall id | id in v.tasks :: id in w.tasks && w.tasks[id].run == v.tasks[id].run
               && w.tasks[id].team == v.tasks[id].team && w.tasks[id].assignments == v.tasks[id].assignments
               && (IsOpen(w.tasks[id].state) ==> IsOpen(v.tasks[id].state))
    ensures TalliesWithin(w, registry)
  {
    forall run | run in w.runs ensures Tally(w, AssignedIn(run)) <= Tally(v, AssignedIn(run)) {
      TallyDoesNotGrow(v, w, AssignedIn(run));
    }
    forall team | team in registry.teams ensures Tally(w, OpenIn(team)) <= Tally(v, OpenIn(team)) {
      TallyDoesNotGrow(v, w, OpenIn(team));
    }
  }

  predicate IsCascade(v: View, w: View, seqNo: int) {
    && w.order == v.order && w.runs.Keys == v.runs.Keys && w.tasks.Keys == v.tasks.Keys
    && (forall run | run in v.runs :: w.runs[run].team == v.runs[run].team)
    && (forall id | id in v.tasks ::
          w.tasks[id] == v.tasks[id] || w.tasks[id] == CancelledBy(v.tasks[id], seqNo))
  }

  lemma ClosingIsCascade(v: View, w: View, seqNo: int, r: Record)
    requires r.run.Text? && r.team.Text? && r.payload.Some? && CloseRun(v, seqNo, r) == Ok(w)
    ensures IsCascade(v, w, seqNo)
  {
    assert w.tasks == CancelOpen(v.tasks, r.run.s, seqNo);
  }

  lemma ClosedRunKeepsBudgets(v: View, w: View, registry: Registry, seqNo: int)
    requires WithinBudgets(v, registry) && Sound(w) && IsCascade(v, w, seqNo)
    ensures WithinBudgets(w, registry)
  {
    forall id | id in w.tasks
      ensures TeamLimits(registry, w.tasks[id].team).Ok?
      ensures TaskWithin(w.tasks[id], TeamLimits(registry, w.tasks[id].team).value)
    {
      CancellingKeepsTask(v.tasks[id], seqNo, TeamLimits(registry, v.tasks[id].team).value);
    }
    LighterTasksKeepTallies(v, w, registry);
  }

  lemma CancellingKeepsTask(t: Task, seqNo: int, l: Limits)
    ensures TaskWithin(t, l) == TaskWithin(CancelledBy(t, seqNo), l)
  {
  }

  /** One more assignment, made while team and run are both below their limits. */
  lemma NewAssignmentKeepsTallies(v: View, w: View, registry: Registry, id: string, team: string, l: Limits)
    requires WithinBudgets(v, registry) && w.runs.Keys == v.runs.Keys && id in w.tasks
    requires forall run | run in v.runs :: w.runs[run].team == v.runs[run].team
    requires w.tasks == v.tasks[id := w.tasks[id]]
    requires var t := w.tasks[id];
             && t.team == team && t.run in v.runs && v.runs[t.run].team == team
             && Tally(v, OpenIn(team)) < l.maxOpen && Tally(v, AssignedIn(t.run)) < l.maxTasksPerRun
             && (if id in v.tasks then
                   && w.order == v.order && v.tasks[id].run == t.run && v.tasks[id].team == t.team
                   && t.assignments == v.tasks[id].assignments + 1
                 else w.order == v.order + [id] && t.assignments == 1)
    requires TeamLimits(registry, team) == Ok(l)
    ensures TalliesWithin(w, registry)
  {
    forall run | run in w.runs
      ensures Tally(w, AssignedIn(run)) <= Tally(v, AssignedIn(run)) + if run == w.tasks[id].run then 1 else 0
    {
      if id in v.tasks {
        TallyOfChanged(v, w, AssignedIn(run), id);
      } else {
        TallyOfAdded(v, w, AssignedIn(run), id);
      }
    }
    forall t | t in registry.teams ensures Tally(w, OpenIn(t)) <= Tally(v, OpenIn(t)) + if t == team then 1 else 0 {
      if id in v.tasks {
        TallyOfChanged(v, w, OpenIn(t), id);
      } else {
        TallyOfAdded(v, w, OpenIn(t), id);
      }
    }
  }

  /** What the decision on a creation has checked about the budgets. */
  lemma CreationIsWithinLimits(v: View, registry: Registry, req: Request, l: Limits, isLead: bool)
    requires req.task.Some? && DecideCreate(req, v, registry, l, isLead).None?
    ensures req.run in v.runs && v.runs[req.run].team == req.team && req.task.value !in v.tasks
    ensures Tally(v, OpenIn(req.team)) < l.maxOpen && Tally(v, AssignedIn(req.run)) < l.maxTasksPerRun
  {
  }

  lemma CreatedTaskKeepsBudgets(v: View, w: View, registry: Registry, req: Request, seqNo: int, r: Record,
                                l: Limits, isLead: bool)
    requires WithinBudgets(v, registry) && Sound(w) && TeamLimits(registry, req.team) == Ok(l)
    requires req.task.Some? && DecideCreate(req, v, registry, l, isLead).None? && r.kind == Some(TaskCreated)
    requires r.run == Text(req.run) && r.team == Text(req.team) && r.task == Text(req.task.value) && r.payload.Some?
    requires Transition(v, seqNo, r) == Ok(w)
    requires l.maxAssignments >= 1
    ensures WithinBudgets(w, registry)
  {
    CreationIsWithinLimits(v, registry, req, l, isLead);
    AcceptedCreationAddsTheTask(v, seqNo, r);
    AddedTaskKeepsBudgets(v, w, registry, req.task.value, l);
  }

  lemma AddedTaskKeepsBudgets(v: View, w: View, registry: Registry, id: string, l: Limits)
    requires WithinBudgets(v, registry) && Sound(w) && l.maxAssignments >= 1
    requires w.runs.Keys == v.runs.Keys && forall run | run in v.runs :: w.runs[run].team == v.runs[run].team
    requires id !in v.tasks && id in w.tasks && w.tasks == v.tasks[id := w.tasks[id]] && w.order == v.order + [id]
    requires var t := w.tasks[id];
             && t.run in v.runs && v.runs[t.run].team == t.team && TeamLimits(registry, t.team) == Ok(l)
             && Tally(v, OpenIn(t.team)) < l.maxOpen && Tally(v, AssignedIn(t.run)) < l.maxTasksPerRun
             && t.assignments == 1 && t.turns == t.turnsTotal == 0
    ensures WithinBudgets(w, registry)
  {
    NewAssignmentKeepsTallies(v, w, registry, id, w.tasks[id].team, l);
    FreshTaskIsWithin(w.tasks[id], l);
    TasksStayWithin(v, w, registry, id, l);
  }

  lemma FreshTaskIsWithin(t: Task, l: Limits)
    requires t.assignments == 1 && t.turns == t.turnsTotal == 0 && l.maxAssignments >= 1
    ensures TaskWithin(t, l)
  {
  }

  lemma TasksStayWithin(v: View, w: View, registry: Registry, id: string, l: Limits)
    requires TasksWithin(v, registry) && id in w.tasks && w.tasks == v.tasks[id := w.tasks[id]]
    requires TeamLimits(registry, w.tasks[id].team) == Ok(l) && TaskWithin(w.tasks[id], l)
    ensures TasksWithin(w, registry)
  {
  }

  lemma LimitsArePositive(registry: Registry, team: string)
    requires TeamLimits(registry, team).Ok?
    ensures var l := TeamLimits(registry, team).value;
            l.maxOpen >= 1 && l.maxTasksPerRun >= 1 && l.maxAssignments >= 1 && l.maxDepth == 1 && l.maxTurns >= 1
  {
  }

  /** What the decision on a task event has checked about the budgets. */
  lemma TaskEventIsWithinLimits(v: View, registry: Registry, req: Request, l: Limits, lead: string)
    requires DecideTask(req, v, registry, l, lead).None?
    ensures req.task.Some? && req.task.value in v.tasks && req.run in v.runs
    ensures
      var t := v.tasks[req.task.value];
      && t.run == req.run && t.team == req.team && v.runs[req.run].team == req.team
      && (req.kind.TaskReported? && req.payload.report.Progress? ==> t.turns < l.maxTurns)
      && (IsNewAssignment(req.kind) ==>
            && t.assignments < l.maxAssignments
            && Tally(v, OpenIn(req.team)) < l.maxOpen && Tally(v, AssignedIn(req.run)) < l.maxTasksPerRun)
  {
  }

  lemma TaskEventKeepsBudgets(v: View, w: View, registry: Registry, req: Request, seqNo: int, r: Record,
                              l: Limits, lead: string)
    requires WithinBudgets(v, registry) && Sound(w) && TeamLimits(registry, req.team) == Ok(l)
    requires !IsRunKind(req.kind) && !req.kind.TaskCreated? && DecideTask(req, v, registry, l, lead).None?
    requires r.kind == Some(req.kind) && r.run == Text(req.run) && r.team == Text(req.team)
    requires r.task == OrNull(req.task) && r.payload.Some? && r.payload.value.report == req.payload.report
    requires Transition(v, seqNo, r) == Ok(w)
    ensures WithinBudgets(w, registry)
  {
    AcceptedEventMovesOneTask(v, seqNo, req.kind, r);
    TaskEventIsWithinLimits(v, registry, req, l, lead);
    MovedTaskKeepsBudgets(v, w, registry, req.kind, r.payload.value, req.task.value, l);
  }

  lemma MovedTaskKeepsBudgets(v: View, w: View, registry: Registry, k: Kind, p: Payload, id: string, l: Limits)
    requires WithinBudgets(v, registry) && Sound(w) && id in v.tasks && id in w.tasks
    requires w.runs == v.runs && w.order == v.order && w.tasks == v.tasks[id := w.tasks[id]]
    requires var t, u := v.tasks[id], w.tasks[id];
             && TeamLimits(registry, t.team) == Ok(l) && IsLifeCycleStep(k, p, t, u)
             && u.run == t.run && u.team == t.team
             && u.assignments == t.assignments + (if IsNewAssignment(k) then 1 else 0)
             && u.turnsTotal == t.turnsTotal + (if k.TaskReported? && p.report.Progress? then 1 else 0)
             && (k.TaskReported? && p.report.Progress? ==> t.turns < l.maxTurns)
             && (IsNewAssignment(k) ==>
                   && t.assignments < l.maxAssignments
                   && Tally(v, OpenIn(t.team)) < l.maxOpen && Tally(v, AssignedIn(t.run)) < l.maxTasksPerRun)
    ensures WithinBudgets(w, registry)
  {
    var t, u := v.tasks[id], w.tasks[id];
    assert TaskOk(t, v.runs);
    MovedTaskIsWithin(t, u, k, p, l);
    TasksStayWithin(v, w, registry, id, l);
    if IsNewAssignment(k) {
      NewAssignmentKeepsTallies(v, w, registry, id, t.team, l);
    } else {
      LighterMoveKeepsTallies(v, w, registry, k, p, id);
    }
  }

  lemma MovedTaskIsWithin(t: Task, u: Task, k: Kind, p: Payload, l: Limits)
    requires TaskWithin(t, l) && IsLifeCycleStep(k, p, t, u)
    requires u.assignments == t.assignments + (if IsNewAssignment(k) then 1 else 0)
    requires u.turnsTotal == t.turnsTotal + (if k.TaskReported? && p.report.Progress? then 1 else 0)
    requires k.TaskReported? && p.report.Progress? ==> t.turns < l.maxTurns
    requires IsNewAssignment(k) ==> t.assignments < l.maxAssignments
    ensures TaskWithin(u, l)
  {
    TurnsStayWithin(t, u, l, k);
  }

  /** A step that is no new assignment opens no task that was closed. */
  lemma LighterMoveKeepsTallies(v: View, w: View, registry: Registry, k: Kind, p: Payload, id: string)
    requires WithinBudgets(v, registry) && id in v.tasks && id in w.tasks
    requires w.runs == v.runs && w.order == v.order && w.tasks == v.tasks[id := w.tasks[id]]
    requires var t, u := v.tasks[id], w.tasks[id];
             IsLifeCycleStep(k, p, t, u) && u.run == t.run && u.team == t.team && u.assignments == t.assignments
    requires !IsNewAssignment(k)
    ensures TalliesWithin(w, registry)
  {
    assert IsOpen(w.tasks[id].state) ==> IsOpen(v.tasks[id].state);
    LighterTasksKeepTallies(v, w, registry);
  }

  lemma TurnsStayWithin(t: Task, u: Task, l: Limits, k: Kind)
    requires TaskWithin(t, l) && u.turns <= l.maxTurns
    requires if IsNewAssignment(k) then u.turns == 0 && u.turnsTotal == t.turnsTotal
                                        && u.assignments == t.assignments + 1 <= l.maxAssignments
             else u.turnsTotal - t.turnsTotal == u.turns - t.turns && u.assignments == t.assignments
    ensures TaskWithin(u, l)
  {
    if IsNewAssignment(k) {
      assert l.maxTurns * (u.assignments - 1) == l.maxTurns * (t.assignments - 1) + l.maxTurns;
    }
  }

  // --- over whole runs of the command -----------------------------------------------------------

  lemma RequestingKeepsBudgets(v: View, w: View, registry: Registry, seqNo: int, r: Record)
    requires WithinBudgets(v, registry) && Sound(w)
    requires r.run.Text? && r.team.Text? && RequestRun(v, seqNo, r) == Ok(w)
    ensures WithinBudgets(w, registry)
  {
    RequestedRunKeepsBudgets(v, w, registry, r.run.s);
  }

  /** An event on a run keeps the budgets, whoever asked for it. */
  lemma RunEventKeepsBudgets(v: View, w: View, registry: Registry, seqNo: int, r: Record)
    requires WithinBudgets(v, registry)
    requires r.kind == Some(RunRequested) || r.kind == Some(RunClosed)
    requires r.run.Text? && r.team.Text? && r.payload.Some? && Transition(v, seqNo, r) == Ok(w)
    ensures WithinBudgets(w, registry)
  {
    TransitionKeepsSound(v, seqNo, r);
    if r.kind.value.RunRequested? {
      RequestingKeepsBudgets(v, w, registry, seqNo, r);
    } else {
      ClosingIsCascade(v, w, seqNo, r);
      ClosedRunKeepsBudgets(v, w, registry, seqNo);
    }
  }

  lemma CreationKeepsBudgets(v: View, w: View, world: World, req: Request, seqNo: nat)
    requires WithinBudgets(v, world.registry) && IsCliRequest(req)
    requires req.kind.TaskCreated?
    requires var d := Decide(req, v, world.registry, world.bodyStored, world.defaultDeadline);
             d.Decided? && d.accepted && d.kind == req.kind && !req.kind.TaskRejected?
             && Transition(v, seqNo, Compose(req, d.kind, d.payload, seqNo)) == Ok(w)
    ensures WithinBudgets(w, world.registry)
  {
    var d := Decide(req, v, world.registry, world.bodyStored, world.defaultDeadline);
    var r := Compose(req, d.kind, d.payload, seqNo);
    var l, lead := TeamLimits(world.registry, req.team).value, TeamLead(world.registry, req.team).value;
    LimitsArePositive(world.registry, req.team);
    TransitionKeepsSound(v, seqNo, r);
    CreatedTaskKeepsBudgets(v, w, world.registry, req, seqNo, r, l, req.actorType.Agent? && req.actorId == lead);
  }

  lemma EventKeepsBudgets(v: View, w: View, world: World, req: Request, seqNo: nat)
    requires WithinBudgets(v, world.registry) && IsCliRequest(req)
    requires !IsRunKind(req.kind) && !req.kind.TaskCreated?
    requires var d := Decide(req, v, world.registry, world.bodyStored, world.defaultDeadline);
             d.Decided? && d.accepted && d.kind == req.kind && !req.kind.TaskRejected?
             && Transition(v, seqNo, Compose(req, d.kind, d.payload, seqNo)) == Ok(w)
    ensures WithinBudgets(w, world.registry)
  {
    var d := Decide(req, v, world.registry, world.bodyStored, world.defaultDeadline);
    var r := Compose(req, d.kind, d.payload, seqNo);
    var l, lead := TeamLimits(world.registry, req.team).value, TeamLead(world.registry, req.team).value;
    TransitionKeepsSound(v, seqNo, r);
    TaskEventKeepsBudgets(v, w, world.registry, req, seqNo, r, l, lead);
  }

  lemma TransitionKeepsBudgets(v: View, w: View, world: World, req: Request, seqNo: nat)
    requires WithinBudgets(v, world.registry) && IsCliRequest(req)
    requires var d := Decide(req, v, world.registry, world.bodyStored, world.defaultDeadline);
             d.Decided? && d.accepted && d.kind == req.kind && !req.kind.TaskRejected?
             && Transition(v, seqNo, Compose(req, d.kind, d.payload, seqNo)) == Ok(w)
    ensures WithinBudgets(w, world.registry)
  {
    if IsRunKind(req.kind) {
      var d := Decide(req, v, world.registry, world.bodyStored, world.defaultDeadline);
      RunEventKeepsBudgets(v, w, world.registry, seqNo, Compose(req, d.kind, d.payload, seqNo));
    } else if req.kind.TaskCreated? {
      CreationKeepsBudgets(v, w, world, req, seqNo);
    } else {
      EventKeepsBudgets(v, w, world, req, seqNo);
    }
  }

  lemma SameTablesKeepBudgets(v: View, w: View, registry: Registry)
    requires WithinBudgets(v, registry) && SameTables(v, w)
    ensures WithinBudgets(w, registry)
  {
    SameTablesSound(v, w);
    LighterTasksKeepTallies(v, w, registry);
  }

  lemma SubmitKeepsBudgets(entries: seq<Entry>, req: Request, world: World)
    requires NextSeq(entries) >= 0 && IsCliRequest(req) && IsDeadline(world.defaultDeadline)
    requires HasUidKeys(world.registry) && WithinBudgets(Replay(entries), world.registry)
    ensures WithinBudgets(Replay(Submit(entries, req, world).entries), world.registry)
  {
    var d := Decide(req, Fold(entries), world.registry, world.bodyStored, world.defaultDeadline);
    if Submit(entries, req, world).entries != entries {
      var v, w := Replay(entries), Replay(Append(entries, req, d).entries);
      DecidedRecordIsValid(entries, req, world);
      if IsStreamOf(v, req.project) && d.accepted {
        var v1 := v.(project := Some(req.project));
        DerivedRunsDecideAlike(req, v, world);
        AlikeViewsDecideAlike(req, v, v1, world);
        AcceptedDecisionIsTransition(req, v1, world, NextSeq(entries));
        SameTablesKeepBudgets(v, v1, world.registry);
        TransitionKeepsBudgets(v1, w, world, req, NextSeq(entries));
      } else {
        SameTablesKeepBudgets(v, w, world.registry);
      }
    }
  }

  lemma {:induction false} EveryRunIsWithinBudgets(registry: Registry, subs: seq<Submission>)
    requires HasUidKeys(registry) && forall i | 0 <= i < |subs| :: IsSubmission(subs[i])
    ensures WithinBudgets(Replay(Written(registry, subs)), registry)
  {
    if |subs| == 0 {
      assert Replay([]) == EMPTY_VIEW;
    } else {
      var s := subs[|subs| - 1];
      EveryRunIsWithinBudgets(registry, subs[..|subs| - 1]);
      SubmitKeepsBudgets(Written(registry, subs[..|subs| - 1]), s.req,
                         World(registry, s.bodyStored, s.defaultDeadline));
    }
  }

  lemma {:induction false} TurnsFollowAssignments(v: View, run: string, l: Limits, n: nat)
    requires n <= |v.order|
    requires forall id | id in v.tasks && v.tasks[id].run == run :: TaskWithin(v.tasks[id], l)
    ensures TallyTo(v, TurnsIn(run), n) <= l.maxTurns * TallyTo(v, AssignedIn(run), n)
  {
    if n > 0 {
      TurnsFollowAssignments(v, run, l, n - 1);
      var a, turns := WeighAt(v, AssignedIn(run), n - 1), WeighAt(v, TurnsIn(run), n - 1);
      if a > 0 {
        AllTurnsOfTask(v.tasks[v.order[n - 1]], l);
      }
      SumOfProducts(l.maxTurns, TallyTo(v, AssignedIn(run), n - 1), a);
    }
  }

  lemma SumOfProducts(k: nat, a: nat, b: nat)
    ensures k * (a + b) == k * a + k * b
  {
  }

  lemma AllTurnsOfTask(t: Task, l: Limits)
    requires TaskWithin(t, l)
    ensures t.turnsTotal <= l.maxTurns * t.assignments
  {
    assert l.maxTurns * (t.assignments - 1) + l.maxTurns == l.maxTurns * t.assignments;
  }

  lemma AllTurnsOfRun(v: View, registry: Registry, run: string, l: Limits)
    requires WithinBudgets(v, registry) && run in v.runs && TeamLimits(registry, v.runs[run].team) == Ok(l)
    ensures Tally(v, TurnsIn(run)) <= l.maxTurns * l.maxTasksPerRun
  {
    forall id | id in v.tasks && v.tasks[id].run == run ensures TaskWithin(v.tasks[id], l) {
      assert TaskOk(v.tasks[id], v.runs);
    }
    TurnsFollowAssignments(v, run, l, |v.order|);
    ProductGrows(l.maxTurns, Tally(v, AssignedIn(run)), l.maxTasksPerRun);
  }

  predicate Conserves(v: View, registry: Registry, run: string) {
    && (run in v.runs && TeamLimits(registry, v.runs[run].team).Ok? ==>
          var l := TeamLimits(registry, v.runs[run].team).value;
          && Tally(v, AssignedIn(run)) <= l.maxTasksPerRun
          && Tally(v, TurnsIn(run)) <= l.maxTurns * l.maxTasksPerRun)
    && (forall id | id in v.tasks ::
          && TeamLimits(registry, v.tasks[id].team).Ok?
          && var l := TeamLimits(registry, v.tasks[id].team).value;
          && v.tasks[id].assignments <= l.maxAssignments
          && v.tasks[id].turnsTotal <= l.maxTurns * v.tasks[id].assignments)
    && (forall team | team in registry.teams && TeamLimits(registry, team).Ok? ::
          Tally(v, OpenIn(team)) <= TeamLimits(registry, team).value.maxOpen)
  }

  lemma BudgetsConserve(v: View, registry: Registry, run: string)
    requires WithinBudgets(v, registry)
    ensures Conserves(v, registry, run)
  {
    forall id | id in v.tasks
      ensures v.tasks[id].turnsTotal <= TeamLimits(registry, v.tasks[id].team).value.maxTurns * v.tasks[id].assignments
    {
      AllTurnsOfTask(v.tasks[id], TeamLimits(registry, v.tasks[id].team).value);
    }
    if run in v.runs && TeamLimits(registry, v.runs[run].team).Ok? {
      AllTurnsOfRun(v, registry, run, TeamLimits(registry, v.runs[run].team).value);
    }
  }

  /**
   * Conservation: in every stream the command alone has written, a run of a team never holds more
   * assignments than its limit, nor more turns than that limit allows together, no task more than
   * its own, and no team more open tasks than its limit.
   */
  lemma BudgetsAreConserved(registry: Registry, subs: seq<Submission>, run: string)
    requires HasUidKeys(registry) && forall i | 0 <= i < |subs| :: IsSubmission(subs[i])
    ensures Conserves(Replay(Written(registry, subs)), registry, run)
  {
    EveryRunIsWithinBudgets(registry, subs);
    BudgetsConserve(Replay(Written(registry, subs)), registry, run);
  }

  lemma ProductGrows(k: nat, a: nat, b: nat)
    requires a <= b
    ensures k * a <= k * b
  {
    assert k * b == k * a + k * (b - a);
  }
}
