/**
 * When the supervisor starts a turn, how it judges one that came back, and what a control does,
 * each told from the machine before and after, handler by handler and over whole runs.
 */
module SupervisorTurns {
  import opened Results
  import opened SupervisorState
  import Text

  // --- starting a turn ---------------------------------------------------------------------------------

  /** The turns a journal has started, in order. */
  function Starts(records: seq<Record>): seq<Record> {
    if records == [] then []
    else
      var last := records[|records| - 1];
      Starts(records[..|records| - 1]) + if last.Started? then [last] else []
  }

  lemma StartsOneMore(records: seq<Record>, r: Record)
    ensures Starts(records + [r]) == Starts(records) + if r.Started? then [r] else []
  {
    assert (records + [r])[..|records|] == records;
  }

  /** The agent is to be left alone: its brake is tripped, or it is off duty. */
  predicate Rests(m: Machine) {
    m.core.tripped.Some? || m.core.offDuty
  }

  /** The session has had its turns and is to be handed over. */
  predicate HasHadItsTurns(m: Machine, e: Env) {
    m.core.sid.Some? && m.core.turns >= e.maxTurns
  }

  /** From m to n one turn of this work was started, in the bound session or in a new one. */
  predicate IsStarted(m: Machine, n: Machine, work: Work, e: Env) {
    var sid := if m.core.sid.Some? then m.core.sid.value else e.sid;
    && n.work == Some(work)
    && n.running == Some(Turn(work, e.attempt, m.core.sid.Some? && !m.core.isNew))
    && n.records == m.records + (if m.core.sid.Some? then [] else [Bound(e.sid, e.cwd)])
                    + [Started(work.id, Some(sid), e.attempt)]
    && n.core == m.core.(sid := Some(sid), isNew := false,
                         cwd := if m.core.sid.Some? then m.core.cwd else Some(e.cwd),
                         turns := if m.core.sid.Some? then m.core.turns else 0)
    && n.forgiven == m.forgiven
  }

  lemma StartIsStarted(m: Machine, work: Work, e: Env)
    ensures IsStarted(m, StartTurn(m, work, e), work, e)
    ensures Starts(StartTurn(m, work, e).records)
            == Starts(m.records) + [Started(work.id, StartTurn(m, work, e).core.sid, e.attempt)]
  {
    var bound := if m.core.sid.None? then Bind(m, e.sid, e.cwd) else m;
    StartsOneMore(m.records, Bound(e.sid, e.cwd));
    StartsOneMore(bound.records, Started(work.id, bound.core.sid, e.attempt));
  }

  /**
   * A poll starts a turn if and only if the agent is on duty, its brake is not tripped, work waits and
   * nothing runs. The turn is for that work, or for a handover first exactly when the session has had
   * its turns. In every other case the poll changes nothing.
   */
  lemma PollStartsIff(m: Machine, e: Env)
    ensures
      var n := Step(m, Poll, e);
      && (n != m <==> !m.core.offDuty && m.core.tripped.None? && m.work.Some? && m.running.None?)
      && (n != m ==>
            if HasHadItsTurns(m, e) then IsStarted(m, n, Rotate("handover-max-turns-" + e.attempt, m.work.value), e)
            else IsStarted(m, n, m.work.value, e))
  {
    if m.work.Some? {
      StartIsStarted(m, m.work.value, e);
      StartIsStarted(m, Rotate("handover-max-turns-" + e.attempt, m.work.value), e);
    }
  }

  /** A message is chosen exactly when the agent is idle, on duty and its brake is not tripped. */
  lemma ChoiceIsTakenIff(m: Machine, id: string, e: Env)
    ensures
      var n := Step(m, Choose(id), e);
      && (n != m <==> !m.core.offDuty && m.core.tripped.None? && m.work.None? && m.running.None?)
      && (n != m ==> n == m.(work := Some(Message(id))))
  {
    var n := Step(m, Choose(id), e);
    assert m.work.None? && m.running.None? && !Rests(m) ==> n.work.Some?;
  }

  lemma EndStartsNone(m: Machine, msg: string, kind: TurnClass)
    ensures Starts(EndTurn(m, msg, kind).records) == Starts(m.records)
  {
    StartsOneMore(m.records, Ended(msg, m.core.sid, kind, m.core.brake, m.core.tripped));
  }

  lemma RebindStartsNone(m: Machine, e: Env)
    ensures Starts(Bind(Log(m, Rotated(false)), e.sid, e.cwd).records) == Starts(m.records)
  {
    StartsOneMore(m.records, Rotated(false));
    StartsOneMore(m.records + [Rotated(false)], Bound(e.sid, e.cwd));
  }

  lemma LostForGoodStartsNone(m: Machine, work: Work, e: Env)
    ensures Starts(LostForGood(m, work, e).records) == Starts(m.records)
  {
    var c := CountLoss(m.core, e);
    var end := Ended(work.id, c.sid, ProviderFailure, c.brake, c.tripped);
    var failed := PersistenceFailed(work.id, c.sid, c.streak, c.episode.value);
    assert m.records + [end, failed] == (m.records + [end]) + [failed];
    StartsOneMore(m.records, end);
    StartsOneMore(m.records + [end], failed);
  }

  lemma LossStartsNone(m: Machine, work: Work, e: Env)
    ensures Starts(AfterLoss(m, work, e).records) == Starts(m.records)
  {
    var losses := Plus(m.core.counts.losses, work.id);
    var counted := m.(core := m.core.(counts := m.core.counts.(losses := losses)));
    LostForGoodStartsNone(counted, work, e);
    EndStartsNone(counted, work.id, SessionLost);
    RebindStartsNone(EndTurn(counted, work.id, SessionLost), e);
  }

  lemma RecoveredStartsNone(m: Machine, work: Work, resumed: bool)
    ensures Starts(Recovered(m, work, resumed).records) == Starts(m.records)
  {
    var core := RecoveredCore(m.core, resumed);
    var end := Ended(work.id, core.sid, Succeeded, core.brake, core.tripped);
    StartsOneMore(m.records, end);
    StartsOneMore(m.records + [end], PersistenceRestored);
  }

  lemma SettleStartsNone(m: Machine, work: Work, e: Env)
    ensures Starts(Settle(m, work, e).records) == Starts(m.records)
  {
    RebindStartsNone(m, e);
    StartsOneMore(m.records, DutyOff);
  }

  lemma FailureStartsNone(m: Machine, work: Work, e: Env)
    ensures Starts(AfterFailure(m, work, e).records) == Starts(m.records)
  {
    var failures := Plus(m.core.counts.failures, work.id);
    EndStartsNone(m.(core := Brake(m.core, e).(counts := m.core.counts.(failures := failures))), work.id, ProviderFailure);
  }

  lemma FinishStartsNone(m: Machine, turn: Turn, r: Outcome, e: Env)
    ensures Starts(FinishResult(m, turn, r, e).records) == Starts(m.records)
  {
    if !r.refused && r.rc != 0 && !turn.resumed && r.inUse {
      EndStartsNone(m, turn.work.id, SessionInUse);
    } else if !r.refused && r.rc != 0 && turn.resumed && r.notFound {
      LossStartsNone(m, turn.work, e);
    } else if !r.refused && r.rc == 0 && r.hasOutput {
      RecoveredStartsNone(m, turn.work, turn.resumed);
      SettleStartsNone(Recovered(m, turn.work, turn.resumed), turn.work, e);
    } else if !r.refused && (r.rc in {75, 78, 69} || r.rc == 0 || (r.rc == 78 && r.loginHint)) {
      EndStartsNone(m, turn.work.id, Infra);
    } else {
      FailureStartsNone(m, turn.work, e);
    }
  }

  lemma CollectStartsNone(m: Machine, r: Outcome, e: Env)
    ensures Starts(CollectTurn(m, r, e).records) == Starts(m.records)
  {
    if m.running.Some? {
      FinishStartsNone(m.(running := None), m.running.value, r, e);
    }
  }

  lemma CancelStartsNone(m: Machine, refused: bool)
    ensures Starts(CancelTurn(m, refused).records) == Starts(m.records)
  {
    if m.running.Some? {
      EndStartsNone(m, m.running.value.work.id, if refused then ProviderFailure else Cancelled);
    }
  }

  /** The one other way to a turn: an accepted routine control, which a running turn keeps out. */
  predicate OrdersARoutine(m: Machine, h: Handler) {
    h.Handle? && h.accepted && (h.verb.Feierabend? || h.verb.Standup?) && m.running.None?
  }

  /** From m to n one turn was started if anew, and none otherwise. */
  predicate StartsOneIf(anew: bool, m: Machine, n: Machine, e: Env) {
    if anew then
      n.running.Some? && Starts(n.records) == Starts(m.records) + [Started(n.running.value.work.id, n.core.sid, e.attempt)]
    else Starts(n.records) == Starts(m.records)
  }

  lemma ClearStartsNone(m: Machine)
    ensures Starts(ClearBrake(m).records) == Starts(m.records)
  {
    StartsOneMore(m.records, BrakeReset(m.core.brake));
  }

  lemma RoutineStarts(m: Machine, work: Work, e: Env)
    ensures StartsOneIf(true, m, StartTurn(m, work, e), e)
  {
    StartIsStarted(m, work, e);
  }

  lemma CarryOutStarts(m: Machine, req: nat, verb: Verb, e: Env)
    ensures StartsOneIf(verb.Feierabend? || verb.Standup?, m, CarryOut(m, req, verb, e), e)
  {
    match verb
    case Feierabend => RoutineStarts(m, Routine(RoutineId("feierabend", req), Feierabend, req), e);
    case Standup =>
      StartsOneMore(m.records, DutyOn);
      RoutineStarts(Log(m.(core := m.core.(offDuty := false)), DutyOn), Routine(RoutineId("standup", req), Standup, req), e);
    case Neustart(_) =>
      ClearStartsNone(m);
      StartsOneMore(ClearBrake(m).records, Rotated(true));
    case ResetBrake => ClearStartsNone(m);
    case Abschalten =>
  }

  lemma ForcedEndStartsNone(m: Machine, grace: Option<Outcome>, e: Env)
    ensures Starts((if grace.Some? then CollectTurn(m, grace.value, e) else CancelTurn(m, e.unsafeOutput)).records) == Starts(m.records)
  {
    if grace.Some? {
      CollectStartsNone(m, grace.value, e);
    } else {
      CancelStartsNone(m, e.unsafeOutput);
    }
  }

  /** A control is kept out by the running turn: routines always, a restart or shutdown unless forced. */
  predicate IsBusy(m: Machine, verb: Verb, force: bool) {
    m.running.Some? && !verb.ResetBrake? && (force ==> verb.Feierabend? || verb.Standup?)
  }

  lemma CarryOutStartsAfter(m: Machine, freed: Machine, req: nat, verb: Verb, e: Env)
    requires Starts(freed.records) == Starts(m.records)
    ensures StartsOneIf(verb.Feierabend? || verb.Standup?, m, CarryOut(freed, req, verb, e), e)
  {
    CarryOutStarts(freed, req, verb, e);
  }

  /** A control in three: consumed only, carried out at once, or carried out when the turn is out of the way. */
  lemma ControlInThree(m: Machine, req: nat, verb: Verb, accepted: bool, force: bool, grace: Option<Outcome>, e: Env)
    ensures
      var consumed := Consume(m, req);
      var freed := if !force then consumed
                   else if grace.Some? then CollectTurn(consumed, grace.value, e)
                   else CancelTurn(consumed, e.unsafeOutput);
      Control(m, req, verb, accepted, force, grace, e)
      == if accepted && !IsBusy(m, verb, force) then CarryOut(freed, req, verb, e) else consumed
  {
  }

  lemma ControlStarts(m: Machine, req: nat, verb: Verb, accepted: bool, force: bool, grace: Option<Outcome>, e: Env)
    ensures StartsOneIf(OrdersARoutine(m, Handle(req, verb, accepted, force, grace)), m,
                        Control(m, req, verb, accepted, force, grace, e), e)
  {
    var consumed := Consume(m, req);
    StartsOneMore(m.records, Consumed(req));
    ForcedEndStartsNone(consumed, grace, e);
    var freed := if !force then consumed
                 else if grace.Some? then CollectTurn(consumed, grace.value, e)
                 else CancelTurn(consumed, e.unsafeOutput);
    CarryOutStartsAfter(m, freed, req, verb, e);
    ControlInThree(m, req, verb, accepted, force, grace, e);
  }

  lemma RestartStartsNone(m: Machine, e: Env)
    ensures Starts(Restart(m, e).records) == Starts(m.records)
  {
    StartsOneMore(m.records, Other);
    StartsOneMore(m.records + [Other], Bound(e.sid, e.cwd));
  }

  lemma OrphanStartsNone(m: Machine)
    ensures Starts(OrphanGone(m).records) == Starts(m.records)
  {
    if Unfinished(m.records).Some? && Unfinished(m.records).value.Started? {
      var start := Unfinished(m.records).value;
      StartsOneMore(m.records, Ended(start.msg, start.sid, Gone, m.core.brake, None));
    }
  }

  lemma PollStarts(m: Machine, e: Env)
    ensures StartsOneIf(!Rests(m) && m.work.Some? && m.running.None?, m, Begin(m, e), e)
  {
    if m.work.Some? {
      StartIsStarted(m, m.work.value, e);
      StartIsStarted(m, Rotate("handover-max-turns-" + e.attempt, m.work.value), e);
    }
  }

  /**
   * Whatever is handled, at most one turn is started. One is started if and only if a poll finds work
   * waiting for an idle agent on duty with its brake untripped, or an accepted control orders a routine
   * of an idle agent.
   */
  lemma TurnStartsIff(m: Machine, h: Handler, e: Env)
    ensures
      StartsOneIf(OrdersARoutine(m, h) || (h.Poll? && !Rests(m) && m.work.Some? && m.running.None?), m, Step(m, h, e), e)
  {
    match h
    case Poll => PollStarts(m, e);
    case Collect(r) => CollectStartsNone(m, r, e);
    case Handle(req, verb, accepted, force, grace) => ControlStarts(m, req, verb, accepted, force, grace, e);
    case Crash => RestartStartsNone(m, e);
    case Orphan => OrphanStartsNone(m);
    case _ =>
  }

  // --- at rest, over whole runs -------------------------------------------------------------------------

  /** A control that is carried out and is more than a shutdown. */
  predicate Rouses(h: Handler) {
    h.Handle? && h.accepted && !h.verb.Abschalten?
  }

  lemma RestIsKept(m: Machine, h: Handler, e: Env)
    requires Valid(m, e.burst) && m.running.None? && !Rouses(h)
    ensures
      var n := Step(m, h, e);
      Rests(m) ==> n.running.None? && Starts(n.records) == Starts(m.records)
  {
    TurnStartsIff(m, h, e);
  }

  lemma BrakeStaysTripped(m: Machine, h: Handler, e: Env)
    requires Valid(m, e.burst) && m.running.None? && !Rouses(h)
    ensures m.core.tripped.Some? ==> Step(m, h, e).core.tripped.Some?
    ensures m.core.offDuty ==> Step(m, h, e).core.offDuty
  {
  }

  /**
   * In every run: once an idle agent is at rest, tripped or off duty, it stays so and no turn is started,
   * whatever is chosen, polled or refused, and over any crashes and restarts, until a control rouses it.
   */
  lemma {:induction false} NothingStartsAtRest(steps: seq<(Handler, Env)>, i: nat, burst: nat)
    requires AreSteps(steps, burst) && i <= |steps|
    requires Rests(Run(steps[..i])) && Run(steps[..i]).running.None?
    requires forall k | i <= k < |steps| :: !Rouses(steps[k].0)
    ensures
      var m, n := Run(steps[..i]), Run(steps);
      && n.running.None? && Starts(n.records) == Starts(m.records)
      && (m.core.tripped.Some? ==> n.core.tripped.Some?) && (m.core.offDuty ==> n.core.offDuty)
  {
    if i == |steps| {
      assert steps[..i] == steps;
    } else {
      var before := steps[..|steps| - 1];
      assert before[..i] == steps[..i];
      NothingStartsAtRest(before, i, burst);
      EveryRunIsValid(before, burst);
      RestIsKept(Run(before), steps[|steps| - 1].0, steps[|steps| - 1].1);
      BrakeStaysTripped(Run(before), steps[|steps| - 1].0, steps[|steps| - 1].1);
    }
  }

  // --- how a turn that came back is judged -----------------------------------------------------------------

  function Times(counts: map<string, nat>, msg: string): nat {
    if msg in counts then counts[msg] else 0
  }

  /** The classes a turn that came back can have, each with the outcomes it stands for. */
  predicate IsClassOf(kind: TurnClass, resumed: bool, lossesBefore: nat, r: Outcome) {
    match kind
    case Succeeded => r.rc == 0 && r.hasOutput && !r.refused
    case SessionInUse => r.rc != 0 && r.inUse && !resumed && !r.refused
    case SessionLost => r.rc != 0 && r.notFound && resumed && !r.refused && lossesBefore == 0
    case Infra =>
      && !r.refused && (r.rc in {69, 75, 78} || (r.rc == 0 && !r.hasOutput))
      && !(r.rc != 0 && if resumed then r.notFound else r.inUse)
    case ProviderFailure =>
      || r.refused
      || (resumed && r.notFound && r.rc != 0 && lossesBefore > 0)
      || (r.rc !in {0, 69, 75, 78} && !if resumed then r.notFound else r.inUse)
    case _ => false
  }

  lemma OneClassOnly(a: TurnClass, b: TurnClass, resumed: bool, lossesBefore: nat, r: Outcome)
    requires IsClassOf(a, resumed, lossesBefore, r) && IsClassOf(b, resumed, lossesBefore, r)
    ensures a == b
  {
  }

  /** The record of a turn's end: its work, the session it ran in, and the brake as it then is. */
  function EndOf(m: Machine, work: Work, kind: TurnClass, brake: nat, tripped: Option<string>): Record {
    Ended(work.id, m.core.sid, kind, brake, tripped)
  }

  /** Session, duty, streak and controls are as they were. */
  ghost predicate KeepsSession(c: Core, d: Core) {
    && d.sid == c.sid && d.cwd == c.cwd && d.isNew == c.isNew && d.turns == c.turns
    && d.offDuty == c.offDuty && d.consumed == c.consumed && d.streak == c.streak && d.episode == c.episode
  }

  /** One failure more on the brake, which is tripped when that makes the burst. */
  ghost predicate CountsAFailure(c: Core, d: Core, e: Env) {
    && d.brake == c.brake + 1
    && (if c.brake + 1 >= e.burst then d.tripped == Some(e.now) else d.tripped == c.tripped)
  }

  /** One more of a message's counts, and no other touched. */
  ghost predicate CountsOnce(before: map<string, nat>, after: map<string, nat>, msg: string) {
    Times(after, msg) == Times(before, msg) + 1 && forall other :: other != msg ==> Times(after, other) == Times(before, other)
  }

  /**
   * A provider failure with the session kept: one failure on the brake and one of the message. The work
   * is kept for a retry, except that the third failure of a message under an untripped brake drops it.
   */
  ghost predicate IsPlainFailure(m: Machine, n: Machine, work: Work, e: Env) {
    && CountsAFailure(m.core, n.core, e) && KeepsSession(m.core, n.core)
    && CountsOnce(m.core.counts.failures, n.core.counts.failures, work.id) && n.core.counts.losses == m.core.counts.losses
    && n.records == m.records + [EndOf(m, work, ProviderFailure, n.core.brake, n.core.tripped)]
    && n.work == (if n.core.tripped.Some? then m.work
                  else if work.Message? && Times(m.core.counts.failures, work.id) >= 2 then None
                  else Some(work))
  }

  /** The first time a session is not found: it is rotated, nothing counts against the provider, and only a routine goes on. */
  ghost predicate IsFirstLoss(m: Machine, n: Machine, work: Work, e: Env) {
    && n.core.brake == m.core.brake && n.core.tripped == m.core.tripped
    && n.core.streak == m.core.streak && n.core.episode == m.core.episode
    && n.core.offDuty == m.core.offDuty && n.core.consumed == m.core.consumed
    && n.core.sid == Some(e.sid) && n.core.cwd == Some(e.cwd) && n.core.isNew && n.core.turns == 0
    && CountsOnce(m.core.counts.losses, n.core.counts.losses, work.id) && n.core.counts.failures == m.core.counts.failures
    && n.records == m.records + [EndOf(m, work, SessionLost, m.core.brake, m.core.tripped), Rotated(false), Bound(e.sid, e.cwd)]
    && n.work == (if work.Routine? then Some(Resume("handover-session-loss-" + e.attempt, work)) else None)
  }

  /** The second time: a failure of the provider, a streak owed, no session and no work. */
  ghost predicate IsSecondLoss(m: Machine, n: Machine, work: Work, e: Env) {
    && CountsAFailure(m.core, n.core, e)
    && n.core.streak == m.core.streak + 1
    && n.core.episode == (if m.core.episode.Some? then m.core.episode else Some(e.attempt))
    && n.core.sid.None? && n.core.cwd.None? && !n.core.isNew && n.core.turns == 0
    && n.core.offDuty == m.core.offDuty && n.core.consumed == m.core.consumed
    && Times(n.core.counts.losses, work.id) == 0 && n.core.counts.failures == m.core.counts.failures
    && n.work.None? && n.core.episode.Some?
    && n.records == m.records + [EndOf(m, work, ProviderFailure, n.core.brake, n.core.tripped),
                                 PersistenceFailed(work.id, m.core.sid, n.core.streak, n.core.episode.value)]
  }

  /**
   * A success clears the brake if no lost session is owed or this turn resumed one, which pays it off;
   * otherwise brake and streak stay. Either way the message counts stay and the session has had a turn more.
   */
  ghost predicate IsRecovery(c: Core, d: Core, resumed: bool) {
    && (c.streak == 0 || resumed ==> d.brake == 0 && d.tripped.None? && d.streak == 0)
    && (c.streak > 0 && !resumed ==> d.brake == c.brake && d.tripped == c.tripped && d.streak == c.streak && d.episode == c.episode)
    && (c.streak == 0 ==> d.episode == c.episode) && (c.streak > 0 && resumed ==> d.episode.None?)
    && d.counts == c.counts && d.consumed == c.consumed
  }

  /** Where a success leaves the session, the duty and the work: what each kind of work was for. */
  ghost predicate IsSettled(m: Machine, n: Machine, work: Work, e: Env) {
    && n.core.offDuty == (match work
                          case Routine(_, Feierabend, _) => true
                          case Routine(_, Standup, _) => false
                          case _ => m.core.offDuty)
    && n.work == (match work
                  case Resume(_, queued) => Some(queued)
                  case Rotate(_, queued) => Some(queued)
                  case _ => None)
    && if work.Rotate? then n.core.sid == Some(e.sid) && n.core.cwd == Some(e.cwd) && n.core.isNew && n.core.turns == 0
       else n.core.sid == m.core.sid && n.core.cwd == m.core.cwd && n.core.isNew == m.core.isNew && n.core.turns == m.core.turns + 1
  }

  /** What a success leaves on record. */
  ghost predicate IsSuccessOnRecord(m: Machine, n: Machine, work: Work, resumed: bool, e: Env) {
    n.records == m.records + [EndOf(m, work, Succeeded, n.core.brake, n.core.tripped)]
                 + (if m.core.streak > 0 && resumed then [PersistenceRestored] else [])
                 + (match work
                    case Routine(_, Feierabend, _) => [DutyOff]
                    case Rotate(_, _) => [Rotated(false), Bound(e.sid, e.cwd)]
                    case _ => [])
  }

  lemma FailureEffect(m: Machine, work: Work, e: Env)
    ensures IsPlainFailure(m, AfterFailure(m, work, e), work, e)
  {
  }

  lemma SecondLossEffect(m: Machine, work: Work, e: Env)
    requires Times(m.core.counts.losses, work.id) > 0
    ensures IsSecondLoss(m, AfterLoss(m, work, e), work, e)
  {
  }

  lemma FirstLossEffect(m: Machine, work: Work, e: Env)
    requires Times(m.core.counts.losses, work.id) == 0
    ensures IsFirstLoss(m, AfterLoss(m, work, e), work, e)
  {
  }

  lemma RecoveryEffect(m: Machine, work: Work, resumed: bool)
    ensures
      var n := Recovered(m, work, resumed);
      && IsRecovery(m.core, n.core, resumed) && n.core.turns == m.core.turns + 1
      && n.core.sid == m.core.sid && n.core.cwd == m.core.cwd && n.core.isNew == m.core.isNew
      && n.core.offDuty == m.core.offDuty
      && n.records == m.records + [EndOf(m, work, Succeeded, n.core.brake, n.core.tripped)]
                      + if m.core.streak > 0 && resumed then [PersistenceRestored] else []
  {
  }

  lemma SuccessEffect(m: Machine, work: Work, resumed: bool, e: Env)
    ensures
      var n := AfterSuccess(m, work, resumed, e);
      IsRecovery(m.core, n.core, resumed) && IsSettled(m, n, work, e) && IsSuccessOnRecord(m, n, work, resumed, e)
  {
    RecoveryEffect(m, work, resumed);
    SettleEffect(m, Recovered(m, work, resumed), work, e);
  }

  lemma SettleEffect(m: Machine, d: Machine, work: Work, e: Env)
    requires d.core.turns == m.core.turns + 1 && d.core.sid == m.core.sid && d.core.cwd == m.core.cwd
    requires d.core.isNew == m.core.isNew && d.core.offDuty == m.core.offDuty
    ensures
      var n := Settle(d, work, e);
      && IsSettled(m, n, work, e)
      && n.records == d.records + (match work
                                   case Routine(_, Feierabend, _) => [DutyOff]
                                   case Rotate(_, _) => [Rotated(false), Bound(e.sid, e.cwd)]
                                   case _ => [])
      && n.core.brake == d.core.brake && n.core.tripped == d.core.tripped && n.core.streak == d.core.streak
      && n.core.episode == d.core.episode && n.core.counts == d.core.counts && n.core.consumed == d.core.consumed
  {
  }

  /** What a turn of each class leaves: the whole judgement of a turn that came back. */
  ghost predicate IsJudged(m: Machine, n: Machine, turn: Turn, kind: TurnClass, r: Outcome, e: Env) {
    match kind
    case Succeeded =>
      && IsRecovery(m.core, n.core, turn.resumed) && IsSettled(m, n, turn.work, e)
      && IsSuccessOnRecord(m, n, turn.work, turn.resumed, e)
    case SessionLost => IsFirstLoss(m, n, turn.work, e)
    case ProviderFailure =>
      if turn.resumed && r.notFound && r.rc != 0 && !r.refused then IsSecondLoss(m, n, turn.work, e)
      else IsPlainFailure(m, n, turn.work, e)
    case _ =>
      n.core == m.core && n.work == m.work && n.records == m.records + [EndOf(m, turn.work, kind, m.core.brake, m.core.tripped)]
  }

  lemma FinishByClass(m: Machine, turn: Turn, r: Outcome, kind: TurnClass, e: Env)
    requires IsClassOf(kind, turn.resumed, Times(m.core.counts.losses, turn.work.id), r)
    ensures FinishResult(m, turn, r, e) ==
            match kind
            case Succeeded => AfterSuccess(m, turn.work, turn.resumed, e)
            case SessionLost => AfterLoss(m, turn.work, e)
            case ProviderFailure =>
              if turn.resumed && r.notFound && r.rc != 0 && !r.refused then AfterLoss(m, turn.work, e)
              else AfterFailure(m, turn.work, e)
            case _ => EndTurn(m, turn.work.id, kind)
  {
  }

  /** A turn that came back has one class, told from its exit code and output, and leaves just what that class leaves. */
  lemma TurnIsJudged(m: Machine, r: Outcome, kind: TurnClass, e: Env)
    requires m.running.Some?
    requires IsClassOf(kind, m.running.value.resumed, Times(m.core.counts.losses, m.running.value.work.id), r)
    ensures Step(m, Collect(r), e).running.None?
    ensures IsJudged(m.(running := None), Step(m, Collect(r), e), m.running.value, kind, r, e)
  {
    var idle := m.(running := None);
    CollectIsIdle(m, r, e);
    var work, resumed := m.running.value.work, m.running.value.resumed;
    FinishByClass(idle, m.running.value, r, kind, e);
    match kind
    case Succeeded => SuccessEffect(idle, work, resumed, e);
    case SessionLost => FirstLossEffect(idle, work, e);
    case ProviderFailure =>
      if resumed && r.notFound && r.rc != 0 && !r.refused {
        SecondLossEffect(idle, work, e);
      } else {
        FailureEffect(idle, work, e);
      }
    case _ =>
  }

  lemma EveryTurnHasAClass(resumed: bool, lossesBefore: nat, r: Outcome) returns (kind: TurnClass)
    ensures IsClassOf(kind, resumed, lossesBefore, r)
  {
    if r.refused {
      kind := ProviderFailure;
    } else if r.rc != 0 && !resumed && r.inUse {
      kind := SessionInUse;
    } else if r.rc != 0 && resumed && r.notFound {
      kind := if lossesBefore == 0 then SessionLost else ProviderFailure;
    } else if r.rc == 0 && r.hasOutput {
      kind := Succeeded;
    } else {
      kind := if r.rc in {0, 69, 75, 78} then Infra else ProviderFailure;
    }
  }

  // --- what a control does -----------------------------------------------------------------------------------

  /** The request is consumed, on record and in memory, and that is all. */
  predicate IsConsumed(m: Machine, n: Machine, req: nat) {
    n == m.(core := m.core.(consumed := m.core.consumed + {req}), records := m.records + [Consumed(req)])
  }

  /** A control that is refused or busy is consumed and changes nothing else. */
  lemma RefusedControlIsConsumed(m: Machine, req: nat, verb: Verb, accepted: bool, force: bool, grace: Option<Outcome>, e: Env)
    requires !accepted || IsBusy(m, verb, force)
    ensures IsConsumed(m, Step(m, Handle(req, verb, accepted, force, grace), e), req)
  {
  }

  /** Brake, message counts and persistence streak are gone; session, duty and controls stay. */
  ghost predicate IsCleared(c: Core, d: Core) {
    && d.brake == 0 && d.tripped.None? && d.counts == NO_COUNTS && d.streak == 0 && d.episode.None?
    && d.offDuty == c.offDuty && d.consumed == c.consumed
  }

  /** There was something to clear, and the record says so. */
  predicate HasSomethingToClear(c: Core) {
    c.brake > 0 || c.tripped.Some? || c.counts.failures != map[] || c.counts.losses != map[] || c.streak > 0
  }

  function ClearedOnRecord(m: Machine): seq<Record> {
    if HasSomethingToClear(m.core) then m.records + [BrakeReset(m.core.brake)] else m.records
  }

  /** The turn in progress is cut off: its work waits again, and nothing counts against the provider. */
  predicate IsCutOff(m: Machine, n: Machine, refused: bool)
    requires m.running.Some?
  {
    var work := m.running.value.work;
    && n == m.(running := None, work := Some(work), records := n.records)
    && n.records == m.records + [EndOf(m, work, if refused then ProviderFailure else Cancelled, m.core.brake, m.core.tripped)]
  }

  /** What each control is for, from the machine with the running turn out of the way. */
  ghost predicate IsCarriedOut(m: Machine, n: Machine, req: nat, verb: Verb, e: Env) {
    match verb
    case ResetBrake =>
      && IsCleared(m.core, n.core) && n.work == m.work && n.running == m.running && n.records == ClearedOnRecord(m)
      && n.core.sid == m.core.sid && n.core.cwd == m.core.cwd && n.core.isNew == m.core.isNew && n.core.turns == m.core.turns
    case Neustart(anew) =>
      && IsCleared(m.core, n.core) && n.work == m.work && n.running == m.running
      && n.records == ClearedOnRecord(m) + (if anew then [Rotated(true)] else [])
      && if anew then n.core.sid.None? && n.core.cwd.None? && !n.core.isNew && n.core.turns == 0
         else n.core.sid == m.core.sid && n.core.cwd == m.core.cwd && n.core.isNew == m.core.isNew && n.core.turns == m.core.turns
    case Feierabend =>
      IsStarted(m, n, Routine("control-feierabend-" + Text.Decimal(req), Feierabend, req), e)
    case Standup =>
      IsStarted(m.(core := m.core.(offDuty := false), records := m.records + [DutyOn]), n,
                Routine("control-standup-" + Text.Decimal(req), Standup, req), e)
    case Abschalten => n == m
  }

  lemma RoutineNames(req: nat)
    ensures RoutineId("feierabend", req) == "control-feierabend-" + Text.Decimal(req)
    ensures RoutineId("standup", req) == "control-standup-" + Text.Decimal(req)
  {
    assert "control-" + "feierabend" + "-" == "control-feierabend-";
    assert "control-" + "standup" + "-" == "control-standup-";
  }

  lemma ClearEffect(m: Machine)
    ensures
      var n := ClearBrake(m);
      && IsCleared(m.core, n.core) && n.work == m.work && n.running == m.running && n.records == ClearedOnRecord(m)
      && n.core.sid == m.core.sid && n.core.cwd == m.core.cwd && n.core.isNew == m.core.isNew && n.core.turns == m.core.turns
  {
  }

  lemma RoutineEffect(m: Machine, req: nat, e: Env)
    ensures IsCarriedOut(m, CarryOut(m, req, Feierabend, e), req, Feierabend, e)
    ensures IsCarriedOut(m, CarryOut(m, req, Standup, e), req, Standup, e)
  {
    RoutineNames(req);
    StartIsStarted(m, Routine(RoutineId("feierabend", req), Feierabend, req), e);
    var onDuty := m.(core := m.core.(offDuty := false), records := m.records + [DutyOn]);
    StartIsStarted(onDuty, Routine(RoutineId("standup", req), Standup, req), e);
    assert Log(m.(core := m.core.(offDuty := false)), DutyOn) == onDuty;
  }

  lemma CarryOutEffect(m: Machine, req: nat, verb: Verb, e: Env)
    ensures IsCarriedOut(m, CarryOut(m, req, verb, e), req, verb, e)
  {
    if verb.Feierabend? || verb.Standup? {
      RoutineEffect(m, req, e);
    } else {
      ClearEffect(m);
    }
  }

  /** How a forced control gets the running turn out of the way. */
  ghost predicate IsFreed(m: Machine, n: Machine, grace: Option<Outcome>, kind: TurnClass, e: Env)
    requires m.running.Some?
  {
    if grace.Some? then
      && n.running.None?
      && IsClassOf(kind, m.running.value.resumed, Times(m.core.counts.losses, m.running.value.work.id), grace.value)
      && IsJudged(m.(running := None), n, m.running.value, kind, grace.value, e)
    else IsCutOff(m, n, e.unsafeOutput)
  }

  lemma FreedEffect(m: Machine, grace: Option<Outcome>, e: Env) returns (kind: TurnClass)
    requires m.running.Some?
    ensures IsFreed(m, if grace.Some? then CollectTurn(m, grace.value, e) else CancelTurn(m, e.unsafeOutput), grace, kind, e)
  {
    kind := Cancelled;
    if grace.Some? {
      kind := EveryTurnHasAClass(m.running.value.resumed, Times(m.core.counts.losses, m.running.value.work.id), grace.value);
      TurnIsJudged(m, grace.value, kind, e);
    }
  }

  /**
   * An accepted control that is not busy is consumed, then a forced one ends the running turn, judged if
   * it came back in time and cut off if not, and then it does what it is for.
   */
  lemma AcceptedControlIsCarriedOut(m: Machine, req: nat, verb: Verb, force: bool, grace: Option<Outcome>, e: Env)
    returns (consumed: Machine, freed: Machine, kind: TurnClass)
    requires !IsBusy(m, verb, force)
    ensures IsConsumed(m, consumed, req)
    ensures if force && m.running.Some? then IsFreed(consumed, freed, grace, kind, e) else freed == consumed
    ensures IsCarriedOut(freed, Step(m, Handle(req, verb, true, force, grace), e), req, verb, e)
  {
    consumed, freed, kind := Consume(m, req), Consume(m, req), Cancelled;
    if force && m.running.Some? {
      kind := FreedEffect(consumed, grace, e);
      freed := if grace.Some? then CollectTurn(consumed, grace.value, e) else CancelTurn(consumed, e.unsafeOutput);
    }
    CarryOutEffect(freed, req, verb, e);
  }

  // --- restarts over whole runs ------------------------------------------------------------------------------

  /** The session is moved to a new workspace, or there was none to move. */
  predicate IsRebound(c: Core, e: Env) {
    c.sid.Some? && c.cwd != Some(e.cwd)
  }

  /**
   * A crash between any two handlers of any run: the restart is idle and has the session, duty, streak,
   * controls and brake count it had; it is tripped exactly if it was or had been forgiven; and only a moved
   * workspace makes it bind another session.
   */
  lemma RestartRestores(steps: seq<(Handler, Env)>, burst: nat, e: Env)
    requires AreSteps(steps, burst) && e.burst == burst
    ensures
      var m, n := Run(steps), Step(Run(steps), Crash, e);
      && n.work.None? && n.running.None?
      && n.core.offDuty == m.core.offDuty && n.core.consumed == m.core.consumed
      && n.core.streak == m.core.streak && n.core.episode == m.core.episode && n.core.brake == m.core.brake
      && (n.core.tripped.Some? <==> m.core.tripped.Some? || m.forgiven)
      && if IsRebound(m.core, e) then
           && n.core.sid == Some(e.sid) && n.core.cwd == Some(e.cwd) && n.core.isNew && n.core.turns == 0
           && n.records == m.records + [Other, Bound(e.sid, e.cwd)]
         else
           && n.core.sid == m.core.sid && n.core.cwd == m.core.cwd && n.core.isNew == m.core.isNew
           && n.core.turns == m.core.turns && n.records == m.records
  {
    EveryRunIsValid(steps, burst);
  }

  /** And a turn that was running is then ended on record, without a trip, and leaves nothing unfinished. */
  lemma OrphanIsEnded(steps: seq<(Handler, Env)>, burst: nat, e: Env)
    requires AreSteps(steps, burst) && e.burst == burst && Run(steps).running.Some?
    ensures
      var m, n := Run(steps), Step(Run(steps), Crash, e);
      var k := Step(n, Orphan, e);
      && n.core == k.core && n.work == k.work && k.running.None?
      && |k.records| == |n.records| + 1 && n.records <= k.records
      && Unfinished(k.records).None?
      && match k.records[|n.records|]
         case Ended(msg, _, kind, brake, tripped) =>
           msg == m.running.value.work.id && kind == Gone && brake == m.core.brake && tripped.None?
         case _ => false
  {
    var m, n := Run(steps), Step(Run(steps), Crash, e);
    RunningTurnIsFound(steps);
    RestartRestores(steps, burst, e);
    UnfinishedOneMore(m.records, Other);
    UnfinishedOneMore(m.records + [Other], Bound(e.sid, e.cwd));
    assert m.records + [Other, Bound(e.sid, e.cwd)] == (m.records + [Other]) + [Bound(e.sid, e.cwd)];
    var start := Unfinished(m.records).value;
    assert Unfinished(n.records) == Some(start);
    var end := Ended(start.msg, start.sid, Gone, n.core.brake, None);
    assert Step(n, Orphan, e) == Log(n, end);
    UnfinishedOneMore(n.records, end);
  }
}
