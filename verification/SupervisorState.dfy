/**
 * The supervisor's session, brake, duty and control state: what its handlers change in memory,
 * what they journal, and what a restart rebuilds from the journal.
 */
module SupervisorState {
  import opened Results
  import Text

  datatype TurnClass = Succeeded | Infra | ProviderFailure | SessionLost | SessionInUse | Cancelled | Gone

  /** The journal records the restart reads; every other event is Other. */
  datatype Record =
    | Bound(session: string, workspace: string)
    | Started(msg: string, sid: Option<string>, attempt: string)
    | Ended(msg: string, sid: Option<string>, kind: TurnClass, brake: nat, tripped: Option<string>)
    | DutyOff
    | DutyOn
    | BrakeReset(previous: nat)
    | Rotated(anew: bool)
    | PersistenceFailed(msg: string, sid: Option<string>, streak: nat, episode: string)
    | PersistenceRestored
    | Consumed(req: nat)
    | Other

  /** Provider failures and session losses, message by message. */
  datatype Counts = Counts(failures: map<string, nat>, losses: map<string, nat>)

  const NO_COUNTS := Counts(map[], map[])

  /** The fields a restart rebuilds. */
  datatype Core = Core(
    sid: Option<string>, cwd: Option<string>, isNew: bool, turns: nat,
    brake: nat, tripped: Option<string>, counts: Counts,
    streak: nat, episode: Option<string>, offDuty: bool, consumed: set<nat>)

  const FRESH := Core(None, None, false, 0, 0, None, NO_COUNTS, 0, None, false, {})

  function Plus(counts: map<string, nat>, msg: string): map<string, nat> {
    counts[msg := if msg in counts then counts[msg] + 1 else 1]
  }

  function Forget(counts: Counts, msg: string): Counts {
    Counts(counts.failures - {msg}, counts.losses - {msg})
  }

  function CountEnd(counts: Counts, msg: string, kind: TurnClass): Counts {
    match kind
    case ProviderFailure => counts.(failures := Plus(counts.failures, msg))
    case SessionLost => counts.(losses := Plus(counts.losses, msg))
    case Succeeded => Forget(counts, msg)
    case _ => counts
  }

  function Unbound(c: Core): Core {
    c.(sid := None, cwd := None, turns := 0, isNew := false)
  }

  /** One record of the replay. */
  function Apply(c: Core, r: Record): Core {
    match r
    case Bound(session, workspace) => c.(sid := Some(session), cwd := Some(workspace), turns := 0, isNew := true)
    case Started(_, sid, _) => if sid == c.sid then c.(isNew := false) else c
    case Ended(msg, sid, kind, brake, tripped) =>
      c.(brake := brake, tripped := if tripped.Some? then tripped else c.tripped,
         turns := if kind == Succeeded && sid == c.sid then c.turns + 1 else c.turns,
         counts := CountEnd(c.counts, msg, kind))
    case DutyOff => c.(offDuty := true)
    case DutyOn => c.(offDuty := false)
    case BrakeReset(_) =>
      c.(brake := 0, tripped := None, counts := NO_COUNTS, streak := 0, episode := None)
    case Rotated(anew) => if anew then Unbound(c) else c
    case PersistenceFailed(msg, sid, streak, episode) =>
      var d := c.(streak := if streak > 0 then streak else c.streak + 1,
                  episode := if episode != "" then Some(episode) else if c.episode.None? then Some("legacy") else c.episode,
                  counts := Forget(c.counts, msg));
      if sid == d.sid then Unbound(d) else d
    case PersistenceRestored => c.(streak := 0, episode := None)
    case Consumed(req) => c.(consumed := c.consumed + {req})
    case Other => c
  }

  function Replay(records: seq<Record>): Core {
    if records == [] then FRESH else Apply(Replay(records[..|records| - 1]), records[|records| - 1])
  }

  lemma ReplayOneMore(records: seq<Record>, r: Record)
    ensures Replay(records + [r]) == Apply(Replay(records), r)
  {
    assert (records + [r])[..|records|] == records;
  }

  /** A brake at its burst is tripped, whatever the records say. */
  function Tripping(c: Core, burst: nat, now: string): Core {
    if c.brake >= burst && c.tripped.None? then c.(tripped := Some(now)) else c
  }

  /** The last start without an end after it. */
  function Unfinished(records: seq<Record>): Option<Record> {
    if records == [] then None
    else
      var last := records[|records| - 1];
      if last.Started? then Some(last)
      else if last.Ended? then None
      else Unfinished(records[..|records| - 1])
  }

  // --- the live machine ------------------------------------------------------------------------------

  datatype Verb = Neustart(anew: bool) | Feierabend | Standup | Abschalten | ResetBrake

  /** What a turn is for; queued is the work a handover resumes or rotates to. */
  datatype Work =
    | Message(id: string)
    | Routine(id: string, verb: Verb, req: nat)
    | Resume(id: string, queued: Work)
    | Rotate(id: string, queued: Work)

  /** The turn in progress: its work, its attempt, and whether it resumed a session. */
  datatype Turn = Turn(work: Work, attempt: string, resumed: bool)

  /**
   * The machine between two handlers. The history variable forgiven says that a successful turn
   * has cleared a tripped brake, which leaves no record of its own.
   */
  datatype Machine = Machine(
    core: Core, work: Option<Work>, running: Option<Turn>, records: seq<Record>, forgiven: bool)

  const INITIAL := Machine(FRESH, None, None, [], false)

  /** How a turn came back: its exit code and what the output told. */
  datatype Outcome = Outcome(rc: int, hasOutput: bool, loginHint: bool, inUse: bool, notFound: bool, refused: bool)

  function Log(m: Machine, r: Record): Machine {
    m.(records := m.records + [r])
  }

  function Bind(m: Machine, sid: string, cwd: string): Machine {
    Log(m.(core := m.core.(sid := Some(sid), cwd := Some(cwd), isNew := true, turns := 0)), Bound(sid, cwd))
  }

  function EndTurn(m: Machine, msg: string, kind: TurnClass): Machine {
    Log(m, Ended(msg, m.core.sid, kind, m.core.brake, m.core.tripped))
  }

  /** What the environment supplies: fresh identities, the clock, and the configuration. */
  datatype Env = Env(sid: string, attempt: string, now: string, cwd: string, unsafeOutput: bool, burst: nat, maxTurns: nat)

  /** A turn for this work, in the bound session or a new one. */
  function StartTurn(m: Machine, work: Work, e: Env): Machine {
    var bound := if m.core.sid.None? then Bind(m, e.sid, e.cwd) else m;
    Log(bound.(core := bound.core.(isNew := false), work := Some(work),
               running := Some(Turn(work, e.attempt, !bound.core.isNew))),
        Started(work.id, bound.core.sid, e.attempt))
  }

  /** The main loop: a session that has had its turns is handed over first. */
  function Begin(m: Machine, e: Env): Machine {
    if m.work.None? || m.running.Some? || m.core.offDuty || m.core.tripped.Some? then m
    else if m.core.sid.Some? && m.core.turns >= e.maxTurns then
      StartTurn(m, Rotate("handover-max-turns-" + e.attempt, m.work.value), e)
    else StartTurn(m, m.work.value, e)
  }

  /** One more provider failure; at the burst the brake trips. */
  function Brake(c: Core, e: Env): Core {
    c.(brake := c.brake + 1, tripped := if c.brake + 1 >= e.burst then Some(e.now) else c.tripped)
  }

  function CountLoss(c: Core, e: Env): (d: Core)
    ensures d.episode.Some?
  {
    Brake(c, e).(streak := c.streak + 1, episode := if c.episode.None? then Some(e.attempt) else c.episode)
  }

  /** The second loss in a row: the session cannot be kept, and that counts as a provider failure. */
  function LostForGood(m: Machine, work: Work, e: Env): Machine {
    var c := CountLoss(m.core, e);
    var counts := c.counts.(losses := c.counts.losses - {work.id});
    m.(core := Unbound(c.(counts := counts)), work := None,
       records := m.records + [Ended(work.id, c.sid, ProviderFailure, c.brake, c.tripped),
                               PersistenceFailed(work.id, c.sid, c.streak, c.episode.value)])
  }

  function AfterLoss(m: Machine, work: Work, e: Env): Machine {
    var losses := Plus(m.core.counts.losses, work.id);
    var counted := m.(core := m.core.(counts := m.core.counts.(losses := losses)));
    if losses[work.id] >= 2 then LostForGood(counted, work, e)
    else
      var bound := Bind(Log(EndTurn(counted, work.id, SessionLost), Rotated(false)), e.sid, e.cwd);
      bound.(work := if work.Routine? then Some(Resume("handover-session-loss-" + e.attempt, work)) else None)
  }

  /** A success clears the brake, unless a lost session is still owed a successful resume. */
  function RecoveredCore(c: Core, resumed: bool): Core {
    var restored := c.streak > 0 && resumed;
    var cleared := restored || c.streak == 0;
    c.(brake := if cleared then 0 else c.brake,
       tripped := if cleared then None else c.tripped,
       streak := if restored then 0 else c.streak,
       episode := if restored then None else c.episode,
       turns := c.turns + 1)
  }

  /** The successful end of a turn, with the record that the session is back when it is. */
  function Recovered(m: Machine, work: Work, resumed: bool): Machine {
    var core := RecoveredCore(m.core, resumed);
    var ended := EndTurn(m.(core := core, forgiven := m.forgiven || (m.core.tripped.Some? && core.tripped.None?)),
                         work.id, Succeeded);
    if m.core.streak > 0 && resumed then Log(ended, PersistenceRestored) else ended
  }

  /** What the finished work was for. */
  function Settle(m: Machine, work: Work, e: Env): Machine {
    match work
    case Routine(_, Feierabend, _) => Log(m.(core := m.core.(offDuty := true), work := None), DutyOff)
    case Routine(_, Standup, _) => m.(core := m.core.(offDuty := false), work := None)
    case Resume(_, queued) => m.(work := Some(queued))
    case Rotate(_, queued) => Bind(Log(m, Rotated(false)), e.sid, e.cwd).(work := Some(queued))
    case _ => m.(work := None)
  }

  function AfterSuccess(m: Machine, work: Work, resumed: bool, e: Env): Machine {
    Settle(Recovered(m, work, resumed), work, e)
  }

  function AfterFailure(m: Machine, work: Work, e: Env): Machine {
    var failures := Plus(m.core.counts.failures, work.id);
    var braked := m.(core := Brake(m.core, e).(counts := m.core.counts.(failures := failures)));
    var ended := EndTurn(braked, work.id, ProviderFailure);
    if ended.core.tripped.Some? then ended
    else ended.(work := if failures[work.id] >= 3 && work.Message? then None else Some(work))
  }

  /** A turn that came back, classified as the supervisor does. */
  function FinishResult(m: Machine, turn: Turn, r: Outcome, e: Env): Machine {
    if !r.refused && r.rc != 0 && !turn.resumed && r.inUse then EndTurn(m, turn.work.id, SessionInUse)
    else if !r.refused && r.rc != 0 && turn.resumed && r.notFound then AfterLoss(m, turn.work, e)
    else if !r.refused && r.rc == 0 && r.hasOutput then AfterSuccess(m, turn.work, turn.resumed, e)
    else if !r.refused && (r.rc in {75, 78, 69} || r.rc == 0 || (r.rc == 78 && r.loginHint)) then
      EndTurn(m, turn.work.id, Infra)
    else AfterFailure(m, turn.work, e)
  }

  function CollectTurn(m: Machine, r: Outcome, e: Env): Machine {
    if m.running.None? then m else FinishResult(m.(running := None), m.running.value, r, e)
  }

  /** A cancelled turn goes back to the queue. */
  function CancelTurn(m: Machine, refused: bool): Machine {
    if m.running.None? then m
    else
      var work := m.running.value.work;
      EndTurn(m, work.id, if refused then ProviderFailure else Cancelled).(work := Some(work), running := None)
  }

  /** The brake is reset on record only if there is something to reset. */
  function ClearBrake(m: Machine): Machine {
    var c := m.core;
    var reset := c.brake != 0 || c.tripped.Some? || c.counts != NO_COUNTS || c.streak != 0;
    var cleared := m.(core := c.(brake := 0, tripped := None, counts := NO_COUNTS, streak := 0, episode := None),
                      forgiven := m.forgiven && !reset);
    if reset then Log(cleared, BrakeReset(c.brake)) else cleared
  }

  function Consume(m: Machine, req: nat): Machine {
    Log(m, Consumed(req)).(core := m.core.(consumed := m.core.consumed + {req}))
  }

  function RoutineId(verb: string, req: nat): string {
    "control-" + verb + "-" + Text.Decimal(req)
  }

  /** An accepted control, with the running turn out of the way where it must be. */
  function CarryOut(m: Machine, req: nat, verb: Verb, e: Env): Machine {
    match verb
    case ResetBrake => ClearBrake(m)
    case Neustart(anew) =>
      var cleared := ClearBrake(m);
      if anew then Log(cleared.(core := Unbound(cleared.core)), Rotated(true)) else cleared
    case Feierabend => StartTurn(m, Routine(RoutineId("feierabend", req), Feierabend, req), e)
    case Standup =>
      StartTurn(Log(m.(core := m.core.(offDuty := false)), DutyOn), Routine(RoutineId("standup", req), Standup, req), e)
    case Abschalten => m
  }

  /**
   * A control: consumed, and if accepted, carried out. A forced one first ends the running turn;
   * grace is how the turn came back if it did so in time.
   */
  function Control(m: Machine, req: nat, verb: Verb, accepted: bool, force: bool, grace: Option<Outcome>, e: Env): Machine {
    var busy := m.running.Some? && (verb.Feierabend? || verb.Standup? || ((verb.Neustart? || verb.Abschalten?) && !force));
    var consumed := Consume(m, req);
    if !accepted || busy then consumed
    else if !force then CarryOut(consumed, req, verb, e)
    else if grace.Some? then CarryOut(CollectTurn(consumed, grace.value, e), req, verb, e)
    else CarryOut(CancelTurn(consumed, e.unsafeOutput), req, verb, e)
  }

  /** Everything in memory is gone; the journal is read, and a moved workspace rebinds the session. */
  function Restart(m: Machine, e: Env): Machine {
    var core := Tripping(Replay(m.records), e.burst, e.now);
    var restored := Machine(core, None, None, m.records, false);
    if core.sid.Some? && core.cwd != Some(e.cwd) then Bind(Log(restored, Other), e.sid, e.cwd) else restored
  }

  /** A turn that outlived the supervisor has gone; its end carries no trip. */
  function OrphanGone(m: Machine): Machine {
    match Unfinished(m.records)
    case Some(Started(msg, sid, _)) =>
      if m.running.Some? then m else Log(m, Ended(msg, sid, Gone, m.core.brake, None))
    case _ => m
  }

  datatype Handler =
    | Choose(id: string)
    | Poll
    | Collect(result: Outcome)
    | Handle(req: nat, verb: Verb, accepted: bool, force: bool, grace: Option<Outcome>)
    | GiveUp(drop: bool)
    | Crash
    | Orphan

  function Step(m: Machine, h: Handler, e: Env): Machine {
    match h
    case Choose(id) =>
      if m.work.None? && m.running.None? && !m.core.offDuty && m.core.tripped.None? then m.(work := Some(Message(id))) else m
    case Poll => Begin(m, e)
    case Collect(r) => CollectTurn(m, r, e)
    case Handle(req, verb, accepted, force, grace) => Control(m, req, verb, accepted, force, grace, e)
    case GiveUp(drop) => m.(running := None, work := if drop then None else m.work)
    case Crash => Restart(m, e)
    case Orphan => OrphanGone(m)
  }

  // --- the supervisor itself -----------------------------------------------------------------------------

  /** The attributes a restart rebuilds are kept together in state. */
  class Supervisor {
    var state: Core
    var work: Option<Work>
    var running: Option<Turn>
    var records: seq<Record>
    ghost var forgiven: bool

    constructor ()
      ensures Snapshot() == INITIAL
    {
      state, work, running, records, forgiven := FRESH, None, None, [], false;
    }

    ghost function Snapshot(): Machine
      reads this
    {
      Machine(state, work, running, records, forgiven)
    }

    method Journal(r: Record)
      modifies this`records
      ensures records == old(records) + [r]
    {
      records := records + [r];
    }

    method BindSession(sid: string, cwd: string)
      modifies this
      ensures Snapshot() == Bind(old(Snapshot()), sid, cwd)
    {
      state := state.(sid := Some(sid), cwd := Some(cwd), isNew := true, turns := 0);
      Journal(Bound(sid, cwd));
    }

    method EndTheTurn(msg: string, kind: TurnClass)
      modifies this`records
      ensures Snapshot() == EndTurn(old(Snapshot()), msg, kind)
    {
      Journal(Ended(msg, state.sid, kind, state.brake, state.tripped));
    }

    method Launch(w: Work, e: Env)
      modifies this
      ensures Snapshot() == StartTurn(old(Snapshot()), w, e)
    {
      if state.sid.None? {
        BindSession(e.sid, e.cwd);
      }
      work, running := Some(w), Some(Turn(w, e.attempt, !state.isNew));
      Journal(Started(w.id, state.sid, e.attempt));
      state := state.(isNew := false);
    }

    /** One pass of the main loop over work that waits. */
    method LaunchWaiting(e: Env)
      modifies this
      ensures Snapshot() == Begin(old(Snapshot()), e)
    {
      if work.Some? && running.None? && !state.offDuty && state.tripped.None? {
        if state.sid.Some? && state.turns >= e.maxTurns {
          Launch(Rotate("handover-max-turns-" + e.attempt, work.value), e);
        } else {
          Launch(work.value, e);
        }
      }
    }

    method CountFailure(e: Env)
      modifies this`state
      ensures state == Brake(old(state), e)
    {
      state := state.(brake := state.brake + 1);
      if state.brake >= e.burst {
        state := state.(tripped := Some(e.now));
      }
    }

    method LoseSession(w: Work, e: Env)
      modifies this
      ensures Snapshot() == LostForGood(old(Snapshot()), w, e)
    {
      state := state.(streak := state.streak + 1);
      if state.episode.None? {
        state := state.(episode := Some(e.attempt));
      }
      CountFailure(e);
      assert state == CountLoss(old(state), e);
      records := records + [Ended(w.id, state.sid, ProviderFailure, state.brake, state.tripped),
                            PersistenceFailed(w.id, state.sid, state.streak, state.episode.value)];
      state := Unbound(state.(counts := state.counts.(losses := state.counts.losses - {w.id})));
      work := None;
    }

    method HandleLoss(w: Work, e: Env)
      modifies this
      ensures Snapshot() == AfterLoss(old(Snapshot()), w, e)
    {
      state := state.(counts := state.counts.(losses := Plus(state.counts.losses, w.id)));
      if state.counts.losses[w.id] >= 2 {
        LoseSession(w, e);
      } else {
        EndTheTurn(w.id, SessionLost);
        Journal(Rotated(false));
        BindSession(e.sid, e.cwd);
        work := if w.Routine? then Some(Resume("handover-session-loss-" + e.attempt, w)) else None;
      }
    }

    method RecoverState(resumed: bool)
      modifies this`state
      ensures state == RecoveredCore(old(state), resumed)
    {
      var restored := state.streak > 0 && resumed;
      if restored || state.streak == 0 {
        state := state.(brake := 0, tripped := None);
      }
      if restored {
        state := state.(streak := 0, episode := None);
      }
      state := state.(turns := state.turns + 1);
    }

    method Recover(w: Work, resumed: bool)
      modifies this
      ensures Snapshot() == Recovered(old(Snapshot()), w, resumed)
    {
      var restored := state.streak > 0 && resumed;
      ghost var wasTripped := state.tripped.Some?;
      RecoverState(resumed);
      forgiven := forgiven || (wasTripped && state.tripped.None?);
      EndTheTurn(w.id, Succeeded);
      if restored {
        Journal(PersistenceRestored);
      }
    }

    method SettleWork(w: Work, e: Env)
      modifies this
      ensures Snapshot() == Settle(old(Snapshot()), w, e)
    {
      match w
      case Routine(_, Feierabend, _) =>
        state, work := state.(offDuty := true), None;
        Journal(DutyOff);
      case Routine(_, Standup, _) =>
        state, work := state.(offDuty := false), None;
      case Resume(_, queued) =>
        work := Some(queued);
      case Rotate(_, queued) =>
        Journal(Rotated(false));
        BindSession(e.sid, e.cwd);
        work := Some(queued);
      case _ =>
        work := None;
    }

    method HandleFailure(w: Work, e: Env)
      modifies this
      ensures Snapshot() == AfterFailure(old(Snapshot()), w, e)
    {
      CountFailure(e);
      state := state.(counts := state.counts.(failures := Plus(state.counts.failures, w.id)));
      EndTheTurn(w.id, ProviderFailure);
      if state.tripped.None? {
        work := if state.counts.failures[w.id] >= 3 && w.Message? then None else Some(w);
      }
    }

    method Collect(r: Outcome, e: Env)
      modifies this
      ensures Snapshot() == CollectTurn(old(Snapshot()), r, e)
    {
      if running.None? {
        return;
      }
      var turn := running.value;
      running := None;
      if !r.refused && r.rc != 0 && !turn.resumed && r.inUse {
        EndTheTurn(turn.work.id, SessionInUse);
      } else if !r.refused && r.rc != 0 && turn.resumed && r.notFound {
        HandleLoss(turn.work, e);
      } else if !r.refused && r.rc == 0 && r.hasOutput {
        Recover(turn.work, turn.resumed);
        SettleWork(turn.work, e);
      } else if !r.refused && (r.rc in {75, 78, 69} || r.rc == 0 || (r.rc == 78 && r.loginHint)) {
        EndTheTurn(turn.work.id, Infra);
      } else {
        HandleFailure(turn.work, e);
      }
    }

    method Cancel(refused: bool)
      modifies this
      ensures Snapshot() == CancelTurn(old(Snapshot()), refused)
    {
      if running.Some? {
        var w := running.value.work;
        EndTheTurn(w.id, if refused then ProviderFailure else Cancelled);
        work, running := Some(w), None;
      }
    }

    method ResetTheBrake()
      modifies this
      ensures Snapshot() == ClearBrake(old(Snapshot()))
    {
      if state.brake != 0 || state.tripped.Some? || state.counts != NO_COUNTS || state.streak != 0 {
        Journal(BrakeReset(state.brake));
        forgiven := false;
      }
      state := state.(brake := 0, tripped := None, counts := NO_COUNTS, streak := 0, episode := None);
    }

    method ConsumeControl(req: nat)
      modifies this
      ensures Snapshot() == Consume(old(Snapshot()), req)
    {
      Journal(Consumed(req));
      state := state.(consumed := state.consumed + {req});
    }

    method ProcessControl(req: nat, verb: Verb, accepted: bool, force: bool, grace: Option<Outcome>, e: Env)
      modifies this
      ensures Snapshot() == Control(old(Snapshot()), req, verb, accepted, force, grace, e)
    {
      var busy := running.Some? && (verb.Feierabend? || verb.Standup? || ((verb.Neustart? || verb.Abschalten?) && !force));
      ConsumeControl(req);
      if !accepted || busy {
        return;
      }
      if force {
        EndByForce(grace, e);
      }
      Execute(req, verb, e);
    }

    method EndByForce(grace: Option<Outcome>, e: Env)
      modifies this
      ensures Snapshot() == if grace.Some? then CollectTurn(old(Snapshot()), grace.value, e)
                            else CancelTurn(old(Snapshot()), e.unsafeOutput)
    {
      if grace.Some? {
        Collect(grace.value, e);
      } else {
        Cancel(e.unsafeOutput);
      }
    }

    method Execute(req: nat, verb: Verb, e: Env)
      modifies this
      ensures Snapshot() == CarryOut(old(Snapshot()), req, verb, e)
    {
      match verb
      case ResetBrake => ResetTheBrake();
      case Neustart(anew) =>
        ResetTheBrake();
        if anew {
          Journal(Rotated(true));
          state := Unbound(state);
        }
      case Feierabend =>
        Launch(Routine(RoutineId("feierabend", req), Feierabend, req), e);
      case Standup =>
        state := state.(offDuty := false);
        Journal(DutyOn);
        Launch(Routine(RoutineId("standup", req), Standup, req), e);
      case Abschalten =>
    }

    /** The replay loop: the state starts empty, every record is applied in turn, and a start without an end is kept. */
    method Restore(e: Env) returns (unfinished: Option<Record>)
      modifies this
      ensures Snapshot() == Machine(Tripping(Replay(old(records)), e.burst, e.now), None, None, old(records), false)
      ensures unfinished == Unfinished(records)
    {
      state, work, running, forgiven := FRESH, None, None, false;
      unfinished := None;
      for i := 0 to |records|
        invariant records == old(records) && state == Replay(records[..i]) && unfinished == Unfinished(records[..i])
        invariant work.None? && running.None? && !forgiven
      {
        assert records[..i + 1][..i] == records[..i];
        state := Apply(state, records[i]);
        if records[i].Started? {
          unfinished := Some(records[i]);
        } else if records[i].Ended? {
          unfinished := None;
        }
      }
      assert records[..|records|] == records;
      if state.brake >= e.burst && state.tripped.None? {
        state := state.(tripped := Some(e.now));
      }
    }

    /** Start-up: the replay, and a rebound session if the workspace has moved. */
    method Boot(e: Env) returns (unfinished: Option<Record>)
      modifies this
      ensures Snapshot() == Restart(old(Snapshot()), e)
      ensures unfinished == Unfinished(old(records))
    {
      unfinished := Restore(e);
      if state.sid.Some? && state.cwd != Some(e.cwd) {
        Journal(Other);
        BindSession(e.sid, e.cwd);
      }
    }

    /** A turn found unfinished whose process has gone is ended on record. */
    method EndOrphan(unfinished: Option<Record>)
      requires unfinished == Unfinished(records)
      modifies this`records
      ensures Snapshot() == OrphanGone(old(Snapshot()))
    {
      if unfinished.Some? && unfinished.value.Started? && running.None? {
        Journal(Ended(unfinished.value.msg, unfinished.value.sid, Gone, state.brake, None));
      }
    }

    /** Any handler, in place: the machine's step. */
    method Act(h: Handler, e: Env)
      modifies this
      ensures Snapshot() == Step(old(Snapshot()), h, e)
    {
      match h
      case Choose(id) =>
        if work.None? && running.None? && !state.offDuty && state.tripped.None? {
          work := Some(Message(id));
        }
      case Poll => LaunchWaiting(e);
      case Collect(r) => Collect(r, e);
      case Handle(req, verb, accepted, force, grace) => ProcessControl(req, verb, accepted, force, grace, e);
      case GiveUp(drop) =>
        running := None;
        if drop {
          work := None;
        }
      case Crash =>
        var _ := Boot(e);
      case Orphan => EndOrphan(Unfinished(records));
    }
  }

  // --- the journal agrees with the machine --------------------------------------------------------------

  /** Replayed and live state agree on the session, the duty, the persistence streak and the controls. */
  ghost predicate AgreesOnSession(c: Core, r: Core) {
    && r.sid == c.sid && r.cwd == c.cwd && r.isNew == c.isNew && r.turns == c.turns
    && r.offDuty == c.offDuty && r.consumed == c.consumed
    && r.streak == c.streak && r.episode == c.episode
  }

  ghost predicate Agrees(c: Core, r: Core) {
    AgreesOnSession(c, r) && r.brake == c.brake
  }

  /** Work that will end in a standup. */
  predicate WantsStandup(w: Work) {
    match w
    case Routine(_, Standup, _) => true
    case Resume(_, queued) => WantsStandup(queued)
    case Rotate(_, queued) => WantsStandup(queued)
    case _ => false
  }

  ghost predicate CoreIsSound(c: Core, burst: nat) {
    && (c.tripped.None? ==> c.brake < burst)
    && (c.episode.Some? <==> c.streak > 0)
    && (c.episode.Some? ==> c.episode.value != "")
  }

  /** What holds between handlers; after a restart the brake is tripped if it was, or was forgiven. */
  ghost predicate Valid(m: Machine, burst: nat) {
    && Agrees(m.core, Replay(m.records))
    && (Replay(m.records).tripped.Some? <==> m.core.tripped.Some? || m.forgiven)
    && CoreIsSound(m.core, burst)
    && (m.work.Some? && WantsStandup(m.work.value) ==> !m.core.offDuty)
    && (m.running.Some? && WantsStandup(m.running.value.work) ==> !m.core.offDuty)
  }

  lemma BindKeepsValid(m: Machine, sid: string, cwd: string, burst: nat)
    requires Valid(m, burst)
    ensures Valid(Bind(m, sid, cwd), burst)
  {
    ReplayOneMore(m.records, Bound(sid, cwd));
  }

  lemma LogOfNothing(m: Machine, r: Record, burst: nat)
    requires Valid(m, burst) && (r.Other? || r == Rotated(false))
    ensures Valid(Log(m, r), burst)
  {
    ReplayOneMore(m.records, r);
  }

  lemma StartKeepsValid(m: Machine, work: Work, e: Env)
    requires Valid(m, e.burst) && (WantsStandup(work) ==> !m.core.offDuty)
    ensures Valid(StartTurn(m, work, e), e.burst)
  {
    if m.core.sid.None? {
      BindKeepsValid(m, e.sid, e.cwd, e.burst);
    }
    var bound := if m.core.sid.None? then Bind(m, e.sid, e.cwd) else m;
    ReplayOneMore(bound.records, Started(work.id, bound.core.sid, e.attempt));
  }

  /** An end of turn that did not succeed records the brake as it now is. */
  lemma EndKeepsValid(m: Machine, msg: string, kind: TurnClass, burst: nat)
    requires kind != Succeeded && CoreIsSound(m.core, burst)
    requires AgreesOnSession(m.core, Replay(m.records))
    requires m.core.tripped.None? ==> (Replay(m.records).tripped.Some? <==> m.forgiven)
    requires m.work.Some? && WantsStandup(m.work.value) ==> !m.core.offDuty
    requires m.running.Some? && WantsStandup(m.running.value.work) ==> !m.core.offDuty
    ensures Valid(EndTurn(m, msg, kind), burst)
  {
    var end := Ended(msg, m.core.sid, kind, m.core.brake, m.core.tripped);
    ReplayOneMore(m.records, end);
    EndAgrees(m.core, Replay(m.records), msg, kind);
  }

  lemma EndAgrees(c: Core, r: Core, msg: string, kind: TurnClass)
    requires kind != Succeeded && AgreesOnSession(c, r)
    ensures
      var t := Apply(r, Ended(msg, c.sid, kind, c.brake, c.tripped));
      Agrees(c, t) && (t.tripped.Some? <==> c.tripped.Some? || r.tripped.Some?)
  {
  }

  lemma FailureKeepsValid(m: Machine, work: Work, e: Env)
    requires Valid(m, e.burst) && (WantsStandup(work) ==> !m.core.offDuty)
    ensures Valid(AfterFailure(m, work, e), e.burst)
  {
    var failures := Plus(m.core.counts.failures, work.id);
    EndKeepsValid(m.(core := Brake(m.core, e).(counts := m.core.counts.(failures := failures))), work.id,
                  ProviderFailure, e.burst);
  }

  lemma LossKeepsValid(m: Machine, work: Work, e: Env)
    requires Valid(m, e.burst) && (WantsStandup(work) ==> !m.core.offDuty) && e.attempt != ""
    ensures Valid(AfterLoss(m, work, e), e.burst)
  {
    var losses := Plus(m.core.counts.losses, work.id);
    var counted := m.(core := m.core.(counts := m.core.counts.(losses := losses)));
    if losses[work.id] >= 2 {
      LostForGoodKeepsValid(counted, work, e);
    } else {
      EndKeepsValid(counted, work.id, SessionLost, e.burst);
      var ended := EndTurn(counted, work.id, SessionLost);
      LogOfNothing(ended, Rotated(false), e.burst);
      BindKeepsValid(Log(ended, Rotated(false)), e.sid, e.cwd, e.burst);
    }
  }

  lemma LostForGoodKeepsValid(m: Machine, work: Work, e: Env)
    requires Valid(m, e.burst) && e.attempt != ""
    ensures Valid(LostForGood(m, work, e), e.burst)
  {
    var c := CountLoss(m.core, e);
    var end := Ended(work.id, c.sid, ProviderFailure, c.brake, c.tripped);
    var failed := PersistenceFailed(work.id, c.sid, c.streak, c.episode.value);
    ReplayOneMore(m.records, end);
    ReplayOneMore(m.records + [end], failed);
    assert m.records + [end] + [failed] == m.records + [end, failed];
  }

  lemma SuccessAgrees(c: Core, r: Core, d: Core, msg: string)
    requires AgreesOnSession(c, r)
    requires d == c.(brake := d.brake, tripped := d.tripped, streak := d.streak, episode := d.episode, turns := c.turns + 1)
    ensures
      var t := Apply(r, Ended(msg, d.sid, Succeeded, d.brake, d.tripped));
      && Agrees(d.(streak := c.streak, episode := c.episode), t)
      && (t.tripped.Some? <==> d.tripped.Some? || r.tripped.Some?)
  {
  }

  lemma RestoredAgrees(d: Core, t: Core, streak: nat, episode: Option<string>)
    requires Agrees(d.(streak := streak, episode := episode), t) && d.streak == 0 && d.episode.None?
    ensures Agrees(d, Apply(t, PersistenceRestored)) && Apply(t, PersistenceRestored).tripped == t.tripped
  {
  }

  lemma RecoveredCoreIsSound(c: Core, resumed: bool, burst: nat)
    requires CoreIsSound(c, burst) && burst > 0
    ensures CoreIsSound(RecoveredCore(c, resumed), burst)
  {
  }

  lemma RecoveryKeepsValid(m: Machine, work: Work, resumed: bool, burst: nat)
    requires Valid(m, burst) && burst > 0
    ensures Valid(Recovered(m, work, resumed), burst)
    ensures Recovered(m, work, resumed).core.offDuty == m.core.offDuty
    ensures Recovered(m, work, resumed).running == m.running && Recovered(m, work, resumed).work == m.work
  {
    var d := RecoveredCore(m.core, resumed);
    var end := Ended(work.id, d.sid, Succeeded, d.brake, d.tripped);
    ReplayOneMore(m.records, end);
    RecoveredCoreIsSound(m.core, resumed, burst);
    SuccessAgrees(m.core, Replay(m.records), d, work.id);
    if m.core.streak > 0 && resumed {
      ReplayOneMore(m.records + [end], PersistenceRestored);
      RestoredAgrees(d, Replay(m.records + [end]), m.core.streak, m.core.episode);
    }
  }

  lemma SettleKeepsValid(m: Machine, work: Work, e: Env)
    requires Valid(m, e.burst) && m.running.None? && (WantsStandup(work) ==> !m.core.offDuty)
    ensures Valid(Settle(m, work, e), e.burst)
  {
    match work
    case Routine(_, Feierabend, _) => ReplayOneMore(m.records, DutyOff);
    case Rotate(_, queued) =>
      LogOfNothing(m, Rotated(false), e.burst);
      BindKeepsValid(Log(m, Rotated(false)), e.sid, e.cwd, e.burst);
    case _ =>
  }

  lemma SuccessKeepsValid(m: Machine, work: Work, resumed: bool, e: Env)
    requires Valid(m, e.burst) && e.burst > 0 && m.running.None? && (WantsStandup(work) ==> !m.core.offDuty)
    ensures Valid(AfterSuccess(m, work, resumed, e), e.burst)
  {
    RecoveryKeepsValid(m, work, resumed, e.burst);
    SettleKeepsValid(Recovered(m, work, resumed), work, e);
  }

  lemma FinishKeepsValid(m: Machine, turn: Turn, r: Outcome, e: Env)
    requires Valid(m, e.burst) && e.burst > 0 && e.attempt != "" && m.running.None?
    requires WantsStandup(turn.work) ==> !m.core.offDuty
    ensures Valid(FinishResult(m, turn, r, e), e.burst)
  {
    if !r.refused && r.rc != 0 && !turn.resumed && r.inUse {
      EndKeepsValid(m, turn.work.id, SessionInUse, e.burst);
    } else if !r.refused && r.rc != 0 && turn.resumed && r.notFound {
      LossKeepsValid(m, turn.work, e);
    } else if !r.refused && r.rc == 0 && r.hasOutput {
      SuccessKeepsValid(m, turn.work, turn.resumed, e);
    } else if !r.refused && (r.rc in {75, 78, 69} || r.rc == 0 || (r.rc == 78 && r.loginHint)) {
      EndKeepsValid(m, turn.work.id, Infra, e.burst);
    } else {
      FailureKeepsValid(m, turn.work, e);
    }
  }

  lemma NothingRuns(m: Machine, turn: Turn, r: Outcome, e: Env)
    requires m.running.None?
    ensures FinishResult(m, turn, r, e).running.None?
  {
  }

  lemma CollectKeepsValid(m: Machine, r: Outcome, e: Env)
    requires Valid(m, e.burst) && e.burst > 0 && e.attempt != ""
    ensures Valid(CollectTurn(m, r, e), e.burst) && CollectTurn(m, r, e).running.None?
  {
    if m.running.Some? {
      FinishKeepsValid(m.(running := None), m.running.value, r, e);
      NothingRuns(m.(running := None), m.running.value, r, e);
    }
  }

  lemma CancelKeepsValid(m: Machine, refused: bool, burst: nat)
    requires Valid(m, burst)
    ensures Valid(CancelTurn(m, refused), burst) && CancelTurn(m, refused).running.None?
  {
    if m.running.Some? {
      EndKeepsValid(m, m.running.value.work.id, if refused then ProviderFailure else Cancelled, burst);
    }
  }

  lemma ResetAgrees(c: Core, r: Core, previous: nat)
    requires Agrees(c, r)
    ensures
      var t := Apply(r, BrakeReset(previous));
      && Agrees(c.(brake := 0, tripped := None, counts := NO_COUNTS, streak := 0, episode := None), t)
      && t.tripped.None?
  {
  }

  lemma ClearKeepsValid(m: Machine, burst: nat)
    requires Valid(m, burst) && burst > 0
    ensures Valid(ClearBrake(m), burst)
  {
    ReplayOneMore(m.records, BrakeReset(m.core.brake));
    ResetAgrees(m.core, Replay(m.records), m.core.brake);
  }

  lemma ConsumeKeepsValid(m: Machine, req: nat, burst: nat)
    requires Valid(m, burst)
    ensures Valid(Consume(m, req), burst)
  {
    ReplayOneMore(m.records, Consumed(req));
  }

  lemma ControlKeepsValid(m: Machine, req: nat, verb: Verb, accepted: bool, force: bool, grace: Option<Outcome>, e: Env)
    requires Valid(m, e.burst) && e.burst > 0 && e.attempt != ""
    ensures Valid(Control(m, req, verb, accepted, force, grace, e), e.burst)
  {
    var consumed := Consume(m, req);
    ConsumeKeepsValid(m, req, e.burst);
    if !force {
      if consumed.running.None? || !verb.Standup? {
        CarryOutKeepsValid(consumed, req, verb, e);
      }
    } else if grace.Some? {
      CollectKeepsValid(consumed, grace.value, e);
      CarryOutKeepsValid(CollectTurn(consumed, grace.value, e), req, verb, e);
    } else {
      CancelKeepsValid(consumed, e.unsafeOutput, e.burst);
      CarryOutKeepsValid(CancelTurn(consumed, e.unsafeOutput), req, verb, e);
    }
  }

  lemma CarryOutKeepsValid(m: Machine, req: nat, verb: Verb, e: Env)
    requires Valid(m, e.burst) && e.burst > 0 && (verb.Standup? ==> m.running.None?)
    ensures Valid(CarryOut(m, req, verb, e), e.burst)
  {
    match verb
    case ResetBrake => ClearKeepsValid(m, e.burst);
    case Neustart(_) =>
      ClearKeepsValid(m, e.burst);
      ReplayOneMore(ClearBrake(m).records, Rotated(true));
    case Feierabend => StartKeepsValid(m, Routine(RoutineId("feierabend", req), Feierabend, req), e);
    case Standup =>
      ReplayOneMore(m.records, DutyOn);
      StartKeepsValid(Log(m.(core := m.core.(offDuty := false)), DutyOn), Routine(RoutineId("standup", req), Standup, req), e);
    case Abschalten =>
  }

  /** An episode is named exactly while a persistence streak is owed. */
  predicate OwesWithName(c: Core) {
    (c.episode.Some? <==> c.streak > 0) && (c.episode.Some? ==> c.episode.value != "")
  }

  lemma ApplyOwesWithName(c: Core, r: Record)
    requires OwesWithName(c)
    ensures OwesWithName(Apply(c, r))
  {
  }

  lemma TrippingIsSound(c: Core, burst: nat, now: string)
    requires OwesWithName(c)
    ensures CoreIsSound(Tripping(c, burst, now), burst)
  {
  }

  /** Any journal at all, however it came about or was cut off, is replayed to a sound state. */
  lemma {:induction false} ReplayIsSound(records: seq<Record>, burst: nat, now: string)
    ensures OwesWithName(Replay(records)) && CoreIsSound(Tripping(Replay(records), burst, now), burst)
  {
    if records != [] {
      ReplayIsSound(records[..|records| - 1], burst, now);
      ApplyOwesWithName(Replay(records[..|records| - 1]), records[|records| - 1]);
    }
    TrippingIsSound(Replay(records), burst, now);
  }

  /** So wherever a crash cut the journal off, inside a handler too, a restart is sound and agrees with its journal. */
  lemma AnyJournalRestarts(m: Machine, e: Env)
    ensures
      var n := Restart(m, e);
      Agrees(n.core, Replay(n.records)) && CoreIsSound(n.core, e.burst) && n.work.None? && n.running.None?
  {
    ReplayIsSound(m.records, e.burst, e.now);
    ReplayOneMore(m.records, Other);
    ReplayOneMore(m.records + [Other], Bound(e.sid, e.cwd));
  }

  /**
   * A crash between the two records of a session lost for good: the failure counts, but the session
   * is still bound and the loss is not counted, so the next turn tries to resume it again.
   */
  lemma LossCutInTwo(m: Machine, work: Work, e: Env, burst: nat)
    requires Valid(m, burst) && m.core.sid.Some? && m.core.cwd == Some(e.cwd) && burst == e.burst
    ensures
      var n := LostForGood(m, work, e);
      var c := Restart(n.(records := n.records[..|m.records| + 1]), e).core;
      && |n.records| == |m.records| + 2
      && c.brake == n.core.brake == m.core.brake + 1 && (c.tripped.Some? <==> n.core.tripped.Some? || m.forgiven)
      && c.sid == m.core.sid && c.streak == m.core.streak && n.core.sid.None? && n.core.streak == m.core.streak + 1
  {
    var n := LostForGood(m, work, e);
    var d := CountLoss(m.core, e);
    var r := Ended(work.id, m.core.sid, ProviderFailure, d.brake, d.tripped);
    assert n.records[..|m.records| + 1] == m.records + [r];
    ReplayOneMore(m.records, r);
  }

  /** A crash before the record that a lost session is back: the brake is clear and the streak still owed. */
  lemma RecoveryCutShort(m: Machine, work: Work, e: Env, burst: nat)
    requires Valid(m, burst) && m.core.streak > 0 && m.core.cwd == Some(e.cwd) && 0 < burst == e.burst
    requires m.core.tripped.None? && !m.forgiven
    ensures
      var n := Recovered(m, work, true);
      var c := Restart(n.(records := n.records[..|m.records| + 1]), e).core;
      && |n.records| == |m.records| + 2
      && c.brake == n.core.brake == 0 && c.tripped.None? && c.sid == m.core.sid && c.turns == m.core.turns + 1
      && c.streak == m.core.streak && n.core.streak == 0
  {
    var n := Recovered(m, work, true);
    var r := Ended(work.id, m.core.sid, Succeeded, 0, None);
    assert n.records[..|m.records| + 1] == m.records + [r];
    ReplayOneMore(m.records, r);
  }

  lemma RestartKeepsValid(m: Machine, e: Env)
    requires Valid(m, e.burst)
    ensures Valid(Restart(m, e), e.burst)
  {
    var core := Tripping(Replay(m.records), e.burst, e.now);
    var restored := Machine(core, None, None, m.records, false);
    LogOfNothing(restored, Other, e.burst);
    BindKeepsValid(Log(restored, Other), e.sid, e.cwd, e.burst);
  }

  lemma OrphanKeepsValid(m: Machine, burst: nat)
    requires Valid(m, burst)
    ensures Valid(OrphanGone(m), burst)
  {
    if Unfinished(m.records).Some? && Unfinished(m.records).value.Started? {
      var start := Unfinished(m.records).value;
      ReplayOneMore(m.records, Ended(start.msg, start.sid, Gone, m.core.brake, None));
    }
  }

  lemma StepKeepsValid(m: Machine, h: Handler, e: Env)
    requires Valid(m, e.burst) && e.burst > 0 && e.attempt != ""
    ensures Valid(Step(m, h, e), e.burst)
  {
    match h
    case Choose(id) =>
    case Poll =>
      if m.work.Some? {
        StartKeepsValid(m, m.work.value, e);
        StartKeepsValid(m, Rotate("handover-max-turns-" + e.attempt, m.work.value), e);
      }
    case Collect(r) => CollectKeepsValid(m, r, e);
    case Handle(req, verb, accepted, force, grace) => ControlKeepsValid(m, req, verb, accepted, force, grace, e);
    case GiveUp(drop) =>
    case Crash => RestartKeepsValid(m, e);
    case Orphan => OrphanKeepsValid(m, e.burst);
  }

  // --- whole runs -------------------------------------------------------------------------------------

  function Run(steps: seq<(Handler, Env)>): Machine {
    if steps == [] then INITIAL
    else Step(Run(steps[..|steps| - 1]), steps[|steps| - 1].0, steps[|steps| - 1].1)
  }

  ghost predicate AreSteps(steps: seq<(Handler, Env)>, burst: nat) {
    burst > 0 && forall k | 0 <= k < |steps| :: steps[k].1.burst == burst && steps[k].1.attempt != ""
  }

  lemma {:induction false} EveryRunIsValid(steps: seq<(Handler, Env)>, burst: nat)
    requires AreSteps(steps, burst)
    ensures Valid(Run(steps), burst)
  {
    if steps != [] {
      EveryRunIsValid(steps[..|steps| - 1], burst);
      StepKeepsValid(Run(steps[..|steps| - 1]), steps[|steps| - 1].0, steps[|steps| - 1].1);
    }
  }

  /**
   * Between any two handlers of any run, with crashes and restarts anywhere: what a restart would
   * rebuild is the live state, up to the trip, and the trip comes back exactly when the brake is
   * tripped or a successful turn has forgiven it. An untripped brake is below its burst.
   */
  lemma ReplayIsTheLiveState(steps: seq<(Handler, Env)>, burst: nat, now: string)
    requires AreSteps(steps, burst)
    ensures
      var m := Run(steps);
      var restored := Tripping(Replay(m.records), burst, now);
      && Agrees(m.core, restored)
      && (m.core.tripped.Some? ==> restored.tripped.Some?)
      && (restored.tripped.Some? <==> m.core.tripped.Some? || m.forgiven)
      && (m.core.tripped.None? ==> m.core.brake < burst)
  {
    EveryRunIsValid(steps, burst);
  }

  /** A standup is never left waiting or running while the agent is off duty. */
  lemma StandupMeansOnDuty(steps: seq<(Handler, Env)>, burst: nat)
    requires AreSteps(steps, burst)
    ensures
      var m := Run(steps);
      m.running.Some? && WantsStandup(m.running.value.work) ==> !m.core.offDuty && !Replay(m.records).offDuty
  {
    EveryRunIsValid(steps, burst);
  }

  /** An evening routine that fails trips a brake of burst one. */
  lemma FailedRoutineTrips(e: Env) returns (m: Machine)
    requires e.burst == 1
    ensures m == Step(Step(INITIAL, Handle(1, Feierabend, true, false, None), e),
                      Collect(Outcome(1, false, false, false, false, false)), e)
    ensures m.core.tripped.Some? && m.core.streak == 0 && m.running.None? && m.core.sid.Some?
  {
    m := Step(Step(INITIAL, Handle(1, Feierabend, true, false, None), e),
              Collect(Outcome(1, false, false, false, false, false)), e);
  }

  /** A standup that then succeeds clears the brake in memory. */
  lemma SuccessForgives(m: Machine, e: Env)
    requires m.core.tripped.Some? && m.core.streak == 0 && m.running.None?
    ensures
      var n := Step(Step(m, Handle(2, Standup, true, false, None), e),
                    Collect(Outcome(0, true, false, false, false, false)), e);
      n.core.tripped.None? && n.forgiven
  {
  }

  /** The other half fails for the trip: a tripped brake that a successful routine cleared comes back. */
  lemma ForgivenBrakeTripsAgain(e: Env)
    requires e.burst == 1 && e.attempt != ""
    ensures
      var steps := [(Handle(1, Feierabend, true, false, None), e), (Collect(Outcome(1, false, false, false, false, false)), e),
                    (Handle(2, Standup, true, false, None), e), (Collect(Outcome(0, true, false, false, false, false)), e)];
      && Run(steps).core.tripped.None? && Run(steps).forgiven
      && Tripping(Replay(Run(steps).records), e.burst, e.now).tripped.Some?
  {
    var steps := [(Handle(1, Feierabend, true, false, None), e), (Collect(Outcome(1, false, false, false, false, false)), e),
                  (Handle(2, Standup, true, false, None), e), (Collect(Outcome(0, true, false, false, false, false)), e)];
    var m := FailedRoutineTrips(e);
    RunOneMore([], steps[0].0, e);
    RunOneMore(steps[..1], steps[1].0, e);
    RunOneMore(steps[..2], steps[2].0, e);
    RunOneMore(steps[..3], steps[3].0, e);
    assert [] + [steps[0]] == steps[..1] && steps[..1] + [steps[1]] == steps[..2];
    assert steps[..2] + [steps[2]] == steps[..3] && steps[..3] + [steps[3]] == steps;
    SuccessForgives(m, e);
    ReplayIsTheLiveState(steps, 1, e.now);
  }

  lemma RunOneMore(steps: seq<(Handler, Env)>, h: Handler, e: Env)
    ensures Run(steps + [(h, e)]) == Step(Run(steps), h, e)
  {
    assert (steps + [(h, e)])[..|steps|] == steps;
  }

  // --- the turn in progress -------------------------------------------------------------------------------

  lemma UnfinishedOneMore(records: seq<Record>, r: Record)
    ensures Unfinished(records + [r]) == if r.Started? then Some(r) else if r.Ended? then None else Unfinished(records)
  {
    assert (records + [r])[..|records|] == records;
  }

  /** A running turn is the one start the journal has no end for. */
  ghost predicate Tracks(m: Machine) {
    m.running.Some? ==>
      && Unfinished(m.records).Some? && Unfinished(m.records).value.Started?
      && Unfinished(m.records).value.attempt == m.running.value.attempt
      && Unfinished(m.records).value.msg == m.running.value.work.id
  }

  lemma StartIsTracked(m: Machine, work: Work, e: Env)
    ensures Tracks(StartTurn(m, work, e))
  {
    var bound := if m.core.sid.None? then Bind(m, e.sid, e.cwd) else m;
    UnfinishedOneMore(bound.records, Started(work.id, bound.core.sid, e.attempt));
  }

  lemma CarryOutIsTracked(m: Machine, req: nat, verb: Verb, e: Env)
    requires Tracks(m) && (verb.Neustart? ==> m.running.None?)
    ensures Tracks(CarryOut(m, req, verb, e))
  {
    match verb
    case ResetBrake => UnfinishedOneMore(m.records, BrakeReset(m.core.brake));
    case Feierabend => StartIsTracked(m, Routine(RoutineId("feierabend", req), Feierabend, req), e);
    case Standup =>
      StartIsTracked(Log(m.(core := m.core.(offDuty := false)), DutyOn), Routine(RoutineId("standup", req), Standup, req), e);
    case _ =>
  }

  lemma ControlIsTracked(m: Machine, req: nat, verb: Verb, accepted: bool, force: bool, grace: Option<Outcome>, e: Env)
    requires Tracks(m)
    ensures Tracks(Control(m, req, verb, accepted, force, grace, e))
  {
    var consumed := Consume(m, req);
    UnfinishedOneMore(m.records, Consumed(req));
    if !force {
      if consumed.running.None? || !verb.Neustart? {
        CarryOutIsTracked(consumed, req, verb, e);
      }
    } else if grace.Some? {
      CollectIsIdle(consumed, grace.value, e);
      CarryOutIsTracked(CollectTurn(consumed, grace.value, e), req, verb, e);
    } else {
      CarryOutIsTracked(CancelTurn(consumed, e.unsafeOutput), req, verb, e);
    }
  }

  lemma CollectIsIdle(m: Machine, r: Outcome, e: Env)
    ensures CollectTurn(m, r, e).running.None?
  {
    if m.running.Some? {
      NothingRuns(m.(running := None), m.running.value, r, e);
    }
  }

  lemma StepTracks(m: Machine, h: Handler, e: Env)
    requires Tracks(m)
    ensures Tracks(Step(m, h, e))
  {
    match h
    case Poll =>
      if m.work.Some? {
        StartIsTracked(m, m.work.value, e);
        StartIsTracked(m, Rotate("handover-max-turns-" + e.attempt, m.work.value), e);
      }
    case Collect(r) => CollectIsIdle(m, r, e);
    case Handle(req, verb, accepted, force, grace) => ControlIsTracked(m, req, verb, accepted, force, grace, e);
    case _ =>
  }

  /** After a crash at any handler boundary, the restart finds exactly the turn that was running. */
  lemma {:induction false} RunningTurnIsFound(steps: seq<(Handler, Env)>)
    ensures Tracks(Run(steps))
  {
    if steps != [] {
      RunningTurnIsFound(steps[..|steps| - 1]);
      StepTracks(Run(steps[..|steps| - 1]), steps[|steps| - 1].0, steps[|steps| - 1].1);
    }
  }
}
