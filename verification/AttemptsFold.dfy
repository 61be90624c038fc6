/**
 * The fold of launch attempts, in its two views: the legacy view reads undecodable records
 * through byte accessors, the strict view leaves them out.
 */
module AttemptsFold {
  import opened Results
  import opened Text
  import opened TaskLedger

  datatype EventKind = Decided | Ended | OtherKind

  /** The exit object of an ended record; the keys it lacks are null. */
  datatype Exit = Exit(name: Json, code: Json, stage: Json)

  /** exit is None when its value is not an object. */
  datatype AttemptPayload =
    | Object(decision: Json, pid: Json, exit: Option<Exit>)
    | NotObject

  datatype AttemptRecord = AttemptRecord(
    kind: EventKind, ident: Json, agent: Json, session: Json, occurredAt: Json, payload: AttemptPayload)

  /** One intact frame: its number, its record, and whether its bytes were not UTF-8. */
  datatype Line = Line(number: nat, record: AttemptRecord, undecodable: bool)

  datatype Last = Last(name: string, stage: Json, endedAt: Json)

  datatype Attempt = Attempt(
    id: string, agent: Json, session: Json, decidedAt: Json, decision: string, pid: string,
    state: string, exitCode: string, open: bool, last: Option<Last>)

  /** The attempts in the order they were decided, and the identities the strict view leaves out. */
  datatype Attempts = Attempts(order: seq<string>, byId: map<string, Attempt>, excluded: set<Json>)

  const NO_ATTEMPTS := Attempts([], map[], {})

  const EXIT_CLASSES: set<string> := {"ok", "provider-failure", "timeout", "io-refused", "aborted"}
  const CODED_CLASSES: set<string> := {"provider-failure", "timeout", "io-refused"}

  /** A null is empty text, an integer its digits; anything but text and integers raises. */
  function Scalar(value: Json): Result<string> {
    match value
    case Null => Ok("")
    case Text(s) => Ok(s)
    case Number(n) => Ok(if n >= 0 then Decimal(n) else "-" + Decimal(-n))
    case Boolean(_) => Err("invalid scalar in attempt payload")
    case Other => Err("invalid scalar in attempt payload")
  }

  predicate IsMissing(ident: Json) {
    ident.Null? || ident == Text("") || ident == Number(0) || ident == Boolean(false)
  }

  predicate IsIdent(s: string) {
    |s| > 0 && forall c | c in s :: c != '\n' && c != '\r' && c != '\t' && c != '\0'
  }

  /** The checks both kinds of attempt record share; the identity they are about. */
  function IdentOf(r: AttemptRecord): (id: Result<string>)
    ensures id.Ok? ==> r.ident == Text(id.value) && r.payload.Object?
  {
    if IsMissing(r.ident) then Err("attempt record has no attempt_id")
    else if !r.ident.Text? || !IsIdent(r.ident.s) || r.payload.NotObject? then Err("incomplete attempt record")
    else Ok(r.ident.s)
  }

  function DecidedAttempt(r: AttemptRecord, id: string): Result<Attempt>
    requires r.payload.Object?
  {
    var pid :- Scalar(r.payload.pid);
    if r.payload.decision != Text("allow") && r.payload.decision != Text("deny") then Err("invalid decision")
    else if !IsDecimal(pid) then Err("invalid pid")
    else if ParseDecimal(pid) == 0 then Err("non-positive pid")
    else
      var allowed := r.payload.decision == Text("allow");
      Ok(Attempt(id, r.agent, r.session, r.occurredAt, r.payload.decision.s, pid,
                 if allowed then "open" else "deny", "null", allowed, None))
  }

  /** An attempt after its ended record. */
  function EndedAttempt(a: Attempt, r: AttemptRecord): Result<Attempt>
    requires r.payload.Object?
  {
    if a.decision != "allow" then Err("denied attempt carries an impossible ended record")
    else if !a.open then Err("duplicate attempt.ended")
    else if r.payload.exit.None? then Err("invalid exit object")
    else
      var exit := r.payload.exit.value;
      var code :- Scalar(exit.code);
      if !exit.name.Text? || exit.name.s !in EXIT_CLASSES then Err("invalid exit class")
      else if code != "" && !IsDecimal(code) then Err("invalid exit code")
      else if exit.name.s in CODED_CLASSES && code == "" then Err("exit requires a numeric code")
      else Ok(a.(state := exit.name.s, exitCode := if code == "" then "null" else code, open := false,
                 last := Some(Last(exit.name.s, exit.stage, r.occurredAt))))
  }

  /** One record in either view. */
  function StepAttempt(v: Attempts, line: Line, legacy: bool): Result<Attempts> {
    var r := line.record;
    if line.undecodable && !legacy then
      Ok(if r.kind.Decided? then v.(excluded := v.excluded + {r.ident}) else v)
    else if r.kind.OtherKind? then Ok(v)
    else
      var id :- IdentOf(r);
      if r.kind.Decided? then
        if id in v.byId then Err("duplicate attempt.decided")
        else
          var a :- DecidedAttempt(r, id);
          Ok(v.(order := v.order + [id], byId := v.byId[id := a]))
      else if !legacy && r.ident in v.excluded then Ok(v)
      else if id !in v.byId then Err("attempt.ended references unknown attempt")
      else
        var a :- EndedAttempt(v.byId[id], r);
        Ok(v.(byId := v.byId[id := a]))
  }

  function FoldAttempts(lines: seq<Line>, legacy: bool): Result<Attempts> {
    if lines == [] then Ok(NO_ATTEMPTS)
    else
      var v :- FoldAttempts(lines[..|lines| - 1], legacy);
      StepAttempt(v, lines[|lines| - 1], legacy)
  }

  // --- the fold as its loop over a dictionary ------------------------------------------------

  /** The dictionary the fold fills, and the set beside it. */
  class AttemptTable {
    var order: seq<string>
    var byId: map<string, Attempt>
    var excluded: set<Json>

    constructor ()
      ensures Contents() == NO_ATTEMPTS
    {
      order, byId, excluded := [], map[], {};
    }

    ghost function Contents(): Attempts
      reads this
    {
      Attempts(order, byId, excluded)
    }

    /** One record; a record that raises leaves the table as it was. */
    method Take(line: Line, legacy: bool) returns (fault: Option<string>)
      modifies this
      ensures match StepAttempt(old(Contents()), line, legacy)
              case Ok(v) => fault.None? && Contents() == v
              case Err(why) => fault == Some(why) && Contents() == old(Contents())
    {
      var r := line.record;
      if line.undecodable && !legacy {
        if r.kind.Decided? {
          excluded := excluded + {r.ident};
        }
        return None;
      }
      if r.kind.OtherKind? {
        return None;
      }
      var ident := IdentOf(r);
      if ident.Err? {
        return Some(ident.reason);
      }
      var id := ident.value;
      if r.kind.Decided? {
        if id in byId {
          return Some("duplicate attempt.decided");
        }
        var decided := DecidedAttempt(r, id);
        if decided.Err? {
          return Some(decided.reason);
        }
        order, byId := order + [id], byId[id := decided.value];
      } else {
        if !legacy && r.ident in excluded {
          return None;
        }
        if id !in byId {
          return Some("attempt.ended references unknown attempt");
        }
        var ended := EndedAttempt(byId[id], r);
        if ended.Err? {
          return Some(ended.reason);
        }
        byId := byId[id := ended.value];
      }
      return None;
    }
  }

  lemma FaultStays(lines: seq<Line>, k: nat, legacy: bool)
    requires k <= |lines| && FoldAttempts(lines[..k], legacy).Err?
    ensures FoldAttempts(lines, legacy) == FoldAttempts(lines[..k], legacy)
    decreases |lines|
  {
    if k < |lines| {
      assert lines[..|lines| - 1][..k] == lines[..k];
      FaultStays(lines[..|lines| - 1], k, legacy);
    } else {
      assert lines[..k] == lines;
    }
  }

  method FoldRecords(lines: seq<Line>, legacy: bool) returns (result: Result<Attempts>)
    ensures result == FoldAttempts(lines, legacy)
  {
    var table := new AttemptTable();
    for i := 0 to |lines|
      invariant FoldAttempts(lines[..i], legacy) == Ok(table.Contents())
    {
      assert lines[..i + 1][..i] == lines[..i];
      var fault := table.Take(lines[i], legacy);
      if fault.Some? {
        FaultStays(lines, i + 1, legacy);
        return Err(fault.value);
      }
    }
    assert lines[..|lines|] == lines;
    return Ok(Attempts(table.order, table.byId, table.excluded));
  }

  // --- the two views ----------------------------------------------------------------------------

  /** The identities of the undecodable records of a kind. */
  function Unreadable(lines: seq<Line>, kind: EventKind): set<Json> {
    set line | line in lines && line.undecodable && line.record.kind == kind :: line.record.ident
  }

  /** The attempt as it stood before its ended record. */
  function StillOpen(a: Attempt): Attempt {
    a.(state := "open", exitCode := "null", open := true, last := None)
  }

  function Without(order: seq<string>, excluded: set<Json>): seq<string> {
    if order == [] then []
    else
      var last := order[|order| - 1];
      Without(order[..|order| - 1], excluded) + if Text(last) in excluded then [] else [last]
  }

  /**
   * The legacy view with the undecodable records taken back: no attempt whose decided record was
   * undecodable, and every attempt whose ended record was undecodable still open.
   */
  function Erased(legacy: Attempts, decided: set<Json>, ended: set<Json>): Attempts {
    Attempts(
      Without(legacy.order, decided),
      map id | id in legacy.byId && Text(id) !in decided
        :: if Text(id) in ended then StillOpen(legacy.byId[id]) else legacy.byId[id],
      decided)
  }

  /** What holds of the legacy view after some records, seen with their undecodable identities. */
  ghost predicate Tracks(v: Attempts, decided: set<Json>, ended: set<Json>) {
    && v.excluded == {}
    && (forall id | id in v.order :: id in v.byId)
    && (forall id | id in v.byId :: v.byId[id].open ==> v.byId[id] == StillOpen(v.byId[id]))
    && (forall ident | ident in decided :: ident.Text? && ident.s in v.byId)
    && (forall ident | ident in ended :: ident.Text? && ident.s in v.byId && !v.byId[ident.s].open)
  }

  lemma {:induction false} NewlyExcluded(order: seq<string>, excluded: set<Json>, id: string)
    requires id !in order
    ensures Without(order, excluded + {Text(id)}) == Without(order, excluded)
  {
    if order != [] {
      NewlyExcluded(order[..|order| - 1], excluded, id);
      assert order[|order| - 1] in order;
    }
  }

  lemma OneMore(order: seq<string>, excluded: set<Json>, id: string)
    ensures Without(order + [id], excluded)
         == Without(order, excluded) + if Text(id) in excluded then [] else [id]
  {
    assert (order + [id])[..|order|] == order;
  }

  /** What a decided record the legacy view takes does to it. */
  lemma TakenDecision(l: Attempts, line: Line) returns (id: string, a: Attempt)
    requires line.record.kind.Decided? && StepAttempt(l, line, true).Ok?
    ensures line.record.ident == Text(id) && id !in l.byId && (a.open ==> a == StillOpen(a))
    ensures StepAttempt(l, line, true) == Ok(Attempts(l.order + [id], l.byId[id := a], l.excluded))
    ensures !line.undecodable ==> forall v: Attempts | id !in v.byId ::
              StepAttempt(v, line, false) == Ok(Attempts(v.order + [id], v.byId[id := a], v.excluded))
  {
    id := IdentOf(line.record).value;
    a := DecidedAttempt(line.record, id).value;
  }

  lemma ErasedWithDecision(l: Attempts, id: string, a: Attempt, decided: set<Json>, ended: set<Json>)
    requires id !in l.order && Text(id) !in decided && Text(id) !in ended
    ensures
      var s := Erased(l, decided, ended);
      Erased(Attempts(l.order + [id], l.byId[id := a], l.excluded), decided, ended)
      == Attempts(s.order + [id], s.byId[id := a], s.excluded)
  {
    OneMore(l.order, decided, id);
    assert Erased(Attempts(l.order + [id], l.byId[id := a], l.excluded), decided, ended).byId
        == Erased(l, decided, ended).byId[id := a];
  }

  lemma ErasedWithHidden(l: Attempts, id: string, a: Attempt, decided: set<Json>, ended: set<Json>)
    requires id !in l.order && id !in l.byId && Text(id) !in decided
    ensures
      Erased(Attempts(l.order + [id], l.byId[id := a], l.excluded), decided + {Text(id)}, ended)
      == Erased(l, decided, ended).(excluded := decided + {Text(id)})
  {
    var decided' := decided + {Text(id)};
    OneMore(l.order, decided', id);
    NewlyExcluded(l.order, decided, id);
    assert Erased(Attempts(l.order + [id], l.byId[id := a], l.excluded), decided', ended).byId
        == Erased(l, decided, ended).byId;
  }

  /** A decided record in both views, decodable or not. */
  lemma DecidedInBoth(l: Attempts, line: Line, decided: set<Json>, ended: set<Json>)
    requires Tracks(l, decided, ended) && line.record.kind.Decided? && StepAttempt(l, line, true).Ok?
    ensures
      var l' := StepAttempt(l, line, true).value;
      var decided' := if line.undecodable then decided + {line.record.ident} else decided;
      && Tracks(l', decided', ended)
      && StepAttempt(Erased(l, decided, ended), line, false) == Ok(Erased(l', decided', ended))
  {
    var id, a := TakenDecision(l, line);
    if line.undecodable {
      ErasedWithHidden(l, id, a, decided, ended);
    } else {
      ErasedWithDecision(l, id, a, decided, ended);
    }
  }

  /** What an ended record the legacy view takes does to it. */
  lemma TakenEnd(l: Attempts, line: Line) returns (id: string, a: Attempt)
    requires line.record.kind.Ended? && StepAttempt(l, line, true).Ok?
    ensures line.record.ident == Text(id) && id in l.byId && l.byId[id].open
    ensures !a.open && StillOpen(a) == StillOpen(l.byId[id])
    ensures StepAttempt(l, line, true) == Ok(l.(byId := l.byId[id := a]))
    ensures !line.undecodable ==> forall v: Attempts | Text(id) in v.excluded :: StepAttempt(v, line, false) == Ok(v)
    ensures !line.undecodable ==> forall v: Attempts | Text(id) !in v.excluded && id in v.byId && v.byId[id] == l.byId[id] ::
              StepAttempt(v, line, false) == Ok(v.(byId := v.byId[id := a]))
  {
    id := IdentOf(line.record).value;
    a := EndedAttempt(l.byId[id], line.record).value;
  }

  lemma ErasedWithEnd(l: Attempts, id: string, a: Attempt, decided: set<Json>, ended: set<Json>)
    requires id in l.byId && Text(id) !in ended
    ensures
      var s := Erased(l, decided, ended);
      Erased(l.(byId := l.byId[id := a]), decided, ended)
      == if Text(id) in decided then s else s.(byId := s.byId[id := a])
  {
    var s := Erased(l, decided, ended);
    assert Erased(l.(byId := l.byId[id := a]), decided, ended).byId
        == if Text(id) in decided then s.byId else s.byId[id := a];
  }

  lemma ErasedWithHiddenEnd(l: Attempts, id: string, a: Attempt, decided: set<Json>, ended: set<Json>)
    requires id in l.byId && StillOpen(a) == l.byId[id]
    ensures Erased(l.(byId := l.byId[id := a]), decided, ended + {Text(id)}) == Erased(l, decided, ended)
  {
    assert Erased(l.(byId := l.byId[id := a]), decided, ended + {Text(id)}).byId == Erased(l, decided, ended).byId;
  }

  /** An ended record in both views, decodable or not. */
  lemma EndedInBoth(l: Attempts, line: Line, decided: set<Json>, ended: set<Json>)
    requires Tracks(l, decided, ended) && line.record.kind.Ended? && StepAttempt(l, line, true).Ok?
    ensures
      var l' := StepAttempt(l, line, true).value;
      var ended' := if line.undecodable then ended + {line.record.ident} else ended;
      && Tracks(l', decided, ended')
      && StepAttempt(Erased(l, decided, ended), line, false) == Ok(Erased(l', decided, ended'))
  {
    var id, a := TakenEnd(l, line);
    assert Text(id) !in ended;
    if line.undecodable {
      ErasedWithHiddenEnd(l, id, a, decided, ended);
    } else {
      ErasedWithEnd(l, id, a, decided, ended);
    }
  }

  lemma OneLineMore(lines: seq<Line>, kind: EventKind)
    requires lines != []
    ensures
      var last := lines[|lines| - 1];
      var before := Unreadable(lines[..|lines| - 1], kind);
      Unreadable(lines, kind)
      == if last.undecodable && last.record.kind == kind then before + {last.record.ident} else before
  {
    assert lines == lines[..|lines| - 1] + [lines[|lines| - 1]];
  }

  /** Any record in both views. */
  lemma LineInBoth(l: Attempts, line: Line, decided: set<Json>, ended: set<Json>)
    requires Tracks(l, decided, ended) && StepAttempt(l, line, true).Ok?
    ensures
      var l' := StepAttempt(l, line, true).value;
      var decided' := if line.undecodable && line.record.kind == Decided then decided + {line.record.ident} else decided;
      var ended' := if line.undecodable && line.record.kind == Ended then ended + {line.record.ident} else ended;
      && Tracks(l', decided', ended')
      && StepAttempt(Erased(l, decided, ended), line, false) == Ok(Erased(l', decided', ended'))
  {
    match line.record.kind
    case Decided => DecidedInBoth(l, line, decided, ended);
    case Ended => EndedInBoth(l, line, decided, ended);
    case OtherKind =>
  }

  lemma FoldOneMore(lines: seq<Line>, legacy: bool, v: Attempts)
    requires lines != [] && FoldAttempts(lines[..|lines| - 1], legacy) == Ok(v)
    ensures FoldAttempts(lines, legacy) == StepAttempt(v, lines[|lines| - 1], legacy)
  {
  }

  lemma {:induction false} BothViews(lines: seq<Line>)
    requires FoldAttempts(lines, true).Ok?
    ensures
      var l := FoldAttempts(lines, true).value;
      var decided, ended := Unreadable(lines, Decided), Unreadable(lines, Ended);
      && Tracks(l, decided, ended)
      && FoldAttempts(lines, false) == Ok(Erased(l, decided, ended))
  {
    if lines == [] {
      assert Unreadable(lines, Decided) == {} && Unreadable(lines, Ended) == {};
      assert Erased(NO_ATTEMPTS, {}, {}).byId == map[];
    } else {
      var front, last := lines[..|lines| - 1], lines[|lines| - 1];
      BothViews(front);
      var l := FoldAttempts(front, true).value;
      var decided, ended := Unreadable(front, Decided), Unreadable(front, Ended);
      FoldOneMore(lines, true, l);
      FoldOneMore(lines, false, Erased(l, decided, ended));
      OneLineMore(lines, Decided);
      OneLineMore(lines, Ended);
      LineInBoth(l, last, decided, ended);
    }
  }

  /**
   * Whenever the legacy fold succeeds so does the strict one, and the strict view is exactly the
   * legacy view with the undecodable records taken back: the attempts decided by a readable
   * record, in order, each the same, except that one whose ended record was unreadable is open.
   */
  lemma StrictViewIsLegacyViewErased(lines: seq<Line>)
    requires FoldAttempts(lines, true).Ok?
    ensures FoldAttempts(lines, false)
         == Ok(Erased(FoldAttempts(lines, true).value, Unreadable(lines, Decided), Unreadable(lines, Ended)))
  {
    BothViews(lines);
  }

  /** Read off the views: who is in both, what agrees, and what closed means. */
  lemma ViewsAgreeOnClosed(lines: seq<Line>, id: string)
    requires FoldAttempts(lines, true).Ok?
    ensures FoldAttempts(lines, false).Ok?
    ensures
      var l, s := FoldAttempts(lines, true).value.byId, FoldAttempts(lines, false).value.byId;
      && (id in s <==> id in l && Text(id) !in Unreadable(lines, Decided))
      && (id in s ==>
            && s[id].id == l[id].id && s[id].decision == l[id].decision && s[id].pid == l[id].pid
            && (s[id].open <==> l[id].open || Text(id) in Unreadable(lines, Ended))
            && (!s[id].open ==> s[id] == l[id]))
  {
    BothViews(lines);
  }

  // --- when the other view succeeds too ---------------------------------------------------------------

  /** A record of a kind about an identity. */
  predicate IsAbout(r: AttemptRecord, kind: EventKind, id: string) {
    r.kind == kind && r.ident == Text(id)
  }

  predicate HasRecord(lines: seq<Line>, kind: EventKind, id: string) {
    exists k | 0 <= k < |lines| :: IsAbout(lines[k].record, kind, id)
  }

  predicate IsAllowing(r: AttemptRecord, id: string) {
    IsAbout(r, Decided, id) && r.payload.Object? && r.payload.decision == Text("allow")
  }

  /** Some decided record of the identity allowed it. */
  predicate WasAllowed(lines: seq<Line>, id: string) {
    exists k | 0 <= k < |lines| :: IsAllowing(lines[k].record, id)
  }

  predicate IsExitOk(r: AttemptRecord) {
    && r.payload.Object? && r.payload.exit.Some?
    && var exit := r.payload.exit.value;
    && Scalar(exit.code).Ok? && exit.name.Text? && exit.name.s in EXIT_CLASSES
    && (Scalar(exit.code).value != "" ==> IsDecimal(Scalar(exit.code).value))
    && (exit.name.s in CODED_CLASSES ==> Scalar(exit.code).value != "")
  }

  predicate IsDecisionOk(r: AttemptRecord) {
    && r.payload.Object? && Scalar(r.payload.pid).Ok?
    && (r.payload.decision == Text("allow") || r.payload.decision == Text("deny"))
    && IsDecimal(Scalar(r.payload.pid).value) && ParseDecimal(Scalar(r.payload.pid).value) > 0
  }

  /**
   * The guards a record must pass, told by the records before it: a decision is well formed and the
   * first of its identity; an ending is well formed, of an identity that was allowed, and its first.
   */
  predicate Passes(before: seq<Line>, r: AttemptRecord) {
    r.kind.OtherKind? ||
    (IdentOf(r).Ok? &&
     var id := IdentOf(r).value;
     if r.kind.Decided? then IsDecisionOk(r) && !HasRecord(before, Decided, id)
     else IsExitOk(r) && WasAllowed(before, id) && !HasRecord(before, Ended, id))
  }

  /** The legacy table, told by the records it was filled from. */
  ghost predicate TableOf(v: Attempts, lines: seq<Line>) {
    && (forall id :: id in v.byId <==> HasRecord(lines, Decided, id))
    && (forall id :: HasRecord(lines, Ended, id) ==> id in v.byId)
    && (forall id | id in v.byId :: (v.byId[id].decision == "allow" <==> WasAllowed(lines, id)))
    && (forall id | id in v.byId :: v.byId[id].open <==> v.byId[id].decision == "allow" && !HasRecord(lines, Ended, id))
  }

  lemma RecordOneMore(front: seq<Line>, line: Line, kind: EventKind, id: string)
    ensures HasRecord(front + [line], kind, id) <==> HasRecord(front, kind, id) || IsAbout(line.record, kind, id)
  {
    var lines := front + [line];
    if HasRecord(front, kind, id) {
      var k :| 0 <= k < |front| && IsAbout(front[k].record, kind, id);
      assert lines[k] == front[k];
    }
    assert lines[|front|] == line;
  }

  lemma AllowedOneMore(front: seq<Line>, line: Line, id: string)
    ensures WasAllowed(front + [line], id) <==> WasAllowed(front, id) || IsAllowing(line.record, id)
  {
    var lines := front + [line];
    if WasAllowed(front, id) {
      var k :| 0 <= k < |front| && IsAllowing(front[k].record, id);
      assert lines[k] == front[k];
    }
    assert lines[|front|] == line;
  }

  /** The legacy fold takes a record exactly when it passes. */
  lemma StepPassesIff(v: Attempts, before: seq<Line>, line: Line)
    requires TableOf(v, before) && v.excluded == {}
    ensures StepAttempt(v, line, true).Ok? <==> Passes(before, line.record)
  {
    var r := line.record;
    if !r.kind.OtherKind? && IdentOf(r).Ok? {
      var id := IdentOf(r).value;
      if r.kind.Decided? {
        assert DecidedAttempt(r, id).Ok? <==> IsDecisionOk(r);
      } else if id in v.byId {
        assert EndedAttempt(v.byId[id], r).Ok? <==> v.byId[id].decision == "allow" && v.byId[id].open && IsExitOk(r);
      } else {
        AllowedWasDecided(before, id);
      }
    }
  }

  lemma AllowedWasDecided(lines: seq<Line>, id: string)
    ensures WasAllowed(lines, id) ==> HasRecord(lines, Decided, id)
  {
  }

  lemma StepKeepsTable(v: Attempts, lines: seq<Line>)
    requires lines != [] && TableOf(v, lines[..|lines| - 1]) && v.excluded == {}
    requires StepAttempt(v, lines[|lines| - 1], true).Ok?
    ensures TableOf(StepAttempt(v, lines[|lines| - 1], true).value, lines)
  {
    var front, line := lines[..|lines| - 1], lines[|lines| - 1];
    var w := StepAttempt(v, line, true).value;
    assert lines == front + [line];
    forall id
      ensures id in w.byId <==> HasRecord(lines, Decided, id)
      ensures HasRecord(lines, Ended, id) ==> id in w.byId
      ensures id in w.byId ==> (w.byId[id].decision == "allow" <==> WasAllowed(lines, id))
      ensures id in w.byId ==>
        (w.byId[id].open <==> w.byId[id].decision == "allow" && !HasRecord(lines, Ended, id))
    {
      RecordOneMore(front, line, Decided, id);
      RecordOneMore(front, line, Ended, id);
      AllowedOneMore(front, line, id);
      AllowedWasDecided(front, id);
      StepOnId(v, front, line, id);
    }
  }

  /** A record changes the entry of its own identity only. */
  lemma StepOnId(v: Attempts, before: seq<Line>, line: Line, id: string)
    requires TableOf(v, before) && v.excluded == {} && StepAttempt(v, line, true).Ok?
    ensures
      var w := StepAttempt(v, line, true).value;
      if IsAbout(line.record, Decided, id) then
        && id !in v.byId && id in w.byId && line.record.payload.Object?
        && (w.byId[id].open <==> w.byId[id].decision == "allow")
        && (w.byId[id].decision == "allow" <==> line.record.payload.decision == Text("allow"))
      else if IsAbout(line.record, Ended, id) then
        id in v.byId && id in w.byId && w.byId[id].decision == v.byId[id].decision && !w.byId[id].open
      else (id in w.byId <==> id in v.byId) && (id in v.byId ==> w.byId[id] == v.byId[id])
  {
  }

  lemma {:induction false} LegacyIsTable(lines: seq<Line>)
    requires FoldAttempts(lines, true).Ok?
    ensures TableOf(FoldAttempts(lines, true).value, lines) && FoldAttempts(lines, true).value.excluded == {}
  {
    if lines != [] {
      var v := FoldAttempts(lines[..|lines| - 1], true).value;
      LegacyIsTable(lines[..|lines| - 1]);
      FoldOneMore(lines, true, v);
      StepKeepsTable(v, lines);
    }
  }

  ghost predicate AllPass(lines: seq<Line>) {
    forall k | 0 <= k < |lines| :: Passes(lines[..k], lines[k].record)
  }

  /** The legacy fold succeeds exactly when every record passes. */
  lemma {:induction false} LegacySucceedsIffAllPass(lines: seq<Line>)
    ensures FoldAttempts(lines, true).Ok? <==> AllPass(lines)
  {
    if lines != [] {
      var front, last := lines[..|lines| - 1], lines[|lines| - 1];
      LegacySucceedsIffAllPass(front);
      assert AllPass(lines) <==> AllPass(front) && Passes(front, last.record) by {
        forall k | 0 <= k < |front| ensures front[..k] == lines[..k] && front[k] == lines[k] {
        }
      }
      if FoldAttempts(front, true).Ok? {
        var v := FoldAttempts(front, true).value;
        LegacyIsTable(front);
        StepPassesIff(v, front, last);
        FoldOneMore(lines, true, v);
      }
    }
  }

  /** A record that only the legacy view reads, or one about an attempt of which it alone has read before. */
  predicate IsConcerned(before: seq<Line>, line: Line) {
    line.undecodable || line.record.ident in Unreadable(before, Decided) || line.record.ident in Unreadable(before, Ended)
  }

  ghost predicate ConcernedPass(lines: seq<Line>) {
    forall k | 0 <= k < |lines| && IsConcerned(lines[..k], lines[k]) :: Passes(lines[..k], lines[k].record)
  }

  /** A record that is not concerned is taken by both views or by neither. */
  lemma UnconcernedAlike(l: Attempts, line: Line, decided: set<Json>, ended: set<Json>)
    requires Tracks(l, decided, ended)
    requires !line.undecodable && line.record.ident !in decided && line.record.ident !in ended
    ensures StepAttempt(Erased(l, decided, ended), line, false).Ok? <==> StepAttempt(l, line, true).Ok?
  {
  }

  /**
   * The exact converse: where the strict fold succeeds, the legacy one does too if and only if the
   * unreadable records, and the later ones about the same attempts, pass the legacy guards.
   */
  lemma {:induction false} LegacySucceedsTooIff(lines: seq<Line>)
    requires FoldAttempts(lines, false).Ok?
    ensures FoldAttempts(lines, true).Ok? <==> ConcernedPass(lines)
  {
    LegacySucceedsIffAllPass(lines);
    if ConcernedPass(lines) {
      ConcernedSuffice(lines);
    }
  }

  lemma {:induction false} ConcernedSuffice(lines: seq<Line>)
    requires FoldAttempts(lines, false).Ok? && ConcernedPass(lines)
    ensures FoldAttempts(lines, true).Ok?
  {
    if lines != [] {
      var front, last := lines[..|lines| - 1], lines[|lines| - 1];
      FrontPasses(lines);
      ConcernedSuffice(front);
      BothViews(front);
      LegacyIsTable(front);
      var l := FoldAttempts(front, true).value;
      var decided, ended := Unreadable(front, Decided), Unreadable(front, Ended);
      FoldOneMore(lines, true, l);
      FoldOneMore(lines, false, Erased(l, decided, ended));
      if IsConcerned(front, last) {
        assert lines[..|front|] == front;
        StepPassesIff(l, front, last);
      } else {
        UnconcernedAlike(l, last, decided, ended);
      }
    }
  }

  lemma FrontPasses(lines: seq<Line>)
    requires lines != [] && ConcernedPass(lines)
    ensures ConcernedPass(lines[..|lines| - 1])
  {
    var front := lines[..|lines| - 1];
    forall k | 0 <= k < |front| && IsConcerned(front[..k], front[k]) ensures Passes(front[..k], front[k].record) {
      assert front[..k] == lines[..k];
    }
  }

  /** It can fail: an unreadable decision without an identity. */
  lemma StrictCanSucceedAlone(r: AttemptRecord)
    requires r.kind.Decided? && r.ident.Null?
    ensures FoldAttempts([Line(1, r, true)], false).Ok?
    ensures FoldAttempts([Line(1, r, true)], true).Err?
  {
    var lines := [Line(1, r, true)];
    assert lines[..0] == [];
  }

  // --- one record at a time ---------------------------------------------------------------------

  /** An attempt, once decided, keeps what was decided; once closed, it keeps everything. */
  lemma StepKeepsAttempts(v: Attempts, line: Line, legacy: bool, id: string)
    requires id in v.byId && StepAttempt(v, line, legacy).Ok?
    ensures
      var w := StepAttempt(v, line, legacy).value;
      && v.order <= w.order && id in w.byId
      && (!v.byId[id].open ==> w.byId[id] == v.byId[id])
      && StillOpen(w.byId[id]) == StillOpen(v.byId[id])
  {
  }

  lemma {:induction false} ClosedAttemptsStayClosed(lines: seq<Line>, more: seq<Line>, legacy: bool, id: string)
    requires FoldAttempts(lines + more, legacy).Ok?
    ensures FoldAttempts(lines, legacy).Ok?
    ensures
      var v, w := FoldAttempts(lines, legacy).value, FoldAttempts(lines + more, legacy).value;
      id in v.byId ==>
        && v.order <= w.order && id in w.byId
        && (!v.byId[id].open ==> w.byId[id] == v.byId[id])
        && StillOpen(w.byId[id]) == StillOpen(v.byId[id])
    decreases |more|
  {
    if more == [] {
      assert lines + more == lines;
    } else {
      var front := more[..|more| - 1];
      assert (lines + more)[..|lines + more| - 1] == lines + front;
      ClosedAttemptsStayClosed(lines, front, legacy, id);
      if id in FoldAttempts(lines, legacy).value.byId {
        StepKeepsAttempts(FoldAttempts(lines + front, legacy).value, more[|more| - 1], legacy, id);
      }
    }
  }
}
