/**
 * Where everything in a folded attempt comes from: the one decided and the one ended record of its
 * identity that the view reads.
 */
module AttemptsTold {
  import opened Results
  import opened Text
  import opened TaskLedger
  import opened AttemptsFold

  /** The view reads the record as JSON or, if it is the legacy view, byte by byte. */
  predicate IsRead(line: Line, legacy: bool) {
    legacy || !line.undecodable
  }

  predicate IsDecision(lines: seq<Line>, d: int, legacy: bool, id: string) {
    0 <= d < |lines| && IsRead(lines[d], legacy) && lines[d].record.kind.Decided? && lines[d].record.ident == Text(id)
  }

  /** An unreadable decision of the identity before it makes the strict view pass over an end. */
  predicate IsEnd(lines: seq<Line>, e: int, legacy: bool, id: string) {
    && 0 <= e < |lines| && IsRead(lines[e], legacy) && lines[e].record.kind.Ended? && lines[e].record.ident == Text(id)
    && (legacy || Text(id) !in Unreadable(lines[..e], Decided))
  }

  ghost predicate HasDecision(lines: seq<Line>, legacy: bool, id: string) {
    exists d :: IsDecision(lines, d, legacy, id)
  }

  ghost predicate HasEnd(lines: seq<Line>, legacy: bool, id: string) {
    exists e :: IsEnd(lines, e, legacy, id)
  }

  /** A number as it is shown, or the text given for it. */
  predicate Shows(shown: string, value: Json) {
    match value
    case Text(s) => shown == s
    case Number(n) => n >= 0 && shown == Decimal(n)
    case _ => false
  }

  /** What the decision says of the attempt. */
  predicate ComesFromDecision(a: Attempt, r: AttemptRecord, id: string) {
    && a.id == id && a.agent == r.agent && a.session == r.session && a.decidedAt == r.occurredAt
    && r.payload.Object? && r.payload.decision == Text(a.decision) && a.decision in {"allow", "deny"}
    && Shows(a.pid, r.payload.pid) && IsDecimal(a.pid) && ParseDecimal(a.pid) > 0
  }

  /** What the end says of it: its class is the state, and a code that is missing or empty is shown as null. */
  predicate ComesFromEnd(a: Attempt, r: AttemptRecord) {
    && a.decision == "allow" && !a.open
    && a.state in {"ok", "provider-failure", "timeout", "io-refused", "aborted"}
    && r.payload.Object? && r.payload.exit.Some?
    && var exit := r.payload.exit.value;
       && exit.name == Text(a.state) && a.last == Some(Last(a.state, exit.stage, r.occurredAt))
       && if exit.code == Null || exit.code == Text("") then a.exitCode == "null" && a.state in {"ok", "aborted"}
          else Shows(a.exitCode, exit.code) && IsDecimal(a.exitCode)
  }

  /** An attempt without an end is open if it was allowed and denied if not. */
  predicate HasNotEnded(a: Attempt) {
    && a.exitCode == "null" && a.last.None?
    && (a.open <==> a.decision == "allow") && a.state == (if a.open then "open" else "deny")
  }

  /** Of an identity: an attempt exactly if it was decided, once, and ended at most once; and where its fields come from. */
  ghost predicate IsTold(v: Attempts, lines: seq<Line>, legacy: bool, id: string) {
    && (id in v.byId <==> HasDecision(lines, legacy, id))
    && (HasEnd(lines, legacy, id) ==> id in v.byId)
    && (id in v.byId ==>
          && (forall d | IsDecision(lines, d, legacy, id) :: ComesFromDecision(v.byId[id], lines[d].record, id))
          && (forall e | IsEnd(lines, e, legacy, id) :: ComesFromEnd(v.byId[id], lines[e].record))
          && (!HasEnd(lines, legacy, id) ==> HasNotEnded(v.byId[id])))
  }

  ghost predicate AreUnique(lines: seq<Line>, legacy: bool, id: string) {
    && (forall d, e | IsDecision(lines, d, legacy, id) && IsDecision(lines, e, legacy, id) :: d == e)
    && (forall d, e | IsEnd(lines, d, legacy, id) && IsEnd(lines, e, legacy, id) :: d == e)
  }

  lemma DecisionOneMore(front: seq<Line>, line: Line, d: int, legacy: bool, id: string)
    ensures IsDecision(front + [line], d, legacy, id) <==>
              if d == |front| then IsRead(line, legacy) && line.record.kind.Decided? && line.record.ident == Text(id)
              else IsDecision(front, d, legacy, id)
  {
  }

  lemma EndOneMore(front: seq<Line>, line: Line, e: int, legacy: bool, id: string)
    ensures IsEnd(front + [line], e, legacy, id) <==>
              if e == |front| then
                && IsRead(line, legacy) && line.record.kind.Ended? && line.record.ident == Text(id)
                && (legacy || Text(id) !in Unreadable(front, Decided))
              else IsEnd(front, e, legacy, id)
  {
    if 0 <= e < |front| {
      assert (front + [line])[..e] == front[..e];
    } else if e == |front| {
      assert (front + [line])[..e] == front;
    }
  }

  /** The identities the strict view leaves out are those of the unreadable decisions. */
  lemma {:induction false} ExcludedAreUnreadable(lines: seq<Line>)
    requires FoldAttempts(lines, false).Ok?
    ensures FoldAttempts(lines, false).value.excluded == Unreadable(lines, Decided)
  {
    if lines != [] {
      var front, last := lines[..|lines| - 1], lines[|lines| - 1];
      ExcludedAreUnreadable(front);
      assert lines == front + [last];
    }
  }

  /** What one line does to one identity. */
  datatype Move = Rests | Begins(a: Attempt) | Ends(a: Attempt)

  lemma MoveOf(v: Attempts, front: seq<Line>, line: Line, legacy: bool, id: string) returns (move: Move)
    requires StepAttempt(v, line, legacy).Ok?
    requires !legacy ==> v.excluded == Unreadable(front, Decided)
    ensures
      var w := StepAttempt(v, line, legacy).value;
      match move
      case Rests =>
        && !IsDecision(front + [line], |front|, legacy, id) && !IsEnd(front + [line], |front|, legacy, id)
        && (id in w.byId <==> id in v.byId) && (id in v.byId ==> w.byId[id] == v.byId[id])
      case Begins(a) =>
        && IsDecision(front + [line], |front|, legacy, id) && !IsEnd(front + [line], |front|, legacy, id)
        && id !in v.byId && id in w.byId && w.byId[id] == a
        && line.record.payload.Object? && DecidedAttempt(line.record, id) == Ok(a)
      case Ends(a) =>
        && IsEnd(front + [line], |front|, legacy, id) && !IsDecision(front + [line], |front|, legacy, id)
        && id in v.byId && id in w.byId && w.byId[id] == a
        && line.record.payload.Object? && EndedAttempt(v.byId[id], line.record) == Ok(a)
  {
    DecisionOneMore(front, line, |front|, legacy, id);
    EndOneMore(front, line, |front|, legacy, id);
    var w := StepAttempt(v, line, legacy).value;
    if IsDecision(front + [line], |front|, legacy, id) {
      move := Begins(w.byId[id]);
    } else if IsEnd(front + [line], |front|, legacy, id) {
      move := Ends(w.byId[id]);
    } else {
      move := Rests;
    }
  }

  lemma DecidedIsTold(r: AttemptRecord, id: string)
    requires r.payload.Object? && DecidedAttempt(r, id).Ok?
    ensures ComesFromDecision(DecidedAttempt(r, id).value, r, id) && HasNotEnded(DecidedAttempt(r, id).value)
  {
    NegativeIsNoDecimal(r.payload.pid);
  }

  lemma EndedIsTold(a: Attempt, r: AttemptRecord)
    requires r.payload.Object? && EndedAttempt(a, r).Ok?
    ensures
      var b := EndedAttempt(a, r).value;
      && ComesFromEnd(b, r) && a.open
      && b == a.(state := b.state, exitCode := b.exitCode, open := b.open, last := b.last)
  {
    if r.payload.exit.Some? {
      NegativeIsNoDecimal(r.payload.exit.value.code);
    }
  }

  lemma NegativeIsNoDecimal(value: Json)
    ensures value.Number? && value.n < 0 ==> Scalar(value).Ok? && Scalar(value).value != "" && !IsDecimal(Scalar(value).value)
    ensures value.Number? && value.n >= 0 ==> Scalar(value) == Ok(Decimal(value.n)) && Decimal(value.n) != ""
  {
    if value.Number? && value.n < 0 {
      assert Scalar(value).value[0] == '-' && !IsDigit('-');
    }
  }

  lemma RestIsTold(v: Attempts, w: Attempts, front: seq<Line>, line: Line, legacy: bool, id: string)
    requires IsTold(v, front, legacy, id) && AreUnique(front, legacy, id)
    requires !IsDecision(front + [line], |front|, legacy, id) && !IsEnd(front + [line], |front|, legacy, id)
    requires (id in w.byId <==> id in v.byId) && (id in v.byId ==> w.byId[id] == v.byId[id])
    ensures IsTold(w, front + [line], legacy, id) && AreUnique(front + [line], legacy, id)
  {
    EachOneMore(front, line, legacy, id);
  }

  /** Which records of a longer list are decisions and ends of an identity. */
  lemma EachOneMore(front: seq<Line>, line: Line, legacy: bool, id: string)
    ensures forall d | d != |front| :: IsDecision(front + [line], d, legacy, id) <==> IsDecision(front, d, legacy, id)
    ensures forall e | e != |front| :: IsEnd(front + [line], e, legacy, id) <==> IsEnd(front, e, legacy, id)
    ensures forall d | IsDecision(front, d, legacy, id) || IsEnd(front, d, legacy, id) :: (front + [line])[d] == front[d]
    ensures HasDecision(front + [line], legacy, id) <==>
              HasDecision(front, legacy, id) || IsDecision(front + [line], |front|, legacy, id)
    ensures HasEnd(front + [line], legacy, id) <==>
              HasEnd(front, legacy, id) || IsEnd(front + [line], |front|, legacy, id)
  {
    var all := front + [line];
    forall d | d != |front| ensures IsDecision(all, d, legacy, id) <==> IsDecision(front, d, legacy, id) {
      DecisionOneMore(front, line, d, legacy, id);
    }
    forall e | e != |front| ensures IsEnd(all, e, legacy, id) <==> IsEnd(front, e, legacy, id) {
      EndOneMore(front, line, e, legacy, id);
    }
    if HasDecision(all, legacy, id) {
      var d :| IsDecision(all, d, legacy, id);
      assert d == |front| || IsDecision(front, d, legacy, id);
    }
    if HasDecision(front, legacy, id) {
      var d :| IsDecision(front, d, legacy, id);
      assert IsDecision(all, d, legacy, id);
    }
    if HasEnd(all, legacy, id) {
      var e :| IsEnd(all, e, legacy, id);
      assert e == |front| || IsEnd(front, e, legacy, id);
    }
    if HasEnd(front, legacy, id) {
      var e :| IsEnd(front, e, legacy, id);
      assert IsEnd(all, e, legacy, id);
    }
  }

  lemma BeginningIsTold(v: Attempts, w: Attempts, front: seq<Line>, line: Line, legacy: bool, id: string, a: Attempt)
    requires IsTold(v, front, legacy, id) && AreUnique(front, legacy, id) && id !in v.byId
    requires IsDecision(front + [line], |front|, legacy, id) && !IsEnd(front + [line], |front|, legacy, id)
    requires id in w.byId && w.byId[id] == a && ComesFromDecision(a, line.record, id) && HasNotEnded(a)
    ensures IsTold(w, front + [line], legacy, id) && AreUnique(front + [line], legacy, id)
  {
    EachOneMore(front, line, legacy, id);
    assert !HasDecision(front, legacy, id) && !HasEnd(front, legacy, id);
  }

  lemma EndingIsTold(v: Attempts, w: Attempts, front: seq<Line>, line: Line, legacy: bool, id: string, a: Attempt)
    requires IsTold(v, front, legacy, id) && AreUnique(front, legacy, id) && id in v.byId
    requires IsEnd(front + [line], |front|, legacy, id) && !IsDecision(front + [line], |front|, legacy, id)
    requires id in w.byId && w.byId[id] == a && v.byId[id].open && ComesFromEnd(a, line.record)
    requires a == v.byId[id].(state := a.state, exitCode := a.exitCode, open := a.open, last := a.last)
    ensures IsTold(w, front + [line], legacy, id) && AreUnique(front + [line], legacy, id)
  {
    EachOneMore(front, line, legacy, id);
    assert !HasEnd(front, legacy, id);
    forall d | IsDecision(front + [line], d, legacy, id)
      ensures ComesFromDecision(a, (front + [line])[d].record, id)
    {
      assert IsDecision(front, d, legacy, id) && (front + [line])[d] == front[d];
    }
  }

  /**
   * In either view that succeeds, over any records: an identity has an attempt exactly if the view reads
   * its decision, which is then the only one and gives agent, session, time, decision and pid. If the view
   * reads its end, that too is the only one and gives state, exit code, stage and time; if not, the
   * attempt is open or denied, with no code and no last stage.
   */
  lemma {:induction false} EveryAttemptIsTold(lines: seq<Line>, legacy: bool, id: string)
    requires FoldAttempts(lines, legacy).Ok?
    ensures IsTold(FoldAttempts(lines, legacy).value, lines, legacy, id) && AreUnique(lines, legacy, id)
  {
    if lines != [] {
      var front, line := lines[..|lines| - 1], lines[|lines| - 1];
      var v, w := FoldAttempts(front, legacy).value, FoldAttempts(lines, legacy).value;
      assert lines == front + [line];
      EveryAttemptIsTold(front, legacy, id);
      if !legacy {
        ExcludedAreUnreadable(front);
      }
      var move := MoveOf(v, front, line, legacy, id);
      match move
      case Rests => RestIsTold(v, w, front, line, legacy, id);
      case Begins(a) =>
        DecidedIsTold(line.record, id);
        BeginningIsTold(v, w, front, line, legacy, id, a);
      case Ends(a) =>
        EndedIsTold(v.byId[id], line.record);
        EndingIsTold(v, w, front, line, legacy, id, a);
    }
  }

  /** The identities of the decisions a view reads, in their order. */
  function Decisions(lines: seq<Line>, legacy: bool): seq<Json> {
    if lines == [] then []
    else
      var last := lines[|lines| - 1];
      Decisions(lines[..|lines| - 1], legacy)
      + if IsRead(last, legacy) && last.record.kind.Decided? then [last.record.ident] else []
  }

  /** The attempts are listed in the order of their decisions. */
  lemma {:induction false} AttemptsFollowDecisions(lines: seq<Line>, legacy: bool)
    requires FoldAttempts(lines, legacy).Ok?
    ensures
      var order := FoldAttempts(lines, legacy).value.order;
      |order| == |Decisions(lines, legacy)| && forall k | 0 <= k < |order| :: Decisions(lines, legacy)[k] == Text(order[k])
  {
    if lines != [] {
      AttemptsFollowDecisions(lines[..|lines| - 1], legacy);
    }
  }
}
