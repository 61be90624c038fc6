/** Idempotence of the locked step: one record per causation, and a retry changes nothing. */
module CausationHistory {
  import opened Results
  import opened Text
  import opened TaskLedger
  import opened TaskDecisions
  import opened TaskCli
  import opened LedgerAgreement

  /** One run of the command; registry, body store and clock may differ from run to run. */
  datatype Act = Act(req: Request, world: World)

  function RunAll(entries: seq<Entry>, acts: seq<Act>): (after: seq<Entry>)
    requires NextSeq(entries) >= 0
    ensures NextSeq(after) >= 0
  {
    if |acts| == 0 then entries
    else
      var last := acts[|acts| - 1];
      Submit(RunAll(entries, acts[..|acts| - 1]), last.req, last.world).entries
  }

  /** How many records carry a causation. */
  function Labels(entries: seq<Entry>, causation: string): nat {
    if |entries| == 0 then 0
    else Labels(entries[..|entries| - 1], causation) + if Carries(entries[|entries| - 1], causation) then 1 else 0
  }

  lemma {:induction false} UnlabelledHasNoAnswer(entries: seq<Entry>, req: Request)
    ensures CausationReplay(entries, req).None? <==> forall i | 0 <= i < |entries| :: !Carries(entries[i], req.causation)
  {
    if |entries| > 0 {
      UnlabelledHasNoAnswer(entries[1..], req);
      assert forall i | 1 <= i < |entries| :: entries[i] == entries[1..][i - 1];
    }
  }

  lemma {:induction false} LabelsOfNone(entries: seq<Entry>, causation: string)
    requires forall i | 0 <= i < |entries| :: !Carries(entries[i], causation)
    ensures Labels(entries, causation) == 0
  {
    if |entries| > 0 {
      LabelsOfNone(entries[..|entries| - 1], causation);
    }
  }

  lemma SubmitAddsAtMostOne(entries: seq<Entry>, req: Request, w: World)
    requires NextSeq(entries) >= 0
    ensures
      var after := Submit(entries, req, w).entries;
      || after == entries
      || (&& |after| == |entries| + 1 && after[..|entries|] == entries
          && CausationReplay(entries, req).None? && Carries(after[|entries|], req.causation)
          && forall c | c != req.causation :: !Carries(after[|entries|], c))
  {
  }

  /** Over any sequence of requests and retries, each causation labels at most one record. */
  lemma {:induction false} OneRecordPerCausation(entries: seq<Entry>, acts: seq<Act>, causation: string)
    requires NextSeq(entries) >= 0
    ensures Labels(RunAll(entries, acts), causation) <= if Labels(entries, causation) > 1 then Labels(entries, causation) else 1
    ensures entries == [] ==> Labels(RunAll(entries, acts), causation) <= 1
  {
    if |acts| > 0 {
      var before, last := RunAll(entries, acts[..|acts| - 1]), acts[|acts| - 1];
      OneRecordPerCausation(entries, acts[..|acts| - 1], causation);
      SubmitAddsAtMostOne(before, last.req, last.world);
      var after := RunAll(entries, acts);
      if after != before {
        assert after[..|after| - 1] == before;
        if last.req.causation == causation {
          UnlabelledHasNoAnswer(before, last.req);
          LabelsOfNone(before, causation);
        }
      }
    }
  }

  lemma {:induction false} AnswerIsStable(entries: seq<Entry>, more: seq<Entry>, req: Request)
    requires CausationReplay(entries, req).Some?
    ensures CausationReplay(entries + more, req) == CausationReplay(entries, req)
  {
    if !Carries(entries[0], req.causation) {
      assert (entries + more)[1..] == entries[1..] + more;
      AnswerIsStable(entries[1..], more, req);
    }
  }

  lemma {:induction false} AnswerOfAppended(entries: seq<Entry>, e: Entry, req: Request)
    requires CausationReplay(entries, req).None? && Carries(e, req.causation)
    ensures CausationReplay(entries + [e], req) == Some(AnswerFrom(e.record, req))
  {
    if |entries| == 0 {
      assert entries + [e] == [e];
    } else {
      assert (entries + [e])[1..] == entries[1..] + [e];
      AnswerOfAppended(entries[1..], e, req);
    }
  }

  lemma {:induction false} RunsOnlyAppend(entries: seq<Entry>, acts: seq<Act>) returns (more: seq<Entry>)
    requires NextSeq(entries) >= 0
    ensures RunAll(entries, acts) == entries + more
  {
    if |acts| == 0 {
      more := [];
    } else {
      var last := acts[|acts| - 1];
      var m := RunsOnlyAppend(entries, acts[..|acts| - 1]);
      var before := RunAll(entries, acts[..|acts| - 1]);
      SubmitAddsAtMostOne(before, last.req, last.world);
      var after := RunAll(entries, acts);
      more := if after == before then m else m + [after[|before|]];
      assert after == entries + more;
    }
  }

  lemma KindNamesDiffer(a: Kind, b: Kind)
    ensures KindName(a) == KindName(b) <==> a == b
  {
  }

  /** Whether the step puts a request on record, rather than failing or answering from the record. */
  predicate IsRecorded(entries: seq<Entry>, req: Request, w: World)
    requires NextSeq(entries) >= 0
  {
    Submit(entries, req, w).entries != entries
  }

  /** The guards a reject verb passes when it is recorded as it was asked for. */
  predicate IsGrantedReject(req: Request, registry: Registry) {
    && CallerMatches(req.actorType, Text(req.actorId), req.payload.(caller := Text(req.caller)))
    && MayReject(req, registry)
  }

  /** A decision records the request's own kind, or a refusal that names it. */
  lemma DecisionNamesRequest(req: Request, v: View, w: World)
    requires IsCliRequest(req)
    requires Decide(req, v, w.registry, w.bodyStored, w.defaultDeadline).Decided?
    ensures
      var d := Decide(req, v, w.registry, w.bodyStored, w.defaultDeadline);
      if req.kind.TaskRejected? then
        && !d.accepted
        && (if IsGrantedReject(req, w.registry)
            then d.payload == req.payload.(caller := Text(req.caller)) && d.reason == req.payload.reason.s
                 && d.kind.TaskRejected?
            else d == Refuse(req, d.reason) && (d.reason == "unauthorized" || d.reason == "caller_actor_mismatch"))
      else if d.accepted then d.kind == req.kind
      else d == Refuse(req, d.reason)
  {
  }

  lemma RefusalAnswersAlike(req: Request, reason: string, seqNo: nat)
    requires IsCliRequest(req)
    ensures
      var r := Compose(req, TaskRejected, Refuse(req, reason).payload, seqNo);
      if req.kind.TaskRejected? then AnswerFrom(r, req) == Rejected(r.eventId, Text("causation_conflict"))
      else AnswerFrom(r, req) == Rejected(r.eventId, Text(reason))
  {
    KindNamesDiffer(req.kind, TaskRejected);
  }

  /** The appended record answers its own request again with the response it was given. */
  lemma OwnRecordAnswersAlike(req: Request, v: View, w: World, seqNo: nat)
    requires IsCliRequest(req)
    requires Decide(req, v, w.registry, w.bodyStored, w.defaultDeadline).Decided?
    ensures
      var d := Decide(req, v, w.registry, w.bodyStored, w.defaultDeadline);
      var r := Compose(req, d.kind, d.payload, seqNo);
      var given := if d.accepted then Accepted(r.eventId) else Rejected(r.eventId, Text(d.reason));
      AnswerFrom(r, req) == given <==> (req.kind.TaskRejected? ==> IsGrantedReject(req, w.registry))
  {
    var d := Decide(req, v, w.registry, w.bodyStored, w.defaultDeadline);
    DecisionNamesRequest(req, v, w);
    RefusalAnswersAlike(req, d.reason, seqNo);
    assert |"causation_conflict"| != |"unauthorized"| && |"causation_conflict"| != |"caller_actor_mismatch"|;
  }

  /**
   * Retrying a recorded request at any later time, after any other requests and under any registry
   * that still knows the team, appends nothing; it repeats the original response unless the request
   * was a reject verb that had itself been refused.
   */
  lemma RetryRepeatsTheAnswer(entries: seq<Entry>, req: Request, w: World, acts: seq<Act>, later: World)
    requires NextSeq(entries) >= 0 && IsCliRequest(req) && IsRecorded(entries, req, w)
    requires ScopeOk(later.registry, req.project, req.team)
    ensures
      var first := Submit(entries, req, w);
      var stream := RunAll(first.entries, acts);
      var again := Submit(stream, req, later);
      && again.entries == stream
      && (again.response == first.response <==> (req.kind.TaskRejected? ==> IsGrantedReject(req, w.registry)))
  {
    var first := Submit(entries, req, w);
    SubmitAddsAtMostOne(entries, req, w);
    var e := first.entries[|entries|];
    assert first.entries == entries + [e];
    AnswerOfAppended(entries, e, req);
    var more := RunsOnlyAppend(first.entries, acts);
    AnswerIsStable(first.entries, more, req);
    OwnRecordAnswersAlike(req, Fold(entries), w, NextSeq(entries));
  }

  // --- where the answer does not repeat ------------------------------------------------------------

  /** A project with one team and its lead. */
  const ONE_TEAM: Registry :=
    Registry({"p"}, map["p-t" := TeamEntry("p", Some(map[]))], map["p-lead" := AgentEntry("p-t", true, true)])

  /** A rejection asked for by the supervisor of an agent that the team does not have. */
  const STRAY_REJECT: Request :=
    Request(TaskRejected, "p", "p-t", "r-000000000000", None, "c", Service, "supervisor:p-x", "root:root",
            EMPTY_PAYLOAD.(requestedType := Text("task.created"), reason := Text("not_lead")), None)

  lemma OneTeamHasItsLead()
    ensures ScopeOk(ONE_TEAM, "p", "p-t") && TeamLimits(ONE_TEAM, "p-t").Ok?
  {
    var found := set uid | uid in ONE_TEAM.agents && ONE_TEAM.agents[uid].team == "p-t" && ONE_TEAM.agents[uid].lead;
    assert found == {"p-lead"};
    assert "p-lead" in found;
  }

  lemma StrayRejectIsUnauthorized(v: View, w: World)
    requires w.registry == ONE_TEAM
    ensures Decide(STRAY_REJECT, v, w.registry, w.bodyStored, w.defaultDeadline) == Refuse(STRAY_REJECT, "unauthorized")
  {
    OneTeamHasItsLead();
    assert STRAY_REJECT.actorId[11..] == "p-x";
    assert "p-x" !in ONE_TEAM.agents;
  }

  /** Asked for twice, it is refused for another reason the second time. */
  lemma RefusedRejectConflicts(w: World)
    requires w.registry == ONE_TEAM
    ensures
      var first := Submit([], STRAY_REJECT, w);
      var again := Submit(first.entries, STRAY_REJECT, w);
      && |first.entries| == 1 && again.entries == first.entries
      && first.response.Rejected? && first.response.reason == Text("unauthorized")
      && again.response.Rejected? && again.response.reason == Text("causation_conflict")
  {
    OneTeamHasItsLead();
    StrayRejectIsUnauthorized(Fold([]), w);
    var first := Submit([], STRAY_REJECT, w);
    assert first.entries[1..] == [];
    assert STRAY_REJECT.payload.requestedType != Text(KindName(TaskRejected));
  }

  // --- the stream of one project ---------------------------------------------------------------------

  /** A run of the command for a project, under a registry with well-formed names. */
  predicate IsActOf(act: Act, project: string) {
    && IsCliRequest(act.req) && act.req.project == project
    && HasUidKeys(act.world.registry) && IsDeadline(act.world.defaultDeadline)
  }

  /** A stream that only the command has written, for one project, holds no invalid event. */
  lemma {:induction false} OwnStreamHasNoInvalidEvent(acts: seq<Act>, project: string)
    requires forall k | 0 <= k < |acts| :: IsActOf(acts[k], project)
    ensures
      var v := Replay(RunAll([], acts));
      v.invalid == [] && IsStreamOf(v, project)
  {
    if acts == [] {
      assert Replay([]) == EMPTY_VIEW;
    } else {
      var front, last := acts[..|acts| - 1], acts[|acts| - 1];
      OwnStreamHasNoInvalidEvent(front, project);
      var before := RunAll([], front);
      if Submit(before, last.req, last.world).entries != before {
        DecidedRecordIsValid(before, last.req, last.world);
      }
    }
  }

  /** The record says of the request what it asks: about the same task, its kind, or a rejection of it. */
  predicate IsItsRejection(r: Record, req: Request) {
    && r.kind == Some(TaskRejected) && r.payload.Some? && r.task == OrNull(req.task)
    && if req.kind.TaskRejected? then
         r.payload.value.requestedType == req.payload.requestedType && r.payload.value.reason == req.payload.reason
       else r.payload.value.requestedType == Text(KindName(req.kind))
  }

  predicate IsItsAcceptance(r: Record, req: Request) {
    !req.kind.TaskRejected? && r.kind == Some(req.kind) && r.task == OrNull(req.task)
  }

  /**
   * A known causation is answered from the first record that carries it, whatever the request says: with
   * acceptance if that is the event asked for about the same task, with its reason if that is a rejection
   * of just this, and with a conflict otherwise.
   */
  lemma {:induction false} KnownCausationIsAnswered(entries: seq<Entry>, req: Request, i: nat)
    requires i < |entries| && Carries(entries[i], req.causation)
    requires forall k | 0 <= k < i :: !Carries(entries[k], req.causation)
    ensures
      var r := entries[i].record;
      CausationReplay(entries, req) == Some(
        if IsItsAcceptance(r, req) then Accepted(r.eventId)
        else if IsItsRejection(r, req) then Rejected(r.eventId, r.payload.value.reason)
        else Rejected(r.eventId, Text("causation_conflict")))
  {
    if i > 0 {
      KnownCausationIsAnswered(entries[1..], req, i - 1);
    }
  }

  /** The n-th record of a stream, named by its number. */
  predicate IsNumbered(e: Entry, n: nat) {
    && e.Event? && e.seqNo == n && e.record.project.Text?
    && e.record.eventId == Text(e.record.project.s + "-tasks-" + Decimal(n))
  }

  ghost predicate AreNumbered(entries: seq<Entry>) {
    forall k | 0 <= k < |entries| :: IsNumbered(entries[k], k + 1)
  }

  lemma ComposedIsNumbered(req: Request, kind: Kind, payload: Payload, n: nat)
    ensures IsNumbered(Event(n, Compose(req, kind, payload, n)), n)
  {
  }

  lemma NextIsNumbered(entries: seq<Entry>, req: Request, w: World)
    requires AreNumbered(entries)
    ensures NextSeq(entries) == |entries| + 1 && AreNumbered(Submit(entries, req, w).entries)
  {
    assert entries != [] ==> IsNumbered(entries[|entries| - 1], |entries|);
    var d := Decide(req, Fold(entries), w.registry, w.bodyStored, w.defaultDeadline);
    if d.Decided? {
      ComposedIsNumbered(req, d.kind, d.payload, |entries| + 1);
    }
  }

  /** And whatever the command has written is numbered from one without a gap, each record named by its number. */
  lemma {:induction false} OwnStreamIsNumbered(acts: seq<Act>)
    ensures AreNumbered(RunAll([], acts))
  {
    if acts != [] {
      var front, last := acts[..|acts| - 1], acts[|acts| - 1];
      OwnStreamIsNumbered(front);
      NextIsNumbered(RunAll([], front), last.req, last.world);
    }
  }
}
