/**
 * The request store that applying an intent file relies on is the task stream: each of an attempt's
 * requests, made through the locked step, does to the stream what asking does to the store.
 */
module IntentLedger {
  import opened Results
  import opened Text
  import opened TaskLedger
  import opened TaskDecisions
  import opened TaskCli
  import opened CausationHistory
  import opened IntentApply

  // --- the causation ids of an attempt -----------------------------------------------------------

  /** The causation text of a request; the rows of a file are numbered from one. */
  function Name(attempt: string, c: Causation): string {
    match c
    case Intent(row) => "intent-" + attempt + "-" + Decimal(row + 1)
    case RejectDelegate(row) => "reject-" + attempt + "-" + Decimal(row + 1)
    case RejectReference(row) => "reject-ref-" + attempt + "-" + Decimal(row + 1)
    case Block => "block-" + attempt + "-turn-budget"
  }

  lemma DecimalsDiffer(prefix: string, m: nat, n: nat)
    requires prefix + Decimal(m) == prefix + Decimal(n)
    ensures m == n
  {
    assert Decimal(m) == (prefix + Decimal(m))[|prefix|..];
    assert Decimal(n) == (prefix + Decimal(n))[|prefix|..];
    DecimalRoundTrip(m);
    DecimalRoundTrip(n);
  }

  /** The hyphen before a row's number is the last one, so it cannot sit in two places. */
  lemma ReferenceNamesDiffer(attempt: string, m: nat, n: nat)
    ensures Name(attempt, RejectDelegate(m)) != Name(attempt, RejectReference(n))
  {
    var s, t := Name(attempt, RejectDelegate(m)), Name(attempt, RejectReference(n));
    var before := "reject-" + attempt + "-";
    var k := |"reject-ref-"| + |attempt|;
    assert s == before + Decimal(m + 1) && |before| <= k && t[k] == '-';
    assert !IsDigit('-');
    assert k < |s| ==> s[k] == Decimal(m + 1)[k - |before|];
  }

  /** No two requests of an attempt share a causation. */
  lemma NamesDiffer(attempt: string, a: Causation, b: Causation)
    ensures Name(attempt, a) == Name(attempt, b) <==> a == b
  {
    if Name(attempt, a) == Name(attempt, b) {
      var first, second := Name(attempt, a), Name(attempt, b);
      assert first[0] == second[0];
      match (a, b)
      case (Intent(m), Intent(n)) => DecimalsDiffer("intent-" + attempt + "-", m + 1, n + 1);
      case (RejectDelegate(m), RejectDelegate(n)) => DecimalsDiffer("reject-" + attempt + "-", m + 1, n + 1);
      case (RejectReference(m), RejectReference(n)) => DecimalsDiffer("reject-ref-" + attempt + "-", m + 1, n + 1);
      case (RejectDelegate(m), RejectReference(n)) => ReferenceNamesDiffer(attempt, m, n);
      case (RejectReference(n), RejectDelegate(m)) => ReferenceNamesDiffer(attempt, m, n);
      case _ =>
    }
  }

  // --- the verdicts a stream holds -----------------------------------------------------------------

  /** What the first record under a causation says: a rejection refuses, any other event accepts. */
  function VerdictIn(entries: seq<Entry>, causation: string): Option<Verdict> {
    if entries == [] then None
    else if Carries(entries[0], causation)
    then Some(if entries[0].record.kind == Some(TaskRejected) then Verdict.Refused else Verdict.Accepted)
    else VerdictIn(entries[1..], causation)
  }

  ghost predicate Holds(entries: seq<Entry>, attempt: string, ledger: seq<(Causation, Verdict)>) {
    forall c :: VerdictIn(entries, Name(attempt, c)) == VerdictOf(ledger, c)
  }

  function KindOf(c: Causation): Kind {
    if c.Intent? || c.Block? then TaskReported else TaskRejected
  }

  /** A record of an attempt is about its task, and is the event asked for or a rejection of it. */
  predicate IsAnswerTo(r: TaskLedger.Record, c: Causation, task: string) {
    && r.task == Text(task)
    && (r.kind == Some(KindOf(c))
        || (r.kind == Some(TaskRejected) && r.payload.Some?
            && r.payload.value.requestedType == Text(KindName(KindOf(c)))))
  }

  /** Nobody else uses the attempt's causations. */
  ghost predicate IsOwn(entries: seq<Entry>, attempt: string, task: string) {
    forall i, c | 0 <= i < |entries| && Carries(entries[i], Name(attempt, c)) ::
      IsAnswerTo(entries[i].record, c, task)
  }

  predicate IsRequestOf(req: Request, attempt: string, c: Causation, task: string) {
    IsCliRequest(req) && req.causation == Name(attempt, c) && req.kind == KindOf(c) && req.task == Some(task)
  }

  lemma {:induction false} VerdictOfAppended(entries: seq<Entry>, e: Entry, causation: string)
    ensures VerdictIn(entries + [e], causation)
         == if VerdictIn(entries, causation).Some? then VerdictIn(entries, causation) else VerdictIn([e], causation)
  {
    if entries == [] {
      assert entries + [e] == [e];
    } else {
      assert (entries + [e])[1..] == entries[1..] + [e];
      VerdictOfAppended(entries[1..], e, causation);
    }
  }

  /** A record under the causation answers with the verdict it holds. */
  lemma {:induction false} KnownAnswer(entries: seq<Entry>, req: Request, attempt: string, c: Causation, task: string)
    requires IsRequestOf(req, attempt, c, task) && IsOwn(entries, attempt, task)
    ensures CausationReplay(entries, req).None? <==> VerdictIn(entries, req.causation).None?
    ensures CausationReplay(entries, req).Some? ==>
      if VerdictIn(entries, req.causation) == Some(Verdict.Accepted) then CausationReplay(entries, req).value.Accepted?
      else CausationReplay(entries, req).value.Rejected?
  {
    if entries != [] {
      if Carries(entries[0], req.causation) {
        assert IsAnswerTo(entries[0].record, c, task);
      } else {
        forall i, d | 0 <= i < |entries[1..]| && Carries(entries[1..][i], Name(attempt, d))
          ensures IsAnswerTo(entries[1..][i].record, d, task)
        {
          assert entries[1..][i] == entries[i + 1];
        }
        KnownAnswer(entries[1..], req, attempt, c, task);
      }
    }
  }

  /** The record of a decided request is an answer to it, and its verdict is the response. */
  lemma DecidedAnswer(entries: seq<Entry>, req: Request, w: World, attempt: string, c: Causation, task: string)
    requires NextSeq(entries) >= 0 && IsRequestOf(req, attempt, c, task)
    requires Decide(req, Fold(entries), w.registry, w.bodyStored, w.defaultDeadline).Decided?
    ensures
      var d := Decide(req, Fold(entries), w.registry, w.bodyStored, w.defaultDeadline);
      var e := Event(NextSeq(entries), Compose(req, d.kind, d.payload, NextSeq(entries)));
      && IsAnswerTo(e.record, c, task)
      && VerdictIn([e], req.causation) == Some(if d.accepted then Verdict.Accepted else Verdict.Refused)
  {
    DecisionNamesRequest(req, Fold(entries), w);
  }

  /** An appended record under one causation of the attempt changes that verdict and no other. */
  lemma AppendedHolds(entries: seq<Entry>, e: Entry, attempt: string, ledger: seq<(Causation, Verdict)>,
                      c: Causation, v: Verdict)
    requires Holds(entries, attempt, ledger) && VerdictOf(ledger, c).None?
    requires e.Event? && e.record.causation == Text(Name(attempt, c))
    requires VerdictIn([e], Name(attempt, c)) == Some(v)
    ensures Holds(entries + [e], attempt, ledger + [(c, v)])
  {
    forall d ensures VerdictIn(entries + [e], Name(attempt, d)) == VerdictOf(ledger + [(c, v)], d) {
      VerdictOfAppended(entries, e, Name(attempt, d));
      LedgerOneMore(ledger, c, v, d);
      NamesDiffer(attempt, c, d);
      assert [e][1..] == [];
    }
  }

  lemma AppendedIsOwn(entries: seq<Entry>, e: Entry, attempt: string, task: string)
    requires IsOwn(entries, attempt, task)
    requires forall c | Carries(e, Name(attempt, c)) :: IsAnswerTo(e.record, c, task)
    ensures IsOwn(entries + [e], attempt, task)
  {
  }

  // --- the locked step does what asking does ------------------------------------------------------------

  /** How a response reads as an exit code: 0, 77, and 64 for a request the step could not decide. */
  function ReadAs(response: Response): Answer {
    match response
    case Accepted(_) => Granted
    case Rejected(_, _) => Denied
    case Failed(_) => BadArgument
  }

  /**
   * A request as the command makes it: one that finds the lock busy or breaks before it reaches the
   * stream makes none, and one that is killed after its commit answers like a broken one.
   */
  function Outcome(entries: seq<Entry>, req: Request, w: World, answer: Answer): (seq<Entry>, Answer)
    requires NextSeq(entries) >= 0
  {
    if answer.Busy? || answer.Broken? then (entries, answer)
    else
      var r := Submit(entries, req, w);
      (r.entries, if answer.Lost? then Broken else ReadAs(r.response))
  }

  /** The answer of the world under which asking does the same. */
  function AnswerFor(entries: seq<Entry>, req: Request, w: World, answer: Answer): Answer
    requires NextSeq(entries) >= 0
  {
    if answer.Busy? || answer.Broken? then answer
    else
      var response := Submit(entries, req, w).response;
      if !answer.Lost? then ReadAs(response)
      else if response.Failed? then Broken
      else Lost(response.Accepted?)
  }

  /** The step on the stream: what it holds afterwards and how it responds, by what it held. */
  lemma SubmitOnVerdicts(entries: seq<Entry>, req: Request, w: World, attempt: string, task: string,
                         c: Causation, ledger: seq<(Causation, Verdict)>)
    requires NextSeq(entries) >= 0 && IsRequestOf(req, attempt, c, task)
    requires IsOwn(entries, attempt, task) && Holds(entries, attempt, ledger)
    ensures
      var after := Submit(entries, req, w);
      && IsOwn(after.entries, attempt, task)
      && (after.response.Failed? ==> after.entries == entries)
      && (!after.response.Failed? ==>
            if VerdictOf(ledger, c).Some?
            then Holds(after.entries, attempt, ledger) && VerdictOf(ledger, c).value == OfVerdict(after.response.Accepted?)
            else Holds(after.entries, attempt, ledger + [(c, OfVerdict(after.response.Accepted?))]))
  {
    KnownAnswer(entries, req, attempt, c, task);
    var known := CausationReplay(entries, req);
    var d := Decide(req, Fold(entries), w.registry, w.bodyStored, w.defaultDeadline);
    if ScopeOk(w.registry, req.project, req.team) && known.None? && d.Decided? {
      DecidedAnswer(entries, req, w, attempt, c, task);
      var e := Event(NextSeq(entries), Compose(req, d.kind, d.payload, NextSeq(entries)));
      AppendedHolds(entries, e, attempt, ledger, c, OfVerdict(d.accepted));
      forall b | Carries(e, Name(attempt, b)) ensures IsAnswerTo(e.record, b, task) {
        NamesDiffer(attempt, b, c);
      }
      AppendedIsOwn(entries, e, attempt, task);
    }
  }

  /**
   * A request of the attempt, made to a stream that holds what the store holds: stream and store
   * still hold the same verdicts, and the procedure is given the same answer by either.
   */
  lemma AskFollowsSubmit(entries: seq<Entry>, req: Request, w: World, attempt: string, task: string,
                         c: Causation, ledger: seq<(Causation, Verdict)>, answer: Answer)
    requires NextSeq(entries) >= 0 && IsRequestOf(req, attempt, c, task)
    requires IsOwn(entries, attempt, task) && Holds(entries, attempt, ledger)
    ensures
      var (after, given) := Outcome(entries, req, w, answer);
      var (store, told) := Ask(ledger, c, AnswerFor(entries, req, w, answer));
      Holds(after, attempt, store) && IsOwn(after, attempt, task) && given == told
  {
    SubmitOnVerdicts(entries, req, w, attempt, task, c, ledger);
  }

  /** A team without its one lead: even a request on record as accepted comes back as a bad argument. */
  lemma LostScopeIsRefused(entries: seq<Entry>, req: Request, w: World, answer: Answer)
    requires NextSeq(entries) >= 0 && !ScopeOk(w.registry, req.project, req.team)
    requires !answer.Busy? && !answer.Broken? && !answer.Lost?
    ensures Outcome(entries, req, w, answer) == (entries, BadArgument)
    ensures AnswerFor(entries, req, w, answer) == BadArgument
  {
  }

  /** Everybody else's requests leave the attempt's verdicts alone. */
  lemma OthersLeaveTheVerdicts(entries: seq<Entry>, req: Request, w: World, attempt: string, task: string,
                               ledger: seq<(Causation, Verdict)>)
    requires NextSeq(entries) >= 0 && forall c :: req.causation != Name(attempt, c)
    requires IsOwn(entries, attempt, task) && Holds(entries, attempt, ledger)
    ensures
      var after := Submit(entries, req, w).entries;
      Holds(after, attempt, ledger) && IsOwn(after, attempt, task)
  {
    SubmitAddsAtMostOne(entries, req, w);
    var after := Submit(entries, req, w).entries;
    if after != entries {
      var e := after[|entries|];
      assert after == entries + [e];
      forall c ensures VerdictIn(after, Name(attempt, c)) == VerdictOf(ledger, c) {
        VerdictOfAppended(entries, e, Name(attempt, c));
        assert [e][1..] == [];
      }
      AppendedIsOwn(entries, e, attempt, task);
    }
  }
}
