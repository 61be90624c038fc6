/**
 * What each memory command does, told from the journals before and after it, and what the state of
 * an entry says about the commands of the run that led to it.
 */
module MemoryVerbs {
  import opened Results
  import opened LineGrammar
  import opened L = MemoryLines
  import opened Memory
  import Text

  /** A journal the agent shares with others and can reach. */
  predicate IsWithinReach(r: Registry, c: Caller, j: Journal) {
    j == ProjectWide(c.project) || (r.shared && j == Shared)
  }

  lemma WithinReach(r: Registry, c: Caller, j: Journal)
    ensures j in Reachable(r, c) <==> IsWithinReach(r, c, j)
  {
  }

  /** With ids unique, the search among the reachable journals finds the one that has the id. */
  lemma LocateIs(r: Registry, s: Store, c: Caller, j: Journal, id: string)
    requires IdsAreUnique(s)
    ensures Locate(s, Reachable(r, c), id) == Ok(j) <==> IsWithinReach(r, c, j) && id in EntriesOf(s, j)
  {
    AtMostOneJournal(r, s, c, id);
    HavingIsFound(s, Reachable(r, c), id);
    WithinReach(r, c, j);
    var found := Having(s, Reachable(r, c), id);
    if j in found {
      assert found == [j];
    }
  }

  /** The line is added to the journal and its entry is put there; no other journal changes. */
  ghost predicate IsPut(s: Store, t: Store, j: Journal, record: string, id: string, e: Entry) {
    && LinesOf(t, j) == LinesOf(s, j) + [record]
    && EntriesOf(t, j) == EntriesOf(s, j)[id := e]
    && forall other | other != j :: LinesOf(t, other) == LinesOf(s, other)
  }

  lemma PutIsPut(s: Store, t: Store, j: Journal, record: string, id: string, e: Entry)
    requires Puts(s, t, j, record, id, e)
    ensures IsPut(s, t, j, record, id, e) && t != s
  {
    AppendEffect(s, j, record, j);
    forall other | other != j ensures LinesOf(t, other) == LinesOf(s, other) {
      AppendEffect(s, j, record, other);
    }
    assert |LinesOf(t, j)| == |LinesOf(s, j)| + 1;
  }

  lemma EventIsPut(s: Store, c: Caller, j: Journal, id: string, event: string, note: string)
    requires IsPlain(c.now) && Text.IsUid(c.agent) && IsId(id) && event in STATES && IsPlain(note) && id in EntriesOf(s, j)
    ensures
      var record := EventLine(c.now, id, event, c.agent, note);
      var t := Append(s, j, record);
      t != s && IsPut(s, t, j, record, id, EntriesOf(s, j)[id].(state := event))
  {
    var record := EventLine(c.now, id, event, c.agent, note);
    EventPuts(s, c, j, id, event, note);
    PutIsPut(s, Append(s, j, record), j, record, id, EntriesOf(s, j)[id].(state := event));
  }

  lemma ProposalIsPut(s: Store, c: Caller, scope: Scope, key: string, body: string, id: string)
    requires IsPlain(c.now) && Text.IsUid(c.agent) && IsId(id)
    ensures
      var j, record := Target(c, scope), NewLine(c, scope, key, body, id);
      Append(s, j, record) != s && IsPut(s, Append(s, j, record), j, record, id, NewEntry(c, scope, key, body))
  {
    var j, record := Target(c, scope), NewLine(c, scope, key, body, id);
    ProposalPuts(s, c, scope, key, body, id);
    PutIsPut(s, Append(s, j, record), j, record, id, NewEntry(c, scope, key, body));
  }

  // --- the three commands -------------------------------------------------------------------------------

  /** A review that takes effect: by another agent, of a proposal it can reach and does not hide itself. */
  ghost predicate MayReview(r: Registry, s: Store, c: Caller, j: Journal, id: string) {
    && IsId(id) && id !in EntriesOf(s, Private(c.project, c.agent))
    && IsWithinReach(r, c, j) && id in EntriesOf(s, j)
    && EntriesOf(s, j)[id].author != c.agent && EntriesOf(s, j)[id].state == "PROPOSED"
  }

  /**
   * A review changes the journals if and only if it may take effect, and then the entry's state is the
   * verdict the command gave, on record under the reviewer's name. Otherwise nothing changes.
   */
  lemma ReviewIff(r: Registry, s: Store, c: Caller, j: Journal, id: string, accept: bool, note: string)
    requires Valid(r, s) && IsCaller(r, c)
    ensures
      var t := Next(r, s, c, Review(j, id, accept, note));
      && (t != s <==> MayReview(r, s, c, j, id))
      && (t != s ==> IsPut(s, t, j, EventLine(c.now, id, if accept then "REVIEWED_ACCEPT" else "REVIEWED_REJECT", c.agent, Encode(note)),
                           id, EntriesOf(s, j)[id].(state := if accept then "REVIEWED_ACCEPT" else "REVIEWED_REJECT")))
  {
    ReviewAppendsIff(r, s, c, j, id, accept, note);
    if MayReview(r, s, c, j, id) {
      EventIsPut(s, c, j, id, if accept then "REVIEWED_ACCEPT" else "REVIEWED_REJECT", Encode(note));
    }
  }

  lemma ReviewAppendsIff(r: Registry, s: Store, c: Caller, j: Journal, id: string, accept: bool, note: string)
    requires Valid(r, s)
    ensures
      var t := Next(r, s, c, Review(j, id, accept, note));
      if MayReview(r, s, c, j, id) then
        t == Append(s, j, EventLine(c.now, id, if accept then "REVIEWED_ACCEPT" else "REVIEWED_REJECT", c.agent, Encode(note)))
      else t == s
  {
    if IsId(id) {
      ReviewDecidesIff(r, s, c, j, id, accept, note,
                       EventLine(c.now, id, if accept then "REVIEWED_ACCEPT" else "REVIEWED_REJECT", c.agent, Encode(note)));
    }
  }

  lemma ReviewDecidesIff(r: Registry, s: Store, c: Caller, j: Journal, id: string, accept: bool, note: string, record: string)
    requires Valid(r, s) && IsId(id)
    requires record == EventLine(c.now, id, if accept then "REVIEWED_ACCEPT" else "REVIEWED_REJECT", c.agent, Encode(note))
    ensures
      var d := DecideReview(r, s, c, j, id, accept, note);
      if MayReview(r, s, c, j, id) then d == Ok(Some((j, record))) else d.Err? || d.value.None?
  {
    LocateIs(r, s, c, j, id);
    if id in EntriesOf(s, Private(c.project, c.agent)) || Locate(s, Reachable(r, c), id) != Ok(j) {
      ReviewMisses(r, s, c, j, id, accept, note);
    } else {
      ReviewFinds(r, s, c, j, id, accept, note, EntriesOf(s, j)[id], record);
    }
  }

  lemma ReviewMisses(r: Registry, s: Store, c: Caller, j: Journal, id: string, accept: bool, note: string)
    requires id in EntriesOf(s, Private(c.project, c.agent)) || Locate(s, Reachable(r, c), id) != Ok(j)
    ensures DecideReview(r, s, c, j, id, accept, note).Err?
  {
  }

  lemma ReviewFinds(r: Registry, s: Store, c: Caller, j: Journal, id: string, accept: bool, note: string, e: Entry, record: string)
    requires id !in EntriesOf(s, Private(c.project, c.agent)) && Locate(s, Reachable(r, c), id) == Ok(j)
    requires e == EntriesOf(s, j)[id]
    requires record == EventLine(c.now, id, if accept then "REVIEWED_ACCEPT" else "REVIEWED_REJECT", c.agent, Encode(note))
    ensures
      var d := DecideReview(r, s, c, j, id, accept, note);
      if e.author != c.agent && e.state == "PROPOSED" then d == Ok(Some((j, record))) else d.Err? || d.value.None?
  {
  }

  /** A promotion that takes effect: of an accepted entry within reach. */
  ghost predicate MayPromote(r: Registry, s: Store, c: Caller, j: Journal, id: string) {
    IsId(id) && IsWithinReach(r, c, j) && id in EntriesOf(s, j) && EntriesOf(s, j)[id].state == "REVIEWED_ACCEPT"
  }

  lemma PromoteIff(r: Registry, s: Store, c: Caller, j: Journal, id: string)
    requires Valid(r, s) && IsCaller(r, c)
    ensures
      var t := Next(r, s, c, Promote(j, id));
      && (t != s <==> MayPromote(r, s, c, j, id))
      && (t != s ==> IsPut(s, t, j, EventLine(c.now, id, "PROMOTED", c.agent, ""),
                           id, EntriesOf(s, j)[id].(state := "PROMOTED")))
  {
    LocateIs(r, s, c, j, id);
    if MayPromote(r, s, c, j, id) {
      EventIsPut(s, c, j, id, "PROMOTED", "");
    }
  }

  /** A proposal that takes effect: with a text, for a scope that is there, under an id no agent who sees the target sees. */
  ghost predicate MayPropose(r: Registry, s: Store, c: Caller, scope: Scope, body: string, id: string) {
    && IsId(id) && body != "" && (scope.SharedScope? ==> r.shared)
    && forall j | j == Target(c, scope) || Together(j, Target(c, scope)) :: id !in EntriesOf(s, j)
  }

  /** Nothing outside the target's company is searched. */
  lemma NamespaceIsTogether(r: Registry, files: seq<Journal>, c: Caller, scope: Scope, j: Journal)
    requires j in Namespace(r, files, c, scope) && (scope.SharedScope? ==> r.shared)
    ensures j == Target(c, scope) || Together(j, Target(c, scope))
  {
    PrivatesAreListed(files, c.project, j);
    ProjectsAreListed(files, r.projects, j);
  }

  lemma FoundIsTogether(r: Registry, s: Store, c: Caller, scope: Scope, id: string)
    requires IsListed(r, s) && IsCaller(r, c) && (scope.SharedScope? ==> r.shared)
    ensures
      var found := FirstWith(s, Namespace(r, s.files, c, scope), id);
      && (found.None? <==> forall j | j == Target(c, scope) || Together(j, Target(c, scope)) :: id !in EntriesOf(s, j))
      && (found.Some? ==> found.value == Target(c, scope) || Together(found.value, Target(c, scope)))
  {
    var js := Namespace(r, s.files, c, scope);
    var found := FirstWith(s, js, id);
    if found.Some? {
      NamespaceIsTogether(r, s.files, c, scope, found.value);
    } else {
      forall j | j == Target(c, scope) || Together(j, Target(c, scope)) ensures id !in EntriesOf(s, j) {
        if j in s.lines {
          NamespaceCovers(r, s, c, scope, j);
        }
      }
    }
  }

  /**
   * A proposal changes the journals if and only if it may take effect, and then the target has a new
   * entry in the proposer's name, with the key and text given, in state PROPOSED.
   */
  lemma ProposeIff(r: Registry, s: Store, c: Caller, scope: Scope, key: string, body: string, id: string)
    requires Valid(r, s) && IsCaller(r, c)
    ensures
      var t := Next(r, s, c, Propose(scope, key, body, id));
      var name := if scope.AgentScope? then "agent" else if scope.ProjectScope? then "project" else "shared";
      && (t != s <==> MayPropose(r, s, c, scope, body, id))
      && (t != s ==> IsPut(s, t, Target(c, scope), ProposalLine(c.now, id, name, c.agent, Encode(key), Encode(body)),
                           id, Entry(name, c.agent, Encode(key), c.now, Encode(body), "PROPOSED")))
  {
    ProposePutsIff(r, s, c, scope, key, body, id);
  }

  lemma ProposePutsIff(r: Registry, s: Store, c: Caller, scope: Scope, key: string, body: string, id: string)
    requires Valid(r, s) && IsCaller(r, c)
    ensures
      var t := Next(r, s, c, Propose(scope, key, body, id));
      && (t != s <==> MayPropose(r, s, c, scope, body, id))
      && (t != s ==> IsPut(s, t, Target(c, scope), NewLine(c, scope, key, body, id), id, NewEntry(c, scope, key, body)))
  {
    if IsId(id) && body != "" && (scope.SharedScope? ==> r.shared) {
      FoundIsTogether(r, s, c, scope, id);
      if MayPropose(r, s, c, scope, body, id) {
        ProposalIsPut(s, c, scope, key, body, id);
      }
    }
  }

  /**
   * What a command answers when it changes nothing: it succeeds only where it was carried out before,
   * the same proposal still waiting, the same verdict given, the entry promoted.
   */
  lemma RepeatedCommandIsTaken(r: Registry, s: Store, c: Caller, cmd: Command)
    requires Valid(r, s) && IsCaller(r, c) && Next(r, s, c, cmd) == s
    ensures
      Decide(r, s, c, cmd).Ok? <==>
        && IsId(cmd.id)
        && match cmd
           case Propose(scope, _, body, id) =>
             && body != "" && (scope.SharedScope? ==> r.shared)
             && id in EntriesOf(s, Target(c, scope)) && EntriesOf(s, Target(c, scope))[id].state == "PROPOSED"
           case Review(j, id, accept, _) =>
             && id !in EntriesOf(s, Private(c.project, c.agent)) && IsWithinReach(r, c, j) && id in EntriesOf(s, j)
             && EntriesOf(s, j)[id].author != c.agent
             && EntriesOf(s, j)[id].state == (if accept then "REVIEWED_ACCEPT" else "REVIEWED_REJECT")
           case Promote(j, id) =>
             IsWithinReach(r, c, j) && id in EntriesOf(s, j) && EntriesOf(s, j)[id].state == "PROMOTED"
  {
    match cmd
    case Propose(scope, key, body, id) =>
      ProposeIff(r, s, c, scope, key, body, id);
      if body != "" && (scope.SharedScope? ==> r.shared) {
        FoundIsTogether(r, s, c, scope, id);
      }
    case Review(j, id, accept, note) =>
      ReviewIff(r, s, c, j, id, accept, note);
      LocateIs(r, s, c, j, id);
    case Promote(j, id) =>
      PromoteIff(r, s, c, j, id);
      LocateIs(r, s, c, j, id);
  }

  // --- what a state says about the run ---------------------------------------------------------------------

  type Steps = seq<(Caller, Command)>

  /** The step proposes the entry, under its id, for its journal, in its author's name. */
  predicate ProposesIt(step: (Caller, Command), j: Journal, id: string, e: Entry) {
    && step.1.Propose? && step.1.id == id && Target(step.0, step.1.scope) == j
    && step.0.agent == e.author && Encode(step.1.key) == e.key && Encode(step.1.body) == e.body
  }

  /** The step gives the verdict on the entry, and not in its author's name. */
  predicate ReviewsIt(step: (Caller, Command), j: Journal, id: string, e: Entry, accept: bool) {
    step.1.Review? && step.1.target == j && step.1.id == id && step.1.accept == accept && step.0.agent != e.author
  }

  predicate PromotesIt(step: (Caller, Command), j: Journal, id: string) {
    step.1 == Promote(j, id)
  }

  ghost predicate WasProposed(steps: Steps, j: Journal, id: string, e: Entry) {
    exists k :: 0 <= k < |steps| && ProposesIt(steps[k], j, id, e)
  }

  /** A review with that verdict, after the proposal. */
  ghost predicate WasReviewed(steps: Steps, j: Journal, id: string, e: Entry, accept: bool) {
    exists k :: 0 <= k < |steps| && ReviewsIt(steps[k], j, id, e, accept) && WasProposed(steps[..k], j, id, e)
  }

  /** A promotion, after an accepting review. */
  ghost predicate WasPromoted(steps: Steps, j: Journal, id: string, e: Entry) {
    exists k :: 0 <= k < |steps| && PromotesIt(steps[k], j, id) && WasReviewed(steps[..k], j, id, e, true)
  }

  /** The commands that must have led to an entry in its state. */
  ghost predicate IsEarned(steps: Steps, j: Journal, id: string, e: Entry) {
    match e.state
    case "PROPOSED" => WasProposed(steps, j, id, e)
    case "REVIEWED_ACCEPT" => WasReviewed(steps, j, id, e, true)
    case "REVIEWED_REJECT" => WasReviewed(steps, j, id, e, false)
    case "PROMOTED" => WasPromoted(steps, j, id, e)
    case _ => false
  }

  lemma StillProposed(steps: Steps, step: (Caller, Command), j: Journal, id: string, e: Entry)
    requires WasProposed(steps, j, id, e)
    ensures WasProposed(steps + [step], j, id, e)
  {
    var k :| 0 <= k < |steps| && ProposesIt(steps[k], j, id, e);
    assert (steps + [step])[k] == steps[k];
  }

  lemma StillReviewed(steps: Steps, step: (Caller, Command), j: Journal, id: string, e: Entry, accept: bool)
    requires WasReviewed(steps, j, id, e, accept)
    ensures WasReviewed(steps + [step], j, id, e, accept)
  {
    var k :| 0 <= k < |steps| && ReviewsIt(steps[k], j, id, e, accept) && WasProposed(steps[..k], j, id, e);
    assert (steps + [step])[k] == steps[k] && (steps + [step])[..k] == steps[..k];
  }

  lemma StillPromoted(steps: Steps, step: (Caller, Command), j: Journal, id: string, e: Entry)
    requires WasPromoted(steps, j, id, e)
    ensures WasPromoted(steps + [step], j, id, e)
  {
    var k :| 0 <= k < |steps| && PromotesIt(steps[k], j, id) && WasReviewed(steps[..k], j, id, e, true);
    assert (steps + [step])[k] == steps[k] && (steps + [step])[..k] == steps[..k];
  }

  lemma StillEarned(steps: Steps, step: (Caller, Command), j: Journal, id: string, e: Entry)
    requires IsEarned(steps, j, id, e)
    ensures IsEarned(steps + [step], j, id, e)
  {
    match e.state
    case "PROPOSED" => StillProposed(steps, step, j, id, e);
    case "REVIEWED_ACCEPT" => StillReviewed(steps, step, j, id, e, true);
    case "REVIEWED_REJECT" => StillReviewed(steps, step, j, id, e, false);
    case _ => StillPromoted(steps, step, j, id, e);
  }

  lemma NowProposed(steps: Steps, step: (Caller, Command), j: Journal, id: string, e: Entry)
    requires ProposesIt(step, j, id, e)
    ensures WasProposed(steps + [step], j, id, e)
  {
    assert (steps + [step])[|steps|] == step;
  }

  /** Who proposed an entry does not depend on the state it has come to. */
  lemma ProposedInAnyState(steps: Steps, j: Journal, id: string, e: Entry, f: Entry)
    requires WasProposed(steps, j, id, e) && f == e.(state := f.state)
    ensures WasProposed(steps, j, id, f)
  {
    var k :| 0 <= k < |steps| && ProposesIt(steps[k], j, id, e);
    assert ProposesIt(steps[k], j, id, f);
  }

  lemma NowReviewed(steps: Steps, step: (Caller, Command), j: Journal, id: string, e: Entry, f: Entry, accept: bool)
    requires ReviewsIt(step, j, id, e, accept) && WasProposed(steps, j, id, e) && f == e.(state := f.state)
    ensures WasReviewed(steps + [step], j, id, f, accept)
  {
    ProposedInAnyState(steps, j, id, e, f);
    assert (steps + [step])[|steps|] == step && (steps + [step])[..|steps|] == steps;
    assert ReviewsIt(step, j, id, f, accept);
  }

  lemma NowPromoted(steps: Steps, step: (Caller, Command), j: Journal, id: string, e: Entry, f: Entry)
    requires PromotesIt(step, j, id) && WasReviewed(steps, j, id, e, true) && f == e.(state := f.state)
    ensures WasPromoted(steps + [step], j, id, f)
  {
    var k :| 0 <= k < |steps| && ReviewsIt(steps[k], j, id, e, true) && WasProposed(steps[..k], j, id, e);
    ProposedInAnyState(steps[..k], j, id, e, f);
    assert ReviewsIt(steps[k], j, id, f, true);
    assert WasReviewed(steps, j, id, f, true);
    assert (steps + [step])[|steps|] == step && (steps + [step])[..|steps|] == steps;
  }

  lemma ProposalEarns(r: Registry, steps: Steps, s: Store, c: Caller, cmd: Command, j: Journal, id: string)
    requires Valid(r, s) && IsCaller(r, c) && cmd.Propose?
    requires id in EntriesOf(s, j) ==> IsEarned(steps, j, id, EntriesOf(s, j)[id])
    requires id in EntriesOf(Next(r, s, c, cmd), j)
    ensures IsEarned(steps + [(c, cmd)], j, id, EntriesOf(Next(r, s, c, cmd), j)[id])
  {
    var t, at := Next(r, s, c, cmd), Target(c, cmd.scope);
    ProposePutsIff(r, s, c, cmd.scope, cmd.key, cmd.body, cmd.id);
    if t != s && j == at && id == cmd.id {
      assert ProposesIt((c, cmd), j, id, EntriesOf(t, j)[id]);
      NowProposed(steps, (c, cmd), j, id, EntriesOf(t, j)[id]);
    } else {
      assert EntriesOf(t, j)[id] == EntriesOf(s, j)[id];
      StillEarned(steps, (c, cmd), j, id, EntriesOf(s, j)[id]);
    }
  }

  lemma ReviewEarns(r: Registry, steps: Steps, s: Store, c: Caller, cmd: Command, j: Journal, id: string)
    requires Valid(r, s) && IsCaller(r, c) && cmd.Review?
    requires id in EntriesOf(s, j) ==> IsEarned(steps, j, id, EntriesOf(s, j)[id])
    requires id in EntriesOf(Next(r, s, c, cmd), j)
    ensures IsEarned(steps + [(c, cmd)], j, id, EntriesOf(Next(r, s, c, cmd), j)[id])
  {
    var t := Next(r, s, c, cmd);
    ReviewIff(r, s, c, cmd.target, cmd.id, cmd.accept, cmd.note);
    if t != s && j == cmd.target && id == cmd.id {
      NowReviewed(steps, (c, cmd), j, id, EntriesOf(s, j)[id], EntriesOf(t, j)[id], cmd.accept);
    } else {
      assert EntriesOf(t, j)[id] == EntriesOf(s, j)[id];
      StillEarned(steps, (c, cmd), j, id, EntriesOf(s, j)[id]);
    }
  }

  lemma PromotionEarns(r: Registry, steps: Steps, s: Store, c: Caller, cmd: Command, j: Journal, id: string)
    requires Valid(r, s) && IsCaller(r, c) && cmd.Promote?
    requires id in EntriesOf(s, j) ==> IsEarned(steps, j, id, EntriesOf(s, j)[id])
    requires id in EntriesOf(Next(r, s, c, cmd), j)
    ensures IsEarned(steps + [(c, cmd)], j, id, EntriesOf(Next(r, s, c, cmd), j)[id])
  {
    var t := Next(r, s, c, cmd);
    PromoteIff(r, s, c, cmd.target, cmd.id);
    if t != s && j == cmd.target && id == cmd.id {
      NowPromoted(steps, (c, cmd), j, id, EntriesOf(s, j)[id], EntriesOf(t, j)[id]);
    } else {
      assert EntriesOf(t, j)[id] == EntriesOf(s, j)[id];
      StillEarned(steps, (c, cmd), j, id, EntriesOf(s, j)[id]);
    }
  }

  /** A command leaves an entry as it was, or is the one that earned it its state. */
  lemma OneStepEarns(r: Registry, steps: Steps, s: Store, step: (Caller, Command), j: Journal, id: string)
    requires Valid(r, s) && IsCaller(r, step.0)
    requires id in EntriesOf(s, j) ==> IsEarned(steps, j, id, EntriesOf(s, j)[id])
    requires id in EntriesOf(Next(r, s, step.0, step.1), j)
    ensures IsEarned(steps + [step], j, id, EntriesOf(Next(r, s, step.0, step.1), j)[id])
  {
    assert step == (step.0, step.1);
    match step.1
    case Propose(_, _, _, _) => ProposalEarns(r, steps, s, step.0, step.1, j, id);
    case Review(_, _, _, _) => ReviewEarns(r, steps, s, step.0, step.1, j, id);
    case Promote(_, _) => PromotionEarns(r, steps, s, step.0, step.1, j, id);
  }

  /**
   * Over every run: an entry in its journal was proposed there by its author with its key and text. If it
   * is accepted or rejected, another agent then gave that verdict; if it is promoted, another agent
   * accepted it and a promotion followed.
   */
  lemma {:induction false} EveryStateIsEarned(r: Registry, steps: Steps, j: Journal, id: string)
    requires forall k | 0 <= k < |steps| :: IsCaller(r, steps[k].0)
    requires id in EntriesOf(Run(r, steps), j)
    ensures IsEarned(steps, j, id, EntriesOf(Run(r, steps), j)[id])
  {
    if steps != [] {
      var before, last := steps[..|steps| - 1], steps[|steps| - 1];
      assert steps == before + [last];
      if id in EntriesOf(Run(r, before), j) {
        EveryStateIsEarned(r, before, j, id);
      }
      EveryRunIsValid(r, before);
      OneStepEarns(r, before, Run(r, before), last, j, id);
    }
  }

  lemma PromotedInOrder(steps: Steps, j: Journal, id: string, e: Entry) returns (i: nat, k: nat)
    requires WasPromoted(steps, j, id, e)
    ensures i < k < |steps| && PromotesIt(steps[k], j, id) && ReviewsIt(steps[i], j, id, e, true)
    ensures WasProposed(steps[..i], j, id, e)
  {
    k :| 0 <= k < |steps| && PromotesIt(steps[k], j, id) && WasReviewed(steps[..k], j, id, e, true);
    i :| 0 <= i < |steps[..k]| && ReviewsIt(steps[..k][i], j, id, e, true) && WasProposed(steps[..k][..i], j, id, e);
    assert steps[..k][..i] == steps[..i];
  }

  /**
   * Trust over the run: what an agent is shown of another's, it is shown because some agent other than
   * the author ran an accepting review of it after its proposal, and then some agent promoted it.
   */
  lemma WhatIsRecalledWasAccepted(r: Registry, steps: Steps, c: Caller, j: Journal, id: string,
                                  scope: Option<Scope>, key: string)
    returns (i: nat, k: nat)
    requires forall n | 0 <= n < |steps| :: IsCaller(r, steps[n].0)
    requires j in Visible(r, c) && id in EntriesOf(Run(r, steps), j)
    requires IsRecalled(c, j, EntriesOf(Run(r, steps), j)[id], scope, key)
    requires EntriesOf(Run(r, steps), j)[id].author != c.agent
    ensures i < k < |steps| && steps[k].1 == Promote(j, id)
    ensures steps[i].1.Review? && steps[i].1.target == j && steps[i].1.id == id && steps[i].1.accept
    ensures steps[i].0.agent != EntriesOf(Run(r, steps), j)[id].author
    ensures WasProposed(steps[..i], j, id, EntriesOf(Run(r, steps), j)[id])
  {
    var e := EntriesOf(Run(r, steps), j)[id];
    RecallIsTrusted(r, steps, c, j, id, scope, key);
    EveryStateIsEarned(r, steps, j, id);
    i, k := PromotedInOrder(steps, j, id, e);
  }

  /**
   * Over every run an agent is shown, of the journals it sees, what is promoted and its own pending
   * proposals, its private memory among them, and nothing else; a scope or key asked for narrows that.
   */
  lemma RecalledIff(r: Registry, steps: Steps, c: Caller, j: Journal, id: string, scope: Option<Scope>, key: string)
    requires forall n | 0 <= n < |steps| :: IsCaller(r, steps[n].0)
    requires j in Visible(r, c) && id in EntriesOf(Run(r, steps), j)
    ensures
      var e := EntriesOf(Run(r, steps), j)[id];
      IsRecalled(c, j, e, scope, key) <==>
        && (e.state == "PROMOTED" || (e.state == "PROPOSED" && e.author == c.agent))
        && (scope == None || scope == Some(ScopeOf(j))) && (key == "" || key == e.key)
  {
    EveryRunIsValid(r, steps);
    var s := Run(r, steps);
    assert IsTrusted(j, LinesOf(s, j), id, EntriesOf(s, j)[id]);
    RecalledWhenTrusted(c, j, EntriesOf(s, j)[id], scope, key);
  }

  lemma ScopeNamesDiffer(a: Scope, b: Scope)
    ensures ScopeName(a) == ScopeName(b) <==> a == b
  {
  }

  lemma RecalledWhenTrusted(c: Caller, j: Journal, e: Entry, scope: Option<Scope>, key: string)
    requires e.scope == ScopeName(ScopeOf(j))
    requires j.Private? ==> j.agent == c.agent && e.author == j.agent && e.state == "PROPOSED"
    ensures IsRecalled(c, j, e, scope, key) <==>
              && (e.state == "PROMOTED" || (e.state == "PROPOSED" && e.author == c.agent))
              && (scope == None || scope == Some(ScopeOf(j))) && (key == "" || key == e.key)
  {
    if scope.Some? {
      ScopeNamesDiffer(ScopeOf(j), scope.value);
    }
  }
}
