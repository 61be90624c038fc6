/**
 * Scoped memory: private, project and shared journals under one lock, proposals whose ids are
 * unique wherever an agent can look, and promotion only after another agent's review.
 */
module Memory {
  import opened Results
  import opened LineGrammar
  import opened L = MemoryLines
  import Text

  datatype Journal =
    | Private(project: string, agent: string)
    | ProjectWide(project: string)
    | Shared

  datatype Scope = AgentScope | ProjectScope | SharedScope

  function ScopeName(scope: Scope): string {
    match scope
    case AgentScope => "agent"
    case ProjectScope => "project"
    case SharedScope => "shared"
  }

  function ScopeOf(j: Journal): Scope {
    match j
    case Private(_, _) => AgentScope
    case ProjectWide(_) => ProjectScope
    case Shared => SharedScope
  }

  /** The registered projects, and whether a shared directory is configured. */
  datatype Registry = Registry(projects: seq<string>, shared: bool)

  /** The clock and the agent a command runs as. */
  datatype Caller = Caller(now: string, project: string, agent: string)

  predicate IsCaller(r: Registry, c: Caller) {
    IsPlain(c.now) && c.project in r.projects && Text.IsUid(c.agent)
  }

  /** The journal files that exist, in directory order, and their lines. */
  datatype Store = Store(files: seq<Journal>, lines: map<Journal, seq<string>>)

  const EMPTY_STORE := Store([], map[])

  function LinesOf(s: Store, j: Journal): seq<string> {
    if j in s.lines then s.lines[j] else []
  }

  function EntriesOf(s: Store, j: Journal): Entries {
    Fold(LinesOf(s, j))
  }

  function Append(s: Store, j: Journal, record: string): Store {
    Store(if j in s.files then s.files else s.files + [j], s.lines[j := LinesOf(s, j) + [record]])
  }

  // --- where a command looks ----------------------------------------------------------------------

  function Target(c: Caller, scope: Scope): Journal {
    match scope
    case AgentScope => Private(c.project, c.agent)
    case ProjectScope => ProjectWide(c.project)
    case SharedScope => Shared
  }

  /** The private journals of a project, as its directory lists them. */
  function PrivatesOf(files: seq<Journal>, project: string): seq<Journal> {
    if files == [] then []
    else
      var last := files[|files| - 1];
      PrivatesOf(files[..|files| - 1], project) + if last.Private? && last.project == project then [last] else []
  }

  function ProjectJournals(files: seq<Journal>, projects: seq<string>): seq<Journal> {
    if projects == [] then []
    else
      var last := projects[|projects| - 1];
      ProjectJournals(files, projects[..|projects| - 1]) + PrivatesOf(files, last) + [ProjectWide(last)]
  }

  /** The journals a new id of a scope must be absent from. */
  function Namespace(r: Registry, files: seq<Journal>, c: Caller, scope: Scope): seq<Journal> {
    (match scope
     case AgentScope => [Private(c.project, c.agent), ProjectWide(c.project)]
     case ProjectScope => PrivatesOf(files, c.project) + [ProjectWide(c.project)]
     case SharedScope => ProjectJournals(files, r.projects))
    + if r.shared then [Shared] else []
  }

  function FirstWith(s: Store, js: seq<Journal>, id: string): (j: Option<Journal>)
    ensures j.Some? ==> j.value in js && id in EntriesOf(s, j.value)
    ensures j.None? ==> forall k | 0 <= k < |js| :: id !in EntriesOf(s, js[k])
  {
    if js == [] then None
    else if id in EntriesOf(s, js[0]) then Some(js[0])
    else FirstWith(s, js[1..], id)
  }

  function Reachable(r: Registry, c: Caller): seq<Journal> {
    [ProjectWide(c.project)] + if r.shared then [Shared] else []
  }

  function Having(s: Store, js: seq<Journal>, id: string): seq<Journal> {
    if js == [] then []
    else (if id in EntriesOf(s, js[0]) then [js[0]] else []) + Having(s, js[1..], id)
  }

  /** The one journal that has the id; none and several are refusals. */
  function Locate(s: Store, js: seq<Journal>, id: string): (j: Result<Journal>)
    ensures j.Ok? ==> id in EntriesOf(s, j.value) && j.value in js
  {
    var found := Having(s, js, id);
    HavingIsFound(s, js, id);
    if |found| == 0 then Err("not in a reachable journal")
    else if |found| == 1 then assert found[0] in found; Ok(found[0])
    else Err("ambiguous")
  }

  lemma {:induction false} HavingIsFound(s: Store, js: seq<Journal>, id: string)
    ensures forall j :: j in Having(s, js, id) <==> j in js && id in EntriesOf(s, j)
  {
    if js != [] {
      HavingIsFound(s, js[1..], id);
      assert js == [js[0]] + js[1..];
    }
  }

  lemma {:induction false} HavingOneMore(s: Store, js: seq<Journal>, j: Journal, id: string)
    ensures Having(s, js + [j], id) == Having(s, js, id) + if id in EntriesOf(s, j) then [j] else []
  {
    if js == [] {
      assert [j][1..] == [] && js + [j] == [j];
    } else {
      assert (js + [j])[1..] == js[1..] + [j];
      HavingOneMore(s, js[1..], j, id);
    }
  }

  // --- the commands ---------------------------------------------------------------------------------

  /**
   * An omitted id is drawn until it is absent from the namespace, which is a proposal of that id.
   * The target of a review or a promotion is where the id was found before the lock was taken.
   */
  datatype Command =
    | Propose(scope: Scope, key: string, body: string, id: string)
    | Review(target: Journal, id: string, accept: bool, note: string)
    | Promote(target: Journal, id: string)

  type Decision = Result<Option<(Journal, string)>>

  function DecidePropose(r: Registry, s: Store, c: Caller, scope: Scope, key: string, body: string, id: string): Decision {
    if body == "" then Err("usage")
    else if scope.SharedScope? && !r.shared then Err("shared_memory_dir is not configured")
    else
      match FirstWith(s, Namespace(r, s.files, c, scope), id)
      case None =>
        Ok(Some((Target(c, scope),
                 ProposalLine(c.now, id, ScopeName(scope), c.agent, Encode(key), Encode(body)))))
      case Some(j) =>
        if j != Target(c, scope) then Err("already exists in another journal")
        else if EntriesOf(s, j)[id].state == "PROPOSED" then Ok(None)
        else Err("already exists")
  }

  function DecideReview(r: Registry, s: Store, c: Caller, target: Journal, id: string, accept: bool, note: string): Decision {
    if id in EntriesOf(s, Private(c.project, c.agent)) then Err("private and not reviewable")
    else
      var j :- Locate(s, Reachable(r, c), id);
      var e := EntriesOf(s, j)[id];
      if j != target then Err("changed journal")
      else if e.author == c.agent then Err("memory author cannot review its own proposal")
      else if e.state == (if accept then "REVIEWED_ACCEPT" else "REVIEWED_REJECT") then Ok(None)
      else if e.state == "REVIEWED_ACCEPT" || e.state == "REVIEWED_REJECT" then Err("conflicting review")
      else if e.state != "PROPOSED" then Err("not reviewable")
      else
        Ok(Some((j, EventLine(c.now, id, if accept then "REVIEWED_ACCEPT" else "REVIEWED_REJECT", c.agent, Encode(note)))))
  }

  function DecidePromote(r: Registry, s: Store, c: Caller, target: Journal, id: string): Decision {
    var j :- Locate(s, Reachable(r, c), id);
    var state := EntriesOf(s, j)[id].state;
    if j != target then Err("changed journal")
    else if state == "PROMOTED" then Ok(None)
    else if state == "REVIEWED_ACCEPT" then Ok(Some((j, EventLine(c.now, id, "PROMOTED", c.agent, ""))))
    else Err("cannot be promoted")
  }

  function Decide(r: Registry, s: Store, c: Caller, cmd: Command): Decision {
    if !IsId(cmd.id) then Err("invalid memory id")
    else
      match cmd
      case Propose(scope, key, body, id) => DecidePropose(r, s, c, scope, key, body, id)
      case Review(target, id, accept, note) => DecideReview(r, s, c, target, id, accept, note)
      case Promote(target, id) => DecidePromote(r, s, c, target, id)
  }

  function Next(r: Registry, s: Store, c: Caller, cmd: Command): Store {
    match Decide(r, s, c, cmd)
    case Ok(Some((j, record))) => Append(s, j, record)
    case _ => s
  }

  // --- what an agent is shown --------------------------------------------------------------------------

  /** The recall filter: own private memory, promoted collective memory, own pending proposals. */
  predicate IsRecalled(c: Caller, j: Journal, e: Entry, scope: Option<Scope>, key: string) {
    && e.scope == ScopeName(ScopeOf(j))
    && (scope.Some? ==> e.scope == ScopeName(scope.value))
    && (key != "" ==> e.key == key)
    && (if j.Private? then e.author == c.agent
        else e.state == "PROMOTED" || (e.author == c.agent && e.state == "PROPOSED"))
  }

  function Visible(r: Registry, c: Caller): seq<Journal> {
    [Private(c.project, c.agent)] + Reachable(r, c)
  }

  // --- the journals under their lock ---------------------------------------------------------------------

  class JournalFiles {
    const registry: Registry
    var files: seq<Journal>
    var lines: map<Journal, seq<string>>

    constructor (r: Registry)
      ensures registry == r && Contents() == EMPTY_STORE
    {
      registry := r;
      files, lines := [], map[];
    }

    function Contents(): Store
      reads this
    {
      Store(files, lines)
    }

    method Glob(project: string) returns (js: seq<Journal>)
      ensures js == PrivatesOf(files, project)
    {
      js := [];
      for i := 0 to |files|
        invariant js == PrivatesOf(files[..i], project)
      {
        assert files[..i + 1][..i] == files[..i];
        if files[i].Private? && files[i].project == project {
          js := js + [files[i]];
        }
      }
      assert files[..|files|] == files;
    }

    method CollisionJournals(c: Caller, scope: Scope) returns (js: seq<Journal>)
      ensures js == Namespace(registry, files, c, scope)
    {
      js := [];
      match scope {
        case AgentScope =>
          js := [Private(c.project, c.agent), ProjectWide(c.project)];
        case ProjectScope =>
          js := Glob(c.project);
          js := js + [ProjectWide(c.project)];
        case SharedScope =>
          var projects := registry.projects;
          for i := 0 to |projects|
            invariant js == ProjectJournals(files, projects[..i])
          {
            assert projects[..i + 1][..i] == projects[..i];
            var privates := Glob(projects[i]);
            js := js + privates + [ProjectWide(projects[i])];
          }
          assert projects[..|projects|] == projects;
      }
      if registry.shared {
        js := js + [Shared];
      } else {
        assert js + [] == js;
      }
    }

    method FindFirst(js: seq<Journal>, id: string) returns (found: Option<Journal>)
      ensures found == FirstWith(Contents(), js, id)
    {
      var i := 0;
      while i < |js|
        invariant i <= |js|
        invariant FirstWith(Contents(), js, id) == FirstWith(Contents(), js[i..], id)
      {
        var entries := ReadJournal(LinesOf(Contents(), js[i]));
        if id in entries {
          return Some(js[i]);
        }
        i := i + 1;
      }
      return None;
    }

    /** The search through the reachable collective journals, counting the ones that know the id. */
    method LocateCollective(c: Caller, id: string) returns (found: Result<Journal>)
      ensures found == Locate(Contents(), Reachable(registry, c), id)
    {
      var js := [ProjectWide(c.project)];
      if registry.shared {
        js := js + [Shared];
      } else {
        assert js + [] == js;
      }
      var count, last := 0, ProjectWide(c.project);
      for i := 0 to |js|
        invariant count == |Having(Contents(), js[..i], id)|
        invariant count > 0 ==> last == Having(Contents(), js[..i], id)[count - 1]
      {
        var entries := ReadJournal(LinesOf(Contents(), js[i]));
        HavingOneMore(Contents(), js[..i], js[i], id);
        assert js[..i + 1] == js[..i] + [js[i]];
        if id in entries {
          count, last := count + 1, js[i];
        }
      }
      assert js[..|js|] == js;
      if count == 0 {
        return Err("not in a reachable journal");
      }
      return if count == 1 then Ok(last) else Err("ambiguous");
    }

    method Propose(c: Caller, scope: Scope, key: string, body: string, id: string) returns (decision: Decision)
      ensures decision == DecidePropose(registry, Contents(), c, scope, key, body, id)
    {
      if body == "" {
        return Err("usage");
      }
      if scope.SharedScope? && !registry.shared {
        return Err("shared_memory_dir is not configured");
      }
      var js := CollisionJournals(c, scope);
      var found := FindFirst(js, id);
      var target := Target(c, scope);
      if found.None? {
        return Ok(Some((target, ProposalLine(c.now, id, ScopeName(scope), c.agent, Encode(key), Encode(body)))));
      }
      if found.value != target {
        return Err("already exists in another journal");
      }
      var entries := ReadJournal(LinesOf(Contents(), target));
      return if entries[id].state == "PROPOSED" then Ok(None) else Err("already exists");
    }

    method Review(c: Caller, target: Journal, id: string, accept: bool, note: string) returns (decision: Decision)
      ensures decision == DecideReview(registry, Contents(), c, target, id, accept, note)
    {
      var own := ReadJournal(LinesOf(Contents(), Private(c.project, c.agent)));
      if id in own {
        return Err("private and not reviewable");
      }
      var found :- LocateCollective(c, id);
      if found != target {
        return Err("changed journal");
      }
      var entries := ReadJournal(LinesOf(Contents(), found));
      var e := entries[id];
      if e.author == c.agent {
        return Err("memory author cannot review its own proposal");
      }
      var event := if accept then "REVIEWED_ACCEPT" else "REVIEWED_REJECT";
      if e.state == event {
        return Ok(None);
      }
      if e.state == "REVIEWED_ACCEPT" || e.state == "REVIEWED_REJECT" {
        return Err("conflicting review");
      }
      if e.state != "PROPOSED" {
        return Err("not reviewable");
      }
      return Ok(Some((found, EventLine(c.now, id, event, c.agent, Encode(note)))));
    }

    method Promote(c: Caller, target: Journal, id: string) returns (decision: Decision)
      ensures decision == DecidePromote(registry, Contents(), c, target, id)
    {
      var found :- LocateCollective(c, id);
      var entries := ReadJournal(LinesOf(Contents(), found));
      if found != target {
        return Err("changed journal");
      }
      match entries[id].state
      case "PROMOTED" => return Ok(None);
      case "REVIEWED_ACCEPT" => return Ok(Some((found, EventLine(c.now, id, "PROMOTED", c.agent, ""))));
      case _ => return Err("cannot be promoted");
    }

    /** One command under the lock: its decision, and the record appended where it says. */
    method Commit(c: Caller, cmd: Command) returns (decision: Decision)
      modifies this`files, this`lines
      ensures decision == Decide(registry, old(Contents()), c, cmd)
      ensures Contents() == Next(registry, old(Contents()), c, cmd)
    {
      if !IsId(cmd.id) {
        return Err("invalid memory id");
      }
      match cmd {
        case Propose(scope, key, body, id) => decision := Propose(c, scope, key, body, id);
        case Review(target, id, accept, note) => decision := Review(c, target, id, accept, note);
        case Promote(target, id) => decision := Promote(c, target, id);
      }
      if decision.Ok? && decision.value.Some? {
        Write(decision.value.value.0, decision.value.value.1);
      }
    }

    method Write(j: Journal, record: string)
      modifies this`files, this`lines
      ensures Contents() == Append(old(Contents()), j, record)
    {
      lines := lines[j := LinesOf(Contents(), j) + [record]];
      if j !in files {
        files := files + [j];
      }
    }

    /** Everything shown to an agent, journal by journal. */
    method Recall(c: Caller, scope: Option<Scope>, key: string) returns (shown: seq<(Journal, string, Entry)>)
      ensures forall j, id, e :: (j, id, e) in shown <==>
                j in Visible(registry, c) && id in EntriesOf(Contents(), j) && EntriesOf(Contents(), j)[id] == e
                && IsRecalled(c, j, e, scope, key)
    {
      shown := [];
      var js := Visible(registry, c);
      for i := 0 to |js|
        invariant forall j, id, e :: (j, id, e) in shown <==>
                    j in js[..i] && id in EntriesOf(Contents(), j) && EntriesOf(Contents(), j)[id] == e
                    && IsRecalled(c, j, e, scope, key)
      {
        var entries := ReadJournal(LinesOf(Contents(), js[i]));
        var ids := entries.Keys;
        var here: seq<(Journal, string, Entry)> := [];
        while ids != {}
          invariant ids <= entries.Keys
          invariant forall j, id, e :: (j, id, e) in here <==>
                      j == js[i] && id in entries && id !in ids && entries[id] == e && IsRecalled(c, j, e, scope, key)
        {
          var id :| id in ids;
          if IsRecalled(c, js[i], entries[id], scope, key) {
            here := here + [(js[i], id, entries[id])];
          }
          ids := ids - {id};
        }
        assert js[..i + 1] == js[..i] + [js[i]];
        shown := shown + here;
      }
      assert js[..|js|] == js;
    }
  }

  // --- what every command keeps ---------------------------------------------------------------------------

  /** Two journals that some agent can both see. */
  predicate Together(a: Journal, b: Journal) {
    match (a, b)
    case (Private(p, _), ProjectWide(q)) => p == q
    case (ProjectWide(p), Private(q, _)) => p == q
    case (Shared, Shared) => false
    case (Shared, _) => true
    case (_, Shared) => true
    case _ => false
  }

  ghost predicate IdsAreUnique(s: Store) {
    forall a, b, id :: Together(a, b) && id in EntriesOf(s, a) ==> id !in EntriesOf(s, b)
  }

  /** Only registered projects have files, and only files have lines. */
  ghost predicate IsListed(r: Registry, s: Store) {
    forall j | j in s.lines ::
      && j in s.files
      && (j.Shared? ==> r.shared)
      && (!j.Shared? ==> j.project in r.projects)
  }

  /** Someone other than the author accepted the id, in the journal itself. */
  ghost predicate IsAccepted(lines: seq<string>, id: string, author: string) {
    exists k, reviewer :: 0 <= k < |lines| && AcceptedBy(lines[k], id, reviewer) && reviewer != author
  }

  const STATES := {"PROPOSED", "REVIEWED_ACCEPT", "REVIEWED_REJECT", "PROMOTED"}

  ghost predicate IsTrusted(j: Journal, lines: seq<string>, id: string, e: Entry) {
    && e.scope == ScopeName(ScopeOf(j))
    && e.state in STATES
    && (j.Private? ==> e.author == j.agent && e.state == "PROPOSED")
    && (e.state == "REVIEWED_ACCEPT" || e.state == "PROMOTED" ==> IsAccepted(lines, id, e.author))
  }

  ghost predicate AllTrusted(s: Store) {
    forall j, id | id in EntriesOf(s, j) :: IsTrusted(j, LinesOf(s, j), id, EntriesOf(s, j)[id])
  }

  ghost predicate Valid(r: Registry, s: Store) {
    IsListed(r, s) && IdsAreUnique(s) && AllTrusted(s)
  }

  lemma {:induction false} PrivatesAreListed(files: seq<Journal>, project: string, j: Journal)
    ensures j in PrivatesOf(files, project) <==> j in files && j.Private? && j.project == project
  {
    if files != [] {
      PrivatesAreListed(files[..|files| - 1], project, j);
      assert files == files[..|files| - 1] + [files[|files| - 1]];
    }
  }

  lemma {:induction false} ProjectsAreListed(files: seq<Journal>, projects: seq<string>, j: Journal)
    ensures j in ProjectJournals(files, projects)
       <==> !j.Shared? && j.project in projects && (j.Private? ==> j in files)
  {
    if projects != [] {
      var last := projects[|projects| - 1];
      ProjectsAreListed(files, projects[..|projects| - 1], j);
      PrivatesAreListed(files, last, j);
      assert projects == projects[..|projects| - 1] + [last];
    }
  }

  /** The namespace covers every journal an agent could see beside the target. */
  lemma NamespaceCovers(r: Registry, s: Store, c: Caller, scope: Scope, j: Journal)
    requires IsListed(r, s) && IsCaller(r, c) && j in s.lines
    requires j == Target(c, scope) || Together(j, Target(c, scope))
    ensures j in Namespace(r, s.files, c, scope)
  {
    PrivatesAreListed(s.files, c.project, j);
    ProjectsAreListed(s.files, r.projects, j);
  }

  lemma AppendEffect(s: Store, j: Journal, record: string, other: Journal)
    ensures LinesOf(Append(s, j, record), j) == LinesOf(s, j) + [record]
    ensures EntriesOf(Append(s, j, record), j) == ApplyLine(EntriesOf(s, j), record)
    ensures other != j ==> LinesOf(Append(s, j, record), other) == LinesOf(s, other)
  {
    var lines := LinesOf(s, j) + [record];
    assert lines[..|lines| - 1] == LinesOf(s, j);
  }

  lemma UidIsPlain(s: string)
    requires Text.IsToken(s)
    ensures IsPlain(s)
  {
    assert !Text.IsTokenChar('|') && !Text.IsTokenChar('\n') && !Text.IsTokenChar('\r');
  }

  lemma ScopeIsPlain(scope: Scope)
    ensures IsPlain(ScopeName(scope))
  {
  }

  lemma StatesArePlain(state: string)
    requires state in STATES
    ensures IsPlain(state)
  {
  }

  /** An entry put into one journal: the record that puts it there, and what it is. */
  ghost predicate Puts(s: Store, t: Store, j: Journal, record: string, id: string, e: Entry) {
    && t == Append(s, j, record)
    && EntriesOf(t, j) == EntriesOf(s, j)[id := e]
  }

  function NewEntry(c: Caller, scope: Scope, key: string, body: string): Entry {
    Entry(ScopeName(scope), c.agent, Encode(key), c.now, Encode(body), "PROPOSED")
  }

  function NewLine(c: Caller, scope: Scope, key: string, body: string, id: string): string {
    ProposalLine(c.now, id, ScopeName(scope), c.agent, Encode(key), Encode(body))
  }

  lemma ProposalPuts(s: Store, c: Caller, scope: Scope, key: string, body: string, id: string)
    requires IsPlain(c.now) && Text.IsUid(c.agent) && IsId(id)
    ensures
      var j, record := Target(c, scope), NewLine(c, scope, key, body, id);
      Puts(s, Append(s, j, record), j, record, id, NewEntry(c, scope, key, body))
  {
    var j, record := Target(c, scope), NewLine(c, scope, key, body, id);
    UidIsPlain(c.agent);
    IdIsPlain(id);
    ScopeIsPlain(scope);
    ProposalIsReadBack(EntriesOf(s, j), c.now, id, ScopeName(scope), c.agent, Encode(key), Encode(body));
    AppendEffect(s, j, record, j);
  }

  lemma EventPuts(s: Store, c: Caller, j: Journal, id: string, event: string, note: string)
    requires IsPlain(c.now) && Text.IsUid(c.agent) && IsId(id) && event in STATES && IsPlain(note) && id in EntriesOf(s, j)
    ensures
      var record := EventLine(c.now, id, event, c.agent, note);
      && Puts(s, Append(s, j, record), j, record, id, EntriesOf(s, j)[id].(state := event))
      && (event == "REVIEWED_ACCEPT" ==> AcceptedBy(record, id, c.agent))
  {
    var record := EventLine(c.now, id, event, c.agent, note);
    UidIsPlain(c.agent);
    IdIsPlain(id);
    StatesArePlain(event);
    EventIsReadBack(EntriesOf(s, j), c.now, id, event, c.agent, note);
    AppendEffect(s, j, record, j);
  }

  lemma PutElsewhere(s: Store, t: Store, j: Journal, record: string, id: string, e: Entry, other: Journal)
    requires Puts(s, t, j, record, id, e) && other != j
    ensures LinesOf(t, other) == LinesOf(s, other) && EntriesOf(t, other) == EntriesOf(s, other)
  {
    AppendEffect(s, j, record, other);
  }

  lemma PutKeepsUnique(s: Store, t: Store, j: Journal, record: string, id: string, e: Entry)
    requires IdsAreUnique(s) && Puts(s, t, j, record, id, e)
    requires forall b | Together(j, b) :: id !in EntriesOf(s, b)
    ensures IdsAreUnique(t)
  {
    forall a, b, x | Together(a, b) && x in EntriesOf(t, a) ensures x !in EntriesOf(t, b) {
      if a != j {
        PutElsewhere(s, t, j, record, id, e, a);
      }
      if b != j {
        PutElsewhere(s, t, j, record, id, e, b);
      }
      assert Together(b, a);
      if x != id || (a != j && b != j) {
        assert x in EntriesOf(s, a) && x !in EntriesOf(s, b);
      }
    }
  }

  lemma PutKeepsTrusted(s: Store, t: Store, j: Journal, record: string, id: string, e: Entry, b: Journal, x: string)
    requires AllTrusted(s) && Puts(s, t, j, record, id, e) && IsTrusted(j, LinesOf(t, j), id, e)
    requires x in EntriesOf(t, b)
    ensures IsTrusted(b, LinesOf(t, b), x, EntriesOf(t, b)[x])
  {
    if b != j {
      PutElsewhere(s, t, j, record, id, e, b);
      assert x in EntriesOf(s, b);
    } else if x != id {
      AppendEffect(s, j, record, j);
      assert x in EntriesOf(s, b);
      StillTrusted(b, LinesOf(s, b), record, x, EntriesOf(s, b)[x]);
    }
  }

  /** Putting one trusted entry under an id no neighbour has keeps everything. */
  lemma PutKeepsValid(r: Registry, s: Store, t: Store, j: Journal, record: string, id: string, e: Entry)
    requires Valid(r, s) && Puts(s, t, j, record, id, e)
    requires (j.Shared? ==> r.shared) && (!j.Shared? ==> j.project in r.projects)
    requires forall b | Together(j, b) :: id !in EntriesOf(s, b)
    requires IsTrusted(j, LinesOf(t, j), id, e)
    ensures Valid(r, t)
  {
    PutKeepsUnique(s, t, j, record, id, e);
    forall b, x | x in EntriesOf(t, b) ensures IsTrusted(b, LinesOf(t, b), x, EntriesOf(t, b)[x]) {
      PutKeepsTrusted(s, t, j, record, id, e, b, x);
    }
  }

  lemma StillTrusted(j: Journal, lines: seq<string>, record: string, id: string, e: Entry)
    requires IsTrusted(j, lines, id, e)
    ensures IsTrusted(j, lines + [record], id, e)
  {
    if IsAccepted(lines, id, e.author) {
      StillAccepted(lines, record, id, e.author);
    }
  }

  lemma StillAccepted(lines: seq<string>, record: string, id: string, author: string)
    requires IsAccepted(lines, id, author)
    ensures IsAccepted(lines + [record], id, author)
  {
    var k, reviewer :| 0 <= k < |lines| && AcceptedBy(lines[k], id, reviewer) && reviewer != author;
    assert (lines + [record])[k] == lines[k];
  }

  lemma NowAccepted(lines: seq<string>, record: string, id: string, author: string, reviewer: string)
    requires AcceptedBy(record, id, reviewer) && reviewer != author
    ensures IsAccepted(lines + [record], id, author)
  {
    assert (lines + [record])[|lines|] == record;
  }

  lemma EmptyJournals(s: Store, j: Journal, id: string)
    requires id in EntriesOf(s, j)
    ensures j in s.lines
  {
  }

  /** A proposal that is appended has an id that no journal beside its target has, nor the target. */
  lemma ProposalIsFresh(r: Registry, s: Store, c: Caller, scope: Scope, key: string, body: string, id: string)
    requires IsListed(r, s) && IsCaller(r, c)
    requires DecidePropose(r, s, c, scope, key, body, id).Ok? && DecidePropose(r, s, c, scope, key, body, id).value.Some?
    ensures DecidePropose(r, s, c, scope, key, body, id) == Ok(Some((Target(c, scope), NewLine(c, scope, key, body, id))))
    ensures scope.SharedScope? ==> r.shared
    ensures forall b | b == Target(c, scope) || Together(b, Target(c, scope)) :: id !in EntriesOf(s, b)
  {
    forall b | b == Target(c, scope) || Together(b, Target(c, scope)) ensures id !in EntriesOf(s, b) {
      if b in s.lines {
        NamespaceCovers(r, s, c, scope, b);
      }
    }
  }

  lemma ProposalKeepsValid(r: Registry, s: Store, c: Caller, scope: Scope, key: string, body: string, id: string)
    requires Valid(r, s) && IsCaller(r, c) && IsId(id) && (scope.SharedScope? ==> r.shared)
    requires forall b | b == Target(c, scope) || Together(b, Target(c, scope)) :: id !in EntriesOf(s, b)
    ensures Valid(r, Append(s, Target(c, scope), NewLine(c, scope, key, body, id)))
  {
    var j, record := Target(c, scope), NewLine(c, scope, key, body, id);
    ProposalPuts(s, c, scope, key, body, id);
    forall b | Together(j, b) ensures id !in EntriesOf(s, b) {
      assert Together(b, j);
    }
    PutKeepsValid(r, s, Append(s, j, record), j, record, id, NewEntry(c, scope, key, body));
  }

  lemma EventKeepsValid(r: Registry, s: Store, c: Caller, j: Journal, id: string, event: string, note: string)
    requires Valid(r, s) && IsCaller(r, c) && IsId(id) && event in STATES && IsPlain(note)
    requires id in EntriesOf(s, j) && !j.Private?
    requires event == "REVIEWED_ACCEPT" ==> EntriesOf(s, j)[id].author != c.agent
    requires event == "PROMOTED" ==> EntriesOf(s, j)[id].state == "REVIEWED_ACCEPT"
    ensures Valid(r, Append(s, j, EventLine(c.now, id, event, c.agent, note)))
  {
    var record := EventLine(c.now, id, event, c.agent, note);
    var e := EntriesOf(s, j)[id];
    EventPuts(s, c, j, id, event, note);
    AppendEffect(s, j, record, j);
    EmptyJournals(s, j, id);
    if event == "REVIEWED_ACCEPT" {
      NowAccepted(LinesOf(s, j), record, id, e.author, c.agent);
    } else if event == "PROMOTED" {
      StillAccepted(LinesOf(s, j), record, id, e.author);
    }
    PutKeepsValid(r, s, Append(s, j, record), j, record, id, e.(state := event));
  }

  /** What a review or a promotion that appends has found, and the event it appends. */
  ghost predicate AppendsEvent(s: Store, c: Caller, id: string, d: Decision, j: Journal, event: string, note: string) {
    && d == Ok(Some((j, EventLine(c.now, id, event, c.agent, note))))
    && id in EntriesOf(s, j) && !j.Private? && IsPlain(note)
    && var e := EntriesOf(s, j)[id];
       (|| (event in {"REVIEWED_ACCEPT", "REVIEWED_REJECT"} && e.state == "PROPOSED" && e.author != c.agent)
        || (event == "PROMOTED" && e.state == "REVIEWED_ACCEPT"))
  }

  lemma ReviewAppends(r: Registry, s: Store, c: Caller, target: Journal, id: string, accept: bool, note: string)
      returns (j: Journal, event: string)
    requires DecideReview(r, s, c, target, id, accept, note).Ok? && DecideReview(r, s, c, target, id, accept, note).value.Some?
    ensures AppendsEvent(s, c, id, DecideReview(r, s, c, target, id, accept, note), j, event, Encode(note))
  {
    j := Locate(s, Reachable(r, c), id).value;
    event := if accept then "REVIEWED_ACCEPT" else "REVIEWED_REJECT";
  }

  lemma PromoteAppends(r: Registry, s: Store, c: Caller, target: Journal, id: string)
      returns (j: Journal)
    requires DecidePromote(r, s, c, target, id).Ok? && DecidePromote(r, s, c, target, id).value.Some?
    ensures AppendsEvent(s, c, id, DecidePromote(r, s, c, target, id), j, "PROMOTED", "")
  {
    j := Locate(s, Reachable(r, c), id).value;
  }

  lemma EventAppends(r: Registry, s: Store, c: Caller, cmd: Command) returns (j: Journal, event: string, note: string)
    requires !cmd.Propose? && Decide(r, s, c, cmd).Ok? && Decide(r, s, c, cmd).value.Some?
    ensures IsId(cmd.id) && AppendsEvent(s, c, cmd.id, Decide(r, s, c, cmd), j, event, note)
  {
    match cmd
    case Review(target, id, accept, text) =>
      j, event := ReviewAppends(r, s, c, target, id, accept, text);
      note := Encode(text);
    case Promote(target, id) =>
      j := PromoteAppends(r, s, c, target, id);
      event, note := "PROMOTED", "";
  }

  lemma ProposingKeepsValid(r: Registry, s: Store, c: Caller, scope: Scope, key: string, body: string, id: string)
    requires Valid(r, s) && IsCaller(r, c) && IsId(id)
    requires DecidePropose(r, s, c, scope, key, body, id).Ok? && DecidePropose(r, s, c, scope, key, body, id).value.Some?
    ensures
      var (j, record) := DecidePropose(r, s, c, scope, key, body, id).value.value;
      Valid(r, Append(s, j, record))
  {
    ProposalIsFresh(r, s, c, scope, key, body, id);
    ProposalKeepsValid(r, s, c, scope, key, body, id);
  }

  lemma EventingKeepsValid(r: Registry, s: Store, c: Caller, cmd: Command)
    requires Valid(r, s) && IsCaller(r, c) && !cmd.Propose?
    requires Decide(r, s, c, cmd).Ok? && Decide(r, s, c, cmd).value.Some?
    ensures
      var (j, record) := Decide(r, s, c, cmd).value.value;
      Valid(r, Append(s, j, record))
  {
    var j, event, note := EventAppends(r, s, c, cmd);
    EventKeepsValid(r, s, c, j, cmd.id, event, note);
  }

  /** Every command keeps the ids unique, the states trusted and the files listed. */
  lemma CommandKeepsValid(r: Registry, s: Store, c: Caller, cmd: Command)
    requires Valid(r, s) && IsCaller(r, c)
    ensures Valid(r, Next(r, s, c, cmd))
  {
    var d := Decide(r, s, c, cmd);
    if d.Ok? && d.value.Some? {
      if cmd.Propose? {
        ProposingKeepsValid(r, s, c, cmd.scope, cmd.key, cmd.body, cmd.id);
      } else {
        EventingKeepsValid(r, s, c, cmd);
      }
    }
  }

  function Run(r: Registry, steps: seq<(Caller, Command)>): Store {
    if steps == [] then EMPTY_STORE
    else
      var last := steps[|steps| - 1];
      Next(r, Run(r, steps[..|steps| - 1]), last.0, last.1)
  }

  lemma {:induction false} EveryRunIsValid(r: Registry, steps: seq<(Caller, Command)>)
    requires forall k | 0 <= k < |steps| :: IsCaller(r, steps[k].0)
    ensures Valid(r, Run(r, steps))
  {
    if steps != [] {
      EveryRunIsValid(r, steps[..|steps| - 1]);
      var last := steps[|steps| - 1];
      CommandKeepsValid(r, Run(r, steps[..|steps| - 1]), last.0, last.1);
    }
  }

  // --- the two promises ------------------------------------------------------------------------------------

  /**
   * Over every run: collective memory shown to anyone but its author is promoted, and an agent
   * other than the author accepted it. Nobody is shown another agent's private memory.
   */
  lemma RecallIsTrusted(r: Registry, steps: seq<(Caller, Command)>, c: Caller, j: Journal, id: string,
                        scope: Option<Scope>, key: string)
    requires forall k | 0 <= k < |steps| :: IsCaller(r, steps[k].0)
    requires j in Visible(r, c) && id in EntriesOf(Run(r, steps), j)
    requires IsRecalled(c, j, EntriesOf(Run(r, steps), j)[id], scope, key)
    ensures
      var s := Run(r, steps);
      var e := EntriesOf(s, j)[id];
      e.author != c.agent ==> !j.Private? && e.state == "PROMOTED" && IsAccepted(LinesOf(s, j), id, e.author)
  {
    EveryRunIsValid(r, steps);
  }

  /** And the other way: everything promoted within reach is shown, unless a filter excludes it. */
  lemma PromotedIsRecalled(r: Registry, steps: seq<(Caller, Command)>, c: Caller, j: Journal, id: string)
    requires forall k | 0 <= k < |steps| :: IsCaller(r, steps[k].0)
    requires j in Visible(r, c) && id in EntriesOf(Run(r, steps), j)
    requires EntriesOf(Run(r, steps), j)[id].state == "PROMOTED"
    ensures IsRecalled(c, j, EntriesOf(Run(r, steps), j)[id], None, "")
  {
    EveryRunIsValid(r, steps);
  }

  lemma HavingOne(s: Store, a: Journal, id: string)
    ensures Having(s, [a], id) == if id in EntriesOf(s, a) then [a] else []
  {
    assert [a][1..] == [];
  }

  lemma HavingTwo(s: Store, a: Journal, b: Journal, id: string)
    requires IdsAreUnique(s) && Together(a, b)
    ensures |Having(s, [a, b], id)| <= 1
    ensures id in EntriesOf(s, a) ==> Having(s, [a, b], id) == [a]
  {
    assert [a, b][1..] == [b];
    HavingOne(s, b, id);
  }

  lemma HavingThree(s: Store, a: Journal, b: Journal, c: Journal, id: string)
    requires IdsAreUnique(s) && Together(a, b) && Together(a, c) && Together(b, c)
    ensures |Having(s, [a, b, c], id)| <= 1
  {
    assert [a, b, c][1..] == [b, c];
    HavingTwo(s, b, c, id);
    HavingIsFound(s, [b, c], id);
    assert Having(s, [b, c], id) != [] ==> Having(s, [b, c], id)[0] in Having(s, [b, c], id);
  }

  lemma AtMostOneJournal(r: Registry, s: Store, c: Caller, id: string)
    requires IdsAreUnique(s)
    ensures |Having(s, Visible(r, c), id)| <= 1 && |Having(s, Reachable(r, c), id)| <= 1
  {
    var a, b := Private(c.project, c.agent), ProjectWide(c.project);
    if r.shared {
      assert Reachable(r, c) == [b, Shared] && Visible(r, c) == [a, b, Shared];
      HavingTwo(s, b, Shared, id);
      HavingThree(s, a, b, Shared, id);
    } else {
      assert Reachable(r, c) == [b] && Visible(r, c) == [a, b];
      HavingOne(s, b, id);
      HavingTwo(s, a, b, id);
    }
  }

  lemma LocateIsFound(s: Store, js: seq<Journal>, id: string)
    requires |Having(s, js, id)| <= 1
    ensures Locate(s, js, id).Ok? <==> exists j :: j in js && id in EntriesOf(s, j)
  {
    HavingIsFound(s, js, id);
    assert |Having(s, js, id)| > 0 ==> Having(s, js, id)[0] in Having(s, js, id);
  }

  /** Over every run: for each agent the ids of the journals it sees are disjoint, so no lookup is ambiguous. */
  lemma LookupIsNeverAmbiguous(r: Registry, steps: seq<(Caller, Command)>, c: Caller, id: string)
    requires forall k | 0 <= k < |steps| :: IsCaller(r, steps[k].0)
    ensures forall js | js in [Visible(r, c), Reachable(r, c)] ::
              Locate(Run(r, steps), js, id).Ok? <==> exists j :: j in js && id in EntriesOf(Run(r, steps), j)
  {
    var s := Run(r, steps);
    EveryRunIsValid(r, steps);
    AtMostOneJournal(r, s, c, id);
    forall js | js in [Visible(r, c), Reachable(r, c)]
      ensures Locate(s, js, id).Ok? <==> exists j :: j in js && id in EntriesOf(s, j)
    {
      LocateIsFound(s, js, id);
    }
  }

  /** What may become of an entry in one step. */
  ghost predicate MovesForward(c: Caller, e: Entry, f: Entry) {
    && f == e.(state := f.state)
    && (f.state == e.state
        || (e.state == "PROPOSED" && f.state in {"REVIEWED_ACCEPT", "REVIEWED_REJECT"} && e.author != c.agent)
        || (e.state == "REVIEWED_ACCEPT" && f.state == "PROMOTED"))
  }

  lemma PutMovesForward(s: Store, t: Store, c: Caller, j: Journal, record: string, id: string, e: Entry, b: Journal, x: string)
    requires Puts(s, t, j, record, id, e) && x in EntriesOf(s, b)
    requires id in EntriesOf(s, j) ==> MovesForward(c, EntriesOf(s, j)[id], e)
    ensures x in EntriesOf(t, b) && MovesForward(c, EntriesOf(s, b)[x], EntriesOf(t, b)[x])
  {
    if b != j {
      PutElsewhere(s, t, j, record, id, e, b);
    }
  }

  /** A state only moves from proposed to reviewed to promoted; author, key and body never change. */
  lemma StatesMoveForward(r: Registry, s: Store, c: Caller, cmd: Command, j: Journal, id: string)
    requires Valid(r, s) && IsCaller(r, c) && id in EntriesOf(s, j)
    ensures
      var t := Next(r, s, c, cmd);
      id in EntriesOf(t, j) && MovesForward(c, EntriesOf(s, j)[id], EntriesOf(t, j)[id])
  {
    var d := Decide(r, s, c, cmd);
    if d.Ok? && d.value.Some? {
      if cmd.Propose? {
        ProposalIsFresh(r, s, c, cmd.scope, cmd.key, cmd.body, cmd.id);
        ProposalMoves(s, c, cmd.scope, cmd.key, cmd.body, cmd.id, j, id);
      } else {
        var at, event, note := EventAppends(r, s, c, cmd);
        EventMoves(s, c, cmd.id, d, at, event, note, j, id);
      }
    }
  }

  lemma ProposalMoves(s: Store, c: Caller, scope: Scope, key: string, body: string, x: string, j: Journal, id: string)
    requires IsPlain(c.now) && Text.IsUid(c.agent) && IsId(x) && id in EntriesOf(s, j)
    requires x !in EntriesOf(s, Target(c, scope))
    ensures
      var t := Append(s, Target(c, scope), NewLine(c, scope, key, body, x));
      id in EntriesOf(t, j) && MovesForward(c, EntriesOf(s, j)[id], EntriesOf(t, j)[id])
  {
    var at, record := Target(c, scope), NewLine(c, scope, key, body, x);
    ProposalPuts(s, c, scope, key, body, x);
    PutMovesForward(s, Append(s, at, record), c, at, record, x, NewEntry(c, scope, key, body), j, id);
  }

  lemma EventMoves(s: Store, c: Caller, x: string, d: Decision, at: Journal, event: string, note: string,
                   j: Journal, id: string)
    requires IsPlain(c.now) && Text.IsUid(c.agent) && IsId(x) && id in EntriesOf(s, j)
    requires AppendsEvent(s, c, x, d, at, event, note)
    ensures
      var t := Append(s, at, EventLine(c.now, x, event, c.agent, note));
      id in EntriesOf(t, j) && MovesForward(c, EntriesOf(s, j)[id], EntriesOf(t, j)[id])
  {
    var record := EventLine(c.now, x, event, c.agent, note);
    EventPuts(s, c, at, x, event, note);
    PutMovesForward(s, Append(s, at, record), c, at, record, x, EntriesOf(s, at)[x].(state := event), j, id);
  }
}
