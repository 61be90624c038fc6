/** One memory journal: its printed lines, and the fold that reads them back. */
module MemoryLines {
  import opened Results
  import opened LineGrammar

  datatype Scanned = Scanned(id: Option<string>, scope: Option<string>, author: Option<string>, key: Option<string>,
                             event: Option<string>, isRecord: bool)

  const NOTHING := Scanned(None, None, None, None, None, false)

  function First(known: Option<string>, text: string): Option<string> {
    if known.None? then Some(text) else known
  }

  /** Every structured field takes its first occurrence; the scan stops before the free text. */
  function ScanFields(p: Scanned, fields: seq<string>): Scanned
    decreases |fields|
  {
    if fields == [] then p
    else
      var f, rest := fields[0], fields[1..];
      if "id:" <= f then ScanFields(p.(id := First(p.id, f[3..])), rest)
      else if "scope:" <= f then ScanFields(p.(scope := First(p.scope, f[6..])), rest)
      else if "author:" <= f then ScanFields(p.(author := First(p.author, f[7..])), rest)
      else if "key:" <= f then ScanFields(p.(key := First(p.key, f[4..])), rest)
      else if f == "state:PROPOSED" then p.(isRecord := true)
      else if "event:" <= f then ScanFields(p.(event := First(p.event, f[6..])), rest)
      else if "by:" <= f then p
      else ScanFields(p, rest)
  }

  datatype Entry = Entry(scope: string, author: string, key: string, stamp: string, body: string, state: string)

  type Entries = map<string, Entry>

  const PROPOSAL_MARKER := " | state:PROPOSED | "

  function OrEmpty(text: Option<string>): string {
    if text.Some? then text.value else ""
  }

  function ApplyLine(v: Entries, raw: string): Entries {
    var p := ScanFields(NOTHING, Split(raw)[1..]);
    if OrEmpty(p.id) == "" then v
    else if p.isRecord then
      v[p.id.value := Entry(OrEmpty(p.scope), OrEmpty(p.author), OrEmpty(p.key), Split(raw)[0],
                            After(raw, PROPOSAL_MARKER).1, "PROPOSED")]
    else if p.event.Some? && p.id.value in v then
      v[p.id.value := v[p.id.value].(state := p.event.value)]
    else v
  }

  function Fold(lines: seq<string>): Entries {
    if lines == [] then map[] else ApplyLine(Fold(lines[..|lines| - 1]), lines[|lines| - 1])
  }

  /** The fold as the loop that fills the tables line by line. */
  method ReadJournal(lines: seq<string>) returns (v: Entries)
    ensures v == Fold(lines)
  {
    v := map[];
    for i := 0 to |lines|
      invariant v == Fold(lines[..i])
    {
      assert lines[..i + 1][..i] == lines[..i];
      v := ApplyLine(v, lines[i]);
    }
    assert lines[..|lines|] == lines;
  }

  /** Tabs become spaces before the shared encoding. */
  function Untab(s: string): (t: string)
    ensures '\t' !in t && |t| == |s|
  {
    if s == "" then "" else [if s[0] == '\t' then ' ' else s[0]] + Untab(s[1..])
  }

  function Encode(s: string): (t: string)
    ensures IsPlain(t)
  {
    Sanitize(Untab(s))
  }

  // --- the two printed lines ----------------------------------------------------------------------

  function ProposalLine(now: string, id: string, scope: string, author: string, key: string, body: string): string {
    Join([now, "id:" + id, "scope:" + scope, "author:" + author, "key:" + key] + ["state:PROPOSED", body])
  }

  function EventLine(now: string, id: string, event: string, signer: string, note: string): string {
    Join([now, "id:" + id, "event:" + event, "by:" + signer] + if note == "" then [] else ["note:" + note])
  }

  /** A review line that accepts an id, and who signed it. */
  predicate AcceptedBy(raw: string, id: string, reviewer: string) {
    var f := Split(raw);
    |f| > 3 && f[1] == "id:" + id && f[2] == "event:" + "REVIEWED_ACCEPT" && f[3] == "by:" + reviewer
  }

  lemma OtherLetter(f: string)
    requires f != ""
    ensures f[0] != 'i' ==> !("id:" <= f)
    ensures f[0] != 's' ==> !("scope:" <= f) && f != "state:PROPOSED"
    ensures f[0] != 'a' ==> !("author:" <= f)
    ensures f[0] != 'k' ==> !("key:" <= f)
    ensures f[0] != 'e' ==> !("event:" <= f)
  {
  }

  lemma ScanId(p: Scanned, x: string, rest: seq<string>)
    ensures ScanFields(p, ["id:" + x] + rest) == ScanFields(p.(id := First(p.id, x)), rest)
  {
    assert ("id:" + x)[..3] == "id:" && ("id:" + x)[3..] == x;
  }

  lemma ScanScope(p: Scanned, x: string, rest: seq<string>)
    ensures ScanFields(p, ["scope:" + x] + rest) == ScanFields(p.(scope := First(p.scope, x)), rest)
  {
    OtherLetter("scope:" + x);
    assert ("scope:" + x)[..6] == "scope:" && ("scope:" + x)[6..] == x;
  }

  lemma ScanAuthor(p: Scanned, x: string, rest: seq<string>)
    ensures ScanFields(p, ["author:" + x] + rest) == ScanFields(p.(author := First(p.author, x)), rest)
  {
    OtherLetter("author:" + x);
    assert ("author:" + x)[..7] == "author:" && ("author:" + x)[7..] == x;
  }

  lemma ScanKey(p: Scanned, x: string, rest: seq<string>)
    ensures ScanFields(p, ["key:" + x] + rest) == ScanFields(p.(key := First(p.key, x)), rest)
  {
    OtherLetter("key:" + x);
    assert ("key:" + x)[..4] == "key:" && ("key:" + x)[4..] == x;
  }

  lemma ScanEvent(p: Scanned, x: string, rest: seq<string>)
    ensures ScanFields(p, ["event:" + x] + rest) == ScanFields(p.(event := First(p.event, x)), rest)
  {
    OtherLetter("event:" + x);
    assert ("event:" + x)[..6] == "event:" && ("event:" + x)[6..] == x;
  }

  lemma ScanState(p: Scanned, rest: seq<string>)
    ensures ScanFields(p, ["state:PROPOSED"] + rest) == p.(isRecord := true)
  {
    OtherLetter("state:PROPOSED");
    NotAPrefix("scope:", "state:PROPOSED", 1);
  }

  lemma ScanBy(p: Scanned, x: string, rest: seq<string>)
    ensures ScanFields(p, ["by:" + x] + rest) == p
  {
    OtherLetter("by:" + x);
    assert ("by:" + x)[..3] == "by:";
  }

  lemma ScanOfProposal(id: string, scope: string, author: string, key: string, body: string)
    ensures
      ScanFields(NOTHING, ["id:" + id, "scope:" + scope, "author:" + author, "key:" + key] + ["state:PROPOSED", body])
      == Scanned(Some(id), Some(scope), Some(author), Some(key), None, true)
  {
    var last := ["state:PROPOSED"] + [body];
    assert ["id:" + id, "scope:" + scope, "author:" + author, "key:" + key] + ["state:PROPOSED", body]
        == ["id:" + id] + (["scope:" + scope] + (["author:" + author] + (["key:" + key] + last)));
    ScanId(NOTHING, id, ["scope:" + scope] + (["author:" + author] + (["key:" + key] + last)));
    var p := NOTHING.(id := Some(id));
    ScanScope(p, scope, ["author:" + author] + (["key:" + key] + last));
    ScanAuthor(p.(scope := Some(scope)), author, ["key:" + key] + last);
    ScanKey(p.(scope := Some(scope), author := Some(author)), key, last);
    ScanState(p.(scope := Some(scope), author := Some(author), key := Some(key)), [body]);
  }

  lemma ScanOfEvent(id: string, event: string, signer: string, tail: seq<string>)
    ensures ScanFields(NOTHING, ["id:" + id, "event:" + event, "by:" + signer] + tail)
         == NOTHING.(id := Some(id), event := Some(event))
  {
    assert ["id:" + id, "event:" + event, "by:" + signer] + tail
        == ["id:" + id] + (["event:" + event] + (["by:" + signer] + tail));
    ScanId(NOTHING, id, ["event:" + event] + (["by:" + signer] + tail));
    ScanEvent(NOTHING.(id := Some(id)), event, ["by:" + signer] + tail);
    ScanBy(NOTHING.(id := Some(id), event := Some(event)), signer, tail);
  }

  lemma ProposalFieldsArePlain(now: string, id: string, scope: string, author: string, key: string, body: string)
    requires IsPlain(now) && IsPlain(id) && IsPlain(scope) && IsPlain(author) && IsPlain(key) && IsPlain(body)
    ensures
      var before := [now, "id:" + id, "scope:" + scope, "author:" + author, "key:" + key];
      ArePlain(before) && ArePlain(before + ["state:PROPOSED", body])
  {
    PlainSum("id:", id);
    PlainSum("scope:", scope);
    PlainSum("author:", author);
    PlainSum("key:", key);
    StateIsPlain();
    var before := [now, "id:" + id, "scope:" + scope, "author:" + author, "key:" + key];
    PlainFive(now, "id:" + id, "scope:" + scope, "author:" + author, "key:" + key, [], ["state:PROPOSED", body]);
    PlainFive(now, "id:" + id, "scope:" + scope, "author:" + author, "key:" + key, [], []);
    assert before + [] + ["state:PROPOSED", body] == before + ["state:PROPOSED", body] && before + [] + [] == before;
  }

  lemma StateIsPlain()
    ensures IsPlain("state:PROPOSED")
  {
  }

  lemma Marker()
    ensures PROPOSAL_MARKER == SEPARATOR + "state:PROPOSED" + SEPARATOR
    ensures PROPOSAL_MARKER[3] == 's' && PROPOSAL_MARKER[4] == 't' && |PROPOSAL_MARKER| > 4
  {
  }

  lemma FieldsPartFromMarker(id: string, scope: string, author: string, key: string)
    ensures PartsFrom("id:" + id, PROPOSAL_MARKER) && PartsFrom("scope:" + scope, PROPOSAL_MARKER)
    ensures PartsFrom("author:" + author, PROPOSAL_MARKER) && PartsFrom("key:" + key, PROPOSAL_MARKER)
  {
    Marker();
    FirstLetterParts("id:" + id, PROPOSAL_MARKER);
    FirstLetterParts("author:" + author, PROPOSAL_MARKER);
    FirstLetterParts("key:" + key, PROPOSAL_MARKER);
    assert ("scope:" + scope)[1] == 'c';
  }

  lemma BodyIsReadBack(now: string, id: string, scope: string, author: string, key: string, body: string)
    requires IsPlain(now) && IsPlain(id) && IsPlain(scope) && IsPlain(author) && IsPlain(key) && IsPlain(body)
    ensures After(ProposalLine(now, id, scope, author, key, body), PROPOSAL_MARKER) == (true, body)
  {
    var before := [now, "id:" + id, "scope:" + scope, "author:" + author, "key:" + key];
    ProposalFieldsArePlain(now, id, scope, author, key, body);
    FieldsPartFromMarker(id, scope, author, key);
    Marker();
    TextAfterField(before, "state:PROPOSED", PROPOSAL_MARKER, body);
  }

  /** A printed proposal is read back field by field, whatever the key and the body say. */
  lemma ProposalIsReadBack(v: Entries, now: string, id: string, scope: string, author: string, key: string, body: string)
    requires IsPlain(now) && IsPlain(id) && IsPlain(scope) && IsPlain(author) && IsPlain(key) && IsPlain(body) && id != ""
    ensures ApplyLine(v, ProposalLine(now, id, scope, author, key, body))
         == v[id := Entry(scope, author, key, now, body, "PROPOSED")]
  {
    var fields := [now, "id:" + id, "scope:" + scope, "author:" + author, "key:" + key] + ["state:PROPOSED", body];
    ProposalFieldsArePlain(now, id, scope, author, key, body);
    SplitJoin(fields);
    assert fields[1..]
        == ["id:" + id, "scope:" + scope, "author:" + author, "key:" + key] + ["state:PROPOSED", body];
    ScanOfProposal(id, scope, author, key, body);
    BodyIsReadBack(now, id, scope, author, key, body);
  }

  /** A printed event is read back as that event, whatever the note says, and shows who signed it. */
  lemma EventIsReadBack(v: Entries, now: string, id: string, event: string, signer: string, note: string)
    requires IsPlain(now) && IsPlain(id) && IsPlain(event) && IsPlain(signer) && IsPlain(note) && id != ""
    ensures ApplyLine(v, EventLine(now, id, event, signer, note))
         == if id in v then v[id := v[id].(state := event)] else v
    ensures event == "REVIEWED_ACCEPT" ==> AcceptedBy(EventLine(now, id, event, signer, note), id, signer)
  {
    var tail := if note == "" then [] else ["note:" + note];
    var fields := [now, "id:" + id, "event:" + event, "by:" + signer] + tail;
    PlainSum("id:", id);
    PlainSum("event:", event);
    PlainSum("by:", signer);
    PlainSum("note:", note);
    PlainFour(now, "id:" + id, "event:" + event, "by:" + signer, [], tail);
    assert [now, "id:" + id, "event:" + event, "by:" + signer] + [] + tail
        == [now, "id:" + id, "event:" + event, "by:" + signer] + tail;
    SplitJoin(fields);
    assert fields[1..] == ["id:" + id, "event:" + event, "by:" + signer] + tail;
    ScanOfEvent(id, event, signer, tail);
  }
}
