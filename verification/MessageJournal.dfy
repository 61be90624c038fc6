/**
 * Message delivery: an inbox journal of printed lines, the fold that reads it back, and the
 * locked commands that append to it.
 */
module MessageJournal {
  import opened Results
  import opened LineGrammar
  import Text

  // --- reading a line --------------------------------------------------------------------------

  datatype Parsed = Parsed(id: string, from: string, to: string, signer: string, event: Option<string>, isMessage: bool)

  const NOTHING := Parsed("", "", "", "", None, false)

  /** The structured fields, first occurrence of id and event, up to the free-text marker. */
  function ScanFields(p: Parsed, fields: seq<string>): Parsed
    decreases |fields|
  {
    if fields == [] then p
    else
      var f, rest := fields[0], fields[1..];
      if "id:" <= f then ScanFields(if p.id == "" then p.(id := f[3..]) else p, rest)
      else if "from:" <= f then ScanFields(p.(from := f[5..]), rest)
      else if "to:" <= f then ScanFields(p.(to := f[3..]), rest)
      else if "event:" <= f then ScanFields(if p.event.None? then p.(event := Some(f[6..])) else p, rest)
      else if "by:" <= f then ScanFields(p.(signer := f[3..]), rest)
      else if f == "state:PERSISTED" then p.(isMessage := true)
      else if "reason:" <= f then p
      else ScanFields(p, rest)
  }

  function ParseLine(raw: string): Parsed {
    ScanFields(NOTHING, Split(raw)[1..])
  }

  const BODY_MARKER := " | state:PERSISTED | "
  const REASON_MARKER := " | reason:"

  /** What the fold knows of one id; delivered says a message line was seen. */
  datatype Message = Message(state: string, delivered: bool, from: string, to: string, body: string, reason: string)

  const BLANK := Message("", false, "", "", "", "")

  datatype Inbox = Inbox(order: seq<string>, byId: map<string, Message>)

  const EMPTY_INBOX := Inbox([], map[])

  function Of(v: Inbox, id: string): Message {
    if id in v.byId then v.byId[id] else BLANK
  }

  function Put(v: Inbox, id: string, m: Message): Inbox {
    Inbox(if id in v.byId then v.order else v.order + [id], v.byId[id := m])
  }

  /** One line: the last event of an id is its state. */
  function ApplyLine(v: Inbox, raw: string): Inbox {
    var p := ParseLine(raw);
    if p.id == "" then v
    else
      var m := Of(v, p.id);
      if p.isMessage then
        Put(v, p.id, m.(state := "PERSISTED", delivered := true, from := p.from, to := p.to,
                        body := After(raw, BODY_MARKER).1))
      else if p.event.Some? then
        Put(v, p.id, m.(state := p.event.value,
                        reason := if p.event.value == "FAILED" then After(raw, REASON_MARKER).1 else m.reason))
      else Put(v, p.id, m)
  }

  function FoldLines(lines: seq<string>): Inbox {
    if lines == [] then EMPTY_INBOX
    else ApplyLine(FoldLines(lines[..|lines| - 1]), lines[|lines| - 1])
  }

  /** The fold as the loop over lines that fills the tables. */
  method ReadJournal(lines: seq<string>) returns (v: Inbox)
    ensures v == FoldLines(lines)
  {
    var order: seq<string> := [];
    var known: map<string, Message> := map[];
    for i := 0 to |lines|
      invariant Inbox(order, known) == FoldLines(lines[..i])
    {
      assert lines[..i + 1][..i] == lines[..i];
      var raw := lines[i];
      var p := ParseLine(raw);
      if p.id != "" {
        var m := BLANK;
        if p.id in known {
          m := known[p.id];
        } else {
          order := order + [p.id];
        }
        if p.isMessage {
          m := m.(state := "PERSISTED", delivered := true, from := p.from, to := p.to,
                  body := After(raw, BODY_MARKER).1);
        } else if p.event.Some? {
          m := m.(state := p.event.value);
          if p.event.value == "FAILED" {
            m := m.(reason := After(raw, REASON_MARKER).1);
          }
        }
        known := known[p.id := m];
      }
    }
    assert lines[..|lines|] == lines;
    return Inbox(order, known);
  }

  // --- the commands -----------------------------------------------------------------------------

  /** The clock, the calling agent and its optional actor label. */
  datatype Caller = Caller(now: string, own: string, actor: Option<string>)

  predicate IsCaller(c: Caller) {
    IsPlain(c.now) && Text.IsUid(c.own) && (c.actor.Some? ==> Text.IsToken(c.actor.value))
  }

  /** pinged is what the hook answered; budget is the failed pings allowed. */
  datatype Command =
    | Send(to: string, body: string, id: string)
    | Notify(id: string)
    | Seen(id: string)
    | Done(id: string)
    | Fail(id: string, reason: string)
    | Wakeup(id: string, pinged: bool, budget: nat)

  /** What the commands are run with: resolved recipients, and candidates without a separator. */
  predicate IsCommand(cmd: Command) {
    match cmd
    case Send(to, _, _) => Text.IsUid(to)
    case Wakeup(id, _, budget) => id != "" && IsPlain(id) && budget >= 1
    case _ => true
  }

  /** The lines a fixed-string count finds for failed pings of an id. */
  function AttemptMarker(id: string): string {
    "| " + ("wakeattempt:" + id) + " |"
  }

  function Attempts(lines: seq<string>, id: string): nat {
    if lines == [] then 0
    else Attempts(lines[..|lines| - 1], id) + if Contains(lines[|lines| - 1], AttemptMarker(id)) then 1 else 0
  }

  /** What a command does to the journal, before it is printed. */
  datatype Action =
    | Noop
    | PutMessage
    | PutEvent(event: string, reason: Option<string>)
    | PutAttempt
    | DeadLetter(verdict: string)

  const EXHAUSTED_AFTER := "wakeup exhausted after "
  const ATTEMPTS_MADE := " attempts (no mux ack)"

  function Exhausted(n: nat): string {
    EXHAUSTED_AFTER + Text.Decimal(n) + ATTEMPTS_MADE
  }

  function ActionOf(v: Inbox, attempts: nat, cmd: Command): Result<Action> {
    if cmd.Wakeup? then
      if Of(v, cmd.id).state != "PERSISTED" then Ok(Noop)
      else if cmd.pinged then Ok(PutEvent("NOTIFIED", None))
      else if attempts + 1 >= cmd.budget then
        Ok(DeadLetter(Exhausted(attempts + 1)))
      else Ok(PutAttempt)
    else if !IsId(cmd.id) then Err("invalid message id")
    else if cmd.Send? then
      if cmd.body == "" then Err("usage")
      else if Of(v, cmd.id).delivered then Ok(Noop)
      else Ok(PutMessage)
    else if cmd.id !in v.byId then Err("unknown message id")
    else
      var cur := v.byId[cmd.id].state;
      var ended := cur == "PROCESSED" || cur == "FAILED";
      match cmd
      case Notify(_) => Ok(if cur != "PERSISTED" then Noop else PutEvent("NOTIFIED", None))
      case Seen(_) => Ok(if cur == "PERSISTED" || cur == "NOTIFIED" then PutEvent("SEEN", None) else Noop)
      case Done(_) => Ok(if ended then Noop else PutEvent("PROCESSED", None))
      case Fail(_, reason) =>
        Ok(if ended then Noop
           else PutEvent("FAILED", if Sanitize(reason) == "" then None else Some(Sanitize(reason))))
  }

  function ActorFields(c: Caller): seq<string> {
    if c.actor.Some? then ["actor:" + c.actor.value] else []
  }

  function ReasonFields(reason: Option<string>): seq<string> {
    if reason.Some? then ["reason:" + reason.value] else []
  }

  /** The fields a message line ends with. */
  function BodyFields(body: string): seq<string> {
    ["state:PERSISTED", Sanitize(body)]
  }

  /** The fields of the record an action prints. */
  function Fields(c: Caller, cmd: Command, action: Action): seq<string>
    requires !action.Noop? && (action.PutMessage? ==> cmd.Send?)
  {
    match action
    case PutMessage =>
      [c.now, "id:" + cmd.id, "from:" + c.own, "to:" + cmd.to] + ActorFields(c)
      + BodyFields(cmd.body)
    case PutEvent(event, reason) =>
      [c.now, "id:" + cmd.id, "event:" + event, "by:" + c.own] + ActorFields(c) + ReasonFields(reason)
    case PutAttempt =>
      [c.now, "wakeattempt:" + cmd.id, "by:" + c.own]
    case DeadLetter(reason) =>
      [c.now, "wakeattempt:" + cmd.id, "id:" + cmd.id, "event:FAILED", "by:" + c.own] + ActorFields(c)
      + ReasonFields(Some(reason))
  }

  /** The locked commit: the record to append, nothing, or a refusal. */
  function Decide(lines: seq<string>, c: Caller, cmd: Command): Result<Option<string>> {
    var action :- ActionOf(FoldLines(lines), Attempts(lines, cmd.id), cmd);
    Ok(if action.Noop? then None else Some(Join(Fields(c, cmd, action))))
  }

  function Committed(lines: seq<string>, c: Caller, cmd: Command): seq<string> {
    match Decide(lines, c, cmd)
    case Ok(Some(record)) => lines + [record]
    case _ => lines
  }

  /** An inbox file under its lock. */
  class InboxFile {
    var lines: seq<string>

    constructor ()
      ensures lines == []
    {
      lines := [];
    }

    method CountAttempts(id: string) returns (n: nat)
      ensures n == Attempts(lines, id)
    {
      n := 0;
      for i := 0 to |lines|
        invariant n == Attempts(lines[..i], id)
      {
        assert lines[..i + 1][..i] == lines[..i];
        if Contains(lines[i], AttemptMarker(id)) {
          n := n + 1;
        }
      }
      assert lines[..|lines|] == lines;
    }

    method Commit(c: Caller, cmd: Command) returns (outcome: Result<Option<string>>)
      modifies this`lines
      ensures outcome == Decide(old(lines), c, cmd)
      ensures lines == Committed(old(lines), c, cmd)
    {
      var v := ReadJournal(lines);
      var attempts := CountAttempts(cmd.id);
      var action :- ActionOf(v, attempts, cmd);
      if action.Noop? {
        return Ok(None);
      }
      var record := Join(Fields(c, cmd, action));
      lines := lines + [record];
      return Ok(Some(record));
    }
  }

  // --- printed lines are read back ---------------------------------------------------------------

  lemma TokensArePlain(s: string)
    requires Text.IsToken(s)
    ensures IsPlain(s) && s != ""
  {
    assert !Text.IsTokenChar('|') && !Text.IsTokenChar('\n') && !Text.IsTokenChar('\r');
  }

  lemma DecimalIsPlain(n: nat)
    ensures IsPlain(Text.Decimal(n))
  {
    assert !Text.IsDigit('|') && !Text.IsDigit('\n') && !Text.IsDigit('\r');
  }

  /** What an action records about its id. */
  function Effect(v: Inbox, c: Caller, cmd: Command, action: Action): Inbox
    requires action.PutMessage? ==> cmd.Send?
  {
    var m := Of(v, cmd.id);
    match action
    case Noop => v
    case PutMessage =>
      Put(v, cmd.id, Message("PERSISTED", true, c.own, cmd.to, Sanitize(cmd.body), m.reason))
    case PutEvent(event, reason) =>
      Put(v, cmd.id, m.(state := event,
                        reason := if event != "FAILED" then m.reason else if reason.Some? then reason.value else ""))
    case PutAttempt => v
    case DeadLetter(reason) => Put(v, cmd.id, m.(state := "FAILED", reason := reason))
  }

  const EVENTS := {"NOTIFIED", "SEEN", "PROCESSED", "FAILED"}

  /** The shapes of action a command can lead to, and the text they carry. */
  ghost predicate IsActionOf(cmd: Command, action: Action) {
    && cmd.id != "" && IsPlain(cmd.id)
    && (action.PutMessage? ==> cmd.Send? && Text.IsUid(cmd.to) && cmd.body != "")
    && (action.PutEvent? ==> action.event in EVENTS)
    && (action.PutEvent? && action.reason.Some? ==> action.event == "FAILED" && IsPlain(action.reason.value))
    && (action.DeadLetter? ==> IsPlain(action.verdict))
  }

  lemma ExhaustedIsPlain(n: nat)
    ensures IsPlain(Exhausted(n))
  {
    DecimalIsPlain(n);
    ExhaustedAfterIsPlain();
    AttemptsMadeIsPlain();
    PlainThree(EXHAUSTED_AFTER, Text.Decimal(n), ATTEMPTS_MADE);
  }

  lemma ExhaustedAfterIsPlain()
    ensures IsPlain(EXHAUSTED_AFTER)
  {
  }

  lemma AttemptsMadeIsPlain()
    ensures IsPlain(ATTEMPTS_MADE)
  {
  }

  lemma PlainThree(a: string, b: string, c: string)
    requires IsPlain(a) && IsPlain(b) && IsPlain(c)
    ensures IsPlain(a + b + c)
  {
  }

  lemma ActionsOfCommands(v: Inbox, attempts: nat, cmd: Command)
    requires IsCommand(cmd) && ActionOf(v, attempts, cmd).Ok?
    ensures IsActionOf(cmd, ActionOf(v, attempts, cmd).value)
  {
    ExhaustedIsPlain(attempts + 1);
    if IsId(cmd.id) {
      IdIsPlain(cmd.id);
    }
  }

  lemma HeadIsPlain(c: Caller)
    requires IsCaller(c)
    ensures IsPlain("from:" + c.own) && IsPlain("by:" + c.own)
    ensures forall k | 0 <= k < |ActorFields(c)| :: IsPlain(ActorFields(c)[k])
  {
    TokensArePlain(c.own);
    PlainSum("from:", c.own);
    PlainSum("by:", c.own);
    if c.actor.Some? {
      TokensArePlain(c.actor.value);
      PlainSum("actor:", c.actor.value);
    }
  }

  lemma ReasonIsPlain(reason: Option<string>)
    requires reason.Some? ==> IsPlain(reason.value)
    ensures AllPlain(ReasonFields(reason))
  {
    if reason.Some? {
      PlainSum("reason:", reason.value);
    }
  }

  lemma BodyFieldsArePlain(body: string)
    ensures AllPlain(BodyFields(body))
  {
  }

  lemma MessageFieldsArePlain(c: Caller, cmd: Command)
    requires IsCaller(c) && IsActionOf(cmd, PutMessage)
    ensures ArePlain(Fields(c, cmd, PutMessage))
  {
    HeadIsPlain(c);
    PlainSum("id:", cmd.id);
    TokensArePlain(cmd.to);
    PlainSum("to:", cmd.to);
    BodyFieldsArePlain(cmd.body);
    PlainFour(c.now, "id:" + cmd.id, "from:" + c.own, "to:" + cmd.to, ActorFields(c), BodyFields(cmd.body));
  }

  lemma EventLineIsPlain(c: Caller, id: string, event: string, reason: Option<string>)
    requires IsCaller(c) && IsPlain(id) && IsPlain(event) && (reason.Some? ==> IsPlain(reason.value))
    ensures ArePlain([c.now, "id:" + id, "event:" + event, "by:" + c.own] + ActorFields(c) + ReasonFields(reason))
  {
    HeadIsPlain(c);
    PlainSum("id:", id);
    PlainSum("event:", event);
    ReasonIsPlain(reason);
    PlainFour(c.now, "id:" + id, "event:" + event, "by:" + c.own, ActorFields(c), ReasonFields(reason));
  }

  lemma EventNamesArePlain(event: string)
    requires event in EVENTS
    ensures IsPlain(event)
  {
  }

  lemma EventFieldsArePlain(c: Caller, cmd: Command, event: string, reason: Option<string>)
    requires IsCaller(c) && IsActionOf(cmd, PutEvent(event, reason))
    ensures ArePlain(Fields(c, cmd, PutEvent(event, reason)))
  {
    EventNamesArePlain(event);
    EventLineIsPlain(c, cmd.id, event, reason);
  }

  lemma AttemptFieldsArePlain(c: Caller, cmd: Command)
    requires IsCaller(c) && IsActionOf(cmd, PutAttempt)
    ensures ArePlain(Fields(c, cmd, PutAttempt))
  {
    HeadIsPlain(c);
    PlainSum("wakeattempt:", cmd.id);
  }

  lemma DeadLetterFieldsArePlain(c: Caller, cmd: Command, verdict: string)
    requires IsCaller(c) && IsActionOf(cmd, DeadLetter(verdict))
    ensures ArePlain(Fields(c, cmd, DeadLetter(verdict)))
  {
    HeadIsPlain(c);
    PlainSum("id:", cmd.id);
    PlainSum("wakeattempt:", cmd.id);
    ReasonIsPlain(Some(verdict));
    PlainFive(c.now, "wakeattempt:" + cmd.id, "id:" + cmd.id, "event:FAILED", "by:" + c.own, ActorFields(c),
              ReasonFields(Some(verdict)));
  }

  /** A field's first letter rules out every prefix with another one. */
  lemma OtherLetter(f: string)
    requires f != ""
    ensures f[0] != 'i' ==> !("id:" <= f)
    ensures f[0] != 'f' ==> !("from:" <= f)
    ensures f[0] != 't' ==> !("to:" <= f)
    ensures f[0] != 'e' ==> !("event:" <= f)
    ensures f[0] != 'b' ==> !("by:" <= f)
    ensures f[0] != 'r' ==> !("reason:" <= f)
    ensures f[0] != 's' ==> f != "state:PERSISTED"
  {
  }

  lemma ScanOver(p: Parsed, f: string, rest: seq<string>)
    requires f != "" && (f[0] == 'a' || f[0] == 'w')
    ensures ScanFields(p, [f] + rest) == ScanFields(p, rest)
  {
    OtherLetter(f);
  }

  lemma ScanId(p: Parsed, x: string, rest: seq<string>)
    ensures ScanFields(p, ["id:" + x] + rest) == ScanFields(if p.id == "" then p.(id := x) else p, rest)
  {
    assert ("id:" + x)[..3] == "id:" && ("id:" + x)[3..] == x;
  }

  lemma ScanFrom(p: Parsed, x: string, rest: seq<string>)
    ensures ScanFields(p, ["from:" + x] + rest) == ScanFields(p.(from := x), rest)
  {
    OtherLetter("from:" + x);
    assert ("from:" + x)[..5] == "from:" && ("from:" + x)[5..] == x;
  }

  lemma ScanTo(p: Parsed, x: string, rest: seq<string>)
    ensures ScanFields(p, ["to:" + x] + rest) == ScanFields(p.(to := x), rest)
  {
    OtherLetter("to:" + x);
    assert ("to:" + x)[..3] == "to:" && ("to:" + x)[3..] == x;
  }

  lemma ScanEvent(p: Parsed, x: string, rest: seq<string>)
    requires p.event.None?
    ensures ScanFields(p, ["event:" + x] + rest) == ScanFields(p.(event := Some(x)), rest)
  {
    OtherLetter("event:" + x);
    assert ("event:" + x)[..6] == "event:" && ("event:" + x)[6..] == x;
  }

  lemma ScanBy(p: Parsed, x: string, rest: seq<string>)
    ensures ScanFields(p, ["by:" + x] + rest) == ScanFields(p.(signer := x), rest)
  {
    OtherLetter("by:" + x);
    assert ("by:" + x)[..3] == "by:" && ("by:" + x)[3..] == x;
  }

  lemma ScanBody(p: Parsed, rest: seq<string>)
    ensures ScanFields(p, ["state:PERSISTED"] + rest) == p.(isMessage := true)
  {
    OtherLetter("state:PERSISTED");
  }

  lemma ScanReason(p: Parsed, x: string)
    ensures ScanFields(p, ["reason:" + x]) == p
  {
    OtherLetter("reason:" + x);
    assert ("reason:" + x)[..7] == "reason:";
  }

  lemma ScanActor(p: Parsed, c: Caller, rest: seq<string>)
    ensures ScanFields(p, ActorFields(c) + rest) == ScanFields(p, rest)
  {
    if c.actor.Some? {
      ScanOver(p, "actor:" + c.actor.value, rest);
    } else {
      assert ActorFields(c) + rest == rest;
    }
  }

  lemma ScanOfMessage(c: Caller, cmd: Command)
    requires cmd.Send? && cmd.id != ""
    ensures ScanFields(NOTHING, Fields(c, cmd, PutMessage)[1..]) == Parsed(cmd.id, c.own, cmd.to, "", None, true)
  {
    var body := ["state:PERSISTED"] + [Sanitize(cmd.body)];
    var tail := ActorFields(c) + body;
    assert Fields(c, cmd, PutMessage)[1..] == ["id:" + cmd.id] + (["from:" + c.own] + (["to:" + cmd.to] + tail));
    var p := NOTHING.(id := cmd.id);
    ScanId(NOTHING, cmd.id, ["from:" + c.own] + (["to:" + cmd.to] + tail));
    ScanFrom(p, c.own, ["to:" + cmd.to] + tail);
    ScanTo(p.(from := c.own), cmd.to, tail);
    ScanActor(p.(from := c.own, to := cmd.to), c, body);
    ScanBody(p.(from := c.own, to := cmd.to), [Sanitize(cmd.body)]);
  }

  /** From the id on: the fields every event line ends with. */
  function EventTail(c: Caller, id: string, event: string, reason: Option<string>): seq<string> {
    ["id:" + id] + (["event:" + event] + (["by:" + c.own] + (ActorFields(c) + ReasonFields(reason))))
  }

  lemma ScanOfEvent(c: Caller, id: string, event: string, reason: Option<string>)
    requires id != ""
    ensures ScanFields(NOTHING, EventTail(c, id, event, reason)) == Parsed(id, "", "", c.own, Some(event), false)
  {
    var tail := ActorFields(c) + ReasonFields(reason);
    var p := NOTHING.(id := id, event := Some(event), signer := c.own);
    ScanId(NOTHING, id, ["event:" + event] + (["by:" + c.own] + tail));
    ScanEvent(NOTHING.(id := id), event, ["by:" + c.own] + tail);
    ScanBy(NOTHING.(id := id, event := Some(event)), c.own, tail);
    ScanActor(p, c, ReasonFields(reason));
    if reason.Some? {
      ScanReason(p, reason.value);
    }
  }

  lemma ScanOfAttempt(c: Caller, id: string)
    ensures ScanFields(NOTHING, ["wakeattempt:" + id, "by:" + c.own]).id == ""
  {
    assert ["wakeattempt:" + id, "by:" + c.own] == ["wakeattempt:" + id] + (["by:" + c.own] + []);
    ScanOver(NOTHING, "wakeattempt:" + id, ["by:" + c.own] + []);
    ScanBy(NOTHING, c.own, []);
  }

  // --- the free text of a printed line --------------------------------------------------------------

  lemma Markers()
    ensures BODY_MARKER == SEPARATOR + "state:PERSISTED" + SEPARATOR && BODY_MARKER[3] == 's'
    ensures REASON_MARKER == SEPARATOR + "reason:" && SEPARATOR <= REASON_MARKER && REASON_MARKER[3] == 'r'
  {
    assert REASON_MARKER[..3] == SEPARATOR;
  }

  lemma BodyIsReadBack(c: Caller, cmd: Command)
    requires IsCaller(c) && IsActionOf(cmd, PutMessage)
    ensures After(Join(Fields(c, cmd, PutMessage)), BODY_MARKER) == (true, Sanitize(cmd.body))
  {
    var before := [c.now, "id:" + cmd.id, "from:" + c.own, "to:" + cmd.to] + ActorFields(c);
    MessageFieldsArePlain(c, cmd);
    assert forall k | 0 <= k < |before| :: before[k] == Fields(c, cmd, PutMessage)[k];
    Markers();
    forall k | 0 < k < |before| ensures PartsFrom(before[k], BODY_MARKER) {
      FirstLetterParts(before[k], BODY_MARKER);
    }
    TextAfterField(before, "state:PERSISTED", BODY_MARKER, Sanitize(cmd.body));
  }

  lemma ReasonIsReadBack(before: seq<string>, reason: Option<string>)
    requires ArePlain(before + ReasonFields(reason)) && before != []
    requires forall k | 0 < k < |before| :: before[k] != "" && before[k][0] != 'r'
    ensures After(Join(before + ReasonFields(reason)), REASON_MARKER).1 == if reason.Some? then reason.value else ""
  {
    assert forall k | 0 <= k < |before| :: before[k] == (before + ReasonFields(reason))[k];
    Markers();
    forall k | 0 < k < |before| ensures PartsFrom(before[k], REASON_MARKER) {
      FirstLetterParts(before[k], REASON_MARKER);
    }
    if reason.Some? {
      TextAfterPrefix(before, "reason:", REASON_MARKER, reason.value);
    } else {
      assert before + [] == before;
      NoMarker(before, REASON_MARKER);
    }
  }

  lemma ReasonOfEvent(c: Caller, cmd: Command, event: string, reason: Option<string>)
    requires IsCaller(c) && IsActionOf(cmd, PutEvent(event, reason))
    ensures After(Join(Fields(c, cmd, PutEvent(event, reason))), REASON_MARKER).1
         == if reason.Some? then reason.value else ""
  {
    EventFieldsArePlain(c, cmd, event, reason);
    ReasonIsReadBack([c.now, "id:" + cmd.id, "event:" + event, "by:" + c.own] + ActorFields(c), reason);
  }

  lemma ReasonOfDeadLetter(c: Caller, cmd: Command, verdict: string)
    requires IsCaller(c) && IsActionOf(cmd, DeadLetter(verdict))
    ensures After(Join(Fields(c, cmd, DeadLetter(verdict))), REASON_MARKER).1 == verdict
  {
    DeadLetterFieldsArePlain(c, cmd, verdict);
    ReasonIsReadBack([c.now, "wakeattempt:" + cmd.id, "id:" + cmd.id, "event:FAILED", "by:" + c.own] + ActorFields(c),
                     Some(verdict));
  }

  lemma MessageIsParsed(c: Caller, cmd: Command)
    requires IsCaller(c) && IsActionOf(cmd, PutMessage)
    ensures ParseLine(Join(Fields(c, cmd, PutMessage))) == Parsed(cmd.id, c.own, cmd.to, "", None, true)
  {
    MessageFieldsArePlain(c, cmd);
    SplitJoin(Fields(c, cmd, PutMessage));
    ScanOfMessage(c, cmd);
  }

  lemma EventIsParsed(c: Caller, cmd: Command, event: string, reason: Option<string>)
    requires IsCaller(c) && IsActionOf(cmd, PutEvent(event, reason))
    ensures ParseLine(Join(Fields(c, cmd, PutEvent(event, reason)))) == Parsed(cmd.id, "", "", c.own, Some(event), false)
  {
    EventFieldsArePlain(c, cmd, event, reason);
    SplitJoin(Fields(c, cmd, PutEvent(event, reason)));
    EventTailOf(c, cmd, event, reason);
    ScanOfEvent(c, cmd.id, event, reason);
  }

  lemma EventTailOf(c: Caller, cmd: Command, event: string, reason: Option<string>)
    ensures Fields(c, cmd, PutEvent(event, reason))[1..] == EventTail(c, cmd.id, event, reason)
  {
  }

  lemma AttemptIsParsed(c: Caller, cmd: Command)
    requires IsCaller(c) && IsActionOf(cmd, PutAttempt)
    ensures ParseLine(Join(Fields(c, cmd, PutAttempt))).id == ""
  {
    AttemptFieldsArePlain(c, cmd);
    SplitJoin(Fields(c, cmd, PutAttempt));
    assert Fields(c, cmd, PutAttempt)[1..] == ["wakeattempt:" + cmd.id, "by:" + c.own];
    ScanOfAttempt(c, cmd.id);
  }

  lemma DeadLetterTail(c: Caller, cmd: Command, verdict: string)
    ensures Fields(c, cmd, DeadLetter(verdict))[1..]
         == ["wakeattempt:" + cmd.id] + EventTail(c, cmd.id, "FAILED", Some(verdict))
  {
    assert "event:" + "FAILED" == "event:FAILED";
  }

  lemma DeadLetterIsParsed(c: Caller, cmd: Command, verdict: string)
    requires IsCaller(c) && IsActionOf(cmd, DeadLetter(verdict))
    ensures ParseLine(Join(Fields(c, cmd, DeadLetter(verdict)))) == Parsed(cmd.id, "", "", c.own, Some("FAILED"), false)
  {
    DeadLetterFieldsArePlain(c, cmd, verdict);
    SplitJoin(Fields(c, cmd, DeadLetter(verdict)));
    var tail := EventTail(c, cmd.id, "FAILED", Some(verdict));
    DeadLetterTail(c, cmd, verdict);
    ScanOver(NOTHING, "wakeattempt:" + cmd.id, tail);
    ScanOfEvent(c, cmd.id, "FAILED", Some(verdict));
  }

  /**
   * The line an action prints is read back as exactly that action, whatever the body or reason
   * says: the fold of the journal with it is the fold before with the intended entry changed.
   */
  lemma PrintedLineIsReadBack(v: Inbox, c: Caller, cmd: Command, action: Action)
    requires IsCaller(c) && !action.Noop? && IsActionOf(cmd, action)
    ensures ApplyLine(v, Join(Fields(c, cmd, action))) == Effect(v, c, cmd, action)
  {
    match action
    case PutMessage =>
      MessageIsParsed(c, cmd);
      BodyIsReadBack(c, cmd);
    case PutEvent(event, reason) =>
      EventIsParsed(c, cmd, event, reason);
      ReasonOfEvent(c, cmd, event, reason);
    case PutAttempt =>
      AttemptIsParsed(c, cmd);
    case DeadLetter(verdict) =>
      DeadLetterIsParsed(c, cmd, verdict);
      ReasonOfDeadLetter(c, cmd, verdict);
  }

  /** A command on any journal at all: its effect on the fold, and that the record is one line. */
  lemma CommandEffect(lines: seq<string>, c: Caller, cmd: Command)
    requires IsCaller(c) && IsCommand(cmd)
    ensures
      var action := ActionOf(FoldLines(lines), Attempts(lines, cmd.id), cmd);
      action.Ok? ==>
        && IsActionOf(cmd, action.value)
        && FoldLines(Committed(lines, c, cmd)) == Effect(FoldLines(lines), c, cmd, action.value)
  {
    var v := FoldLines(lines);
    var attempts := Attempts(lines, cmd.id);
    if ActionOf(v, attempts, cmd).Ok? {
      var action := ActionOf(v, attempts, cmd).value;
      ActionsOfCommands(v, attempts, cmd);
      if !action.Noop? {
        PrintedLineIsReadBack(v, c, cmd, action);
        assert Committed(lines, c, cmd)[..|lines|] == lines;
      }
    }
  }

  /** On every journal and whatever the free text: a command changes the fold at its own id only. */
  lemma OtherIdsAreUntouched(lines: seq<string>, c: Caller, cmd: Command, id: string)
    requires IsCaller(c) && IsCommand(cmd) && id != cmd.id
    ensures
      var v, w := FoldLines(lines), FoldLines(Committed(lines, c, cmd));
      && (id in w.byId <==> id in v.byId)
      && Of(w, id) == Of(v, id)
      && v.order <= w.order
  {
    CommandEffect(lines, c, cmd);
  }

  // --- delivery only moves forward ------------------------------------------------------------------

  /** PERSISTED < NOTIFIED < SEEN < PROCESSED, FAILED; any other state counts as seen. */
  function Rank(state: string): (r: nat)
    ensures r <= 3
  {
    if state == "PERSISTED" then 0
    else if state == "NOTIFIED" then 1
    else if state == "PROCESSED" || state == "FAILED" then 3
    else 2
  }

  /** On every journal: an appended event strictly raises the rank of its id, and never anyone else's. */
  lemma EventsRaiseTheRank(lines: seq<string>, c: Caller, cmd: Command)
    requires IsCaller(c) && IsCommand(cmd)
    requires var action := ActionOf(FoldLines(lines), Attempts(lines, cmd.id), cmd);
      action.Ok? && (action.value.PutEvent? || action.value.DeadLetter?)
    ensures
      var v, w := FoldLines(lines), FoldLines(Committed(lines, c, cmd));
      && cmd.id in v.byId && cmd.id in w.byId
      && Rank(v.byId[cmd.id].state) < Rank(w.byId[cmd.id].state)
  {
    CommandEffect(lines, c, cmd);
  }

  /** Message lines and event lines of an id. */
  function MessageLines(lines: seq<string>, id: string): nat {
    if lines == [] then 0
    else
      var p := ParseLine(lines[|lines| - 1]);
      MessageLines(lines[..|lines| - 1], id) + if p.id == id && p.isMessage then 1 else 0
  }

  function EventLines(lines: seq<string>, id: string): nat {
    if lines == [] then 0
    else
      var p := ParseLine(lines[|lines| - 1]);
      EventLines(lines[..|lines| - 1], id) + if p.id == id && !p.isMessage && p.event.Some? then 1 else 0
  }

  /** How far an id has come: nothing before its message, then the rank of its state. */
  function Progress(v: Inbox, id: string): (r: nat)
    ensures r <= 3
  {
    if Of(v, id).delivered then Rank(Of(v, id).state) else 0
  }

  /** Every id the journal knows was sent as a message. */
  ghost predicate IsSent(v: Inbox, id: string) {
    id in v.byId ==> v.byId[id].delivered
  }

  /** What a printed line adds to the counts. */
  lemma PrintedLineCounts(lines: seq<string>, c: Caller, cmd: Command, action: Action, id: string)
    requires IsCaller(c) && id != "" && !action.Noop? && IsActionOf(cmd, action)
    ensures
      var next := lines + [Join(Fields(c, cmd, action))];
      && MessageLines(next, id) == MessageLines(lines, id) + (if id == cmd.id && action.PutMessage? then 1 else 0)
      && EventLines(next, id)
         == EventLines(lines, id) + (if id == cmd.id && (action.PutEvent? || action.DeadLetter?) then 1 else 0)
  {
    var next := lines + [Join(Fields(c, cmd, action))];
    assert next[..|lines|] == lines;
    match action
    case PutMessage => MessageIsParsed(c, cmd);
    case PutEvent(event, reason) => EventIsParsed(c, cmd, event, reason);
    case PutAttempt => AttemptIsParsed(c, cmd);
    case DeadLetter(verdict) => DeadLetterIsParsed(c, cmd, verdict);
  }

  /** A command as the action it takes; a refused one takes none. */
  lemma CommandCases(lines: seq<string>, c: Caller, cmd: Command) returns (action: Action)
    requires IsCaller(c) && IsCommand(cmd)
    ensures action.PutMessage? ==> cmd.Send?
    ensures FoldLines(Committed(lines, c, cmd)) == Effect(FoldLines(lines), c, cmd, action)
    ensures action.Noop? ==> Committed(lines, c, cmd) == lines
    ensures !action.Noop? ==>
      && IsActionOf(cmd, action)
      && ActionOf(FoldLines(lines), Attempts(lines, cmd.id), cmd) == Ok(action)
      && Committed(lines, c, cmd) == lines + [Join(Fields(c, cmd, action))]
  {
    var chosen := ActionOf(FoldLines(lines), Attempts(lines, cmd.id), cmd);
    CommandEffect(lines, c, cmd);
    action := if chosen.Ok? then chosen.value else Noop;
  }

  /** How an action moves any id: its own forward, the others not at all. */
  lemma ActionProgress(v: Inbox, attempts: nat, c: Caller, cmd: Command, action: Action, id: string)
    requires IsCommand(cmd) && (action.PutMessage? ==> cmd.Send?) && IsSent(v, id)
    requires !action.Noop? ==> ActionOf(v, attempts, cmd) == Ok(action)
    ensures
      var w := Effect(v, c, cmd, action);
      var sent := if id == cmd.id && action.PutMessage? then 1 else 0;
      var moved := if id == cmd.id && (action.PutEvent? || action.DeadLetter?) then 1 else 0;
      && IsSent(w, id)
      && (if Of(w, id).delivered then 1 else 0) == (if Of(v, id).delivered then 1 else 0) + sent
      && Progress(v, id) + moved <= Progress(w, id)
  {
  }

  lemma StepCounts(lines: seq<string>, c: Caller, cmd: Command, id: string)
    requires IsCaller(c) && IsCommand(cmd) && id != "" && IsSent(FoldLines(lines), id)
    ensures
      var next := Committed(lines, c, cmd);
      var v, w := FoldLines(lines), FoldLines(next);
      && IsSent(w, id)
      && MessageLines(next, id) - MessageLines(lines, id)
         == (if Of(w, id).delivered then 1 else 0) - (if Of(v, id).delivered then 1 else 0)
      && 0 <= EventLines(next, id) - EventLines(lines, id) <= Progress(w, id) - Progress(v, id)
  {
    var action := CommandCases(lines, c, cmd);
    ActionProgress(FoldLines(lines), Attempts(lines, cmd.id), c, cmd, action, id);
    if !action.Noop? {
      PrintedLineCounts(lines, c, cmd, action, id);
    }
  }

  /** Commands one after the other, each under the lock. */
  function Run(lines: seq<string>, steps: seq<(Caller, Command)>): seq<string> {
    if steps == [] then lines
    else
      var last := steps[|steps| - 1];
      Committed(Run(lines, steps[..|steps| - 1]), last.0, last.1)
  }

  ghost predicate AreSteps(steps: seq<(Caller, Command)>) {
    forall k | 0 <= k < |steps| :: IsCaller(steps[k].0) && IsCommand(steps[k].1)
  }

  /**
   * Over every run of commands on a journal that holds the id's message or does not know the id:
   * one message line at most, and an event line for each rank risen and no more.
   */
  lemma {:induction false} LinesPerMessage(lines: seq<string>, steps: seq<(Caller, Command)>, id: string)
    requires AreSteps(steps) && id != "" && IsSent(FoldLines(lines), id)
    ensures
      var end := Run(lines, steps);
      var v, w := FoldLines(lines), FoldLines(end);
      && IsSent(w, id)
      && MessageLines(end, id) - MessageLines(lines, id)
         == (if Of(w, id).delivered then 1 else 0) - (if Of(v, id).delivered then 1 else 0)
      && 0 <= EventLines(end, id) - EventLines(lines, id) <= Progress(w, id) - Progress(v, id)
  {
    if steps != [] {
      var front, last := steps[..|steps| - 1], steps[|steps| - 1];
      LinesPerMessage(lines, front, id);
      StepCounts(Run(lines, front), last.0, last.1, id);
    }
  }

  /** From an empty journal: at most one message line and three event lines for every id. */
  lemma AtMostFourLines(steps: seq<(Caller, Command)>, id: string)
    requires AreSteps(steps) && id != ""
    ensures MessageLines(Run([], steps), id) <= 1 && EventLines(Run([], steps), id) <= 3
  {
    LinesPerMessage([], steps, id);
  }

  // --- failed pings are bounded ----------------------------------------------------------------------

  lemma {:induction false} SkipText(text: string, rest: string, marker: string)
    requires '|' !in text && marker != "" && marker[0] == '|'
    ensures After(text + rest, marker) == After(rest, marker)
  {
    if text == "" {
      assert text + rest == rest;
    } else {
      assert (text + rest)[1..] == text[1..] + rest;
      NotAPrefix(marker, text + rest, 0);
      SkipText(text[1..], rest, marker);
    }
  }

  /** A text without separators that ends where another does is that text. */
  lemma SameText(x: string, y: string, after: string)
    requires '|' !in x && '|' !in y
    ensures x + " |" <= y + SEPARATOR + after <==> x == y
  {
    var line := y + SEPARATOR + after;
    var mark := x + " |";
    assert mark[|x| + 1] == '|' && line[|y| + 1] == '|';
    if |x| < |y| {
      assert line[|x| + 1] == if |x| + 1 < |y| then y[|x| + 1] else ' ';
      NotAPrefix(mark, line, |x| + 1);
    } else if |x| > |y| {
      assert mark[|y| + 1] == if |y| + 1 < |x| then x[|y| + 1] else ' ';
      NotAPrefix(mark, line, |y| + 1);
    } else if x == y {
      assert line[..|mark|] == mark;
    } else {
      var k :| 0 <= k < |x| && x[k] != y[k];
      NotAPrefix(mark, line, k);
    }
  }

  ghost predicate HasInside(fields: seq<string>, x: string) {
    exists k :: 0 < k < |fields| - 1 && fields[k] == x
  }

  lemma InsideFirst(fields: seq<string>, x: string)
    requires |fields| > 1
    ensures HasInside(fields, x) <==> (|fields| > 2 && fields[1] == x) || HasInside(fields[1..], x)
  {
    if k :| 0 < k < |fields| - 1 && fields[k] == x {
      assert k == 1 || fields[1..][k - 1] == x;
    }
    if k :| 0 < k < |fields[1..]| - 1 && fields[1..][k] == x {
      assert fields[k + 1] == x;
    }
  }

  /** A fixed-string search finds " x " between separators exactly when x is an inner field. */
  lemma {:induction false} MarkerInJoin(fields: seq<string>, x: string)
    requires ArePlain(fields) && '|' !in x
    ensures Contains(Join(fields), "| " + x + " |") <==> HasInside(fields, x)
  {
    var marker := "| " + x + " |";
    if |fields| == 1 {
      SkipText(fields[0], "", marker);
      assert fields[0] + "" == fields[0];
    } else {
      var rest := fields[1..];
      MarkerInJoin(rest, x);
      InsideFirst(fields, x);
      AtSeparator(fields[0], Join(rest), x);
      assert IsPlain(rest[0]);
      if |rest| == 1 {
        NotAPrefixOfField(x, rest[0]);
      } else {
        SameText(x, rest[0], Join(rest[1..]));
      }
    }
  }

  lemma NotAPrefixOfField(x: string, field: string)
    requires '|' !in field
    ensures !(x + " |" <= field)
  {
    NotAPrefix(x + " |", field, |x| + 1);
  }

  lemma AtSeparator(field: string, rest: string, x: string)
    requires '|' !in field
    ensures Contains(field + SEPARATOR + rest, "| " + x + " |")
        <==> x + " |" <= rest || Contains(rest, "| " + x + " |")
  {
    var marker := "| " + x + " |";
    var line := "| " + rest;
    assert field + SEPARATOR + rest == (field + " ") + line;
    SkipText(field + " ", line, marker);
    assert line[1..] == " " + rest;
    SkipText(" ", rest, marker);
    assert marker == "| " + (x + " |");
    PrefixUnder("| ", x + " |", rest);
  }

  lemma PrefixUnder(before: string, a: string, b: string)
    ensures before + a <= before + b <==> a <= b
  {
    if a <= b {
      assert (before + b)[..|before + a|] == before + a;
    } else if |a| <= |b| {
      var k :| 0 <= k < |a| && a[k] != b[k];
      NotAPrefix(before + a, before + b, |before| + k);
    }
  }

  lemma NotAMark(field: string, id: string)
    requires field != "" && field[0] != 'w'
    ensures field != "wakeattempt:" + id
  {
  }

  lemma SameMark(a: string, b: string)
    ensures "wakeattempt:" + a == "wakeattempt:" + b <==> a == b
  {
    assert ("wakeattempt:" + a)[12..] == a && ("wakeattempt:" + b)[12..] == b;
  }

  /** Only the two lines of a failed ping carry its marker. */
  lemma MarkOfFields(c: Caller, cmd: Command, action: Action, id: string)
    requires !action.Noop? && (action.PutMessage? ==> cmd.Send?)
    ensures HasInside(Fields(c, cmd, action), "wakeattempt:" + id)
        <==> id == cmd.id && (action.PutAttempt? || action.DeadLetter?)
  {
    var fields := Fields(c, cmd, action);
    SameMark(cmd.id, id);
    if action.PutAttempt? || action.DeadLetter? {
      assert fields[1] == "wakeattempt:" + cmd.id;
      forall k | 1 < k < |fields| - 1 ensures fields[k] != "wakeattempt:" + id {
        NotAMark(fields[k], id);
      }
    } else {
      forall k | 0 < k < |fields| - 1 ensures fields[k] != "wakeattempt:" + id {
        NotAMark(fields[k], id);
      }
    }
  }

  lemma PlainFields(c: Caller, cmd: Command, action: Action)
    requires IsCaller(c) && !action.Noop? && IsActionOf(cmd, action)
    ensures ArePlain(Fields(c, cmd, action))
  {
    match action
    case PutMessage => MessageFieldsArePlain(c, cmd);
    case PutEvent(event, reason) => EventFieldsArePlain(c, cmd, event, reason);
    case PutAttempt => AttemptFieldsArePlain(c, cmd);
    case DeadLetter(verdict) => DeadLetterFieldsArePlain(c, cmd, verdict);
  }

  lemma PrintedAttempts(lines: seq<string>, c: Caller, cmd: Command, action: Action, id: string)
    requires IsCaller(c) && IsPlain(id) && !action.Noop? && IsActionOf(cmd, action)
    ensures Attempts(lines + [Join(Fields(c, cmd, action))], id)
         == Attempts(lines, id) + (if id == cmd.id && (action.PutAttempt? || action.DeadLetter?) then 1 else 0)
  {
    var next := lines + [Join(Fields(c, cmd, action))];
    assert next[..|lines|] == lines;
    PlainFields(c, cmd, action);
    PlainSum("wakeattempt:", id);
    MarkerInJoin(Fields(c, cmd, action), "wakeattempt:" + id);
    MarkOfFields(c, cmd, action, id);
  }

  /** Fewer failed pings than the budget, or as many and the message is dead-lettered. */
  ghost predicate WithinBudget(v: Inbox, attempts: nat, id: string, budget: nat) {
    && IsSent(v, id) && attempts <= budget
    && (attempts == budget ==> Of(v, id).state == "FAILED")
  }

  lemma ActionWithinBudget(v: Inbox, attempts: nat, c: Caller, cmd: Command, action: Action, budget: nat)
    requires IsCommand(cmd) && (action.PutMessage? ==> cmd.Send?) && WithinBudget(v, attempts, cmd.id, budget)
    requires !action.Noop? ==> ActionOf(v, attempts, cmd) == Ok(action)
    requires cmd.Wakeup? ==> cmd.budget == budget
    ensures WithinBudget(Effect(v, c, cmd, action), attempts + (if action.PutAttempt? || action.DeadLetter? then 1 else 0),
                         cmd.id, budget)
  {
  }

  lemma StepWithinBudget(lines: seq<string>, c: Caller, cmd: Command, id: string, budget: nat)
    requires IsCaller(c) && IsCommand(cmd) && IsPlain(id) && id != ""
    requires WithinBudget(FoldLines(lines), Attempts(lines, id), id, budget)
    requires cmd.Wakeup? && cmd.id == id ==> cmd.budget == budget
    ensures
      var next := Committed(lines, c, cmd);
      WithinBudget(FoldLines(next), Attempts(next, id), id, budget)
  {
    var action := CommandCases(lines, c, cmd);
    if !action.Noop? {
      PrintedAttempts(lines, c, cmd, action, id);
    }
    if id == cmd.id {
      ActionWithinBudget(FoldLines(lines), Attempts(lines, id), c, cmd, action, budget);
    } else {
      BudgetElsewhere(FoldLines(lines), Attempts(lines, id), c, cmd, action, id, budget);
    }
  }

  lemma BudgetElsewhere(v: Inbox, attempts: nat, c: Caller, cmd: Command, action: Action, id: string, budget: nat)
    requires (action.PutMessage? ==> cmd.Send?) && id != cmd.id && WithinBudget(v, attempts, id, budget)
    ensures WithinBudget(Effect(v, c, cmd, action), attempts, id, budget)
  {
  }

  /**
   * A message is never pinged in vain more often than the budget: over every run from an empty
   * journal in which the wakeups of an id share a budget, the failed pings stay within it, and
   * when they reach it the message is dead-lettered.
   */
  lemma {:induction false} FailedPingsAreBounded(steps: seq<(Caller, Command)>, id: string, budget: nat)
    requires AreSteps(steps) && IsPlain(id) && id != "" && budget >= 1
    requires forall k | 0 <= k < |steps| :: steps[k].1.Wakeup? && steps[k].1.id == id ==> steps[k].1.budget == budget
    ensures
      var end := Run([], steps);
      WithinBudget(FoldLines(end), Attempts(end, id), id, budget)
  {
    if steps != [] {
      var front, last := steps[..|steps| - 1], steps[|steps| - 1];
      FailedPingsAreBounded(front, id, budget);
      StepWithinBudget(Run([], front), last.0, last.1, id, budget);
    }
  }
}
