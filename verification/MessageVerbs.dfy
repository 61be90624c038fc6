/**
 * What each message command does to a journal, told from the journal before and after it: which
 * state it starts from, which state it leads to, and that in every other case nothing changes.
 */
module MessageVerbs {
  import opened Results
  import opened LineGrammar
  import opened MessageJournal
  import Text

  /** One line was added, and what the journal says of the id is now m; of other ids it says what it said. */
  ghost predicate IsNow(before: seq<string>, after: seq<string>, id: string, m: Message) {
    var v := FoldLines(before);
    && |after| == |before| + 1 && before <= after
    && FoldLines(after) == Inbox(if id in v.byId then v.order else v.order + [id], v.byId[id := m])
  }

  /** The line added is an event of the id, signed by the caller. */
  predicate SignsEvent(before: seq<string>, after: seq<string>, c: Caller, id: string, event: string) {
    |after| == |before| + 1 && ParseLine(after[|before|]) == Parsed(id, "", "", c.own, Some(event), false)
  }

  predicate Knows(lines: seq<string>, id: string) {
    id in FoldLines(lines).byId
  }

  function StateOf(lines: seq<string>, id: string): string
    requires Knows(lines, id)
  {
    FoldLines(lines).byId[id].state
  }

  /** An event line, wherever a command has decided on one. */
  lemma EventIsNow(lines: seq<string>, c: Caller, cmd: Command, event: string, reason: Option<string>)
    requires IsCaller(c) && IsCommand(cmd) && Knows(lines, cmd.id)
    requires ActionOf(FoldLines(lines), Attempts(lines, cmd.id), cmd) == Ok(PutEvent(event, reason))
    ensures
      var next := Committed(lines, c, cmd);
      var m := FoldLines(lines).byId[cmd.id];
      && IsNow(lines, next, cmd.id,
               m.(state := event,
                  reason := if event != "FAILED" then m.reason else if reason.Some? then reason.value else ""))
      && SignsEvent(lines, next, c, cmd.id, event)
  {
    CommandEffect(lines, c, cmd);
    EventIsParsed(c, cmd, event, reason);
  }

  /** A command changes a journal exactly when its action is one. */
  lemma ChangesIff(lines: seq<string>, c: Caller, cmd: Command)
    ensures
      var action := ActionOf(FoldLines(lines), Attempts(lines, cmd.id), cmd);
      && (Committed(lines, c, cmd) != lines <==> action.Ok? && !action.value.Noop?)
      && (Decide(lines, c, cmd).Err? <==> action.Err?)
  {
    var action := ActionOf(FoldLines(lines), Attempts(lines, cmd.id), cmd);
    if action.Ok? && !action.value.Noop? {
      assert |Committed(lines, c, cmd)| == |lines| + 1;
    }
  }

  // --- the recipient's receipts and the sender's notice ----------------------------------------------------

  /** A notice changes the journal if and only if the message is PERSISTED, and then it is NOTIFIED. */
  lemma NotifyIff(lines: seq<string>, c: Caller, id: string)
    requires IsCaller(c)
    ensures
      var next := Committed(lines, c, Notify(id));
      && (Decide(lines, c, Notify(id)).Err? <==> !IsId(id) || !Knows(lines, id))
      && (next != lines <==> IsId(id) && Knows(lines, id) && StateOf(lines, id) == "PERSISTED")
      && (next != lines ==>
            && IsNow(lines, next, id, FoldLines(lines).byId[id].(state := "NOTIFIED"))
            && SignsEvent(lines, next, c, id, "NOTIFIED"))
  {
    ChangesIff(lines, c, Notify(id));
    if IsId(id) && Knows(lines, id) && StateOf(lines, id) == "PERSISTED" {
      EventIsNow(lines, c, Notify(id), "NOTIFIED", None);
    }
  }

  /** A receipt of reading changes the journal if and only if the message is PERSISTED or NOTIFIED, and then it is SEEN. */
  lemma SeenIff(lines: seq<string>, c: Caller, id: string)
    requires IsCaller(c)
    ensures
      var next := Committed(lines, c, Seen(id));
      && (Decide(lines, c, Seen(id)).Err? <==> !IsId(id) || !Knows(lines, id))
      && (next != lines <==> IsId(id) && Knows(lines, id) && StateOf(lines, id) in {"PERSISTED", "NOTIFIED"})
      && (next != lines ==>
            && IsNow(lines, next, id, FoldLines(lines).byId[id].(state := "SEEN"))
            && SignsEvent(lines, next, c, id, "SEEN"))
  {
    ChangesIff(lines, c, Seen(id));
    if IsId(id) && Knows(lines, id) && StateOf(lines, id) in {"PERSISTED", "NOTIFIED"} {
      EventIsNow(lines, c, Seen(id), "SEEN", None);
    }
  }

  /** A receipt of completion changes the journal if and only if the message has not ended, and then it is PROCESSED. */
  lemma DoneIff(lines: seq<string>, c: Caller, id: string)
    requires IsCaller(c)
    ensures
      var next := Committed(lines, c, Done(id));
      && (Decide(lines, c, Done(id)).Err? <==> !IsId(id) || !Knows(lines, id))
      && (next != lines <==> IsId(id) && Knows(lines, id) && StateOf(lines, id) !in {"PROCESSED", "FAILED"})
      && (next != lines ==>
            && IsNow(lines, next, id, FoldLines(lines).byId[id].(state := "PROCESSED"))
            && SignsEvent(lines, next, c, id, "PROCESSED"))
  {
    ChangesIff(lines, c, Done(id));
    if IsId(id) && Knows(lines, id) && StateOf(lines, id) !in {"PROCESSED", "FAILED"} {
      EventIsNow(lines, c, Done(id), "PROCESSED", None);
    }
  }

  /** A failure changes the journal if and only if the message has not ended, and then it is FAILED with the encoded reason. */
  lemma FailIff(lines: seq<string>, c: Caller, id: string, reason: string)
    requires IsCaller(c)
    ensures
      var next := Committed(lines, c, Fail(id, reason));
      && (Decide(lines, c, Fail(id, reason)).Err? <==> !IsId(id) || !Knows(lines, id))
      && (next != lines <==> IsId(id) && Knows(lines, id) && StateOf(lines, id) !in {"PROCESSED", "FAILED"})
      && (next != lines ==>
            && IsNow(lines, next, id, FoldLines(lines).byId[id].(state := "FAILED", reason := Sanitize(reason)))
            && SignsEvent(lines, next, c, id, "FAILED"))
  {
    ChangesIff(lines, c, Fail(id, reason));
    if IsId(id) && Knows(lines, id) && StateOf(lines, id) !in {"PROCESSED", "FAILED"} {
      EventIsNow(lines, c, Fail(id, reason), "FAILED", if Sanitize(reason) == "" then None else Some(Sanitize(reason)));
    }
  }

  // --- sending -----------------------------------------------------------------------------------------------

  /**
   * A send changes the journal if and only if the id has no message yet, and then the message is
   * PERSISTED there with its sender, its recipient and its encoded text.
   */
  lemma SendIff(lines: seq<string>, c: Caller, to: string, body: string, id: string)
    requires IsCaller(c) && Text.IsUid(to)
    ensures
      var next := Committed(lines, c, Send(to, body, id));
      var delivered := Knows(lines, id) && FoldLines(lines).byId[id].delivered;
      && (Decide(lines, c, Send(to, body, id)).Err? <==> !IsId(id) || body == "")
      && (next != lines <==> IsId(id) && body != "" && !delivered)
      && (next != lines ==>
            IsNow(lines, next, id,
                  Message("PERSISTED", true, c.own, to, Sanitize(body),
                          if Knows(lines, id) then FoldLines(lines).byId[id].reason else "")))
  {
    ChangesIff(lines, c, Send(to, body, id));
    CommandEffect(lines, c, Send(to, body, id));
  }

  // --- waking up ------------------------------------------------------------------------------------------------

  ghost predicate IsPending(lines: seq<string>, id: string) {
    Knows(lines, id) && StateOf(lines, id) == "PERSISTED"
  }

  /** A wakeup is for pending messages only: of any other id, known or not, it changes nothing. */
  lemma WakeupIff(lines: seq<string>, c: Caller, id: string, pinged: bool, budget: nat)
    requires IsCaller(c) && IsCommand(Wakeup(id, pinged, budget))
    ensures Decide(lines, c, Wakeup(id, pinged, budget)).Ok?
    ensures Committed(lines, c, Wakeup(id, pinged, budget)) != lines <==> IsPending(lines, id)
  {
    ChangesIff(lines, c, Wakeup(id, pinged, budget));
  }

  /** An answered ping makes it NOTIFIED. */
  lemma AnsweredWakeupNotifies(lines: seq<string>, c: Caller, id: string, budget: nat)
    requires IsCaller(c) && IsCommand(Wakeup(id, true, budget)) && IsPending(lines, id)
    ensures
      var next := Committed(lines, c, Wakeup(id, true, budget));
      && IsNow(lines, next, id, FoldLines(lines).byId[id].(state := "NOTIFIED"))
      && SignsEvent(lines, next, c, id, "NOTIFIED")
      && Attempts(next, id) == Attempts(lines, id)
  {
    EventIsNow(lines, c, Wakeup(id, true, budget), "NOTIFIED", None);
    PrintedAttempts(lines, c, Wakeup(id, true, budget), PutEvent("NOTIFIED", None), id);
  }

  /** A ping that fails below the budget counts as one attempt and leaves every message as it is. */
  lemma FailedWakeupCounts(lines: seq<string>, c: Caller, id: string, budget: nat)
    requires IsCaller(c) && IsCommand(Wakeup(id, false, budget)) && IsPending(lines, id)
    requires Attempts(lines, id) + 1 < budget
    ensures
      var next := Committed(lines, c, Wakeup(id, false, budget));
      && |next| == |lines| + 1 && lines <= next
      && FoldLines(next) == FoldLines(lines) && Attempts(next, id) == Attempts(lines, id) + 1
  {
    CommandEffect(lines, c, Wakeup(id, false, budget));
    PrintedAttempts(lines, c, Wakeup(id, false, budget), PutAttempt, id);
  }

  /** The one that uses the budget up makes the message FAILED, and says after how many attempts. */
  lemma LastWakeupDeadLetters(lines: seq<string>, c: Caller, id: string, budget: nat)
    requires IsCaller(c) && IsCommand(Wakeup(id, false, budget)) && IsPending(lines, id)
    requires Attempts(lines, id) + 1 >= budget
    ensures
      var next := Committed(lines, c, Wakeup(id, false, budget));
      var made := Attempts(lines, id) + 1;
      var reason := "wakeup exhausted after " + Text.Decimal(made) + " attempts (no mux ack)";
      && IsNow(lines, next, id, FoldLines(lines).byId[id].(state := "FAILED", reason := reason))
      && SignsEvent(lines, next, c, id, "FAILED")
      && Attempts(next, id) == made
  {
    var made := Attempts(lines, id) + 1;
    BudgetIsUsedUp(lines, id, budget);
    DeadLetterIsNow(lines, c, Wakeup(id, false, budget), Exhausted(made));
    ExhaustedSays(made);
  }

  lemma BudgetIsUsedUp(lines: seq<string>, id: string, budget: nat)
    requires IsPending(lines, id) && Attempts(lines, id) + 1 >= budget
    ensures ActionOf(FoldLines(lines), Attempts(lines, id), Wakeup(id, false, budget))
         == Ok(DeadLetter(Exhausted(Attempts(lines, id) + 1)))
  {
  }

  lemma ExhaustedSays(n: nat)
    ensures Exhausted(n) == "wakeup exhausted after " + Text.Decimal(n) + " attempts (no mux ack)"
  {
  }

  lemma DeadLetterIsNow(lines: seq<string>, c: Caller, cmd: Command, verdict: string)
    requires IsCaller(c) && IsCommand(cmd) && cmd.Wakeup? && Knows(lines, cmd.id)
    requires ActionOf(FoldLines(lines), Attempts(lines, cmd.id), cmd) == Ok(DeadLetter(verdict))
    ensures
      var next := Committed(lines, c, cmd);
      && IsNow(lines, next, cmd.id, FoldLines(lines).byId[cmd.id].(state := "FAILED", reason := verdict))
      && SignsEvent(lines, next, c, cmd.id, "FAILED")
      && Attempts(next, cmd.id) == Attempts(lines, cmd.id) + 1
  {
    CommandEffect(lines, c, cmd);
    DeadLetterIsParsed(c, cmd, verdict);
    PrintedAttempts(lines, c, cmd, DeadLetter(verdict), cmd.id);
  }

  // --- encoding ---------------------------------------------------------------------------------------------------

  /** Free text is encoded letter by letter. */
  lemma {:induction false} SanitizeInTwo(a: string, b: string)
    ensures Sanitize(a + b) == Sanitize(a) + Sanitize(b)
  {
    if a == "" {
      assert a + b == b;
    } else {
      assert (a + b)[1..] == a[1..] + b;
      SanitizeInTwo(a[1..], b);
    }
  }

  /** A line break becomes a space, the separator its code, and any other letter stays. */
  lemma SanitizeOne(letter: char)
    ensures Sanitize([letter]) == match letter
                                  case '\n' => " "
                                  case '\r' => " "
                                  case '|' => "%7C"
                                  case _ => [letter]
  {
    assert [letter][1..] == "";
  }
}
