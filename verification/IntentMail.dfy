/**
 * The inboxes that applying an intent file relies on are message journals: each of an attempt's
 * messages, sent through the locked commit, does to the journals what delivering does to an inbox.
 */
module IntentMail {
  import opened Results
  import opened IntentApply
  import Text
  import G = LineGrammar
  import M = MessageJournal

  /** The attempt, its task, the supervised agent, and the agent the task is done for. */
  datatype Attempt = Attempt(id: string, task: string, own: string, requester: string)

  predicate IsAttempt(a: Attempt) {
    Text.IsToken(a.id) && Text.IsTaskId(a.task) && Text.IsUid(a.own) && Text.IsUid(a.requester)
  }

  // --- the ids of an attempt's messages --------------------------------------------------------------

  function MessageName(a: Attempt, m: MessageId): string {
    match m
    case ReportMessage => "task-report-" + a.task + "-" + a.id
    case ReceiptMessage => a.task + ".r." + a.id
    case Continuation(row) => a.task + ".c." + a.id + "." + Text.Decimal(row + 1)
  }

  /** Reports go to the requester, everything else to the agent itself. */
  function Recipient(a: Attempt, m: MessageId): string {
    if m.ReportMessage? then a.requester else a.own
  }

  lemma ContinuationsDiffer(prefix: string, m: nat, n: nat)
    ensures prefix + Text.Decimal(m) == prefix + Text.Decimal(n) <==> m == n
  {
    if prefix + Text.Decimal(m) == prefix + Text.Decimal(n) {
      assert Text.Decimal(m) == (prefix + Text.Decimal(m))[|prefix|..];
      assert Text.Decimal(n) == (prefix + Text.Decimal(n))[|prefix|..];
      Text.DecimalRoundTrip(m);
      Text.DecimalRoundTrip(n);
    }
  }

  /** No two messages of an attempt share an id. */
  lemma MessageNamesDiffer(a: Attempt, m: MessageId, n: MessageId)
    requires IsAttempt(a)
    ensures MessageName(a, m) == MessageName(a, n) <==> m == n
  {
    var s, t := MessageName(a, m), MessageName(a, n);
    assert m.ReportMessage? <==> s[1] == 'a';
    assert n.ReportMessage? <==> t[1] == 'a';
    assert !m.ReportMessage? ==> s[15] == if m.ReceiptMessage? then 'r' else 'c';
    assert !n.ReportMessage? ==> t[15] == if n.ReceiptMessage? then 'r' else 'c';
    if m.Continuation? && n.Continuation? {
      ContinuationsDiffer(a.task + ".c." + a.id + ".", m.row + 1, n.row + 1);
    }
  }

  lemma TokensAreIds(s: string)
    requires Text.IsToken(s) || Text.IsTaskId(s) || Text.IsDecimal(s)
    ensures G.IsId(s)
  {
    forall k | 0 <= k < |s| ensures G.IsIdChar(s[k]) {
      assert s[k] in s;
    }
  }

  lemma IdsJoin(s: string, t: string)
    requires G.IsId(s) && G.IsId(t)
    ensures G.IsId(s + t)
  {
  }

  lemma MessageNamesAreIds(a: Attempt, m: MessageId)
    requires IsAttempt(a)
    ensures G.IsId(MessageName(a, m))
  {
    TokensAreIds(a.id);
    TokensAreIds(a.task);
    match m
    case ReportMessage =>
      IdsJoin("task-report-", a.task);
      IdsJoin("task-report-" + a.task, "-");
      IdsJoin("task-report-" + a.task + "-", a.id);
    case ReceiptMessage =>
      IdsJoin(a.task, ".r.");
      IdsJoin(a.task + ".r.", a.id);
    case Continuation(row) =>
      TokensAreIds(Text.Decimal(row + 1));
      IdsJoin(a.task, ".c.");
      IdsJoin(a.task + ".c.", a.id);
      IdsJoin(a.task + ".c." + a.id, ".");
      IdsJoin(a.task + ".c." + a.id + ".", Text.Decimal(row + 1));
  }

  // --- the journals of all inboxes -----------------------------------------------------------------------

  type Mail = map<string, seq<string>>

  function LinesOf(mail: Mail, to: string): seq<string> {
    if to in mail then mail[to] else []
  }

  /** One command on one inbox, under its lock. */
  function Commanded(mail: Mail, to: string, c: M.Caller, cmd: M.Command): Mail {
    mail[to := M.Committed(LinesOf(mail, to), c, cmd)]
  }

  function SendOf(a: Attempt, m: MessageId, body: string): M.Command {
    M.Send(Recipient(a, m), body, MessageName(a, m))
  }

  predicate IsDelivered(mail: Mail, a: Attempt, m: MessageId) {
    M.Of(M.FoldLines(LinesOf(mail, Recipient(a, m))), MessageName(a, m)).delivered
  }

  ghost predicate HoldsMail(mail: Mail, a: Attempt, inbox: seq<MessageId>) {
    forall m :: m in inbox <==> IsDelivered(mail, a, m)
  }

  /** A command leaves what it does not send as it was, delivered or not. */
  lemma DeliveredElsewhere(mail: Mail, to: string, c: M.Caller, cmd: M.Command, a: Attempt, m: MessageId)
    requires M.IsCaller(c) && M.IsCommand(cmd) && (cmd.Send? ==> cmd.id != MessageName(a, m))
    ensures IsDelivered(Commanded(mail, to, c, cmd), a, m) == IsDelivered(mail, a, m)
  {
    if to == Recipient(a, m) {
      var action := M.CommandCases(LinesOf(mail, to), c, cmd);
      if cmd.id != MessageName(a, m) {
        M.OtherIdsAreUntouched(LinesOf(mail, to), c, cmd, MessageName(a, m));
      }
    }
  }

  /**
   * A message of the attempt, sent to journals that hold what the inbox holds: both still hold the
   * same messages, the one sent among them.
   */
  lemma DeliverFollowsSend(mail: Mail, a: Attempt, m: MessageId, c: M.Caller, body: string, inbox: seq<MessageId>)
    requires IsAttempt(a) && M.IsCaller(c) && body != "" && HoldsMail(mail, a, inbox)
    ensures HoldsMail(Commanded(mail, Recipient(a, m), c, SendOf(a, m, body)), a, Deliver(inbox, m))
  {
    var cmd, to := SendOf(a, m, body), Recipient(a, m);
    var after := Commanded(mail, to, c, cmd);
    MessageNamesAreIds(a, m);
    M.CommandEffect(LinesOf(mail, to), c, cmd);
    assert IsDelivered(after, a, m);
    forall n ensures n in Deliver(inbox, m) <==> IsDelivered(after, a, n) {
      if n != m {
        MessageNamesDiffer(a, m, n);
        DeliveredElsewhere(mail, to, c, cmd, a, n);
      }
    }
  }

  /** Everybody else's commands leave the attempt's messages delivered or not. */
  lemma OthersLeaveTheMail(mail: Mail, a: Attempt, to: string, c: M.Caller, cmd: M.Command, inbox: seq<MessageId>)
    requires M.IsCaller(c) && M.IsCommand(cmd) && (cmd.Send? ==> forall m :: cmd.id != MessageName(a, m))
    requires HoldsMail(mail, a, inbox)
    ensures HoldsMail(Commanded(mail, to, c, cmd), a, inbox)
  {
    forall m ensures m in inbox <==> IsDelivered(Commanded(mail, to, c, cmd), a, m) {
      DeliveredElsewhere(mail, to, c, cmd, a, m);
    }
  }
}
