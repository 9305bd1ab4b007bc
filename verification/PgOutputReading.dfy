/** What one call for the next transaction reads, answers and queues. */
module PgOutputReading {
  import opened Core
  import opened Transactions
  import opened Wal
  import opened PgOutput

  type Inbox = seq<Result<DecodedMessage, SourceError>>

  /** The assembler alone over messages, none of which it may refuse, and what it emits. */
  ghost function Assembled(identity: NodeIdentity, limits: TransactionLimits, a: Assembler, messages: Inbox)
    : Option<(Assembler, seq<SourceTransaction>)>
    decreases |messages|
  {
    if messages == [] then Some((a, []))
    else if messages[0].Err? then None
    else
      var step := Assemble(identity, limits, a, messages[0].value);
      if step.result.Err? then None
      else match Assembled(identity, limits, step.assembler, messages[1..])
        case None => None
        case Some((end, rest)) => Some((end, EmittedBy(step.result.value) + rest))
  }

  /** One answer for each keepalive that asks for one. */
  function Replies(messages: Inbox): seq<Event> {
    if messages == [] then []
    else (if messages[0].Ok? && messages[0].value.Keepalive? && messages[0].value.replyRequested then [ReplyRequested] else []) +
         Replies(messages[1..])
  }

  /** The position of a transaction, as an event of the session. */
  function DeliveryOf(next: Result<Option<SourceTransaction>, SourceError>): seq<Event> {
    if next.Ok? && next.value.Some? then [Delivered(next.value.value.finalPosition.lsn)] else []
  }

  lemma {:induction false} SessionSplits(identity: NodeIdentity, s: Source, one: seq<Event>, two: seq<Event>)
    ensures RunSession(identity, s, one + two) ==
      (match RunSession(identity, s, one) case None => None case Some(next) => RunSession(identity, next, two))
    decreases |one|
  {
    hide Step;
    if one == [] {
      assert one + two == two;
    } else {
      assert (one + two)[0] == one[0] && (one + two)[1..] == one[1..] + two;
      var next := Step(identity, s, one[0]);
      if next.Some? { SessionSplits(identity, next.value, one[1..], two); }
    }
  }

  /** Which messages emit, seen alone. */
  lemma OneMessage(identity: NodeIdentity, limits: TransactionLimits, a: Assembler, m: DecodedMessage)
    ensures var r := Assemble(identity, limits, a, m).result;
      r.Ok? && r.value.Some? ==>
        && (r.value.value.KeepaliveEvent? <==> m.Keepalive?)
        && (r.value.value.KeepaliveEvent? ==> r.value.value.replyRequested == m.replyRequested)
        && (r.value.value.CommittedTransaction? ==>
              r.value.value.transaction.finalPosition == identity.Position(r.value.value.transaction.finalPosition.lsn))
    ensures m.Keepalive? ==> Assemble(identity, limits, a, m) == Assembling(a, Ok(Some(KeepaliveEvent(m.walEnd, m.replyRequested))))
  {
  }

  /** A message that completes no transaction, in front of the rest. */
  lemma QuietFirst(identity: NodeIdentity, limits: TransactionLimits, a: Assembler, inbox: Inbox, k: nat)
    requires 0 < k <= |inbox| && inbox[0].Ok? && Assemble(identity, limits, a, inbox[0].value).result.Ok?
    requires EmittedBy(Assemble(identity, limits, a, inbox[0].value).result.value) == []
    ensures Assembled(identity, limits, a, inbox[..k]) ==
      Assembled(identity, limits, Assemble(identity, limits, a, inbox[0].value).assembler, inbox[1..][..k - 1])
    ensures Replies(inbox[..k]) ==
      (if inbox[0].value.Keepalive? && inbox[0].value.replyRequested then [ReplyRequested] else []) + Replies(inbox[1..][..k - 1])
  {
    hide Assemble;
    assert inbox[..k][0] == inbox[0] && inbox[..k][1..] == inbox[1..][..k - 1];
    var rest := Assembled(identity, limits, Assemble(identity, limits, a, inbox[0].value).assembler, inbox[..k][1..]);
    if rest.Some? { assert [] + rest.value.1 == rest.value.1; }
  }

  /** How many messages were taken. */
  function Taken(inbox: Inbox, run: Read): int {
    |inbox| - |run.inbox|
  }

  ghost predicate ReadsOk(identity: NodeIdentity, limits: TransactionLimits, a: Assembler, inbox: Inbox, s: Source, run: Read) {
    var n := Taken(inbox, run);
    && 0 <= n <= |inbox| && run.inbox == inbox[n..]
    && RunSession(identity, s, Replies(inbox[..n]) + DeliveryOf(run.next)) == Some(run.source)
    && (run.next.Ok? ==>
          Assembled(identity, limits, a, inbox[..n]) == Some((run.assembler, if run.next.value.Some? then [run.next.value.value] else [])))
    && (run.next.Ok? && run.next.value.None? ==> n == |inbox| && run.assembler.pending.None?)
    && (run.next.Ok? && run.next.value.Some? ==>
          && n > 0 && run.next.value.value.finalPosition == identity.Position(run.next.value.value.finalPosition.lsn)
          && Assembled(identity, limits, a, inbox[..n - 1]).Some? && Assembled(identity, limits, a, inbox[..n - 1]).value.1 == [])
  }

  lemma {:induction false} ReadsAre(identity: NodeIdentity, limits: TransactionLimits, a: Assembler, inbox: Inbox, s: Source)
    ensures ReadsOk(identity, limits, a, inbox, s, Reading(identity, limits, a, inbox, s))
    decreases |inbox|
  {
    hide Assemble, ReadsOk;
    var run := Reading(identity, limits, a, inbox, s);
    if inbox == [] {
      NothingRead(identity, limits, a, s);
    } else if inbox[0].Err? || Assemble(identity, limits, a, inbox[0].value).result.Err? {
      ErrorRead(identity, limits, a, inbox, s);
    } else {
      OneMessage(identity, limits, a, inbox[0].value);
      var step := Assemble(identity, limits, a, inbox[0].value);
      if step.result.value.Some? && step.result.value.value.CommittedTransaction? {
        CommitRead(identity, limits, a, inbox, s);
      } else {
        var asked := step.result.value.Some? && step.result.value.value.replyRequested;
        var next := if asked then Report(s) else s;
        ReadsAre(identity, limits, step.assembler, inbox[1..], next);
        QuietRead(identity, limits, a, inbox, s, next, Reading(identity, limits, step.assembler, inbox[1..], next));
      }
    }
  }

  lemma NothingRead(identity: NodeIdentity, limits: TransactionLimits, a: Assembler, s: Source)
    ensures ReadsOk(identity, limits, a, [], s, Reading(identity, limits, a, [], s))
  {
    var none: Inbox := [];
    assert none[..0] == [] && none[0..] == [];
  }

  lemma ErrorRead(identity: NodeIdentity, limits: TransactionLimits, a: Assembler, inbox: Inbox, s: Source)
    requires inbox != [] && (inbox[0].Err? || Assemble(identity, limits, a, inbox[0].value).result.Err?)
    ensures ReadsOk(identity, limits, a, inbox, s, Reading(identity, limits, a, inbox, s))
  {
    OnlyFirst(inbox);
    if inbox[0].Ok? { OneMessage(identity, limits, a, inbox[0].value); }
    hide Assemble;
    assert Replies(inbox[..1]) == [];
  }

  lemma OnlyFirst(inbox: Inbox)
    requires inbox != []
    ensures inbox[..1] == [inbox[0]] && inbox[..1][1..] == [] && inbox[..0] == []
  {
  }

  lemma CommitRead(identity: NodeIdentity, limits: TransactionLimits, a: Assembler, inbox: Inbox, s: Source)
    requires inbox != [] && inbox[0].Ok? && Assemble(identity, limits, a, inbox[0].value).result.Ok?
    requires var e := Assemble(identity, limits, a, inbox[0].value).result.value; e.Some? && e.value.CommittedTransaction?
    ensures ReadsOk(identity, limits, a, inbox, s, Reading(identity, limits, a, inbox, s))
  {
    OnlyFirst(inbox);
    OneMessage(identity, limits, a, inbox[0].value);
    hide Assemble;
    var step := Assemble(identity, limits, a, inbox[0].value);
    var t := step.result.value.value.transaction;
    assert Replies(inbox[..1]) == [] + [] == [];
    assert Assembled(identity, limits, step.assembler, []) == Some((step.assembler, []));
    assert Assembled(identity, limits, a, inbox[..1]) == Some((step.assembler, [t] + []));
    var events := [] + [Delivered(t.finalPosition.lsn)];
    assert events == [Delivered(t.finalPosition.lsn)] && events[1..] == [];
    assert RunSession(identity, s, events) == RunSession(identity, Deliver(s, t.finalPosition.lsn), []);
    assert [t] + [] == [t];
  }

  lemma QuietRead(identity: NodeIdentity, limits: TransactionLimits, a: Assembler, inbox: Inbox, s: Source, next: Source, run: Read)
    requires inbox != [] && inbox[0].Ok? && Assemble(identity, limits, a, inbox[0].value).result.Ok?
    requires EmittedBy(Assemble(identity, limits, a, inbox[0].value).result.value) == []
    requires next == if inbox[0].value.Keepalive? && inbox[0].value.replyRequested then Report(s) else s
    requires ReadsOk(identity, limits, Assemble(identity, limits, a, inbox[0].value).assembler, inbox[1..], next, run)
    ensures ReadsOk(identity, limits, a, inbox, s, run)
  {
    hide Assemble, Assembled, Replies, RunSession;
    var n := Taken(inbox, run);
    QuietFirst(identity, limits, a, inbox, n);
    if n > 1 { QuietFirst(identity, limits, a, inbox, n - 1); } else { QuietNone(identity, limits, a, inbox); }
    assert inbox[1..][n - 1..] == inbox[n..];
    var first := if inbox[0].value.Keepalive? && inbox[0].value.replyRequested then [ReplyRequested] else [];
    var rest := Replies(inbox[1..][..n - 1]) + DeliveryOf(run.next);
    assert Replies(inbox[..n]) + DeliveryOf(run.next) == first + rest;
    FirstReply(identity, s, first, next);
    SessionSplits(identity, s, first, rest);
  }

  lemma QuietNone(identity: NodeIdentity, limits: TransactionLimits, a: Assembler, inbox: Inbox)
    ensures inbox[..0] == [] && Assembled(identity, limits, a, []) == Some((a, []))
  {
  }

  lemma FirstReply(identity: NodeIdentity, s: Source, first: seq<Event>, next: Source)
    requires (first == [] && next == s) || (first == [ReplyRequested] && next == Report(s))
    ensures RunSession(identity, s, first) == Some(next)
  {
    if first != [] { assert first[1..] == []; }
  }

  // ---- What the caller gets -------------------------------------------------------------------

  /** A transaction comes back exactly as the assembler alone first emits it: the messages up to there are
      taken and no more, each keepalive among them that asked was answered with the durable position, and the
      transaction's own final position is queued last. */
  lemma FirstTransaction(identity: NodeIdentity, limits: TransactionLimits, a: Assembler, inbox: Inbox, s: Source)
    requires var run := Reading(identity, limits, a, inbox, s); run.next.Ok? && run.next.value.Some?
    ensures var run := Reading(identity, limits, a, inbox, s);
      var t, n := run.next.value.value, |inbox| - |run.inbox|;
      && 0 < n <= |inbox| && run.inbox == inbox[n..]
      && RunSession(identity, s, Replies(inbox[..n]) + [Delivered(t.finalPosition.lsn)]) == Some(run.source)
      && run.source.delivered == s.delivered + [t.finalPosition.lsn] && run.source.durable == s.durable
      && Assembled(identity, limits, a, inbox[..n]) == Some((run.assembler, [t]))
      && Assembled(identity, limits, a, inbox[..n - 1]).Some? && Assembled(identity, limits, a, inbox[..n - 1]).value.1 == []
  {
    hide Reading, Assembled, RunSession, Replies;
    ReadsAre(identity, limits, a, inbox, s);
    var run := Reading(identity, limits, a, inbox, s);
    var n, lsn := |inbox| - |run.inbox|, run.next.value.value.finalPosition.lsn;
    SessionSplits(identity, s, Replies(inbox[..n]), [Delivered(lsn)]);
    RepliesOnlyReport(identity, s, inbox[..n]);
    OneDelivery(identity, RunSession(identity, s, Replies(inbox[..n])).value, lsn);
  }

  lemma OneDelivery(identity: NodeIdentity, s: Source, lsn: nat)
    ensures RunSession(identity, s, [Delivered(lsn)]) == Some(Deliver(s, lsn))
  {
    assert [Delivered(lsn)][1..] == [];
  }

  lemma {:induction false} RepliesOnlyReport(identity: NodeIdentity, s: Source, messages: Inbox)
    ensures var e := RunSession(identity, s, Replies(messages)); e.Some? && e.value.delivered == s.delivered && e.value.durable == s.durable
    decreases |messages|
  {
    if messages != [] {
      var first := if messages[0].Ok? && messages[0].value.Keepalive? && messages[0].value.replyRequested then [ReplyRequested] else [];
      SessionSplits(identity, s, first, Replies(messages[1..]));
      FirstReply(identity, s, first, if first == [] then s else Report(s));
      RepliesOnlyReport(identity, if first == [] then s else Report(s), messages[1..]);
    }
  }

  /** Whatever was read before, the transaction that comes back can be acknowledged, unless it is behind what
      was acknowledged already: it carries the node's identity, and its position is queued. */
  lemma ReturnedCanBeAcknowledged(identity: NodeIdentity, limits: TransactionLimits, a: Assembler, inbox: Inbox, s: Source)
    requires var run := Reading(identity, limits, a, inbox, s); run.next.Ok? && run.next.value.Some?
    ensures var run := Reading(identity, limits, a, inbox, s);
      var t := run.next.value.value;
      && t.finalPosition == identity.Position(t.finalPosition.lsn)
      && (Acknowledge(identity, run.source, t.finalPosition).Ok? <==> t.finalPosition.lsn >= s.durable)
      && (t.finalPosition.lsn >= s.durable ==>
            && Acknowledge(identity, run.source, t.finalPosition).value.durable == t.finalPosition.lsn
            && Acknowledge(identity, run.source, t.finalPosition).value.reported == run.source.reported + [t.finalPosition.lsn])
  {
    hide Reading, Assembled, RunSession, Replies, DropAcknowledged;
    ReadsAre(identity, limits, a, inbox, s);
    FirstTransaction(identity, limits, a, inbox, s);
    var run := Reading(identity, limits, a, inbox, s);
    assert run.source.delivered[|s.delivered|] == run.next.value.value.finalPosition.lsn;
  }

  /** Without a transaction, only answers were sent: at the end of the stream everything was taken and no
      transaction is open, and an error stops at the message that caused it. */
  lemma NoTransaction(identity: NodeIdentity, limits: TransactionLimits, a: Assembler, inbox: Inbox, s: Source)
    requires var run := Reading(identity, limits, a, inbox, s); run.next.Err? || run.next.value.None?
    ensures var run := Reading(identity, limits, a, inbox, s);
      var n := |inbox| - |run.inbox|;
      && 0 <= n <= |inbox| && run.inbox == inbox[n..]
      && RunSession(identity, s, Replies(inbox[..n])) == Some(run.source)
      && (run.next.Ok? ==> run.inbox == [] && run.assembler.pending.None? && Assembled(identity, limits, a, inbox) == Some((run.assembler, [])))
  {
    hide Reading, Assembled, RunSession, Replies;
    ReadsAre(identity, limits, a, inbox, s);
    var run := Reading(identity, limits, a, inbox, s);
    var n := |inbox| - |run.inbox|;
    assert Replies(inbox[..n]) + [] == Replies(inbox[..n]);
    if n == |inbox| { assert inbox[..n] == inbox && inbox[n..] == []; }
  }
}
