/** The replication source: which commits were delivered, and which position is reported as durable. */
module PgOutput {
  import opened Core
  import opened Transactions
  import opened Wal

  datatype AckError = IdentityMismatch | PositionRegressed(durable: nat, acknowledged: nat) | NeverEmitted(lsn: nat)

  /** Reported positions are the write, flush and apply position of every status sent so far. */
  datatype Source = Source(delivered: seq<nat>, durable: nat, reported: seq<nat>)

  function DropAcknowledged(delivered: seq<nat>, lsn: nat): seq<nat> {
    if delivered != [] && delivered[0] <= lsn then DropAcknowledged(delivered[1..], lsn) else delivered
  }

  function Report(s: Source): Source {
    s.(reported := s.reported + [s.durable])
  }

  function Deliver(s: Source, lsn: nat): Source {
    s.(delivered := s.delivered + [lsn])
  }

  function ValidateAck(identity: NodeIdentity, s: Source, position: SourcePosition): Option<AckError> {
    if position.nodeId != identity.nodeId || position.systemIdentifier != identity.systemIdentifier ||
       position.timeline != identity.timeline then Some(IdentityMismatch)
    else if position.lsn < s.durable then Some(PositionRegressed(s.durable, position.lsn))
    else if position.lsn !in s.delivered then Some(NeverEmitted(position.lsn))
    else None
  }

  function Acknowledge(identity: NodeIdentity, s: Source, position: SourcePosition): Result<Source, AckError> {
    match ValidateAck(identity, s, position)
    case Some(e) => Err(e)
    case None => Ok(Report(Source(DropAcknowledged(s.delivered, position.lsn), position.lsn, s.reported)))
  }

  /** The source adapter reads decoded messages from its transport and sends statuses to it. */
  class PgOutputTransactionSource {
    const assembler: TransactionAssembler
    var inbox: seq<Result<DecodedMessage, SourceError>>
    var delivered: seq<nat>
    var durableAppliedLsn: nat
    var reported: seq<nat>

    ghost function Contents(): Source
      reads this
    {
      Source(delivered, durableAppliedLsn, reported)
    }

    constructor (assembler: TransactionAssembler, inbox: seq<Result<DecodedMessage, SourceError>>, durableAppliedLsn: nat)
      ensures this.assembler == assembler && this.inbox == inbox && Contents() == Source([], durableAppliedLsn, [])
    {
      this.assembler, this.inbox, this.durableAppliedLsn := assembler, inbox, durableAppliedLsn;
      delivered, reported := [], [];
    }

    method SendDurableStatus()
      modifies this`reported
      ensures reported == old(reported) + [durableAppliedLsn]
    {
      reported := reported + [durableAppliedLsn];
    }

    /** Reads until a transaction is complete, answering keepalives with the durable position. */
    method NextTransaction() returns (next: Result<Option<SourceTransaction>, SourceError>)
      modifies this`inbox, this`delivered, this`reported, assembler
      ensures var run := Reading(assembler.identity, assembler.limits, old(assembler.Contents()), old(inbox), old(Contents()));
        assembler.Contents() == run.assembler && inbox == run.inbox && Contents() == run.source && next == run.next
    {
      while true
        invariant Reading(assembler.identity, assembler.limits, old(assembler.Contents()), old(inbox), old(Contents())) ==
                  Reading(assembler.identity, assembler.limits, assembler.Contents(), inbox, Contents())
        invariant durableAppliedLsn == old(durableAppliedLsn)
        decreases |inbox|
      {
        if inbox == [] {
          if assembler.pending.Some? { return Err(StreamEndedOpen(assembler.pending.value.xid)); }
          return Ok(None);
        }
        var message := inbox[0];
        inbox := inbox[1..];
        if message.Err? { return Err(message.error); }
        var event := assembler.Push(message.value);
        if event.Err? { return Err(event.error); }
        match event.value {
          case Some(CommittedTransaction(transaction, _)) =>
            delivered := delivered + [transaction.finalPosition.lsn];
            return Ok(Some(transaction));
          case Some(KeepaliveEvent(_, replyRequested)) =>
            if replyRequested { SendDurableStatus(); }
          case None =>
        }
      }
    }

    method AcknowledgePosition(position: SourcePosition) returns (error: Option<AckError>)
      modifies this`delivered, this`durableAppliedLsn, this`reported
      ensures match Acknowledge(assembler.identity, old(Contents()), position)
        case Ok(next) => error.None? && Contents() == next
        case Err(e) => error == Some(e) && Contents() == old(Contents())
    {
      error := ValidateAck(assembler.identity, Source(delivered, durableAppliedLsn, reported), position);
      if error.Some? { return; }
      durableAppliedLsn := position.lsn;
      while delivered != [] && delivered[0] <= position.lsn
        invariant DropAcknowledged(old(delivered), position.lsn) == DropAcknowledged(delivered, position.lsn)
        invariant durableAppliedLsn == position.lsn && reported == old(reported)
        decreases |delivered|
      {
        delivered := delivered[1..];
      }
      SendDurableStatus();
    }
  }

  datatype Read = Read(assembler: Assembler, inbox: seq<Result<DecodedMessage, SourceError>>, source: Source,
                       next: Result<Option<SourceTransaction>, SourceError>)

  function Reading(identity: NodeIdentity, limits: TransactionLimits, a: Assembler,
                   inbox: seq<Result<DecodedMessage, SourceError>>, s: Source): Read
    decreases |inbox|
  {
    if inbox == [] then
      Read(a, inbox, s, if a.pending.Some? then Err(StreamEndedOpen(a.pending.value.xid)) else Ok(None))
    else if inbox[0].Err? then Read(a, inbox[1..], s, Err(inbox[0].error))
    else
      var step := Assemble(identity, limits, a, inbox[0].value);
      match step.result
      case Err(e) => Read(step.assembler, inbox[1..], s, Err(e))
      case Ok(None) => Reading(identity, limits, step.assembler, inbox[1..], s)
      case Ok(Some(CommittedTransaction(transaction, _))) =>
        Read(step.assembler, inbox[1..], Deliver(s, transaction.finalPosition.lsn), Ok(Some(transaction)))
      case Ok(Some(KeepaliveEvent(_, replyRequested))) =>
        Reading(identity, limits, step.assembler, inbox[1..], if replyRequested then Report(s) else s)
  }

  // ---- Sessions -------------------------------------------------------------------------------

  /** What happens to a source: a commit is delivered, a keepalive asks for a reply, or any position
      whatever is acknowledged. A refused acknowledgement ends the session. */
  datatype Event = Delivered(lsn: nat) | ReplyRequested | Acknowledged(position: SourcePosition)

  function Step(identity: NodeIdentity, s: Source, e: Event): Option<Source> {
    match e
    case Delivered(lsn) => Some(Deliver(s, lsn))
    case ReplyRequested => Some(Report(s))
    case Acknowledged(position) =>
      match Acknowledge(identity, s, position) case Ok(next) => Some(next) case Err(_) => None
  }

  function RunSession(identity: NodeIdentity, s: Source, events: seq<Event>): Option<Source>
    decreases |events|
  {
    if events == [] then Some(s)
    else match Step(identity, s, events[0])
      case None => None
      case Some(next) => RunSession(identity, next, events[1..])
  }

  ghost predicate ReportsOk(s: Source) {
    && (forall i, j | 0 <= i < j < |s.reported| :: s.reported[i] <= s.reported[j])
    && (forall i | 0 <= i < |s.reported| :: s.reported[i] <= s.durable)
  }

  /** Reported positions never decrease and never pass the last acknowledged one, whatever keepalives
      arrive and whatever positions are acknowledged. */
  lemma {:induction false} ReportsNeverDecrease(identity: NodeIdentity, s: Source, events: seq<Event>)
    requires ReportsOk(s)
    ensures var e := RunSession(identity, s, events); e.Some? ==> ReportsOk(e.value) && e.value.durable >= s.durable
    decreases |events|
  {
    hide DropAcknowledged;
    if events != [] {
      var next := Step(identity, s, events[0]);
      if next.Some? { ReportsNeverDecrease(identity, next.value, events[1..]); }
    }
  }

  // ---- Acknowledging batches ------------------------------------------------------------------

  /** Delivered commits whose batch is not yet acknowledged; the first `popped` of them have already
      left the queue with an equal position that was acknowledged. */
  ghost predicate QueueOk(s: Source, unacked: seq<nat>, popped: nat) {
    && popped <= |unacked| && s.delivered == unacked[popped..]
    && (forall i, j | 0 <= i < j < |unacked| :: unacked[i] <= unacked[j])
    && (forall i | 0 <= i < popped :: unacked[i] == s.durable)
    && (forall i | 0 <= i < |unacked| :: unacked[i] >= s.durable)
  }

  lemma {:induction false} DropIsSuffix(delivered: seq<nat>, lsn: nat) returns (n: nat)
    requires forall i, j | 0 <= i < j < |delivered| :: delivered[i] <= delivered[j]
    ensures n <= |delivered| && DropAcknowledged(delivered, lsn) == delivered[n..]
    ensures forall i | 0 <= i < n :: delivered[i] <= lsn
    ensures forall i | n <= i < |delivered| :: delivered[i] > lsn
  {
    n := 0;
    if delivered != [] && delivered[0] <= lsn {
      var m := DropIsSuffix(delivered[1..], lsn);
      n := m + 1;
    }
  }

  /** Acknowledging the first `n` outstanding commits as one batch. It is refused exactly when its last
      position left the queue with an equal one and none of that position is still queued. */
  lemma BatchAck(identity: NodeIdentity, s: Source, unacked: seq<nat>, popped: nat, n: nat) returns (still: nat)
    requires QueueOk(s, unacked, popped) && 0 < n <= |unacked|
    ensures var r := Acknowledge(identity, s, identity.Position(unacked[n - 1]));
      && (r.Err? <==> n <= popped && (popped < |unacked| ==> unacked[popped] != s.durable))
      && (r.Ok? ==> QueueOk(r.value, unacked[n..], still) && r.value.durable == unacked[n - 1])
      && (r.Ok? && n < |unacked| && unacked[n] > unacked[n - 1] ==> still == 0)
  {
    var x := unacked[n - 1];
    still := 0;
    var r := Acknowledge(identity, s, identity.Position(x));
    if n > popped { assert s.delivered[n - 1 - popped] == x; }
    if r.Ok? {
      var m := DropIsSuffix(s.delivered, x);
      assert popped + m >= n;
      still := popped + m - n;
      assert r.value.delivered == unacked[n..][still..];
    }
  }

  /** With strictly increasing commit positions beyond the start, no batch is ever refused and the
      queue is exactly what is outstanding. */
  lemma StrictAckAccepted(identity: NodeIdentity, s: Source, unacked: seq<nat>, n: nat)
    requires s.delivered == unacked && 0 < n <= |unacked|
    requires forall i, j | 0 <= i < j < |unacked| :: unacked[i] < unacked[j]
    requires forall i | 0 <= i < |unacked| :: unacked[i] > s.durable
    ensures Acknowledge(identity, s, identity.Position(unacked[n - 1])) ==
            Ok(Source(unacked[n..], unacked[n - 1], s.reported + [unacked[n - 1]]))
  {
    var m := DropIsSuffix(unacked, unacked[n - 1]);
    var last := unacked[n - 1];
    var after := if n < |unacked| then unacked[n] else last + 1;
    assert m >= n && after > last;
    assert m <= n;
  }

  /** Two commits with one position, acknowledged as two batches: the second is refused. */
  lemma EqualPositionsRefused(identity: NodeIdentity, start: nat, lsn: nat)
    requires lsn > start
    ensures var ack := Acknowledged(identity.Position(lsn));
      && RunSession(identity, Source([], start, []), [Delivered(lsn), Delivered(lsn), ack]).Some?
      && RunSession(identity, Source([], start, []), [Delivered(lsn), Delivered(lsn), ack, ack]).None?
  {
    var ack := Acknowledged(identity.Position(lsn));
    var s := Source([lsn, lsn], start, []);
    assert Deliver(Deliver(Source([], start, []), lsn), lsn) == s;
    assert DropAcknowledged([lsn, lsn], lsn) == [] by {
      assert [lsn, lsn][1..] == [lsn] && [lsn][1..] == [];
      assert DropAcknowledged([lsn], lsn) == DropAcknowledged([], lsn);
    }
    var after := Source([], lsn, [lsn]);
    assert lsn == s.delivered[0] && [] + [lsn] == [lsn];
    assert Acknowledge(identity, s, identity.Position(lsn)) == Ok(after);
    assert [Delivered(lsn), Delivered(lsn), ack][1..] == [Delivered(lsn), ack] && [Delivered(lsn), ack][1..] == [ack] && [ack][1..] == [];
    assert [Delivered(lsn), Delivered(lsn), ack, ack][1..] == [Delivered(lsn), ack, ack] && [Delivered(lsn), ack, ack][1..] == [ack, ack];
    assert [ack, ack][1..] == [ack];
    assert RunSession(identity, after, [ack]).None?;
    assert RunSession(identity, after, []).Some?;
    assert RunSession(identity, s, [ack, ack]) == RunSession(identity, after, [ack]);
    assert RunSession(identity, s, [ack]) == RunSession(identity, after, []);
  }

  /** An acknowledgement is accepted if and only if it is of the node's own identity, not behind the last one, and
      of a position still queued. It then is the durable position, it is reported, and of a queue in order exactly
      the positions beyond it stay. */
  lemma AckAcceptedExactly(identity: NodeIdentity, s: Source, position: SourcePosition)
    requires forall i, j | 0 <= i < j < |s.delivered| :: s.delivered[i] <= s.delivered[j]
    ensures Acknowledge(identity, s, position).Ok? <==>
      && position.nodeId == identity.nodeId && position.systemIdentifier == identity.systemIdentifier
      && position.timeline == identity.timeline && position.lsn >= s.durable && position.lsn in s.delivered
    ensures Acknowledge(identity, s, position).Ok? ==>
      var next := Acknowledge(identity, s, position).value;
      && next.durable == position.lsn && next.reported == s.reported + [position.lsn]
      && (forall lsn :: multiset(next.delivered)[lsn] == if lsn > position.lsn then multiset(s.delivered)[lsn] else 0)
  {
    var n := DropIsSuffix(s.delivered, position.lsn);
    assert s.delivered == s.delivered[..n] + s.delivered[n..];
    forall lsn ensures multiset(s.delivered[n..])[lsn] == if lsn > position.lsn then multiset(s.delivered)[lsn] else 0 {
      if lsn > position.lsn {
        assert lsn !in s.delivered[..n];
        assert multiset(s.delivered[..n])[lsn] == 0;
      } else {
        assert lsn !in s.delivered[n..];
        assert multiset(s.delivered[n..])[lsn] == 0;
      }
    }
  }
}
