/** The replication loop of one pipeline: receive, batch, apply, acknowledge. */
module Pipeline {
  import opened Core
  import opened Transactions
  import opened Batch

  /** How one attempt to apply a batch and acknowledge it ends. A cancellation drops the attempt: before the
      commit, which rolls back, or after it, which leaves the batch unacknowledged. */
  datatype Outcome = Done | ApplyFailed | AckFailed | CancelledBeforeCommit | CancelledAfterCommit

  /** What wakes the loop, in the order it is looked for. */
  datatype Wake = Cancelled | TimerDue | Delivered(transaction: SourceTransaction) | StreamEnded | SourceFailed

  datatype Turn = Turn(wake: Wake, outcome: Outcome)

  datatype Act = Commit(batch: TransactionBatch) | Acknowledge(position: SourcePosition)

  datatype Exit = Running | Stopped | Failed

  /** The loop between two turns. */
  datatype Loop = Loop(pending: seq<SourceTransaction>, acts: seq<Act>, exit: Exit)

  function Last(batch: seq<SourceTransaction>): SourcePosition
    requires batch != []
  {
    batch[|batch| - 1].finalPosition
  }

  /** Applying one batch: commit first, acknowledge its last position after. */
  function Attempt(batch: seq<SourceTransaction>, outcome: Outcome): (seq<Act>, Exit)
    requires batch != []
  {
    match outcome
    case Done => ([Commit(BatchOf(batch)), Acknowledge(Last(batch))], Running)
    case ApplyFailed => ([], Failed)
    case AckFailed => ([Commit(BatchOf(batch))], Failed)
    case CancelledBeforeCommit => ([], Stopped)
    case CancelledAfterCommit => ([Commit(BatchOf(batch))], Stopped)
  }

  function Applied(l: Loop, batch: seq<SourceTransaction>, outcome: Outcome, rest: seq<SourceTransaction>): Loop
    requires batch != []
  {
    Loop(rest, l.acts + Attempt(batch, outcome).0, Attempt(batch, outcome).1)
  }

  function TakeTurn(limits: BatchLimits, l: Loop, turn: Turn): Loop {
    match turn.wake
    case Cancelled => l.(exit := Stopped)
    case TimerDue => if l.pending == [] then l else Applied(l, l.pending, turn.outcome, [])
    case StreamEnded =>
      if l.pending == [] then l.(exit := Stopped)
      else
        var last := Applied(l, l.pending, turn.outcome, []);
        if last.exit == Running then last.(exit := Stopped) else last
    case SourceFailed => l.(exit := Failed)
    case Delivered(t) =>
      if ValidateOrder(l.pending, t).Some? then l.(exit := Failed)
      else if MustFlush(limits, l.pending, t) then Applied(l, l.pending, turn.outcome, [t])
      else l.(pending := l.pending + [t])
  }

  function TakeTurns(limits: BatchLimits, l: Loop, turns: seq<Turn>): Loop
    decreases |turns|
  {
    if turns == [] || l.exit != Running then l else TakeTurns(limits, TakeTurn(limits, l, turns[0]), turns[1..])
  }

  // ---- The loop itself ------------------------------------------------------------------------

  method ApplyAndAcknowledge(batch: TransactionBatch, outcome: Outcome) returns (acts: seq<Act>, exit: Exit)
    requires batch.transactions != [] && batch == BatchOf(batch.transactions)
    ensures (acts, exit) == Attempt(batch.transactions, outcome)
  {
    acts := [];
    if outcome == CancelledBeforeCommit { return acts, Stopped; }
    if outcome == ApplyFailed { return acts, Failed; }
    acts := [Commit(batch)];
    if outcome == CancelledAfterCommit { return acts, Stopped; }
    if outcome == AckFailed { return acts, Failed; }
    acts := acts + [Acknowledge(Last(batch.transactions))];
    assert acts == [Commit(batch), Acknowledge(Last(batch.transactions))];
    return acts, Running;
  }

  /** Runs until it is cancelled, fails, or the turns are used up. */
  method Replicate(batcher: Batcher, turns: seq<Turn>) returns (acts: seq<Act>, exit: Exit)
    requires batcher.Valid() && batcher.pending == []
    modifies batcher
    ensures batcher.Valid()
    ensures Loop(batcher.pending, acts, exit) == TakeTurns(batcher.limits, Loop([], [], Running), turns)
  {
    hide MustFlush, ValidateOrder, BatchOf, Attempt;
    acts, exit := [], Running;
    var i := 0;
    while i < |turns| && exit == Running
      invariant i <= |turns| && batcher.Valid()
      invariant TakeTurns(batcher.limits, Loop([], [], Running), turns) ==
                TakeTurns(batcher.limits, Loop(batcher.pending, acts, exit), turns[i..])
    {
      assert turns[i..][0] == turns[i] && turns[i..][1..] == turns[i + 1..];
      var turn := turns[i];
      ghost var l := Loop(batcher.pending, acts, exit);
      BatchKeeps(batcher.pending);
      match turn.wake {
        case Cancelled =>
          exit := Stopped;
        case SourceFailed =>
          exit := Failed;
        case TimerDue =>
          var flushed := batcher.Flush();
          if flushed.Some? {
            var done, next := ApplyAndAcknowledge(flushed.value, turn.outcome);
            acts, exit := acts + done, next;
          }
          assert Loop(batcher.pending, acts, exit) == TakeTurn(batcher.limits, l, turn);
        case StreamEnded =>
          var flushed := batcher.Flush();
          if flushed.Some? {
            var done, next := ApplyAndAcknowledge(flushed.value, turn.outcome);
            acts, exit := acts + done, next;
          }
          if exit == Running { exit := Stopped; }
        case Delivered(t) =>
          FlushNeedsPending(batcher.limits, batcher.pending, t);
          var full := batcher.Push(t);
          if full.Err? {
            exit := Failed;
          } else if full.value.Some? {
            var done, next := ApplyAndAcknowledge(full.value.value, turn.outcome);
            acts, exit := acts + done, next;
          }
      }
      assert Loop(batcher.pending, acts, exit) == TakeTurn(batcher.limits, l, turn);
      i := i + 1;
    }
    if i == |turns| { assert turns[i..] == []; }
  }

  // ---- What it guarantees ---------------------------------------------------------------------

  function Delivery(turns: seq<Turn>): seq<SourceTransaction> {
    if turns == [] then []
    else (if turns[0].wake.Delivered? then [turns[0].wake.transaction] else []) + Delivery(turns[1..])
  }

  /** The transactions of the committed batches, in commit order. */
  function CommittedBy(acts: seq<Act>): seq<SourceTransaction> {
    if acts == [] then []
    else CommittedBy(acts[..|acts| - 1]) + (match acts[|acts| - 1] case Commit(b) => b.transactions case Acknowledge(_) => [])
  }

  /** A commit is of some batch, and is acknowledged next unless it is the last thing that happened. */
  ghost predicate CommitAt(acts: seq<Act>, i: nat, exit: Exit)
    requires i < |acts|
  {
    acts[i].Commit? ==>
      acts[i].batch.transactions != [] && ((i + 1 < |acts| && acts[i + 1].Acknowledge?) || (exit != Running && i + 1 == |acts|))
  }

  /** An acknowledgement follows at once on the commit of the batch that ends in its position. */
  ghost predicate AcknowledgedAt(acts: seq<Act>, i: nat)
    requires i < |acts|
  {
    acts[i].Acknowledge? ==>
      i > 0 && acts[i - 1].Commit? && acts[i - 1].batch.transactions != [] && acts[i].position == Last(acts[i - 1].batch.transactions)
  }

  ghost predicate Paired(acts: seq<Act>, exit: Exit) {
    forall i | 0 <= i < |acts| :: CommitAt(acts, i, exit) && AcknowledgedAt(acts, i)
  }

  lemma CommittedAppend(acts: seq<Act>, more: seq<Act>)
    requires |more| <= 2
    ensures CommittedBy(acts + more) == CommittedBy(acts) + CommittedBy(more)
  {
    if |more| == 1 {
      assert (acts + more)[..|acts + more| - 1] == acts && more[..0] == [];
    } else if |more| == 2 {
      var one := acts + more[..1];
      assert (acts + more)[..|acts + more| - 1] == one && one[..|one| - 1] == acts;
      assert more[..1][..0] == [];
    } else {
      assert acts + more == acts;
    }
  }

  lemma AttemptCommits(batch: seq<SourceTransaction>, outcome: Outcome)
    requires batch != []
    ensures var (acts, exit) := Attempt(batch, outcome);
      |acts| <= 2 && (exit == Running ==> CommittedBy(acts) == batch) && (CommittedBy(acts) == [] || CommittedBy(acts) == batch)
  {
    hide BatchOf;
    BatchKeeps(batch);
    var c, a := Commit(BatchOf(batch)), Acknowledge(Last(batch));
    assert [c, a][..1] == [c] && [c][..0] == [];
    assert CommittedBy([]) == [] && CommittedBy([c]) == [] + batch == batch && CommittedBy([c, a]) == batch + [] == batch;
  }

  lemma FlushNeedsPending(limits: BatchLimits, pending: seq<SourceTransaction>, t: SourceTransaction)
    ensures MustFlush(limits, pending, t) ==> pending != []
  {
  }

  lemma BatchKeeps(batch: seq<SourceTransaction>)
    ensures BatchOf(batch).transactions == batch
  {
  }

  ghost predicate LoopOk(l: Loop, delivered: seq<SourceTransaction>) {
    && Paired(l.acts, l.exit)
    && CommittedBy(l.acts) <= delivered
    && (l.exit == Running ==> CommittedBy(l.acts) + l.pending == delivered)
  }

  lemma AttemptPairs(acts: seq<Act>, batch: seq<SourceTransaction>, outcome: Outcome)
    requires Paired(acts, Running) && batch != []
    ensures Paired(acts + Attempt(batch, outcome).0, Attempt(batch, outcome).1)
  {
    hide BatchOf;
    BatchKeeps(batch);
    var more, exit := Attempt(batch, outcome).0, Attempt(batch, outcome).1;
    var all := acts + more;
    forall i | 0 <= i < |all| ensures CommitAt(all, i, exit) && AcknowledgedAt(all, i) {
      if i < |acts| {
        assert CommitAt(acts, i, Running) && AcknowledgedAt(acts, i);
        assert all[i] == acts[i];
        assert i + 1 < |acts| ==> all[i + 1] == acts[i + 1];
        assert i > 0 ==> all[i - 1] == acts[i - 1];
      } else {
        assert all[i] == more[i - |acts|];
        assert i > |acts| ==> all[i - 1] == more[0];
      }
    }
  }

  lemma AppliedOk(l: Loop, delivered: seq<SourceTransaction>, outcome: Outcome, rest: seq<SourceTransaction>)
    requires LoopOk(l, delivered) && l.exit == Running && l.pending != []
    ensures LoopOk(Applied(l, l.pending, outcome, rest), delivered + rest)
  {
    hide CommittedBy, Attempt, Paired;
    var acts := Attempt(l.pending, outcome).0;
    AttemptPairs(l.acts, l.pending, outcome);
    AttemptCommits(l.pending, outcome);
    CommittedAppend(l.acts, acts);
  }

  lemma TurnKeeps(limits: BatchLimits, l: Loop, delivered: seq<SourceTransaction>, turn: Turn)
    requires LoopOk(l, delivered) && l.exit == Running
    ensures LoopOk(TakeTurn(limits, l, turn), delivered + (if turn.wake.Delivered? then [turn.wake.transaction] else []))
  {
    hide MustFlush, ValidateOrder, CommittedBy, Applied, Paired;
    assert delivered + [] == delivered;
    match turn.wake
    case Cancelled => ExitOk(l, delivered, [], Stopped);
    case SourceFailed => ExitOk(l, delivered, [], Failed);
    case TimerDue => if l.pending != [] { AppliedOk(l, delivered, turn.outcome, []); }
    case StreamEnded =>
      if l.pending != [] {
        AppliedOk(l, delivered, turn.outcome, []);
        ExitOk(Applied(l, l.pending, turn.outcome, []), delivered, [], Stopped);
      } else {
        ExitOk(l, delivered, [], Stopped);
      }
    case Delivered(t) =>
      FlushNeedsPending(limits, l.pending, t);
      ExitOk(l, delivered, [t], Failed);
      if MustFlush(limits, l.pending, t) { AppliedOk(l, delivered, turn.outcome, [t]); }
      assert CommittedBy(l.acts) + (l.pending + [t]) == delivered + [t];
  }

  lemma ExitOk(l: Loop, delivered: seq<SourceTransaction>, more: seq<SourceTransaction>, exit: Exit)
    requires LoopOk(l, delivered) && exit != Running
    ensures l.exit == Running ==> LoopOk(l.(exit := exit), delivered + more)
  {
    hide CommittedBy;
    if l.exit == Running {
      forall i | 0 <= i < |l.acts| ensures CommitAt(l.acts, i, exit) { assert CommitAt(l.acts, i, Running); }
    }
  }

  /** However the loop is woken, and however applying ends: what was committed is a prefix of what was
      delivered, nothing is lost while it runs, each position is acknowledged only right after the batch that
      ends in it was committed, and at most one committed batch, the last, goes unacknowledged. */
  lemma {:induction false} NothingIsAcknowledgedEarly(limits: BatchLimits, l: Loop, delivered: seq<SourceTransaction>, turns: seq<Turn>)
    requires LoopOk(l, delivered)
    ensures LoopOk(TakeTurns(limits, l, turns), delivered + Delivery(turns))
    decreases |turns|
  {
    hide TakeTurn, LoopOk, Delivery;
    if turns == [] {
      assert Delivery([]) == [] by { NothingDelivered(); }
      assert delivered + Delivery(turns) == delivered;
    } else if l.exit != Running {
      MoreDelivered(l, delivered, Delivery(turns));
    } else {
      var more := if turns[0].wake.Delivered? then [turns[0].wake.transaction] else [];
      TurnKeeps(limits, l, delivered, turns[0]);
      NothingIsAcknowledgedEarly(limits, TakeTurn(limits, l, turns[0]), delivered + more, turns[1..]);
      DeliverySplit(delivered, turns);
    }
  }

  lemma NothingDelivered()
    ensures Delivery([]) == []
  {
  }

  lemma DeliverySplit(delivered: seq<SourceTransaction>, turns: seq<Turn>)
    requires turns != []
    ensures delivered + (if turns[0].wake.Delivered? then [turns[0].wake.transaction] else []) + Delivery(turns[1..]) == delivered + Delivery(turns)
  {
  }

  lemma MoreDelivered(l: Loop, delivered: seq<SourceTransaction>, more: seq<SourceTransaction>)
    requires LoopOk(l, delivered) && l.exit != Running
    ensures LoopOk(l, delivered + more)
  {
  }
}
