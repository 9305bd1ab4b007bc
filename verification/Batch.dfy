/** Grouping committed transactions into bounded apply batches. */
module Batch {
  import opened Core
  import opened PrimaryKey
  import opened RowChanges
  import opened Transactions

  datatype BatchLimits = BatchLimits(maxRows: nat, maxBytes: nat, maxDelay: nat)
  {
    predicate Accepted() {
      maxRows != 0 && maxBytes != 0 && maxDelay != 0
    }
  }

  datatype BatchError = InvalidLimits | MixedNodes(expected: int, actual: int) | MixedSystems
    | NonMonotonicLsn(previous: nat, actualLsn: nat)

  datatype TransactionBatch = TransactionBatch(transactions: seq<SourceTransaction>, rowCount: nat, estimatedBytes: nat,
                                               hasGenerationBarrier: bool)

  function ChangeBytes(change: TransactionChange): nat {
    match change
    case Row(row) => RowBytes(row.change)
    case Truncate(relationIds, _, _) => |relationIds| * 4
    case Ddl(message) => |message.commandTag| + |message.schemaFingerprint| + |message.relationIds| * 4
  }

  function EstimatedBytes(changes: seq<TransactionChange>): nat {
    if changes == [] then 0 else ChangeBytes(changes[0]) + EstimatedBytes(changes[1..])
  }

  function RowCount(t: SourceTransaction): nat {
    |RowsOf(t.changes)|
  }

  function ByteCount(t: SourceTransaction): nat {
    EstimatedBytes(t.changes)
  }

  /** Saturating totals of a pending list, added left to right as the transactions arrive. */
  function TotalRows(s: seq<SourceTransaction>): nat {
    if s == [] then 0 else SaturatingAdd(TotalRows(s[..|s| - 1]), RowCount(s[|s| - 1]))
  }

  function TotalBytes(s: seq<SourceTransaction>): nat {
    if s == [] then 0 else SaturatingAdd(TotalBytes(s[..|s| - 1]), ByteCount(s[|s| - 1]))
  }

  predicate AnyBarrier(s: seq<SourceTransaction>) {
    exists i | 0 <= i < |s| :: s[i].HasBarrier()
  }

  function BatchOf(s: seq<SourceTransaction>): TransactionBatch {
    TransactionBatch(s, TotalRows(s), TotalBytes(s), AnyBarrier(s))
  }

  function ValidateOrder(pending: seq<SourceTransaction>, t: SourceTransaction): Option<BatchError> {
    if pending == [] then None
    else
      var last, next := pending[|pending| - 1].finalPosition, t.finalPosition;
      if last.nodeId != next.nodeId then Some(MixedNodes(last.nodeId, next.nodeId))
      else if last.systemIdentifier != next.systemIdentifier then Some(MixedSystems)
      else if next.lsn < last.lsn then Some(NonMonotonicLsn(last.lsn, next.lsn))
      else None
  }

  predicate MustFlush(limits: BatchLimits, pending: seq<SourceTransaction>, t: SourceTransaction) {
    pending != [] &&
    (|| t.HasBarrier()
     || SaturatingAdd(TotalRows(pending), RowCount(t)) > limits.maxRows
     || SaturatingAdd(TotalBytes(pending), ByteCount(t)) > limits.maxBytes
     || |pending| >= limits.maxRows)
  }

  lemma OneMorePending(pending: seq<SourceTransaction>, t: SourceTransaction)
    ensures TotalRows(pending + [t]) == SaturatingAdd(TotalRows(pending), RowCount(t))
    ensures TotalBytes(pending + [t]) == SaturatingAdd(TotalBytes(pending), ByteCount(t))
  {
    hide RowCount, ByteCount, SaturatingAdd;
    var more := pending + [t];
    assert more[..|more| - 1] == pending && more[|more| - 1] == t;
  }

  class Batcher {
    const limits: BatchLimits
    var pending: seq<SourceTransaction>
    var pendingRows: nat
    var pendingBytes: nat
    var nodeIdentity: Option<(int, nat)>

    ghost predicate Valid()
      reads this
    {
      && limits.Accepted()
      && pendingRows == TotalRows(pending) && pendingBytes == TotalBytes(pending)
      && nodeIdentity == (if pending == [] then None
                          else var p := pending[|pending| - 1].finalPosition; Some((p.nodeId, p.systemIdentifier)))
    }

    constructor (limits: BatchLimits)
      requires limits.Accepted()
      ensures Valid() && this.limits == limits && pending == []
    {
      this.limits := limits;
      pending, pendingRows, pendingBytes, nodeIdentity := [], 0, 0, None;
    }

    method Push(t: SourceTransaction) returns (full: Result<Option<TransactionBatch>, BatchError>)
      requires Valid()
      modifies this
      ensures Valid()
      ensures ValidateOrder(old(pending), t).Some? ==> full == Err(ValidateOrder(old(pending), t).value) && pending == old(pending)
      ensures ValidateOrder(old(pending), t).None? ==>
        if MustFlush(limits, old(pending), t) then full == Ok(Some(BatchOf(old(pending)))) && pending == [t]
        else full == Ok(None) && pending == old(pending) + [t]
    {
      hide RowCount, ByteCount, SaturatingAdd, AnyBarrier, TotalRows, TotalBytes;
      if nodeIdentity.Some? {
        if nodeIdentity.value.0 != t.finalPosition.nodeId {
          return Err(MixedNodes(nodeIdentity.value.0, t.finalPosition.nodeId));
        }
        if nodeIdentity.value.1 != t.finalPosition.systemIdentifier { return Err(MixedSystems); }
      }
      if pending != [] && t.finalPosition.lsn < pending[|pending| - 1].finalPosition.lsn {
        return Err(NonMonotonicLsn(pending[|pending| - 1].finalPosition.lsn, t.finalPosition.lsn));
      }
      var rows, bytes := RowCount(t), ByteCount(t);
      var mustFlush := pending != [] &&
        (t.HasBarrier() || SaturatingAdd(pendingRows, rows) > limits.maxRows ||
         SaturatingAdd(pendingBytes, bytes) > limits.maxBytes || |pending| >= limits.maxRows);
      var batch: Option<TransactionBatch> := None;
      if mustFlush {
        var taken := TakePending();
        batch := Some(taken);
      }
      nodeIdentity := Some((t.finalPosition.nodeId, t.finalPosition.systemIdentifier));
      pendingRows := SaturatingAdd(pendingRows, rows);
      pendingBytes := SaturatingAdd(pendingBytes, bytes);
      OneMorePending(pending, t);
      pending := pending + [t];
      return Ok(batch);
    }

    method Flush() returns (batch: Option<TransactionBatch>)
      requires Valid()
      modifies this
      ensures Valid() && pending == []
      ensures batch == if old(pending) == [] then None else Some(BatchOf(old(pending)))
    {
      if pending == [] { return None; }
      var taken := TakePending();
      return Some(taken);
    }

    method TakePending() returns (batch: TransactionBatch)
      requires Valid()
      modifies this
      ensures Valid() && pending == [] && batch == BatchOf(old(pending))
    {
      batch := TransactionBatch(pending, pendingRows, pendingBytes, AnyBarrier(pending));
      pending, pendingRows, pendingBytes, nodeIdentity := [], 0, 0, None;
    }
  }

  // ---- Runs -----------------------------------------------------------------------------------

  /** What drives the batcher: a delivered transaction, or the delay timer (also the end of stream). */
  datatype Event = Pushed(transaction: SourceTransaction) | TimerFired

  datatype Run = Run(emitted: seq<seq<SourceTransaction>>, pending: seq<SourceTransaction>, error: Option<BatchError>)

  function Step(limits: BatchLimits, r: Run, e: Event): Run {
    match e
    case TimerFired => if r.pending == [] then r else Run(r.emitted + [r.pending], [], None)
    case Pushed(t) =>
      if ValidateOrder(r.pending, t).Some? then r.(error := ValidateOrder(r.pending, t))
      else if MustFlush(limits, r.pending, t) then Run(r.emitted + [r.pending], [t], None)
      else Run(r.emitted, r.pending + [t], None)
  }

  /** A run stops at its first error. */
  function RunEvents(limits: BatchLimits, r: Run, events: seq<Event>): Run
    decreases |events|
  {
    if events == [] || r.error.Some? then r else RunEvents(limits, Step(limits, r, events[0]), events[1..])
  }

  function PushedBy(events: seq<Event>): seq<SourceTransaction> {
    if events == [] then []
    else (match events[0] case Pushed(t) => [t] case TimerFired => []) + PushedBy(events[1..])
  }

  function Concat(batches: seq<seq<SourceTransaction>>): seq<SourceTransaction> {
    if batches == [] then [] else Concat(batches[..|batches| - 1]) + batches[|batches| - 1]
  }

  /** What every batch satisfies. A lone transaction may exceed the row and byte limits; a barrier
      transaction is only ever first. */
  ghost predicate BatchOk(limits: BatchLimits, s: seq<SourceTransaction>) {
    && |s| <= limits.maxRows
    && (|s| > 1 ==> TotalRows(s) <= limits.maxRows && TotalBytes(s) <= limits.maxBytes)
    && (forall i | 0 < i < |s| :: !s[i].HasBarrier())
    && (forall i, j | 0 <= i < j < |s| :: s[i].finalPosition.nodeId == s[j].finalPosition.nodeId
          && s[i].finalPosition.systemIdentifier == s[j].finalPosition.systemIdentifier
          && s[i].finalPosition.lsn <= s[j].finalPosition.lsn)
  }

  ghost predicate RunOk(limits: BatchLimits, r: Run) {
    && (forall i | 0 <= i < |r.emitted| :: r.emitted[i] != [] && BatchOk(limits, r.emitted[i]))
    && BatchOk(limits, r.pending)
  }

  /** Unsaturated totals: below the top of the machine range the limits bound the true sums. */
  function TrueRows(s: seq<SourceTransaction>): nat {
    if s == [] then 0 else TrueRows(s[..|s| - 1]) + RowCount(s[|s| - 1])
  }

  function TrueBytes(s: seq<SourceTransaction>): nat {
    if s == [] then 0 else TrueBytes(s[..|s| - 1]) + ByteCount(s[|s| - 1])
  }

  lemma {:induction false} TotalsAreTrue(s: seq<SourceTransaction>)
    ensures TotalRows(s) == if TrueRows(s) <= USIZE_MAX then TrueRows(s) else USIZE_MAX
    ensures TotalBytes(s) == if TrueBytes(s) <= USIZE_MAX then TrueBytes(s) else USIZE_MAX
  {
    if s != [] { TotalsAreTrue(s[..|s| - 1]); }
  }

  lemma BatchOkExtends(limits: BatchLimits, s: seq<SourceTransaction>, t: SourceTransaction)
    requires limits.Accepted() && BatchOk(limits, s) && ValidateOrder(s, t).None? && !MustFlush(limits, s, t)
    ensures BatchOk(limits, s + [t])
  {
    assert (s + [t])[..|s|] == s;
  }

  /** Over any run: nothing is lost, duplicated or reordered, and every batch keeps the limits. */
  lemma {:induction false} RunsKeepOrderAndLimits(limits: BatchLimits, r: Run, events: seq<Event>)
    requires limits.Accepted() && RunOk(limits, r) && r.error.None?
    ensures var e := RunEvents(limits, r, events);
      && RunOk(limits, e)
      && Concat(e.emitted) + e.pending <= Concat(r.emitted) + r.pending + PushedBy(events)
      && (e.error.None? ==> Concat(e.emitted) + e.pending == Concat(r.emitted) + r.pending + PushedBy(events))
    decreases |events|
  {
    hide BatchOk, MustFlush, ValidateOrder, Step, Concat, RunOk;
    if events != [] {
      var next, rest := Step(limits, r, events[0]), events[1..];
      StepKeepsOrderAndLimits(limits, r, events[0]);
      PushedSplit(events);
      if next.error.None? { RunsKeepOrderAndLimits(limits, next, rest); }
      else { assert RunEvents(limits, next, rest) == next; }
    }
  }

  lemma PushedSplit(events: seq<Event>)
    requires events != []
    ensures PushedBy(events) == PushedBy([events[0]]) + PushedBy(events[1..])
  {
    assert [events[0]][1..] == [];
  }

  lemma StepKeepsOrderAndLimits(limits: BatchLimits, r: Run, e: Event)
    requires limits.Accepted() && RunOk(limits, r) && r.error.None?
    ensures var next := Step(limits, r, e);
      && RunOk(limits, next)
      && (next.error.Some? ==> next.emitted == r.emitted && next.pending == r.pending)
      && (next.error.None? ==> Concat(next.emitted) + next.pending == Concat(r.emitted) + r.pending + PushedBy([e]))
      && (e.Pushed? && next.error.None? && e.transaction.HasBarrier() ==> next.pending == [e.transaction])
  {
    assert (r.emitted + [r.pending])[..|r.emitted|] == r.emitted;
    assert PushedBy([e]) == match e { case Pushed(t) => [t] case TimerFired => [] };
    match e
    case TimerFired =>
    case Pushed(t) =>
      if ValidateOrder(r.pending, t).None? && !MustFlush(limits, r.pending, t) {
        BatchOkExtends(limits, r.pending, t);
      }
  }

  // ---- When a batch is handed over ------------------------------------------------------------

  /** TRUNCATE and DDL messages need the batch to themselves, in front. */
  ghost predicate IsBarrier(t: SourceTransaction) {
    exists i | 0 <= i < |t.changes| :: t.changes[i].Truncate? || t.changes[i].Ddl?
  }

  /** A transaction makes the pending batch go if and only if there is one and it is full, cannot take the
      transaction's rows or bytes in true sums, or the transaction is a barrier; a limit at the top of the machine
      range is no limit. A transaction that fits and is no barrier joins. */
  lemma HandedOverExactly(limits: BatchLimits, pending: seq<SourceTransaction>, t: SourceTransaction)
    ensures MustFlush(limits, pending, t) <==>
      && pending != []
      && (|| IsBarrier(t) || |pending| >= limits.maxRows
          || (limits.maxRows < USIZE_MAX && TrueRows(pending) + |RowsOf(t.changes)| > limits.maxRows)
          || (limits.maxBytes < USIZE_MAX && TrueBytes(pending) + EstimatedBytes(t.changes) > limits.maxBytes))
  {
    TotalsAreTrue(pending);
    hide TotalRows, TotalBytes, TrueRows, TrueBytes;
  }

  /** A batch keeps collecting: as long as everything fits, one event after another, nothing is handed over. */
  lemma {:induction false} FittingBatchGrows(limits: BatchLimits, pending: seq<SourceTransaction>, more: seq<SourceTransaction>)
    requires |pending + more| <= limits.maxRows && TrueRows(pending + more) <= limits.maxRows && TrueBytes(pending + more) <= limits.maxBytes
    requires (forall i | 0 <= i < |more| :: !IsBarrier(more[i])) && InOrder(pending + more)
    ensures RunEvents(limits, Run([], pending, None), Pushes(more)) == Run([], pending + more, None)
    decreases |more|
  {
    hide MustFlush, IsBarrier, TrueRows, TrueBytes;
    if more == [] {
      assert pending + more == pending;
    } else {
      var t, rest := more[0], more[1..];
      assert pending + more == (pending + [t]) + rest && Pushes(more)[0] == Pushed(t) && Pushes(more)[1..] == Pushes(rest);
      TrueSumsGrow(pending + [t], rest);
      OneMoreTrue(pending, t);
      HandedOverExactly(limits, pending, t);
      if pending != [] { assert (pending + more)[|pending| - 1] == pending[|pending| - 1] && (pending + more)[|pending|] == t; }
      FittingBatchGrows(limits, pending + [t], rest);
    }
  }

  function Pushes(ts: seq<SourceTransaction>): (r: seq<Event>)
    ensures |r| == |ts| && forall i | 0 <= i < |r| :: r[i] == Pushed(ts[i])
  {
    seq(|ts|, i requires 0 <= i < |ts| => Pushed(ts[i]))
  }

  /** One node, positions that do not decrease. */
  ghost predicate InOrder(s: seq<SourceTransaction>) {
    forall i, j | 0 <= i < j < |s| ::
      && s[i].finalPosition.nodeId == s[j].finalPosition.nodeId && s[i].finalPosition.systemIdentifier == s[j].finalPosition.systemIdentifier
      && s[i].finalPosition.lsn <= s[j].finalPosition.lsn
  }

  lemma OneMoreTrue(s: seq<SourceTransaction>, t: SourceTransaction)
    ensures TrueRows(s + [t]) == TrueRows(s) + |RowsOf(t.changes)| && TrueBytes(s + [t]) == TrueBytes(s) + EstimatedBytes(t.changes)
  {
    assert (s + [t])[..|s|] == s;
  }

  lemma {:induction false} TrueSumsGrow(s: seq<SourceTransaction>, more: seq<SourceTransaction>)
    ensures TrueRows(s) <= TrueRows(s + more) && TrueBytes(s) <= TrueBytes(s + more)
    decreases |more|
  {
    if more == [] {
      assert s + more == s;
    } else {
      assert s + more == (s + [more[0]]) + more[1..];
      OneMoreTrue(s, more[0]);
      TrueSumsGrow(s + [more[0]], more[1..]);
    }
  }

  /** A transaction is out of order if and only if it is of another node or system than the last pending one, or
      behind it; an equal position is in order. */
  lemma OutOfOrderExactly(pending: seq<SourceTransaction>, t: SourceTransaction)
    ensures ValidateOrder(pending, t).Some? <==>
      && pending != []
      && var last := pending[|pending| - 1].finalPosition;
         (last.nodeId != t.finalPosition.nodeId || last.systemIdentifier != t.finalPosition.systemIdentifier || t.finalPosition.lsn < last.lsn)
  {
  }

  /** A batch is taken to need what its changes need together: a row its cells, a TRUNCATE four bytes for each
      relation, a DDL message its texts and four bytes for each relation. */
  lemma {:induction false} EstimateAdds(a: seq<TransactionChange>, b: seq<TransactionChange>)
    ensures EstimatedBytes(a + b) == EstimatedBytes(a) + EstimatedBytes(b)
    ensures forall change :: EstimatedBytes([change]) == ChangeBytes(change)
    ensures forall row: TableChange :: EstimatedBytes([Row(row)]) == TupleBytes(CarriedCells(row.change))
    ensures forall ids, cascade, restart :: EstimatedBytes([Truncate(ids, cascade, restart)]) == 4 * |ids|
    ensures forall m: DdlMessage :: EstimatedBytes([Ddl(m)]) == |m.commandTag| + |m.schemaFingerprint| + 4 * |m.relationIds|
  {
    forall change: TransactionChange ensures EstimatedBytes([change]) == ChangeBytes(change) { assert [change][1..] == []; }
    forall row: TableChange ensures EstimatedBytes([Row(row)]) == TupleBytes(CarriedCells(row.change)) { RowNeedsItsCells(row.change); }
    if a == [] {
      assert a + b == b;
    } else {
      assert (a + b)[1..] == a[1..] + b;
      EstimateAdds(a[1..], b);
    }
  }
}
