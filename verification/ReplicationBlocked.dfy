/** Where replication stops for good: a next transaction that cannot be applied even alone. */
module ReplicationBlocked {
  import opened Core
  import opened PrimaryKey
  import opened RowChanges
  import opened NormalizeTracking
  import opened Transactions
  import opened Checkpoint
  import Wal
  import Batch
  import opened Bindings
  import opened Normalize
  import opened NormalizeExample
  import opened Apply
  import opened Execute
  import opened ApplyTheorems
  import opened Replication

  /** Alone in its batch, the transaction is a barrier, or touches a relation whose changes cannot be folded. */
  ghost predicate Unappliable(c: Config, tables: Tables, t: SourceTransaction) {
    || c.scope.RejectsBatch([t])
    || exists k | k in GroupKeys(AllRows([t])) :: !Foldable(c.registry, tables, AllRows([t]), k)
  }

  /** The transaction next in line is one of those. */
  ghost predicate Blocked(c: Config, s: System) {
    Inv(c, s) && Applied(c, s) < |s.log| && Unappliable(c, s.target.tables, s.log[Applied(c, s)])
  }

  // ---- A longer batch does not help -----------------------------------------------------------

  lemma {:induction false} ForKeyConcat(a: seq<TableChange>, b: seq<TableChange>, k: RelationKey)
    ensures ForKey(a + b, k) == ForKey(a, k) + ForKey(b, k)
  {
    if a == [] {
      assert a + b == b;
    } else {
      assert (a + b)[1..] == a[1..] + b;
      ForKeyConcat(a[1..], b, k);
    }
  }

  lemma {:induction false} PrefixNeverLands(l: Layout, start: Table, tr: Trace, a: seq<TableChange>, b: seq<TableChange>)
    requires l.Valid() && tr.started.Keys == tr.rows.Keys && ApplyChanges(l, tr.rows, a + b).Some?
    requires NeverLandsOnStartKey(l, start, tr, a + b)
    ensures ApplyChanges(l, tr.rows, a).Some? && NeverLandsOnStartKey(l, start, tr, a)
    decreases |a|
  {
    hide ApplyChange, LandsOnStartKey, TraceChange;
    ApplyChangesSplit(l, tr.rows, a, b);
    if a != [] {
      assert (a + b)[0] == a[0] && (a + b)[1..] == a[1..] + b;
      TraceChangeKeys(l, start, tr, a[0].change);
      PrefixNeverLands(l, start, TraceChange(l, start, tr, a[0].change), a[1..], b);
    }
  }

  lemma PrefixFolds(registry: Registry, start: Tables, a: seq<TableChange>, b: seq<TableChange>, k: RelationKey)
    requires Foldable(registry, start, a + b, k)
    ensures Foldable(registry, start, a, k)
  {
    hide ApplyChanges, NeverLandsOnStartKey, ForKey, OrdinalIndexes;
    ForKeyConcat(a, b, k);
    var l, t := LayoutOf(registry[k].schema), start[registry[k].target];
    PrefixNeverLands(l, t, TraceFrom(t), ForKey(a, k), ForKey(b, k));
    hide LayoutOf, TraceFrom;
  }

  lemma MoreGroupKeys(a: seq<TableChange>, b: seq<TableChange>, k: RelationKey)
    requires k in GroupKeys(a)
    ensures k in GroupKeys(a + b)
  {
    GroupKeysOccur(a, k);
    var i :| 0 <= i < |a| && RowKeyOf(a[i]) == k;
    assert (a + b)[i] == a[i];
  }

  lemma LongerBatchFails(c: Config, tables: Tables, batch: seq<SourceTransaction>)
    requires batch != [] && Unappliable(c, tables, batch[0])
    ensures c.scope.RejectsBatch(batch) || exists k | k in GroupKeys(AllRows(batch)) :: !Foldable(c.registry, tables, AllRows(batch), k)
  {
    hide AllRows, GroupKeys, Foldable, DdlScope.RejectsBatch;
    var first, rest := [batch[0]], batch[1..];
    assert batch == first + rest;
    RejectsSplit(c.scope, first, rest);
    AllRowsConcat(first, rest);
    if !c.scope.RejectsBatch(first) {
      var k :| k in GroupKeys(AllRows(first)) && !Foldable(c.registry, tables, AllRows(first), k);
      MoreGroupKeys(AllRows(first), AllRows(rest), k);
      if Foldable(c.registry, tables, AllRows(batch), k) { PrefixFolds(c.registry, tables, AllRows(first), AllRows(rest), k); }
    }
  }

  // ---- Nothing gets past it -------------------------------------------------------------------

  lemma BlockedCommitsNothing(c: Config, s: System, i: nat)
    requires Blocked(c, s)
    ensures Act(c, s, CommitBatch(i)).None?
  {
    hide InvAt, Applied, Unappliable, Foldable, GroupKeys, AllRows, CommitStep, WellFormed, Owns, DdlScope.RejectsBatch;
    if CommitStep(c, s, i).Some? {
      CommitterOwns(c, s, Applied(c, s), i);
      OwnerBatch(c, s, i);
      LongerBatchFails(c, s.target.tables, s.workers[i].inflight);
      CommitPossibleAt(c, s, Applied(c, s), i);
    }
  }

  /** An action other than a commit leaves the tables, and what was logged. */
  lemma OthersTouchNoTable(c: Config, s: System, a: Action)
    requires Act(c, s, a).Some? && !a.CommitBatch?
    ensures Act(c, s, a).value.target.tables == s.target.tables && s.log <= Act(c, s, a).value.log
  {
    hide AcknowledgeLast, Received, Flushed, Resumed;
  }

  lemma StaysBlocked(c: Config, s: System, a: Action)
    requires Blocked(c, s) && Allowed(c, s, a) && Act(c, s, a).Some?
    ensures Blocked(c, Act(c, s, a).value)
    ensures Applied(c, Act(c, s, a).value) == Applied(c, s) && Act(c, s, a).value.target.tables == s.target.tables
  {
    hide InvAt, Applied, Unappliable, Act, Allowed;
    if a.CommitBatch? { BlockedCommitsNothing(c, s, a.worker); }
    OthersTouchNoTable(c, s, a);
    ActKeepsInv(c, s, a);
    AppliedByOthers(s, a);
  }

  lemma AppliedByOthers(s: System, a: Action)
    ensures !a.CommitBatch? ==> AppliedBy(s, a) == 0
  {
  }

  /** Once the transaction next in line cannot be applied alone, no run ever gets past it, whatever is
      cancelled, restarted or batched with it: the tables and the position stay as they are. */
  lemma {:induction false} BlockedForGood(c: Config, s: System, actions: seq<Action>)
    requires Blocked(c, s) && AllAllowed(c, s, actions)
    ensures Run(c, s, actions).Some? ==>
      var e := Run(c, s, actions).value; Blocked(c, e) && Applied(c, e) == Applied(c, s) && e.target.tables == s.target.tables
    decreases |actions|
  {
    hide Blocked, Applied, Act, Allowed;
    if actions != [] && Act(c, s, actions[0]).Some? {
      StaysBlocked(c, s, actions[0]);
      BlockedForGood(c, Act(c, s, actions[0]).value, actions[1..]);
    }
  }

  // ---- It happens -----------------------------------------------------------------------------

  const SCOPE: DdlScope := DdlScope(None, {})

  /** One table of two rows, replicated from position 8 on. */
  const CONFIG: Config := Config(Wal.NodeIdentity(1, 1, 1), 7, 0, [115], REGISTRY, SCOPE, Batch.BatchLimits(10, 1000, 1), 8, map["t" := START])

  const POSITION: NodeCheckpoint := NodeCheckpoint(CheckpointKey(7, 0, 1), 1, 1, [115], 8)

  /** The source has committed one transaction, which deletes one row and moves the other onto its key. */
  const AFTER_SNAPSHOT: System :=
    System([TRANSACTION], TargetState(Meta(map[7 := FenceRow(0, 1)], map[CheckpointKey(7, 0, 1) := StoredCheckpoint(POSITION, 1)]),
                                      map["t" := START]), map[], 8)

  lemma ExampleSource()
    ensures CONFIG.Valid() && SourceOk(CONFIG, [TRANSACTION])
  {
    TransactionReplays();
    RowsOfTransaction();
    hide TablesOk, RegistryOk, DdlScope.RejectsBatch;
    assert CONFIG.Valid();
    forall m | 0 <= m <= 1 ensures Replay(REGISTRY, map["t" := START], AllRows([TRANSACTION][..m])).Some? {
      if m == 0 { assert [TRANSACTION][..0] == [] && AllRows([]) == []; } else { assert [TRANSACTION][..1] == [TRANSACTION]; }
    }
    hide Replay, AllRows;
  }

  lemma ExampleUnappliable()
    ensures Unappliable(CONFIG, map["t" := START], TRANSACTION)
  {
    RowsOfTransaction();
    TransactionReplays();
    ValidListRefused();
    hide NormalizeTableChanges, Foldable, Replay, AllRows, GroupKeys, ForKey, TablesOk, RegistryOk;
    var k: RelationKey := (1, 0);
    KeyFolds(REGISTRY, map["t" := START], CHANGES, k);
    assert k in GroupKeys(AllRows([TRANSACTION]));
    hide DdlScope.RejectsBatch;
  }

  /** A pipeline whose source is in order and whose every change is valid, blocked by its first transaction. */
  lemma ValidSourceBlocks()
    ensures Blocked(CONFIG, AFTER_SNAPSHOT) && SourceOk(CONFIG, AFTER_SNAPSHOT.log)
  {
    ExampleSource();
    ExampleUnappliable();
    hide SourceOk, Unappliable, Inv, Applied;
    SnapshotIsStart(CONFIG, AFTER_SNAPSHOT);
  }
}
