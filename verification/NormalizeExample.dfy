/** The smallest kind of valid change list the normalizer refuses: a row is deleted and another takes its key. */
module NormalizeExample {
  import opened Core
  import opened PrimaryKey
  import opened RowChanges
  import opened Normalize
  import opened NormalizeTracking
  import opened NormalizeTheorems
  import opened Transactions
  import opened Checkpoint
  import opened Bindings
  import opened Apply
  import opened Execute
  import opened ApplyTheorems

  const SCHEMA: TableSchema := TableSchema(1, 0, true, [Column("id", Some(1))])

  const A: Tuple := [Text([97])]
  const B: Tuple := [Text([98])]

  /** Two rows, under the keys `a` and `b`. */
  const START: Table := map[[[97]] := A, [[98]] := B]

  const DELETE_A: TableChange := TableChange(1, 0, Delete(A))
  const MOVE_B_TO_A: TableChange := TableChange(1, 0, Update(Some(B), A))

  const CHANGES: seq<TableChange> := [DELETE_A, MOVE_B_TO_A]

  lemma OneKeyColumn()
    ensures OrdinalIndexes(SCHEMA) == [0] && LayoutOf(SCHEMA) == Layout(1, [0], [0])
  {
    assert SchemaOrder(SCHEMA.columns, 1) == [];
    assert SchemaOrder(SCHEMA.columns, 0) == [0];
    assert SortByOrdinal(SCHEMA.columns, []) == [];
    assert [0][..0] == [];
    assert SortByOrdinal(SCHEMA.columns, [0]) == [0];
    assert Positions([0], [0]) == [0];
  }

  const KEYED: Layout := Layout(1, [0], [0])

  lemma Keys()
    ensures KeyAt(A, [0]) == [[97]] && KeyAt(B, [0]) == [[98]]
    ensures KeyFromOldTuple(KEYED, A) == Ok([[97]]) && KeyFromOldTuple(KEYED, B) == Ok([[98]])
    ensures MergeCells(B, A) == A && KeyFromCells(KEYED, A, UpdateTuple) == Ok([[97]])
    ensures [[97 as byte]] != [[98]]
  {
    assert [[97 as byte]][0][0] != [[98 as byte]][0][0];
    assert SelectKey(A, [0][1..], [0][1..], OldKeyTuple) == Ok([]) by { assert [0][1..] == []; }
    assert SelectKey(B, [0][1..], [0][1..], OldKeyTuple) == Ok([]) by { assert [0][1..] == []; }
  }

  /** One at a time, both changes are valid. */
  lemma ChangesAreValid()
    ensures TableOk(KEYED, START)
    ensures ApplyChange(KEYED, START, DELETE_A.change) == Some(map[[[98]] := B])
    ensures ApplyChange(KEYED, map[[[98]] := B], MOVE_B_TO_A.change) == Some(map[[[97]] := A])
    ensures ApplyChanges(KEYED, START, CHANGES) == Some(map[[[97]] := A])
  {
    Keys();
    hide KeyFromOldTuple, KeyFromCells, KeyAt, MergeCells;
    assert START - {[[97]]} == map[[[98]] := B];
    var t: Table := map[[[98]] := B];
    assert (t - {[[98]]})[[[97]] := A] == map[[[97]] := A];
    assert CHANGES[1..] == [MOVE_B_TO_A] && [MOVE_B_TO_A][1..] == [];
    assert ApplyChanges(KEYED, map[[[97]] := A], []) == Some(map[[[97]] := A]);
  }

  lemma SecondLands()
    ensures TraceFrom(START).started.Keys == TraceFrom(START).rows.Keys
    ensures ApplyChanges(KEYED, TraceFrom(START).rows, CHANGES).Some?
    ensures !NeverLandsOnStartKey(KEYED, START, TraceFrom(START), CHANGES)
  {
    Keys();
    ChangesAreValid();
    hide KeyFromOldTuple, KeyFromCells, KeyAt, MergeCells, ApplyChange;
    var tr := TraceFrom(START);
    TraceChangeKeys(KEYED, START, tr, DELETE_A.change);
    var next := TraceChange(KEYED, START, tr, DELETE_A.change);
    assert next.started == tr.started - {[[97]]};
    assert LandsOnStartKey(KEYED, START, next, MOVE_B_TO_A.change);
    assert CHANGES[1..] == [MOVE_B_TO_A];
    hide TraceChange, LandsOnStartKey;
    assert !NeverLandsOnStartKey(KEYED, START, next, CHANGES[1..]);
  }

  /** Valid one at a time, refused as a batch. */
  lemma ValidListRefused()
    ensures TableOk(LayoutOf(SCHEMA), START) && ApplyChanges(LayoutOf(SCHEMA), START, CHANGES) == Some(map[[[97]] := A])
    ensures NormalizeTableChanges(SCHEMA, CHANGES) == Err(UpdateReusesStartKey)
  {
    OneKeyColumn();
    ChangesAreValid();
    SecondLands();
    hide ApplyChanges, NeverLandsOnStartKey, NormalizeTableChanges, LayoutOf, TableOk, OrdinalIndexes;
    assert OfSchema(SCHEMA, CHANGES);
    RejectsExactlyReusedStartKeys(SCHEMA, START, CHANGES);
  }

  // ---- The same as one source transaction -----------------------------------------------------

  const BINDING: TableBinding := TableBinding(SCHEMA, "t", "s")

  const REGISTRY: Registry := map[(1, 0) := BINDING]

  const TRANSACTION: SourceTransaction := SourceTransaction(1, SourcePosition(1, 1, 1, 16), [Row(DELETE_A), Row(MOVE_B_TO_A)])

  lemma RowsOfTransaction()
    ensures AllRows([TRANSACTION]) == CHANGES && GroupKeys(CHANGES) == [(1, 0)] && ForKey(CHANGES, (1, 0)) == CHANGES
  {
    var rest := TRANSACTION.changes[1..];
    assert rest == [Row(MOVE_B_TO_A)] && rest[1..] == [];
    assert RowsOf([]) == [] && RowsOf(rest) == [MOVE_B_TO_A] && RowsOf(TRANSACTION.changes) == CHANGES;
    assert [TRANSACTION][1..] == [] && AllRows([]) == [];
    assert CHANGES[..1] == [DELETE_A] && [DELETE_A][..0] == [];
    assert GroupKeys([]) == [] && GroupKeys([DELETE_A]) == [(1, 0)];
    assert CHANGES[1..] == [MOVE_B_TO_A] && [MOVE_B_TO_A][1..] == [];
    assert ForKey([], (1, 0)) == [] && ForKey([MOVE_B_TO_A], (1, 0)) == [MOVE_B_TO_A];
  }

  lemma TransactionReplays()
    ensures RegistryOk(REGISTRY) && TablesOk(REGISTRY, map["t" := START])
    ensures Replay(REGISTRY, map["t" := START], CHANGES) == Some(map["t" := map[[[97]] := A]])
  {
    OneKeyColumn();
    ChangesAreValid();
    hide LayoutOf, ApplyChange, TableOk;
    var s, m, e: Tables := map["t" := START], map["t" := map[[[98]] := B]], map["t" := map[[[97]] := A]];
    assert s["t" := map[[[98]] := B]] == m && m["t" := map[[[97]] := A]] == e;
    assert CHANGES[1..] == [MOVE_B_TO_A] && [MOVE_B_TO_A][1..] == [];
    assert Replay(REGISTRY, e, []) == Some(e);
    assert Replay(REGISTRY, m, [MOVE_B_TO_A]) == Some(e);
  }

  /** A committed transaction that replays on its table, alone in its batch, can never be built into a
      request: whatever the fence, the scope and the owner, every attempt ends in the same error. */
  lemma ValidTransactionRefused(fence: Fence, slotName: Bytes, scope: DdlScope)
    ensures Replay(REGISTRY, map["t" := START], AllRows([TRANSACTION])).Some?
    ensures BuildRequest(fence, slotName, REGISTRY, scope, [TRANSACTION]) == Err(NormalizeFailed(UpdateReusesStartKey))
  {
    RowsOfTransaction();
    TransactionReplays();
    ValidListRefused();
    hide AllRows, GroupKeys, ForKey, Replay, NormalizeTableChanges;
    assert !scope.RejectsBatch([TRANSACTION]);
    assert [(1, 0)][0] == (1, 0);
  }
}
