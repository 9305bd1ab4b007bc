/** Applying one committed batch to the target: grouping by relation, staging and merging each table,
    and advancing the checkpoint, all in one target transaction. */
module Apply {
  import opened Core
  import opened PrimaryKey
  import opened RowChanges
  import opened Normalize
  import NormalizerObject
  import opened StagingCopy
  import opened Transactions
  import opened Checkpoint
  import opened Bindings

  datatype TableBatch = TableBatch(target: string, stagingName: string, layout: Layout, rows: seq<StagingRow>)

  datatype ApplyRequest = ApplyRequest(fence: Fence, checkpoint: NodeCheckpoint, tables: seq<TableBatch>)

  datatype ApplyError =
    | DuplicateStaging(stagingName: string)
    | CheckpointFailed(checkpoint: CheckpointError)
    | UndefinedTable(undefined: string)
    | StagingFailed(staging: StagingError)
    | InvalidBatchFor(target: string)

  datatype PipelineError =
    | SchemaBarrier
    | MissingBinding(relationId: nat, generation: nat)
    | NormalizeFailed(normalize: NormalizeError)
    | ApplyFailed(apply: ApplyError)

  // ---- Barriers -------------------------------------------------------------------------------

  datatype DdlScope = DdlScope(includeSchemas: Option<set<string>>, excludeSchemas: set<string>)
  {
    /** A message naming no schema is unknown and always a barrier. */
    predicate RequiresBarrier(m: DdlMessage) {
      || m.affectedSchemas == []
      || exists s | s in m.affectedSchemas ::
           s !in excludeSchemas && (includeSchemas.Some? ==> s in includeSchemas.value)
    }

    predicate Rejects(change: TransactionChange) {
      match change
      case Ddl(message) => RequiresBarrier(message)
      case Truncate(_, _, _) => true
      case Row(_) => false
    }

    predicate RejectsBatch(batch: seq<SourceTransaction>) {
      exists i, j | 0 <= i < |batch| && 0 <= j < |batch[i].changes| :: Rejects(batch[i].changes[j])
    }
  }

  /** Only a transaction the batcher treats as a barrier can be rejected. */
  lemma RejectedIsBarrier(scope: DdlScope, batch: seq<SourceTransaction>)
    ensures scope.RejectsBatch(batch) ==> exists i | 0 <= i < |batch| :: batch[i].HasBarrier()
  {
    if scope.RejectsBatch(batch) {
      var i, j :| 0 <= i < |batch| && 0 <= j < |batch[i].changes| && scope.Rejects(batch[i].changes[j]);
      assert batch[i].changes[j].RequiresGenerationBarrier();
      assert batch[i].HasBarrier();
    }
  }

  // ---- Grouping -------------------------------------------------------------------------------

  function RowKeyOf(change: TableChange): RelationKey {
    (change.relationId, change.generation)
  }

  predicate KeyLess(a: RelationKey, b: RelationKey) {
    a.0 < b.0 || (a.0 == b.0 && a.1 < b.1)
  }

  function InsertKey(keys: seq<RelationKey>, k: RelationKey): (r: seq<RelationKey>)
    ensures forall x :: x in r <==> x in keys || x == k
  {
    if keys == [] then [k]
    else if keys[0] == k then keys
    else if KeyLess(k, keys[0]) then [k] + keys
    else [keys[0]] + InsertKey(keys[1..], k)
  }

  /** The relation generations a change list touches, in ascending order. */
  function GroupKeys(rows: seq<TableChange>): (r: seq<RelationKey>)
    ensures forall i | 0 <= i < |rows| :: RowKeyOf(rows[i]) in r
  {
    if rows == [] then []
    else InsertKey(GroupKeys(rows[..|rows| - 1]), RowKeyOf(rows[|rows| - 1]))
  }

  ghost predicate Ascending(keys: seq<RelationKey>) {
    forall i, j | 0 <= i < j < |keys| :: KeyLess(keys[i], keys[j])
  }

  lemma {:induction false} InsertKeyAscending(keys: seq<RelationKey>, k: RelationKey)
    requires Ascending(keys)
    ensures Ascending(InsertKey(keys, k))
  {
    if keys != [] && keys[0] != k && !KeyLess(k, keys[0]) {
      InsertKeyAscending(keys[1..], k);
      var r := InsertKey(keys[1..], k);
      forall j | 0 <= j < |r| ensures KeyLess(keys[0], r[j]) {
        assert r[j] in r;
      }
    }
  }

  lemma {:induction false} GroupKeysAscending(rows: seq<TableChange>)
    ensures Ascending(GroupKeys(rows))
  {
    if rows != [] {
      GroupKeysAscending(rows[..|rows| - 1]);
      InsertKeyAscending(GroupKeys(rows[..|rows| - 1]), RowKeyOf(rows[|rows| - 1]));
    }
  }

  /** The changes of one relation generation, in their order. */
  function ForKey(rows: seq<TableChange>, k: RelationKey): (r: seq<TableChange>)
    ensures forall i | 0 <= i < |r| :: RowKeyOf(r[i]) == k
  {
    if rows == [] then []
    else (if RowKeyOf(rows[0]) == k then [rows[0]] else []) + ForKey(rows[1..], k)
  }

  lemma {:induction false} ForKeyAppend(rows: seq<TableChange>, change: TableChange, k: RelationKey)
    ensures ForKey(rows + [change], k) == ForKey(rows, k) + if RowKeyOf(change) == k then [change] else []
  {
    if rows == [] {
      assert rows + [change] == [change];
      assert ForKey([change][1..], k) == [];
    } else {
      assert (rows + [change])[1..] == rows[1..] + [change];
      ForKeyAppend(rows[1..], change, k);
    }
  }

  ghost predicate Grouped(grouped: map<RelationKey, seq<TableChange>>, keys: seq<RelationKey>, rows: seq<TableChange>) {
    && keys == GroupKeys(rows)
    && (forall k :: k in grouped <==> k in keys)
    && (forall k | k in grouped :: grouped[k] == ForKey(rows, k))
    && (forall k | k !in grouped :: ForKey(rows, k) == [])
  }

  lemma GroupOne(grouped: map<RelationKey, seq<TableChange>>, keys: seq<RelationKey>, rows: seq<TableChange>, change: TableChange)
    requires Grouped(grouped, keys, rows)
    ensures var k := RowKeyOf(change);
      Grouped(grouped[k := (if k in grouped then grouped[k] else []) + [change]], InsertKey(keys, k), rows + [change])
  {
    assert (rows + [change])[..|rows|] == rows;
    assert GroupKeys(rows + [change]) == InsertKey(keys, RowKeyOf(change));
    hide GroupKeys, ForKey;
    forall k ensures ForKey(rows + [change], k) == ForKey(rows, k) + if RowKeyOf(change) == k then [change] else [] {
      ForKeyAppend(rows, change, k);
    }
  }

  // ---- Building the request -------------------------------------------------------------------

  function BuildTables(registry: Registry, keys: seq<RelationKey>, rows: seq<TableChange>)
    : Result<seq<TableBatch>, PipelineError>
    decreases |keys|
  {
    if keys == [] then Ok([])
    else if keys[0] !in registry then Err(MissingBinding(keys[0].0, keys[0].1))
    else match NormalizeTableChanges(registry[keys[0]].schema, ForKey(rows, keys[0]))
      case Err(e) => Err(NormalizeFailed(e))
      case Ok(staged) =>
        match BuildTables(registry, keys[1..], rows)
        case Err(e) => Err(e)
        case Ok(rest) => Ok((if staged == [] then [] else [TableBatchFor(registry[keys[0]], staged)]) + rest)
  }

  function TableBatchFor(b: TableBinding, staged: seq<StagingRow>): TableBatch {
    TableBatch(b.target, b.stagingName, LayoutOf(b.schema), staged)
  }

  function CheckpointOf(fence: Fence, slotName: Bytes, position: SourcePosition): NodeCheckpoint {
    NodeCheckpoint(CheckpointKey(fence.pipelineId, fence.generation, position.nodeId), position.systemIdentifier,
                   position.timeline, slotName, position.lsn)
  }

  function BuildRequest(fence: Fence, slotName: Bytes, registry: Registry, scope: DdlScope, batch: seq<SourceTransaction>)
    : Result<ApplyRequest, PipelineError>
    requires batch != []
  {
    if scope.RejectsBatch(batch) then Err(SchemaBarrier)
    else match BuildTables(registry, GroupKeys(AllRows(batch)), AllRows(batch))
      case Err(e) => Err(e)
      case Ok(tables) => Ok(ApplyRequest(fence, CheckpointOf(fence, slotName, batch[|batch| - 1].finalPosition), tables))
  }

  lemma {:induction false} RowsOfAppend(changes: seq<TransactionChange>, change: TransactionChange)
    ensures RowsOf(changes + [change]) == RowsOf(changes) + if change.Row? then [change.row] else []
  {
    if changes == [] {
      assert changes + [change] == [change];
      assert RowsOf([change][1..]) == [];
    } else {
      assert (changes + [change])[1..] == changes[1..] + [change];
      RowsOfAppend(changes[1..], change);
    }
  }

  /** The row changes of a batch grouped by relation generation, as nested loops over its transactions. */
  method GroupRows(batch: seq<SourceTransaction>)
    returns (grouped: map<RelationKey, seq<TableChange>>, keys: seq<RelationKey>)
    ensures Grouped(grouped, keys, AllRows(batch))
  {
    hide Grouped, GroupKeys;
    grouped, keys := map[], [];
    NothingGrouped();
    var i := 0;
    while i < |batch|
      invariant i <= |batch|
      invariant Grouped(grouped, keys, AllRows(batch[..i]))
    {
      var changes := batch[i].changes;
      ghost var before := AllRows(batch[..i]);
      assert before + RowsOf(changes[..0]) == before;
      var j := 0;
      while j < |changes|
        invariant j <= |changes|
        invariant Grouped(grouped, keys, before + RowsOf(changes[..j]))
      {
        assert changes[..j + 1] == changes[..j] + [changes[j]];
        RowsOfAppend(changes[..j], changes[j]);
        if changes[j].Row? {
          var change := changes[j].row;
          var k := RowKeyOf(change);
          GroupOne(grouped, keys, before + RowsOf(changes[..j]), change);
          assert before + RowsOf(changes[..j]) + [change] == before + RowsOf(changes[..j + 1]);
          keys := InsertKey(keys, k);
          grouped := grouped[k := (if k in grouped then grouped[k] else []) + [change]];
        } else {
          assert RowsOf(changes[..j + 1]) == RowsOf(changes[..j]);
        }
        j := j + 1;
      }
      assert changes[..j] == changes;
      AllRowsConcat(batch[..i], [batch[i]]);
      assert batch[..i + 1] == batch[..i] + [batch[i]];
      assert AllRows([batch[i]]) == RowsOf(changes);
      i := i + 1;
    }
    assert batch[..i] == batch;
  }

  lemma NothingGrouped()
    ensures Grouped(map[], [], [])
  {
  }

  function Joined(done: seq<TableBatch>, rest: Result<seq<TableBatch>, PipelineError>): Result<seq<TableBatch>, PipelineError> {
    match rest case Ok(tables) => Ok(done + tables) case Err(e) => Err(e)
  }

  method BuildApplyRequest(fence: Fence, slotName: Bytes, registry: Registry, scope: DdlScope, batch: seq<SourceTransaction>)
    returns (request: Result<ApplyRequest, PipelineError>)
    requires batch != []
    ensures request == BuildRequest(fence, slotName, registry, scope, batch)
  {
    hide BuildTables, GroupKeys, AllRows;
    var rejected := RejectSchemaBarriers(scope, batch);
    if rejected { return Err(SchemaBarrier); }
    var grouped, keys := GroupRows(batch);
    var tables := NormalizeGroups(registry, grouped, keys, AllRows(batch));
    if tables.Err? { return Err(tables.error); }
    return Ok(ApplyRequest(fence, CheckpointOf(fence, slotName, batch[|batch| - 1].finalPosition), tables.value));
  }

  method NormalizeGroups(registry: Registry, grouped: map<RelationKey, seq<TableChange>>, keys: seq<RelationKey>,
                         ghost rows: seq<TableChange>)
    returns (result: Result<seq<TableBatch>, PipelineError>)
    requires Grouped(grouped, keys, rows)
    ensures result == BuildTables(registry, keys, rows)
  {
    assert forall k | k in keys :: k in grouped && grouped[k] == ForKey(rows, k);
    hide GroupKeys, ForKey, Grouped, BuildTables, NormalizeTableChanges;
    var tables: seq<TableBatch> := [];
    JoinedEnds(tables, BuildTables(registry, keys, rows));
    assert keys[0..] == keys;
    hide Joined;
    var i := 0;
    while i < |keys|
      invariant i <= |keys|
      invariant BuildTables(registry, keys, rows) == Joined(tables, BuildTables(registry, keys[i..], rows))
    {
      var key := keys[i];
      assert key in keys;
      BuildStep(registry, keys, i, rows, tables);
      if key !in registry { return Err(MissingBinding(key.0, key.1)); }
      var staged := NormalizerObject.NormalizeWith(registry[key].schema, grouped[key]);
      if staged.Err? { return Err(NormalizeFailed(staged.error)); }
      tables := tables + (if staged.value == [] then [] else [TableBatchFor(registry[key], staged.value)]);
      i := i + 1;
    }
    JoinedEnds(tables, Ok([]));
    NoTables(registry, rows);
    return Ok(tables);
  }

  lemma NoTables(registry: Registry, rows: seq<TableChange>)
    ensures BuildTables(registry, [], rows) == Ok([])
  {
  }

  lemma JoinedEnds(done: seq<TableBatch>, rest: Result<seq<TableBatch>, PipelineError>)
    ensures Joined([], rest) == rest && Joined(done, Ok([])) == Ok(done)
  {
    if rest.Ok? { assert [] + rest.value == rest.value; }
    assert done + [] == done;
  }

  lemma BuildStep(registry: Registry, keys: seq<RelationKey>, i: nat, rows: seq<TableChange>, done: seq<TableBatch>)
    requires i < |keys|
    ensures var k := keys[i];
      Joined(done, BuildTables(registry, keys[i..], rows)) ==
        if k !in registry then Err(MissingBinding(k.0, k.1))
        else
          var staged := NormalizeTableChanges(registry[k].schema, ForKey(rows, k));
          if staged.Err? then Err(NormalizeFailed(staged.error))
          else
            Joined(done + if staged.value == [] then [] else [TableBatchFor(registry[k], staged.value)],
                   BuildTables(registry, keys[i + 1..], rows))
  {
    hide NormalizeTableChanges, ForKey;
    var k := keys[i];
    assert keys[i..][0] == k && keys[i..][1..] == keys[i + 1..];
    if k in registry {
      var staged, rest := NormalizeTableChanges(registry[k].schema, ForKey(rows, k)), BuildTables(registry, keys[i + 1..], rows);
      if staged.Ok? && rest.Ok? {
        var one := if staged.value == [] then [] else [TableBatchFor(registry[k], staged.value)];
        assert done + (one + rest.value) == done + one + rest.value;
      }
    }
  }

  method RejectSchemaBarriers(scope: DdlScope, batch: seq<SourceTransaction>) returns (rejected: bool)
    ensures rejected == scope.RejectsBatch(batch)
  {
    var i := 0;
    while i < |batch|
      invariant i <= |batch|
      invariant forall a, b | 0 <= a < i && 0 <= b < |batch[a].changes| :: !scope.Rejects(batch[a].changes[b])
    {
      var changes := batch[i].changes;
      var j := 0;
      while j < |changes|
        invariant j <= |changes|
        invariant forall b | 0 <= b < j :: !scope.Rejects(changes[b])
      {
        match changes[j] {
          case Ddl(message) => if scope.RequiresBarrier(message) { return true; }
          case Truncate(_, _, _) => return true;
          case Row(_) =>
        }
        j := j + 1;
      }
      i := i + 1;
    }
    return false;
  }
}
