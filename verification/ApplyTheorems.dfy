/** What applying a batch amounts to: the source's row changes replayed one at a time. */
module ApplyTheorems {
  import opened Core
  import opened PrimaryKey
  import opened RowChanges
  import opened Normalize
  import opened NormalizeTracking
  import opened NormalizeTheorems
  import opened Staging
  import opened StagingCopy
  import opened Transactions
  import opened Checkpoint
  import opened Bindings
  import opened Apply
  import opened Execute

  // ---- One table ------------------------------------------------------------------------------

  lemma RemovedKeys(t: Table, gone: set<Key>)
    ensures |t - gone| + |gone * t.Keys| == |t|
  {
    assert (t - gone).Keys == t.Keys - gone * t.Keys;
    assert |(t - gone).Keys| == |t - gone|;
  }

  lemma AddedKeys(t: Table, next: Table)
    requires t.Keys <= next.Keys
    ensures |next| == |t| + |next.Keys - t.Keys|
  {
    assert next.Keys == t.Keys + (next.Keys - t.Keys);
  }

  lemma DeleteCounts(l: Layout, t: Table, rows: seq<StagingRow>)
    ensures |DeleteRows(l, t, rows)| + DeletedCount(l, t, rows) == |t|
  {
    RemovedKeys(t, KeysWith(l, rows, Remove));
  }

  lemma MoveCounts(l: Layout, t: Table, rows: seq<StagingRow>)
    ensures |MoveRows(l, t, rows)| == |t| + MovedCount(t, MoveRows(l, t, rows))
  {
    hide KeysWith, OldKeyOf, RowAt;
    AddedKeys(t, MoveRows(l, t, rows));
  }

  lemma VacateCounts(t: Table, rows: seq<StagingRow>)
    ensures |DeleteMovedRows(t, rows)| + VacatedCount(t, rows) == |t|
  {
    RemovedKeys(t, OldKeys(rows));
  }

  lemma UpdateCounts(l: Layout, t: Table, rows: seq<StagingRow>)
    ensures UpdateRows(l, t, rows).Keys == t.Keys && |UpdateRows(l, t, rows)| == |t|
  {
    hide KeysWith, RowAt, CaseWhen;
    assert UpdateRows(l, t, rows).Keys == t.Keys;
    assert |UpdateRows(l, t, rows).Keys| == |UpdateRows(l, t, rows)| && |t.Keys| == |t|;
  }

  lemma InsertedKeys(l: Layout, t: Table, rows: seq<StagingRow>)
    ensures InsertRows(l, t, rows).Keys == t.Keys + KeysWith(l, rows, Upsert)
  {
    hide KeysWith, RowAt, StagedData;
  }

  lemma InsertCounts(l: Layout, t: Table, keys: Table, rows: seq<StagingRow>)
    requires t.Keys == keys.Keys
    ensures |InsertRows(l, t, rows)| == |t| + InsertedCount(l, keys, rows)
  {
    InsertedKeys(l, t, rows);
    hide KeysWith, InsertRows;
    AddedKeys(t, InsertRows(l, t, rows));
    assert InsertRows(l, t, rows).Keys - t.Keys == KeysWith(l, rows, Upsert) - keys.Keys;
  }

  /** Rows are conserved: what a table gains and loses is what the counters report. */
  lemma RowCountsConserved(l: Layout, t: Table, rows: seq<StagingRow>)
    ensures |AfterStatements(l, t, rows)| + Affected(l, t, rows).deleted ==
            |t| + Affected(l, t, rows).moved + Affected(l, t, rows).inserted
  {
    hide HasDataColumns, DeleteRows, MoveRows, DeleteMovedRows, UpdateRows, InsertRows, DeletedCount, MovedCount,
      VacatedCount, UpdatedCount, InsertedCount;
    var deleted := DeleteRows(l, t, rows);
    var moved := MoveRows(l, deleted, rows);
    var vacated := DeleteMovedRows(moved, rows);
    DeleteCounts(l, t, rows);
    MoveCounts(l, deleted, rows);
    VacateCounts(moved, rows);
    UpdateCounts(l, vacated, rows);
    InsertCounts(l, if HasDataColumns(l) then UpdateRows(l, vacated, rows) else vacated, vacated, rows);
  }

  lemma WellShapedEncodes(l: Layout, r: StagingRow)
    requires l.Valid() && WellShaped(l, r)
    ensures EncodeStagingRow(l, r).Ok?
  {
    StagingRowReadsBack(l, r, []);
    forall c | 0 <= c < l.width && c in l.ordinalIndexes ensures r.cells[c].Text? {
      var i :| 0 <= i < |l.ordinalIndexes| && l.ordinalIndexes[i] == c;
    }
  }

  lemma {:induction false} AllEncode(l: Layout, rows: seq<StagingRow>)
    requires l.Valid() && forall r | r in rows :: WellShaped(l, r)
    ensures FirstEncodeError(l, rows).None?
  {
    hide WellShaped, EncodeStagingRow;
    if rows != [] {
      assert rows[0] in rows;
      WellShapedEncodes(l, rows[0]);
      AllEncode(l, rows[1..]);
    }
  }

  /** On a table whose every column is in the key, the missing update statement had nothing to do. */
  lemma StatementsAreStagedApply(l: Layout, t: Table, rows: seq<StagingRow>)
    requires l.Valid() && TableOk(l, t) && Collapsed(l, rows)
    ensures AfterStatements(l, t, rows) == StagedApply(l, t, rows)
  {
    hide KeysWith, OldKeys, CaseWhen, Collapsed, DeleteRows, MoveRows, DeleteMovedRows, InsertRows, HasDataColumns,
      TableOk, RowAt, UpdateRows;
    if !HasDataColumns(l) {
      var vacated := DeleteMovedRows(MoveRows(l, DeleteRows(l, t, rows), rows), rows);
      forall k | k in vacated && k in KeysWith(l, rows, Upsert)
        ensures CaseWhen(vacated[k], RowAt(l, rows, Upsert, k).cells) == vacated[k]
      {
        UpsertUntouched(l, t, rows, k);
      }
      UpdateIsIdentity(l, vacated, rows);
    }
  }

  lemma UpdateIsIdentity(l: Layout, t: Table, rows: seq<StagingRow>)
    requires forall k | k in t && k in KeysWith(l, rows, Upsert) :: CaseWhen(t[k], RowAt(l, rows, Upsert, k).cells) == t[k]
    ensures UpdateRows(l, t, rows) == t
  {
    hide KeysWith, CaseWhen, RowAt;
  }

  lemma UpsertUntouched(l: Layout, t: Table, rows: seq<StagingRow>, k: Key)
    requires l.Valid() && TableOk(l, t) && Collapsed(l, rows) && !HasDataColumns(l) && k in KeysWith(l, rows, Upsert)
    requires k in DeleteMovedRows(MoveRows(l, DeleteRows(l, t, rows), rows), rows)
    ensures var vacated := DeleteMovedRows(MoveRows(l, DeleteRows(l, t, rows), rows), rows);
      CaseWhen(vacated[k], RowAt(l, rows, Upsert, k).cells) == vacated[k]
  {
    var deleted := DeleteRows(l, t, rows);
    OldKeysApart(l, rows);
    var r := RowAt(l, rows, Upsert, k);
    assert WellShaped(l, r);
    hide KeysWith, OldKeys, CaseWhen, Collapsed, DeleteRows, MoveRows, DeleteMovedRows, HasDataColumns, RowAt, OldKeyNull;
    DeleteAt(l, t, rows, k);
    MoveAt(l, deleted, rows, k);
    VacateAt(MoveRows(l, deleted, rows), rows, k);
    AllKeyMerge(l, t[k], r.cells);
  }

  lemma AllKeyMerge(l: Layout, row: Tuple, cells: Tuple)
    requires l.Valid() && !HasDataColumns(l) && FullRow(l, row) && |cells| == l.width && HasKeyAt(cells, l.ordinalIndexes)
    requires KeyAt(row, l.ordinalIndexes) == KeyAt(cells, l.ordinalIndexes)
    ensures CaseWhen(row, cells) == row
  {
    forall c | 0 <= c < |row| ensures cells[c] == row[c] {
      assert c in l.ordinalIndexes;
      var i :| 0 <= i < |l.ordinalIndexes| && l.ordinalIndexes[i] == c;
      assert KeyAt(row, l.ordinalIndexes)[i] == KeyAt(cells, l.ordinalIndexes)[i];
    }
  }

  /** One relation's changes, normalized and merged, give that relation's changes applied in order. */
  lemma TableApplied(schema: TableSchema, t: Table, changes: seq<TableChange>, rows: seq<StagingRow>)
    requires OfSchema(schema, changes) && TableOk(LayoutOf(schema), t)
    requires ApplyChanges(LayoutOf(schema), t, changes).Some? && NormalizeTableChanges(schema, changes) == Ok(rows)
    ensures FirstEncodeError(LayoutOf(schema), rows).None? && !InvalidBatch(LayoutOf(schema), t, rows)
    ensures AfterStatements(LayoutOf(schema), t, rows) == ApplyChanges(LayoutOf(schema), t, changes).value
    ensures rows == [] ==> ApplyChanges(LayoutOf(schema), t, changes).value == t
  {
    var l := LayoutOf(schema);
    AcceptedIsCollapsed(schema, changes);
    NormalizationPreservesMeaning(schema, t, changes);
    CollapsedShapes(l, rows);
    AllEncode(l, rows);
    StatementsAreStagedApply(l, t, rows);
    if rows == [] { NothingStaged(l, t); }
    hide LayoutOf, TableOk, Collapsed, InvalidBatch, AfterStatements, StagedApply, ApplyChanges;
  }

  lemma CollapsedShapes(l: Layout, rows: seq<StagingRow>)
    requires Collapsed(l, rows)
    ensures forall r | r in rows :: WellShaped(l, r)
  {
  }

  lemma NothingStaged(l: Layout, t: Table)
    ensures StagedApply(l, t, []) == t
  {
  }

  // ---- Every table ----------------------------------------------------------------------------

  /** Every bound table exists and holds well-formed rows. */
  ghost predicate TablesOk(registry: Registry, tables: Tables) {
    forall k | k in registry :: registry[k].target in tables && TableOk(LayoutOf(registry[k].schema), tables[registry[k].target])
  }

  /** The source's row changes replayed one at a time, each on the table its relation is bound to. */
  function Replay(registry: Registry, tables: Tables, rows: seq<TableChange>): Option<Tables>
    decreases |rows|
  {
    if rows == [] then Some(tables)
    else if RowKeyOf(rows[0]) !in registry then None
    else
      var b := registry[RowKeyOf(rows[0])];
      if b.target !in tables then None
      else match ApplyChange(LayoutOf(b.schema), tables[b.target], rows[0].change)
        case None => None
        case Some(next) => Replay(registry, tables[b.target := next], rows[1..])
  }

  lemma {:induction false} ReplayConcat(registry: Registry, tables: Tables, a: seq<TableChange>, b: seq<TableChange>)
    ensures Replay(registry, tables, a + b) ==
      match Replay(registry, tables, a) case None => None case Some(mid) => Replay(registry, mid, b)
    decreases |a|
  {
    hide LayoutOf, ApplyChange;
    if a == [] {
      assert a + b == b;
    } else {
      assert (a + b)[1..] == a[1..] + b;
      if RowKeyOf(a[0]) in registry {
        var bound := registry[RowKeyOf(a[0])];
        if bound.target in tables {
          match ApplyChange(LayoutOf(bound.schema), tables[bound.target], a[0].change)
          case None =>
          case Some(next) => ReplayConcat(registry, tables[bound.target := next], a[1..], b);
        }
      }
    }
  }

  /** Interleaving does not matter: each table sees only its own changes, in their order. */
  lemma {:induction false} ReplayPerTable(registry: Registry, tables: Tables, rows: seq<TableChange>, k: RelationKey)
    requires RegistryOk(registry) && k in registry && registry[k].target in tables
    requires Replay(registry, tables, rows).Some?
    ensures Replay(registry, tables, rows).value.Keys == tables.Keys
    ensures ApplyChanges(LayoutOf(registry[k].schema), tables[registry[k].target], ForKey(rows, k)) ==
            Some(Replay(registry, tables, rows).value[registry[k].target])
    decreases |rows|
  {
    hide LayoutOf, ApplyChange;
    if rows != [] {
      var j := RowKeyOf(rows[0]);
      var b := registry[j];
      var next := ApplyChange(LayoutOf(b.schema), tables[b.target], rows[0].change).value;
      ReplayPerTable(registry, tables[b.target := next], rows[1..], k);
      if j == k {
        assert ForKey(rows, k) == [rows[0]] + ForKey(rows[1..], k);
        assert ForKey(rows, k)[0] == rows[0] && ForKey(rows, k)[1..] == ForKey(rows[1..], k);
      } else {
        assert ForKey(rows, k) == ForKey(rows[1..], k);
      }
    }
  }

  lemma {:induction false} ReplayFrame(registry: Registry, tables: Tables, rows: seq<TableChange>, name: string)
    requires Replay(registry, tables, rows).Some? && name in tables
    requires forall k | k in registry :: registry[k].target != name
    ensures Replay(registry, tables, rows).value.Keys == tables.Keys
    ensures Replay(registry, tables, rows).value[name] == tables[name]
    decreases |rows|
  {
    hide LayoutOf, ApplyChange;
    if rows != [] {
      var b := registry[RowKeyOf(rows[0])];
      ReplayFrame(registry, tables[b.target := ApplyChange(LayoutOf(b.schema), tables[b.target], rows[0].change).value],
                  rows[1..], name);
    }
  }

  lemma {:induction false} ReplayKeepsTablesOk(registry: Registry, tables: Tables, rows: seq<TableChange>)
    requires RegistryOk(registry) && TablesOk(registry, tables) && Replay(registry, tables, rows).Some?
    ensures TablesOk(registry, Replay(registry, tables, rows).value)
    decreases |rows|
  {
    hide LayoutOf, ApplyChange, TableOk;
    if rows != [] {
      var b := registry[RowKeyOf(rows[0])];
      var next := ApplyChange(LayoutOf(b.schema), tables[b.target], rows[0].change).value;
      ApplyChangeKeepsTableOk(LayoutOf(b.schema), tables[b.target], rows[0].change);
      ReplayKeepsTablesOk(registry, tables[b.target := next], rows[1..]);
    }
  }

  /** A table batch that turns its table from how it started into how it must end. */
  ghost predicate Ready(start: Tables, after: Tables, b: TableBatch) {
    && b.rows != [] && b.target in start && b.target in after
    && FirstEncodeError(b.layout, b.rows).None? && !InvalidBatch(b.layout, start[b.target], b.rows)
    && AfterStatements(b.layout, start[b.target], b.rows) == after[b.target]
  }

  predicate Targets(batches: seq<TableBatch>, name: string) {
    exists i | 0 <= i < |batches| :: batches[i].target == name
  }

  ghost predicate ReadyAll(start: Tables, after: Tables, batches: seq<TableBatch>) {
    && (forall i | 0 <= i < |batches| :: Ready(start, after, batches[i]))
    && (forall i, j | 0 <= i < j < |batches| :: batches[i].target != batches[j].target)
  }

  /** Batches on different tables do not disturb one another. */
  lemma {:induction false} ReadyApplies(start: Tables, after: Tables, current: Tables, counters: Counters, batches: seq<TableBatch>)
    requires ReadyAll(start, after, batches)
    requires forall i | 0 <= i < |batches| :: batches[i].target in current && current[batches[i].target] == start[batches[i].target]
    ensures ApplyTables(current, counters, batches).Ok?
    ensures var result := ApplyTables(current, counters, batches).value.0;
      && result.Keys == current.Keys
      && (forall name | name in current && Targets(batches, name) :: name in after && result[name] == after[name])
      && (forall name | name in current && !Targets(batches, name) :: result[name] == current[name])
    decreases |batches|
  {
    hide AfterStatements, FirstEncodeError, InvalidBatch, Affected, AddCounters;
    if batches != [] {
      var b, rest := batches[0], batches[1..];
      assert Ready(start, after, b);
      assert ApplyTable(current, counters, b).Ok? && ApplyTable(current, counters, b).value.0 == current[b.target := after[b.target]];
      hide ApplyTable;
      ReadyApplies(start, after, current[b.target := after[b.target]], ApplyTable(current, counters, b).value.1, rest);
      hide ReadyAll, Ready, ApplyTables;
      assert ApplyTables(current, counters, batches) ==
        ApplyTables(current[b.target := after[b.target]], ApplyTable(current, counters, b).value.1, rest) by { OneTable(current, counters, batches); }
      forall name ensures Targets(batches, name) <==> b.target == name || Targets(rest, name) { TargetsCons(batches, name); }
    }
  }

  lemma OneTable(current: Tables, counters: Counters, batches: seq<TableBatch>)
    requires batches != [] && ApplyTable(current, counters, batches[0]).Ok?
    ensures ApplyTables(current, counters, batches) ==
      ApplyTables(ApplyTable(current, counters, batches[0]).value.0, ApplyTable(current, counters, batches[0]).value.1, batches[1..])
  {
  }

  lemma TargetsCons(batches: seq<TableBatch>, name: string)
    requires batches != []
    ensures Targets(batches, name) <==> batches[0].target == name || Targets(batches[1..], name)
  {
    if Targets(batches, name) && batches[0].target != name {
      var i :| 0 <= i < |batches| && batches[i].target == name;
      assert batches[1..][i - 1].target == name;
    }
    if Targets(batches[1..], name) {
      var i :| 0 <= i < |batches[1..]| && batches[1..][i].target == name;
      assert batches[i + 1].target == name;
    }
  }

  predicate BoundTo(registry: Registry, keys: seq<RelationKey>, name: string) {
    exists i | 0 <= i < |keys| :: keys[i] in registry && registry[keys[i]].target == name
  }

  /** One relation's batch is ready, or it has none and its table ends as it started. */
  lemma KeyReady(registry: Registry, start: Tables, after: Tables, k: RelationKey, rows: seq<TableChange>, staged: seq<StagingRow>)
    requires RegistryOk(registry) && TablesOk(registry, start) && k in registry && Replay(registry, start, rows) == Some(after)
    requires NormalizeTableChanges(registry[k].schema, ForKey(rows, k)) == Ok(staged)
    ensures after.Keys == start.Keys && registry[k].target in start
    ensures staged == [] ==> after[registry[k].target] == start[registry[k].target]
    ensures staged != [] ==> Ready(start, after, TableBatchFor(registry[k], staged))
  {
    var b := registry[k];
    hide TablesOk, Replay, LayoutOf, TableOk, ApplyChanges, NormalizeTableChanges, InvalidBatch, AfterStatements,
      FirstEncodeError, ForKey, OfSchema;
    TablesOkAt(registry, start, k);
    ReplayPerTable(registry, start, rows, k);
    ForKeyOfSchema(registry, rows, k);
    hide RegistryOk;
    TableApplied(b.schema, start[b.target], ForKey(rows, k), staged);
  }

  lemma ForKeyOfSchema(registry: Registry, rows: seq<TableChange>, k: RelationKey)
    requires RegistryOk(registry) && k in registry
    ensures OfSchema(registry[k].schema, ForKey(rows, k))
  {
    forall i | 0 <= i < |ForKey(rows, k)| ensures RowKeyOf(ForKey(rows, k)[i]) == k {}
  }

  lemma TablesOkAt(registry: Registry, tables: Tables, k: RelationKey)
    requires TablesOk(registry, tables) && k in registry
    ensures registry[k].target in tables && TableOk(LayoutOf(registry[k].schema), tables[registry[k].target])
  {
    hide TableOk, LayoutOf;
  }

  lemma ReadyCons(start: Tables, after: Tables, b: TableBatch, rest: seq<TableBatch>)
    requires Ready(start, after, b) && ReadyAll(start, after, rest) && !Targets(rest, b.target)
    ensures ReadyAll(start, after, [b] + rest)
  {
    hide Ready;
    var all := [b] + rest;
    assert forall i | 0 < i < |all| :: all[i] == rest[i - 1];
    forall j | 0 < j < |all| ensures all[0].target != all[j].target { assert rest[j - 1].target == all[j].target; }
  }

  /** The built batches, and which tables they leave alone. */
  ghost predicate Built(registry: Registry, start: Tables, after: Tables, keys: seq<RelationKey>, batches: seq<TableBatch>) {
    && ReadyAll(start, after, batches)
    && (forall name | Targets(batches, name) :: BoundTo(registry, keys, name))
    && (forall name | BoundTo(registry, keys, name) && !Targets(batches, name) :: name in start && name in after && after[name] == start[name])
  }

  lemma {:induction false} BuiltTables(registry: Registry, start: Tables, after: Tables, keys: seq<RelationKey>, rows: seq<TableChange>)
    requires RegistryOk(registry) && TablesOk(registry, start) && Replay(registry, start, rows) == Some(after)
    requires Ascending(keys) && BuildTables(registry, keys, rows).Ok?
    ensures Built(registry, start, after, keys, BuildTables(registry, keys, rows).value)
    decreases |keys|
  {
    hide TablesOk, Replay, NormalizeTableChanges, ForKey, LayoutOf, ReadyAll, Ready, Built;
    if keys == [] {
      NothingBuilt(registry, start, after);
    } else {
      var k := keys[0];
      var staged := NormalizeTableChanges(registry[k].schema, ForKey(rows, k)).value;
      KeyReady(registry, start, after, k, rows, staged);
      BuiltTables(registry, start, after, keys[1..], rows);
      KeyApart(registry, keys);
      hide RegistryOk, Ascending;
      BuiltCons(registry, start, after, keys, staged, BuildTables(registry, keys[1..], rows).value);
    }
  }

  lemma NothingBuilt(registry: Registry, start: Tables, after: Tables)
    ensures Built(registry, start, after, [], [])
  {
  }

  lemma KeyApart(registry: Registry, keys: seq<RelationKey>)
    requires RegistryOk(registry) && Ascending(keys) && keys != [] && keys[0] in registry
    ensures !BoundTo(registry, keys[1..], registry[keys[0]].target)
  {
  }

  lemma BuiltCons(registry: Registry, start: Tables, after: Tables, keys: seq<RelationKey>, staged: seq<StagingRow>, rest: seq<TableBatch>)
    requires keys != [] && keys[0] in registry && !BoundTo(registry, keys[1..], registry[keys[0]].target)
    requires Built(registry, start, after, keys[1..], rest)
    requires after.Keys == start.Keys && registry[keys[0]].target in start
    requires staged == [] ==> after[registry[keys[0]].target] == start[registry[keys[0]].target]
    requires staged != [] ==> Ready(start, after, TableBatchFor(registry[keys[0]], staged))
    ensures Built(registry, start, after, keys, (if staged == [] then [] else [TableBatchFor(registry[keys[0]], staged)]) + rest)
  {
    hide Ready, ReadyAll;
    var b := TableBatchFor(registry[keys[0]], staged);
    var all := (if staged == [] then [] else [b]) + rest;
    if staged == [] {
      assert all == rest;
    } else {
      ReadyCons(start, after, b, rest);
      assert all[0] == b && all[1..] == rest;
    }
    forall name ensures BoundTo(registry, keys, name) <==> registry[keys[0]].target == name || BoundTo(registry, keys[1..], name) {
      BoundCons(registry, keys, name);
    }
    forall name ensures Targets(all, name) <==> (staged != [] && b.target == name) || Targets(rest, name) {
      if staged != [] { TargetsCons(all, name); }
    }
    hide Targets, BoundTo;
  }

  lemma BoundCons(registry: Registry, keys: seq<RelationKey>, name: string)
    requires keys != [] && keys[0] in registry
    ensures BoundTo(registry, keys, name) <==> registry[keys[0]].target == name || BoundTo(registry, keys[1..], name)
  {
    if BoundTo(registry, keys, name) && registry[keys[0]].target != name {
      var i :| 0 <= i < |keys| && keys[i] in registry && registry[keys[i]].target == name;
      assert keys[1..][i - 1] == keys[i];
    }
    if BoundTo(registry, keys[1..], name) {
      var i :| 0 <= i < |keys[1..]| && keys[1..][i] in registry && registry[keys[1..][i]].target == name;
      assert keys[i + 1] == keys[1..][i];
    }
  }

  /** A table no change of the list touches stays as it is. */
  lemma UntouchedTable(registry: Registry, start: Tables, rows: seq<TableChange>, name: string)
    requires RegistryOk(registry) && TablesOk(registry, start) && Replay(registry, start, rows).Some?
    requires name in start && !BoundTo(registry, GroupKeys(rows), name)
    ensures name in Replay(registry, start, rows).value && Replay(registry, start, rows).value[name] == start[name]
  {
    hide LayoutOf, TableOk;
    if k :| k in registry && registry[k].target == name {
      ReplayPerTable(registry, start, rows, k);
      NoChangesFor(rows, k);
    } else {
      ReplayFrame(registry, start, rows, name);
    }
  }

  lemma {:induction false} NoChangesFor(rows: seq<TableChange>, k: RelationKey)
    requires forall i | 0 <= i < |rows| :: RowKeyOf(rows[i]) != k
    ensures ForKey(rows, k) == []
  {
    if rows != [] { NoChangesFor(rows[1..], k); }
  }

  /** Grouping and normalizing preserve meaning over the whole database. Whatever relations the batch
      interleaves, if the row changes can be replayed one at a time and the request can be built, the
      apply statements succeed on every table and leave exactly the tables the replay leaves. */
  lemma BatchAppliesInOrder(registry: Registry, start: Tables, rows: seq<TableChange>)
    requires RegistryOk(registry) && TablesOk(registry, start)
    ensures var built := BuildTables(registry, GroupKeys(rows), rows);
      Replay(registry, start, rows).Some? && built.Ok? ==>
        var applied := ApplyTables(start, NoCounts, built.value);
        applied.Ok? && applied.value.0 == Replay(registry, start, rows).value
  {
    hide Replay, TablesOk, RegistryOk, BuildTables, GroupKeys, ApplyTables, BoundTo, Targets, Ascending;
    var built := BuildTables(registry, GroupKeys(rows), rows);
    if Replay(registry, start, rows).Some? && built.Ok? {
      var after, keys := Replay(registry, start, rows).value, GroupKeys(rows);
      GroupKeysAscending(rows);
      BuiltTables(registry, start, after, keys, rows);
      ReadyApplies(start, after, start, NoCounts, built.value);
      var result := ApplyTables(start, NoCounts, built.value).value.0;
      ReplayKeys(registry, start, rows);
      forall name | name in start ensures result[name] == after[name] {
        if !BoundTo(registry, keys, name) { UntouchedTable(registry, start, rows, name); }
      }
    }
  }

  lemma {:induction false} ReplayKeys(registry: Registry, tables: Tables, rows: seq<TableChange>)
    requires Replay(registry, tables, rows).Some?
    ensures Replay(registry, tables, rows).value.Keys == tables.Keys
    decreases |rows|
  {
    hide LayoutOf, ApplyChange;
    if rows != [] {
      var b := registry[RowKeyOf(rows[0])];
      ReplayKeys(registry, tables[b.target := ApplyChange(LayoutOf(b.schema), tables[b.target], rows[0].change).value], rows[1..]);
    }
  }

  // ---- The whole transaction ------------------------------------------------------------------

  lemma {:induction false} BuiltNamesDistinct(registry: Registry, keys: seq<RelationKey>, rows: seq<TableChange>, seen: set<string>)
    requires RegistryOk(registry) && Ascending(keys) && BuildTables(registry, keys, rows).Ok?
    requires forall i | 0 <= i < |keys| && keys[i] in registry :: registry[keys[i]].stagingName !in seen
    ensures RepeatedStagingName(seen, BuildTables(registry, keys, rows).value).None?
    decreases |keys|
  {
    hide NormalizeTableChanges, ForKey, LayoutOf;
    if keys != [] {
      var b, rest := registry[keys[0]], BuildTables(registry, keys[1..], rows).value;
      var staged := NormalizeTableChanges(b.schema, ForKey(rows, keys[0])).value;
      if staged == [] {
        assert BuildTables(registry, keys, rows).value == rest;
        BuiltNamesDistinct(registry, keys[1..], rows, seen);
      } else {
        assert BuildTables(registry, keys, rows).value[0] == TableBatchFor(b, staged);
        assert BuildTables(registry, keys, rows).value[1..] == rest;
        BuiltNamesDistinct(registry, keys[1..], rows, seen + {b.stagingName});
      }
    }
  }

  /** What the apply transaction comes to once its tables have applied. */
  ghost predicate CommitsWith(s: TargetState, fence: Fence, position: NodeCheckpoint, tables: Tables,
                              outcome: Result<(TargetState, ApplyOutcome), ApplyError>) {
    match AdvanceCheckpoint(s.meta, fence, position)
    case Ok((meta, _)) => outcome.Ok? && outcome.value.0 == TargetState(meta, tables)
    case Err(_) => outcome.Err? && outcome.error.CheckpointFailed?
  }

  lemma ExecuteCommits(s: TargetState, request: ApplyRequest, tables: Tables)
    requires RepeatedStagingName({}, request.tables).None?
    requires ApplyTables(s.tables, NoCounts, request.tables).Ok? && ApplyTables(s.tables, NoCounts, request.tables).value.0 == tables
    ensures CommitsWith(s, request.fence, request.checkpoint, tables, ExecuteApply(s, request))
  {
    hide RepeatedStagingName, ApplyTables, CheckAdvance, ValidateFence, ValidateCheckpoint;
  }

  lemma RequestIs(fence: Fence, slotName: Bytes, registry: Registry, scope: DdlScope, batch: seq<SourceTransaction>)
    requires batch != [] && BuildRequest(fence, slotName, registry, scope, batch).Ok?
    ensures var built := BuildTables(registry, GroupKeys(AllRows(batch)), AllRows(batch));
      built.Ok? && BuildRequest(fence, slotName, registry, scope, batch).value ==
        ApplyRequest(fence, CheckpointOf(fence, slotName, batch[|batch| - 1].finalPosition), built.value)
  {
    hide BuildTables, GroupKeys, AllRows;
  }

  /** A built request fails only on its fence or its checkpoint. When it commits, the tables hold the
      replayed changes of every transaction in the batch and the checkpoint is the last one's position. */
  lemma AppliedBatchIsReplay(s: TargetState, fence: Fence, slotName: Bytes, registry: Registry, scope: DdlScope,
                             batch: seq<SourceTransaction>)
    requires batch != [] && RegistryOk(registry) && TablesOk(registry, s.tables)
    ensures var request, replayed := BuildRequest(fence, slotName, registry, scope, batch), Replay(registry, s.tables, AllRows(batch));
      request.Ok? && replayed.Some? ==>
        CommitsWith(s, fence, CheckpointOf(fence, slotName, batch[|batch| - 1].finalPosition), replayed.value,
                    ExecuteApply(s, request.value))
  {
    hide Replay, TablesOk, RegistryOk, BuildTables, GroupKeys, ApplyTables, AllRows, BuildRequest, ExecuteApply, CommitsWith,
      Ascending, RepeatedStagingName;
    var rows := AllRows(batch);
    var request := BuildRequest(fence, slotName, registry, scope, batch);
    if request.Ok? && Replay(registry, s.tables, rows).Some? {
      RequestIs(fence, slotName, registry, scope, batch);
      GroupKeysAscending(rows);
      BuiltNamesDistinct(registry, GroupKeys(rows), rows, {});
      BatchAppliesInOrder(registry, s.tables, rows);
      ExecuteCommits(s, request.value, Replay(registry, s.tables, rows).value);
    }
  }

  /** Whether one relation's changes keep off the batch-start keys of other rows. */
  ghost predicate KeepsOff(registry: Registry, start: Tables, rows: seq<TableChange>, k: RelationKey) {
    && k in registry && registry[k].target in start
    && var l, t := LayoutOf(registry[k].schema), start[registry[k].target];
       && TraceFrom(t).started.Keys == TraceFrom(t).rows.Keys && ApplyChanges(l, TraceFrom(t).rows, ForKey(rows, k)).Some?
       && NeverLandsOnStartKey(l, t, TraceFrom(t), ForKey(rows, k))
  }

  lemma KeyRejects(registry: Registry, start: Tables, rows: seq<TableChange>, k: RelationKey)
    requires RegistryOk(registry) && TablesOk(registry, start) && Replay(registry, start, rows).Some?
    requires k in registry && registry[k].schema.supported && OrdinalIndexes(registry[k].schema) != []
    ensures var r := NormalizeTableChanges(registry[k].schema, ForKey(rows, k));
      (r.Ok? <==> KeepsOff(registry, start, rows, k)) && (r.Err? ==> r.error == UpdateReusesStartKey)
  {
    hide LayoutOf, TableOk, ForKey, OfSchema, NormalizeTableChanges, NeverLandsOnStartKey, Replay, TablesOk, ApplyChanges, OrdinalIndexes;
    TablesOkAt(registry, start, k);
    ReplayPerTable(registry, start, rows, k);
    ForKeyOfSchema(registry, rows, k);
    RejectsExactlyReusedStartKeys(registry[k].schema, start[registry[k].target], ForKey(rows, k));
  }

  /** A replayable batch on bound, supported relations is refused exactly when some update lands on the
      batch-start key of another row of its table. */
  lemma {:induction false} BuildRejectsExactlyReusedStartKeys(registry: Registry, start: Tables, keys: seq<RelationKey>, rows: seq<TableChange>)
    requires RegistryOk(registry) && TablesOk(registry, start) && Replay(registry, start, rows).Some?
    requires forall i | 0 <= i < |keys| ::
      keys[i] in registry && registry[keys[i]].schema.supported && OrdinalIndexes(registry[keys[i]].schema) != []
    ensures var built := BuildTables(registry, keys, rows);
      && (built.Ok? <==> forall i | 0 <= i < |keys| :: KeepsOff(registry, start, rows, keys[i]))
      && (built.Err? ==> built.error == NormalizeFailed(UpdateReusesStartKey))
    decreases |keys|
  {
    hide Replay, TablesOk, RegistryOk, NormalizeTableChanges, ForKey, LayoutOf, KeepsOff, OrdinalIndexes;
    if keys != [] {
      KeyRejects(registry, start, rows, keys[0]);
      BuildRejectsExactlyReusedStartKeys(registry, start, keys[1..], rows);
    }
  }

  /** What normalizing one relation's changes takes. */
  ghost predicate Foldable(registry: Registry, start: Tables, rows: seq<TableChange>, k: RelationKey) {
    k in registry && registry[k].schema.supported && OrdinalIndexes(registry[k].schema) != [] && KeepsOff(registry, start, rows, k)
  }

  lemma KeyFolds(registry: Registry, start: Tables, rows: seq<TableChange>, k: RelationKey)
    requires RegistryOk(registry) && TablesOk(registry, start) && Replay(registry, start, rows).Some? && k in registry
    ensures NormalizeTableChanges(registry[k].schema, ForKey(rows, k)).Ok? <==> Foldable(registry, start, rows, k)
  {
    if registry[k].schema.supported && OrdinalIndexes(registry[k].schema) != [] {
      KeyRejects(registry, start, rows, k);
      hide NormalizeTableChanges;
    }
    hide Replay, TablesOk, RegistryOk, ForKey, LayoutOf, KeepsOff, OrdinalIndexes;
  }

  lemma {:induction false} TablesBuildExactly(registry: Registry, start: Tables, keys: seq<RelationKey>, rows: seq<TableChange>)
    requires RegistryOk(registry) && TablesOk(registry, start) && Replay(registry, start, rows).Some?
    requires forall i | 0 <= i < |keys| :: keys[i] in registry
    ensures BuildTables(registry, keys, rows).Ok? <==> forall i | 0 <= i < |keys| :: Foldable(registry, start, rows, keys[i])
    decreases |keys|
  {
    hide Replay, TablesOk, RegistryOk, NormalizeTableChanges, ForKey, Foldable, TableBatchFor;
    if keys != [] {
      var rest := keys[1..];
      KeyFolds(registry, start, rows, keys[0]);
      TablesBuildExactly(registry, start, rest, rows);
      assert BuildTables(registry, keys, rows).Ok? <==> Foldable(registry, start, rows, keys[0]) && BuildTables(registry, rest, rows).Ok?;
      hide BuildTables;
      forall i | 0 <= i < |keys| ensures keys[i] == if i == 0 then keys[0] else rest[i - 1] { }
      forall i | 0 <= i < |rest| ensures rest[i] == keys[i + 1] { }
    }
  }

  lemma {:induction false} GroupKeysOccur(rows: seq<TableChange>, k: RelationKey)
    requires k in GroupKeys(rows)
    ensures exists i :: 0 <= i < |rows| && RowKeyOf(rows[i]) == k
  {
    var last := |rows| - 1;
    if RowKeyOf(rows[last]) != k {
      GroupKeysOccur(rows[..last], k);
      var i :| 0 <= i < last && RowKeyOf(rows[..last][i]) == k;
      assert RowKeyOf(rows[i]) == k;
    }
  }

  lemma {:induction false} ReplayedAreBound(registry: Registry, tables: Tables, rows: seq<TableChange>, i: nat)
    requires Replay(registry, tables, rows).Some? && i < |rows|
    ensures RowKeyOf(rows[i]) in registry
    decreases |rows|
  {
    hide LayoutOf, ApplyChange;
    if i > 0 {
      var b := registry[RowKeyOf(rows[0])];
      ReplayedAreBound(registry, tables[b.target := ApplyChange(LayoutOf(b.schema), tables[b.target], rows[0].change).value], rows[1..], i - 1);
    }
  }

  /** A batch that replays is built into a request if and only if it holds no barrier in scope and the
      changes of each relation it touches can be folded. */
  lemma ReplayableBuildsExactly(fence: Fence, slotName: Bytes, registry: Registry, scope: DdlScope, start: Tables, batch: seq<SourceTransaction>)
    requires batch != [] && RegistryOk(registry) && TablesOk(registry, start) && Replay(registry, start, AllRows(batch)).Some?
    ensures BuildRequest(fence, slotName, registry, scope, batch).Ok? <==>
      !scope.RejectsBatch(batch) && forall k | k in GroupKeys(AllRows(batch)) :: Foldable(registry, start, AllRows(batch), k)
  {
    hide Replay, TablesOk, RegistryOk, BuildTables, GroupKeys, AllRows, Foldable;
    var rows := AllRows(batch);
    var keys := GroupKeys(rows);
    forall i | 0 <= i < |keys| ensures keys[i] in registry {
      GroupKeysOccur(rows, keys[i]);
      var j :| 0 <= j < |rows| && RowKeyOf(rows[j]) == keys[i];
      ReplayedAreBound(registry, start, rows, j);
    }
    TablesBuildExactly(registry, start, keys, rows);
    assert (forall k | k in keys :: Foldable(registry, start, rows, k)) <==> forall i | 0 <= i < |keys| :: Foldable(registry, start, rows, keys[i]);
  }

  /** TRUNCATE always, and a DDL message unless it names schemas and all of them are out of scope. */
  ghost predicate MustRebuild(scope: DdlScope, change: TransactionChange) {
    || change.Truncate?
    || (change.Ddl? &&
        (change.message.affectedSchemas == [] ||
         exists s | s in change.message.affectedSchemas ::
           s !in scope.excludeSchemas && (scope.includeSchemas.None? || s in scope.includeSchemas.value)))
  }

  /** A batch is stopped as a schema barrier if and only if one of its changes must rebuild; so whatever is
      built into a request holds row changes and out-of-scope DDL only. */
  lemma BarrierExactly(fence: Fence, slotName: Bytes, registry: Registry, scope: DdlScope, batch: seq<SourceTransaction>)
    requires batch != []
    ensures BuildRequest(fence, slotName, registry, scope, batch) == Err(SchemaBarrier) <==>
      exists i, j | 0 <= i < |batch| && 0 <= j < |batch[i].changes| :: MustRebuild(scope, batch[i].changes[j])
  {
    hide BuildTables, GroupKeys, AllRows;
    BuildsOtherErrors(registry, GroupKeys(AllRows(batch)), AllRows(batch));
    forall i, j | 0 <= i < |batch| && 0 <= j < |batch[i].changes|
      ensures scope.Rejects(batch[i].changes[j]) <==> MustRebuild(scope, batch[i].changes[j])
    {
    }
    hide DdlScope.Rejects, MustRebuild;
  }

  lemma {:induction false} BuildsOtherErrors(registry: Registry, keys: seq<RelationKey>, rows: seq<TableChange>)
    ensures BuildTables(registry, keys, rows).Err? ==> BuildTables(registry, keys, rows).error != SchemaBarrier
    decreases |keys|
  {
    hide NormalizeTableChanges, ForKey;
    if keys != [] { BuildsOtherErrors(registry, keys[1..], rows); }
  }
}
