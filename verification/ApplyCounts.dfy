/** The counters an apply transaction reports, over the whole request. */
module ApplyCounts {
  import opened Core
  import opened PrimaryKey
  import opened RowChanges
  import opened Normalize
  import opened Staging
  import opened StagingCopy
  import opened StagingValidation
  import opened NormalizeTheorems
  import opened Transactions
  import opened Checkpoint
  import opened Bindings
  import opened Apply
  import opened Execute
  import opened ApplyTheorems

  // ---- One table ------------------------------------------------------------------------------

  function Removed(l: Layout, t: Table, rows: seq<StagingRow>): set<Key> {
    set r | r in rows && r.operation == Remove && RowKey(l, r) in t :: RowKey(l, r)
  }

  function MovedFrom(t: Table, rows: seq<StagingRow>): set<Key> {
    set r | r in rows && r.operation == Move && OldKeyOf(r) in t :: OldKeyOf(r)
  }

  function MovedTo(l: Layout, t: Table, rows: seq<StagingRow>): set<Key> {
    set r | r in rows && r.operation == Move && OldKeyOf(r) in t :: RowKey(l, r)
  }

  /** Upserted where a row stays. */
  function Updated(l: Layout, t: Table, rows: seq<StagingRow>): set<Key> {
    set r | r in rows && r.operation == Upsert && RowKey(l, r) in t && RowKey(l, r) !in MovedFrom(t, rows) :: RowKey(l, r)
  }

  /** Upserted where no row is, or where one has just moved away. */
  function Inserted(l: Layout, t: Table, rows: seq<StagingRow>): set<Key> {
    set r | r in rows && r.operation == Upsert && (RowKey(l, r) !in t || RowKey(l, r) in MovedFrom(t, rows)) :: RowKey(l, r)
  }

  lemma MoveOfKey(l: Layout, t: Table, rows: seq<StagingRow>, k: Key)
    requires Collapsed(l, rows) && !InvalidBatch(l, t, rows) && k in KeysWith(l, rows, Move)
    ensures var r := RowAt(l, rows, Move, k); (k in t <==> OldKeyOf(r) !in t) && (OldKeyOf(r) in t <==> k in MovedTo(l, t, rows))
  {
    var r := RowAt(l, rows, Move, k);
    PassedRow(l, t, rows, r);
    if k in MovedTo(l, t, rows) {
      var m :| m in rows && m.operation == Move && OldKeyOf(m) in t && RowKey(l, m) == k;
      SameKeySameRow(l, rows, m, r);
    }
    hide Collapsed, InvalidBatch;
  }

  lemma MovedKeys(l: Layout, t: Table, rows: seq<StagingRow>, k: Key)
    requires Collapsed(l, rows) && !InvalidBatch(l, t, rows)
    ensures var deleted := DeleteRows(l, t, rows); k in MoveRows(l, deleted, rows) <==> k in deleted || k in MovedTo(l, t, rows)
    ensures k in MovedTo(l, t, rows) ==> k !in t
  {
    OldKeysApart(l, rows);
    var deleted := DeleteRows(l, t, rows);
    MoveAt(l, deleted, rows, k);
    if k in KeysWith(l, rows, Move) {
      MoveOfKey(l, t, rows, k);
      OldKeyListed(l, rows, RowAt(l, rows, Move, k));
    } else {
      NotMovedTo(l, t, rows, k);
    }
    hide Collapsed, InvalidBatch, MovedTo, MoveRows;
  }

  /** Which rows the first three statements find, in terms of the starting table. */
  lemma RemovedAndMoved(l: Layout, t: Table, rows: seq<StagingRow>)
    requires Collapsed(l, rows) && !InvalidBatch(l, t, rows)
    ensures var deleted := DeleteRows(l, t, rows); var moved := MoveRows(l, deleted, rows);
      && KeysWith(l, rows, Remove) * t.Keys == Removed(l, t, rows)
      && moved.Keys - deleted.Keys == MovedTo(l, t, rows) && OldKeys(rows) * moved.Keys == MovedFrom(t, rows)
  {
    OldKeysApart(l, rows);
    var deleted := DeleteRows(l, t, rows);
    var moved := MoveRows(l, deleted, rows);
    forall k ensures k in KeysWith(l, rows, Remove) && k in t <==> k in Removed(l, t, rows) { }
    forall k ensures k in OldKeys(rows) && k in t <==> k in MovedFrom(t, rows) { }
    forall k | k in MovedTo(l, t, rows) ensures k in KeysWith(l, rows, Move) { MovedToIsNew(l, t, rows, k); }
    hide Collapsed, InvalidBatch, MovedTo, MovedFrom, Removed, MoveRows;
    forall k ensures (k in moved <==> k in deleted || k in MovedTo(l, t, rows)) && (k in MovedTo(l, t, rows) ==> k !in t) { MovedKeys(l, t, rows, k); }
    hide KeysWith, OldKeys;
  }

  /** Which rows the last two find. */
  lemma UpdatedAndInserted(l: Layout, t: Table, rows: seq<StagingRow>)
    requires Collapsed(l, rows) && !InvalidBatch(l, t, rows)
    ensures var vacated := DeleteMovedRows(MoveRows(l, DeleteRows(l, t, rows), rows), rows);
      && KeysWith(l, rows, Upsert) * vacated.Keys == Updated(l, t, rows)
      && KeysWith(l, rows, Upsert) - vacated.Keys == Inserted(l, t, rows)
  {
    hide Collapsed, InvalidBatch, KeysWith, MovedFrom, Updated, Inserted, DeleteRows, MoveRows, DeleteMovedRows;
    var vacated := DeleteMovedRows(MoveRows(l, DeleteRows(l, t, rows), rows), rows);
    forall k ensures k in KeysWith(l, rows, Upsert) && k in vacated <==> k in Updated(l, t, rows) { UpsertAt(l, t, rows, k); }
    forall k ensures k in KeysWith(l, rows, Upsert) && k !in vacated <==> k in Inserted(l, t, rows) { UpsertAt(l, t, rows, k); }
  }

  lemma NotMovedTo(l: Layout, t: Table, rows: seq<StagingRow>, k: Key)
    requires k !in KeysWith(l, rows, Move)
    ensures k !in MovedTo(l, t, rows)
  {
  }

  lemma MovedToIsNew(l: Layout, t: Table, rows: seq<StagingRow>, k: Key)
    requires Collapsed(l, rows) && !InvalidBatch(l, t, rows) && k in MovedTo(l, t, rows)
    ensures k in KeysWith(l, rows, Move) && k !in t
  {
    var m :| m in rows && m.operation == Move && OldKeyOf(m) in t && RowKey(l, m) == k;
    MoveOfKey(l, t, rows, k);
    hide Collapsed, InvalidBatch;
  }

  /** An upserted key is neither removed nor moved to, so its row is there unless it moved away. */
  lemma UpsertAt(l: Layout, t: Table, rows: seq<StagingRow>, k: Key)
    requires Collapsed(l, rows) && !InvalidBatch(l, t, rows)
    ensures var vacated := DeleteMovedRows(MoveRows(l, DeleteRows(l, t, rows), rows), rows);
      k in KeysWith(l, rows, Upsert) ==> (k in vacated <==> k in t && k !in MovedFrom(t, rows))
    ensures k in Updated(l, t, rows) <==> k in KeysWith(l, rows, Upsert) && k in t && k !in MovedFrom(t, rows)
    ensures k in Inserted(l, t, rows) <==> k in KeysWith(l, rows, Upsert) && (k !in t || k in MovedFrom(t, rows))
  {
    OldKeysApart(l, rows);
    var deleted := DeleteRows(l, t, rows);
    DeleteAt(l, t, rows, k);
    MoveAt(l, deleted, rows, k);
    VacateAt(MoveRows(l, deleted, rows), rows, k);
    hide Collapsed, InvalidBatch, RowAt, DeleteRows, MoveRows, DeleteMovedRows;
  }

  /** What the statements of one table report, read off the table they start from. */
  lemma CountsAtStart(l: Layout, t: Table, rows: seq<StagingRow>)
    requires Collapsed(l, rows) && !InvalidBatch(l, t, rows)
    ensures var e := Affected(l, t, rows);
      && e.staged == |rows| && e.deleted == |Removed(l, t, rows)| + |MovedFrom(t, rows)| && e.moved == |MovedTo(l, t, rows)|
      && e.updated == (if HasDataColumns(l) then |Updated(l, t, rows)| else 0) && e.inserted == |Inserted(l, t, rows)|
  {
    RemovedAndMoved(l, t, rows);
    UpdatedAndInserted(l, t, rows);
    hide Collapsed, InvalidBatch, KeysWith, OldKeys, MovedTo, MovedFrom, Updated, Inserted, Removed, DeleteRows, MoveRows, DeleteMovedRows,
      HasDataColumns;
  }

  // ---- The whole request ----------------------------------------------------------------------

  const NoEffects := Effects(0, 0, 0, 0, 0)

  function Plus(a: Effects, b: Effects): Effects {
    Effects(a.staged + b.staged, a.deleted + b.deleted, a.moved + b.moved, a.updated + b.updated, a.inserted + b.inserted)
  }

  /** The true sums over the tables of a request, one after another. */
  function SumEffects(tables: Tables, batches: seq<TableBatch>): Effects
    decreases |batches|
  {
    if batches == [] then NoEffects
    else if batches[0].rows == [] || batches[0].target !in tables then SumEffects(tables, batches[1..])
    else
      var b := batches[0];
      Plus(Affected(b.layout, tables[b.target], b.rows),
           SumEffects(tables[b.target := AfterStatements(b.layout, tables[b.target], b.rows)], batches[1..]))
  }

  /** A 64-bit counter that stays at its top. */
  function Capped(n: nat): Count {
    if n <= USIZE_MAX then n else USIZE_MAX
  }

  function CappedSum(c: Counters, e: Effects): Counters {
    Counters(Capped(c.staged + e.staged), Capped(c.deleted + e.deleted), Capped(c.moved + e.moved), Capped(c.updated + e.updated),
             Capped(c.inserted + e.inserted))
  }

  /** All rows of these tables. */
  ghost function RowsIn(tables: Tables, names: set<string>): nat
    requires names <= tables.Keys
  {
    if names == {} then 0
    else
      var n :| n in names;
      |tables[n]| + RowsIn(tables, names - {n})
  }

  lemma {:induction false} RowsWithout(tables: Tables, names: set<string>, n: string)
    requires names <= tables.Keys && n in names
    ensures RowsIn(tables, names) == |tables[n]| + RowsIn(tables, names - {n})
    decreases |names|
  {
    var m :| m in names && RowsIn(tables, names) == |tables[m]| + RowsIn(tables, names - {m});
    if m != n {
      RowsWithout(tables, names - {m}, n);
      RowsWithout(tables, names - {n}, m);
      assert names - {m} - {n} == names - {n} - {m};
    }
  }

  lemma {:induction false} RowsSame(a: Tables, b: Tables, names: set<string>)
    requires names <= a.Keys && names <= b.Keys && forall n | n in names :: a[n] == b[n]
    ensures RowsIn(a, names) == RowsIn(b, names)
    decreases |names|
  {
    if names != {} {
      var n :| n in names;
      RowsWithout(a, names, n);
      RowsWithout(b, names, n);
      RowsSame(a, b, names - {n});
    }
  }

  lemma RowsReplaced(tables: Tables, n: string, t: Table)
    requires n in tables
    ensures tables[n := t].Keys == tables.Keys
    ensures RowsIn(tables[n := t], tables.Keys) + |tables[n]| == RowsIn(tables, tables.Keys) + |t|
  {
    var next := tables[n := t];
    assert next.Keys == tables.Keys;
    RowsWithout(tables, tables.Keys, n);
    RowsWithout(next, tables.Keys, n);
    RowsSame(tables, next, tables.Keys - {n});
  }

  lemma CappedAdds(c: Counters, e: Effects, more: Effects)
    ensures CappedSum(AddCounters(c, e), more) == CappedSum(c, Plus(e, more))
  {
  }

  /** Over any list of tables: the counters are the true sums, each stopping at the top of its range, and rows
      are conserved over the whole database. */
  lemma {:induction false} CountersAreSums(tables: Tables, counters: Counters, batches: seq<TableBatch>)
    requires ApplyTables(tables, counters, batches).Ok?
    ensures var (after, c) := ApplyTables(tables, counters, batches).value; var sum := SumEffects(tables, batches);
      && c == CappedSum(counters, sum) && after.Keys == tables.Keys
      && RowsIn(after, tables.Keys) + sum.deleted == RowsIn(tables, tables.Keys) + sum.moved + sum.inserted
    decreases |batches|
  {
    hide AfterStatements, Affected, InvalidBatch, FirstEncodeError, AddCounters, CappedSum;
    if batches == [] {
      NothingAdded(counters);
    } else {
      var b := batches[0];
      if b.rows == [] {
        CountersAreSums(tables, counters, batches[1..]);
      } else {
        var t := AfterStatements(b.layout, tables[b.target], b.rows);
        var e := Affected(b.layout, tables[b.target], b.rows);
        CountersAreSums(tables[b.target := t], AddCounters(counters, e), batches[1..]);
        CappedAdds(counters, e, SumEffects(tables[b.target := t], batches[1..]));
        RowsReplaced(tables, b.target, t);
        RowCountsConserved(b.layout, tables[b.target], b.rows);
      }
    }
  }

  lemma NothingAdded(c: Counters)
    ensures CappedSum(c, NoEffects) == c
  {
  }

  function StagedIn(batches: seq<TableBatch>): nat {
    if batches == [] then 0 else |batches[0].rows| + StagedIn(batches[1..])
  }

  lemma {:induction false} StagedSum(tables: Tables, counters: Counters, batches: seq<TableBatch>)
    requires ApplyTables(tables, counters, batches).Ok?
    ensures SumEffects(tables, batches).staged == StagedIn(batches)
    decreases |batches|
  {
    hide AfterStatements, InvalidBatch, FirstEncodeError, AddCounters, DeletedCount, MovedCount, VacatedCount, UpdatedCount, InsertedCount;
    if batches != [] {
      var b := batches[0];
      if b.rows == [] { StagedSum(tables, counters, batches[1..]); }
      else {
        StagedSum(tables[b.target := AfterStatements(b.layout, tables[b.target], b.rows)],
                  AddCounters(counters, Affected(b.layout, tables[b.target], b.rows)), batches[1..]);
      }
    }
  }

  /** The same sums with every table as it was before the transaction. */
  function SumAtStart(tables: Tables, batches: seq<TableBatch>): Effects
    decreases |batches|
  {
    if batches == [] then NoEffects
    else if batches[0].rows == [] || batches[0].target !in tables then SumAtStart(tables, batches[1..])
    else
      var l, t, rows := batches[0].layout, tables[batches[0].target], batches[0].rows;
      Plus(Effects(|rows|, |Removed(l, t, rows)| + |MovedFrom(t, rows)|, |MovedTo(l, t, rows)|,
                   if HasDataColumns(l) then |Updated(l, t, rows)| else 0, |Inserted(l, t, rows)|),
           SumAtStart(tables, batches[1..]))
  }

  lemma {:induction false} SameStart(a: Tables, b: Tables, batches: seq<TableBatch>)
    requires a.Keys == b.Keys && forall i | 0 <= i < |batches| && batches[i].target in a :: a[batches[i].target] == b[batches[i].target]
    ensures SumAtStart(a, batches) == SumAtStart(b, batches)
    decreases |batches|
  {
    hide Removed, MovedFrom, MovedTo, Updated, Inserted, HasDataColumns, Plus;
    if batches != [] {
      assert forall i | 0 <= i < |batches[1..]| :: batches[1..][i] == batches[i + 1];
      assert a.Keys == b.Keys && (batches[0].target in a <==> batches[0].target in b);
      SameStart(a, b, batches[1..]);
    }
  }

  /** Each table of the request once, with a collapsed batch. */
  ghost predicate Separate(batches: seq<TableBatch>) {
    && (forall i | 0 <= i < |batches| :: Collapsed(batches[i].layout, batches[i].rows))
    && (forall i, j | 0 <= i < j < |batches| :: batches[i].target != batches[j].target)
  }

  lemma {:induction false} SumsAtStart(tables: Tables, counters: Counters, batches: seq<TableBatch>)
    requires ApplyTables(tables, counters, batches).Ok? && Separate(batches)
    ensures SumEffects(tables, batches) == SumAtStart(tables, batches)
    decreases |batches|
  {
    hide Collapsed, AfterStatements, Affected, InvalidBatch, FirstEncodeError, AddCounters, Removed, MovedFrom, MovedTo, Updated, Inserted,
      HasDataColumns, Plus;
    if batches != [] {
      var b, rest := batches[0], batches[1..];
      assert forall i | 0 <= i < |rest| :: rest[i] == batches[i + 1];
      if b.rows == [] {
        SumsAtStart(tables, counters, rest);
      } else {
        var next := tables[b.target := AfterStatements(b.layout, tables[b.target], b.rows)];
        CountsAtStart(b.layout, tables[b.target], b.rows);
        SumsAtStart(next, AddCounters(counters, Affected(b.layout, tables[b.target], b.rows)), rest);
        SameStart(next, tables, rest);
      }
    }
  }

  lemma {:induction false} BuiltIsSeparate(registry: Registry, keys: seq<RelationKey>, rows: seq<TableChange>)
    requires RegistryOk(registry) && Ascending(keys) && BuildTables(registry, keys, rows).Ok?
    ensures Separate(BuildTables(registry, keys, rows).value)
    ensures forall name | Targets(BuildTables(registry, keys, rows).value, name) :: BoundTo(registry, keys, name)
    decreases |keys|
  {
    hide NormalizeTableChanges, ForKey, LayoutOf, Separate, Targets, BoundTo;
    if keys == [] {
      NothingSeparate(registry);
    } else {
      var k := keys[0];
      var staged, rest := NormalizeTableChanges(registry[k].schema, ForKey(rows, k)).value, BuildTables(registry, keys[1..], rows).value;
      AcceptedIsCollapsed(registry[k].schema, ForKey(rows, k));
      BuiltIsSeparate(registry, keys[1..], rows);
      KeyApart(registry, keys);
      OneMoreSeparate(registry, keys, staged, rest);
    }
  }

  lemma NothingSeparate(registry: Registry)
    ensures Separate([]) && forall name :: !Targets([], name)
  {
  }

  lemma OneMoreSeparate(registry: Registry, keys: seq<RelationKey>, staged: seq<StagingRow>, rest: seq<TableBatch>)
    requires keys != [] && keys[0] in registry && !BoundTo(registry, keys[1..], registry[keys[0]].target)
    requires Separate(rest) && forall name | Targets(rest, name) :: BoundTo(registry, keys[1..], name)
    requires Collapsed(LayoutOf(registry[keys[0]].schema), staged)
    ensures var all := (if staged == [] then [] else [TableBatchFor(registry[keys[0]], staged)]) + rest;
      Separate(all) && forall name | Targets(all, name) :: BoundTo(registry, keys, name)
  {
    hide Collapsed, LayoutOf, Separate, Targets, BoundTo;
    var b := TableBatchFor(registry[keys[0]], staged);
    forall name ensures BoundTo(registry, keys, name) <==> registry[keys[0]].target == name || BoundTo(registry, keys[1..], name) {
      BoundCons(registry, keys, name);
    }
    if staged == [] {
      assert [] + rest == rest;
    } else {
      FirstSeparate(b, rest);
    }
  }

  lemma FirstSeparate(b: TableBatch, rest: seq<TableBatch>)
    requires Separate(rest) && !Targets(rest, b.target) && Collapsed(b.layout, b.rows)
    ensures Separate([b] + rest) && forall name :: Targets([b] + rest, name) <==> b.target == name || Targets(rest, name)
  {
    hide Collapsed;
    var all := [b] + rest;
    assert all[0] == b && all[1..] == rest && forall i | 1 <= i < |all| :: all[i] == rest[i - 1];
    forall name ensures Targets(all, name) <==> b.target == name || Targets(rest, name) { TargetsCons(all, name); }
    forall i | 1 <= i < |all| ensures all[i].target != b.target { assert Targets(rest, all[i].target); }
  }

  /** What a committed transaction reports: every staged row; the removed and the moved-away rows as deleted;
      the rows moved, updated and inserted, each read off the tables as they were before. Each counter stops at
      the top of its range; below it, rows after plus deleted are rows before plus moved plus inserted. */
  lemma ReportedCounts(s: TargetState, request: ApplyRequest)
    requires ExecuteApply(s, request).Ok? && Separate(request.tables)
    ensures var (after, outcome) := ExecuteApply(s, request).value;
      var sum, c := SumAtStart(s.tables, request.tables), outcome.counters;
      && c.staged == Capped(StagedIn(request.tables)) && c.deleted == Capped(sum.deleted) && c.moved == Capped(sum.moved)
      && c.updated == Capped(sum.updated) && c.inserted == Capped(sum.inserted)
      && after.tables.Keys == s.tables.Keys
      && RowsIn(after.tables, s.tables.Keys) + sum.deleted == RowsIn(s.tables, s.tables.Keys) + sum.moved + sum.inserted
  {
    hide ApplyTables, RepeatedStagingName, LockFence, AdvanceCheckpoint, SumEffects, SumAtStart, Separate;
    CountersAreSums(s.tables, NoCounts, request.tables);
    StagedSum(s.tables, NoCounts, request.tables);
    SumsAtStart(s.tables, NoCounts, request.tables);
  }

  /** Every request the adapter builds is of that kind. */
  lemma BuiltRequestCounts(fence: Fence, slotName: Bytes, registry: Registry, scope: DdlScope, batch: seq<SourceTransaction>)
    requires batch != [] && RegistryOk(registry) && BuildRequest(fence, slotName, registry, scope, batch).Ok?
    ensures Separate(BuildRequest(fence, slotName, registry, scope, batch).value.tables)
  {
    hide BuildTables, GroupKeys, AllRows, Separate, Ascending, RegistryOk;
    RequestIs(fence, slotName, registry, scope, batch);
    GroupKeysAscending(AllRows(batch));
    BuiltIsSeparate(registry, GroupKeys(AllRows(batch)), AllRows(batch));
  }

  // ---- When a request succeeds ----------------------------------------------------------------

  /** Staging names of a request: none twice. */
  ghost predicate NamesDiffer(batches: seq<TableBatch>) {
    forall i, j | 0 <= i < j < |batches| :: batches[i].stagingName != batches[j].stagingName
  }

  lemma {:induction false} RepeatedExactly(seen: set<string>, batches: seq<TableBatch>)
    ensures RepeatedStagingName(seen, batches).None? <==> NamesDiffer(batches) && forall i | 0 <= i < |batches| :: batches[i].stagingName !in seen
    decreases |batches|
  {
    if batches != [] {
      var rest := batches[1..];
      RepeatedExactly(seen + {batches[0].stagingName}, rest);
      assert forall i | 0 <= i < |rest| :: rest[i] == batches[i + 1];
      assert forall i | 1 <= i < |batches| :: batches[i] == rest[i - 1];
    }
  }

  lemma {:induction false} EncodesExactly(l: Layout, rows: seq<StagingRow>)
    ensures FirstEncodeError(l, rows).None? <==> forall i | 0 <= i < |rows| :: EncodeStagingRow(l, rows[i]).Ok?
  {
    hide EncodeStagingRow;
    if rows != [] {
      EncodesExactly(l, rows[1..]);
      assert forall i | 1 <= i < |rows| :: rows[i] == rows[1..][i - 1];
    }
  }

  /** One table's rows can be merged: it exists, every row travels, and validation passes. */
  ghost predicate Mergeable(tables: Tables, b: TableBatch) {
    b.rows != [] ==>
      b.target in tables && (forall i | 0 <= i < |b.rows| :: EncodeStagingRow(b.layout, b.rows[i]).Ok?) && !InvalidBatch(b.layout, tables[b.target], b.rows)
  }

  lemma {:induction false} TablesApplyExactly(tables: Tables, counters: Counters, batches: seq<TableBatch>)
    requires forall i, j | 0 <= i < j < |batches| :: batches[i].target != batches[j].target
    ensures ApplyTables(tables, counters, batches).Ok? <==> forall i | 0 <= i < |batches| :: Mergeable(tables, batches[i])
    decreases |batches|
  {
    hide AfterStatements, Affected, InvalidBatch, FirstEncodeError, AddCounters, EncodeStagingRow;
    if batches != [] {
      var b, rest := batches[0], batches[1..];
      assert forall i | 0 <= i < |rest| :: rest[i] == batches[i + 1];
      assert forall i | 1 <= i < |batches| :: batches[i] == rest[i - 1];
      EncodesExactly(b.layout, b.rows);
      assert ApplyTable(tables, counters, b).Ok? <==> Mergeable(tables, b);
      if ApplyTable(tables, counters, b).Ok? {
        var (next, more) := ApplyTable(tables, counters, b).value;
        TablesApplyExactly(next, more, rest);
        forall i | 0 <= i < |rest| ensures Mergeable(next, rest[i]) <==> Mergeable(tables, rest[i]) { }
      }
    }
  }

  /** A request with each table once commits if and only if its staging names differ, its fence is the present
      one, every table can be merged as it stands, and its position may be advanced to. */
  lemma CommitsExactly(s: TargetState, request: ApplyRequest)
    requires forall i, j | 0 <= i < j < |request.tables| :: request.tables[i].target != request.tables[j].target
    ensures ExecuteApply(s, request).Ok? <==>
      && NamesDiffer(request.tables) && LockFence(s.meta, request.fence).None?
      && (forall i | 0 <= i < |request.tables| :: Mergeable(s.tables, request.tables[i]))
      && AdvanceCheckpoint(s.meta, request.fence, request.checkpoint).Ok?
  {
    hide ApplyTables, RepeatedStagingName, LockFence, AdvanceCheckpoint, Mergeable, NamesDiffer;
    RepeatedExactly({}, request.tables);
    TablesApplyExactly(s.tables, NoCounts, request.tables);
  }
}
