/** What the validation query refuses, and what becomes of each row of a batch it passes. */
module StagingValidation {
  import opened Core
  import opened PrimaryKey
  import opened RowChanges
  import opened Normalize
  import opened Staging

  // ---- What is refused ------------------------------------------------------------------------

  /** Applying this row would lose it: a move whose row is neither here nor there, or in both places, or an
      insert that does not carry every cell. */
  predicate LosesRow(l: Layout, t: Table, r: StagingRow) {
    || (r.operation == Move && (RowKey(l, r) in t <==> OldKeyOf(r) in t))
    || (r.operation == Upsert && RowKey(l, r) !in t && exists c | 0 <= c < |r.cells| :: r.cells[c].UnchangedToast?)
  }

  /** A collapsed batch is refused if and only if one of its rows would be lost. */
  lemma RefusedExactly(l: Layout, t: Table, rows: seq<StagingRow>)
    requires Collapsed(l, rows)
    ensures InvalidBatch(l, t, rows) <==> exists r | r in rows :: LosesRow(l, t, r)
  {
    CollapsedValidity(l, t, rows);
    forall r | r in rows ensures InvalidRow(l, t, r) <==> LosesRow(l, t, r) {
      assert WellShaped(l, r);
      ShapedIsInvalid(l, t, r);
    }
    hide Collapsed, InvalidBatch, InvalidRow, LosesRow;
  }

  lemma ShapedIsInvalid(l: Layout, t: Table, r: StagingRow)
    requires WellShaped(l, r)
    ensures InvalidRow(l, t, r) <==> LosesRow(l, t, r)
  {
    hide RowKey, OldKeyOf, NoBinary;
  }

  /** Whatever the rows are: a batch that passes has whole keys, an old key on moves and on nothing else, and
      no key and no old key twice. */
  lemma PassedIsWellFormed(l: Layout, t: Table, rows: seq<StagingRow>)
    requires !InvalidBatch(l, t, rows)
    ensures forall r | r in rows ::
      && (forall i | 0 <= i < |l.ordinalIndexes| :: l.ordinalIndexes[i] < |r.cells| && r.cells[l.ordinalIndexes[i]].Text?)
      && (r.operation == Move <==> r.oldKey.Some?)
      && (r.operation == Move ==>
            (forall i | 0 <= i < |r.oldKey.value| :: r.oldKey.value[i].Text?) && RowKey(l, r) != OldKeyOf(r))
      && !LosesRow(l, t, r)
    ensures forall i, j | 0 <= i < j < |rows| :: RowKey(l, rows[i]) != RowKey(l, rows[j])
    ensures forall i, j | 0 <= i < j < |rows| && rows[i].operation == Move && rows[j].operation == Move ::
      OldKeyOf(rows[i]) != OldKeyOf(rows[j])
  {
    forall r | r in rows
      ensures forall i | 0 <= i < |l.ordinalIndexes| :: l.ordinalIndexes[i] < |r.cells| && r.cells[l.ordinalIndexes[i]].Text?
      ensures r.operation == Move <==> r.oldKey.Some?
      ensures r.operation == Move ==> (forall i | 0 <= i < |r.oldKey.value| :: r.oldKey.value[i].Text?) && RowKey(l, r) != OldKeyOf(r)
      ensures !LosesRow(l, t, r)
    {
      assert !InvalidRow(l, t, r);
      hide RowKey, OldKeyOf;
    }
    hide InvalidRow, RowKey, OldKeyOf;
  }

  // ---- What becomes of the rows that pass -----------------------------------------------------

  /** `row` has the new value of every cell that carries one, and `before`'s of every other. */
  ghost predicate Merged(row: Tuple, before: Option<Tuple>, cells: Tuple) {
    && |row| == |cells|
    && (forall c | 0 <= c < |row| ::
          if cells[c].UnchangedToast? then before.Some? && c < |before.value| && row[c] == before.value[c] else row[c] == cells[c])
  }

  lemma MergedCase(before: Tuple, cells: Tuple)
    requires |before| == |cells|
    ensures Merged(CaseWhen(before, cells), Some(before), cells)
  {
  }

  lemma MergedWhole(cells: Tuple, before: Option<Tuple>)
    requires Complete(cells)
    ensures Merged(StagedData(cells), before, cells)
  {
  }

  lemma Widths(l: Layout, t: Table, rows: seq<StagingRow>, r: StagingRow)
    requires Collapsed(l, rows) && TableOk(l, t) && r in rows
    ensures forall k | k in t :: |t[k]| == |r.cells|
  {
    assert WellShaped(l, r);
    hide Collapsed, KeyAt;
  }

  lemma PassedRow(l: Layout, t: Table, rows: seq<StagingRow>, r: StagingRow)
    requires Collapsed(l, rows) && !InvalidBatch(l, t, rows) && r in rows
    ensures !LosesRow(l, t, r)
  {
    hide Collapsed, InvalidBatch, LosesRow;
    RefusedExactly(l, t, rows);
  }

  /** An upserted row is stored with every cell it carries, and keeps the stored value of every unchanged one:
      no unchanged cell is ever stored as NULL. */
  lemma UpsertStored(l: Layout, t: Table, rows: seq<StagingRow>, r: StagingRow)
    requires Collapsed(l, rows) && TableOk(l, t) && !InvalidBatch(l, t, rows) && r in rows && r.operation == Upsert
    ensures var u, k := StagedApply(l, t, rows), RowKey(l, r); k in u && Merged(u[k], Lookup(t, k), r.cells)
  {
    var k := RowKey(l, r);
    StagedApplyAt(l, t, rows, k);
    RowAtIs(l, rows, r);
    Widths(l, t, rows, r);
    PassedRow(l, t, rows, r);
    hide StagedApply, InvalidBatch, RowAt, KeysWith, StagedData, CaseWhen;
    if k in OldKeys(rows) {
      var m :| m in rows && m.operation == Move && OldKeyOf(m) == k;
      MergedWhole(r.cells, Lookup(t, k));
    } else if k in t {
      MergedCase(t[k], r.cells);
    } else {
      MergedWhole(r.cells, Lookup(t, k));
    }
  }

  /** A move takes its row along, merged with what it carries, or finds it moved already; the old key is free
      unless another row of the batch takes it. */
  lemma MoveStored(l: Layout, t: Table, rows: seq<StagingRow>, r: StagingRow)
    requires Collapsed(l, rows) && TableOk(l, t) && !InvalidBatch(l, t, rows) && r in rows && r.operation == Move
    ensures var u, k, o := StagedApply(l, t, rows), RowKey(l, r), OldKeyOf(r);
      && (k in t <==> o !in t) && k in u
      && (if o in t then Merged(u[k], Some(t[o]), r.cells) else u[k] == t[k])
      && (o in u <==> exists w | w in rows :: w.operation == Upsert && RowKey(l, w) == o)
  {
    var k, o := RowKey(l, r), OldKeyOf(r);
    StagedApplyAt(l, t, rows, k);
    StagedApplyAt(l, t, rows, o);
    RowAtIs(l, rows, r);
    OldKeysApart(l, rows);
    OldKeyListed(l, rows, r);
    Widths(l, t, rows, r);
    PassedRow(l, t, rows, r);
    UpsertKeys(l, rows, o);
    hide StagedApply, InvalidBatch, Collapsed, RowAt, KeysWith, StagedData, CaseWhen, OldKeys, OldKeyOf, RowKey;
    if o in t { MergedCase(t[o], r.cells); }
  }

  lemma UpsertKeys(l: Layout, rows: seq<StagingRow>, k: Key)
    ensures k in KeysWith(l, rows, Upsert) <==> exists w | w in rows :: w.operation == Upsert && RowKey(l, w) == k
  {
  }

  /** A removed row is gone. */
  lemma RemoveStored(l: Layout, t: Table, rows: seq<StagingRow>, r: StagingRow)
    requires Collapsed(l, rows) && r in rows && r.operation == Remove
    ensures RowKey(l, r) !in StagedApply(l, t, rows)
  {
    StagedApplyAt(l, t, rows, RowKey(l, r));
    RowAtIs(l, rows, r);
    OldKeysApart(l, rows);
    hide StagedApply, Collapsed, RowAt, KeysWith, StagedData, CaseWhen;
  }

  /** A row no staged row names, by key or old key, stays as it is. */
  lemma OthersStored(l: Layout, t: Table, rows: seq<StagingRow>, k: Key)
    requires Collapsed(l, rows) && forall r | r in rows :: RowKey(l, r) != k && (r.operation == Move ==> OldKeyOf(r) != k)
    ensures Lookup(StagedApply(l, t, rows), k) == Lookup(t, k)
  {
    StagedApplyAt(l, t, rows, k);
    hide StagedApply, Collapsed, RowAt, StagedData, CaseWhen;
  }
}
