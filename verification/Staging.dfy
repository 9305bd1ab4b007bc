/** Set semantics of the six statements that apply one table's staging rows, and what they amount to
    on a collapsed batch. */
module Staging {
  import opened Core
  import opened PrimaryKey
  import opened RowChanges
  import opened Normalize

  function RowKey(l: Layout, r: StagingRow): Key {
    KeyAt(r.cells, l.ordinalIndexes)
  }

  /** The old-key columns as a key; meaningful for moves. */
  function OldKeyOf(r: StagingRow): Key {
    if r.oldKey.None? then [] else CellValues(r.oldKey.value)
  }

  function CellValues(cells: Tuple): (r: Key)
    ensures |r| == |cells|
    ensures forall i | 0 <= i < |r| :: r[i] == if cells[i].Text? then cells[i].value else []
  {
    seq(|cells|, i requires 0 <= i < |cells| => if cells[i].Text? then cells[i].value else [])
  }

  function KeysWith(l: Layout, rows: seq<StagingRow>, op: StageOperation): set<Key> {
    set r | r in rows && r.operation == op :: RowKey(l, r)
  }

  function OldKeys(rows: seq<StagingRow>): set<Key> {
    set r | r in rows && r.operation == Move :: OldKeyOf(r)
  }

  /** A staged row joined on its key. */
  function RowAt(l: Layout, rows: seq<StagingRow>, op: StageOperation, k: Key): (r: StagingRow)
    requires k in KeysWith(l, rows, op)
    ensures r in rows && r.operation == op && RowKey(l, r) == k
  {
    if rows[0].operation == op && RowKey(l, rows[0]) == k then rows[0]
    else
      assert exists r :: r in rows[1..] && r.operation == op && RowKey(l, r) == k by {
        var r :| r in rows && r.operation == op && RowKey(l, r) == k;
        assert r in rows[1..];
      }
      RowAt(l, rows[1..], op, k)
  }

  // ---- The statements -------------------------------------------------------------------------

  predicate OldKeyNull(r: StagingRow) {
    r.oldKey.None? || exists i | 0 <= i < |r.oldKey.value| :: !r.oldKey.value[i].Text?
  }

  predicate OldKeyNotNull(r: StagingRow) {
    r.oldKey.Some? && exists i | 0 <= i < |r.oldKey.value| :: r.oldKey.value[i].Text?
  }

  /** The first `EXISTS` of the validation query, for one staged row. */
  predicate InvalidRow(l: Layout, t: Table, r: StagingRow) {
    || !HasKeyAt(r.cells, l.ordinalIndexes)
    || (r.operation != Move && (r.oldKey.Some? || OldKeyNotNull(r)))
    || (r.operation == Move && (r.oldKey.None? || OldKeyNull(r) || RowKey(l, r) == OldKeyOf(r)))
    || (r.operation == Move && (RowKey(l, r) !in t) == (OldKeyOf(r) !in t))
    || (r.operation == Upsert && RowKey(l, r) !in t && !Complete(r.cells))
  }

  /** The validation query: an invalid row, a repeated key, or a repeated old key. */
  predicate InvalidBatch(l: Layout, t: Table, rows: seq<StagingRow>) {
    || (exists r | r in rows :: InvalidRow(l, t, r))
    || (exists i, j | 0 <= i < j < |rows| :: RowKey(l, rows[i]) == RowKey(l, rows[j]))
    || (exists i, j | 0 <= i < j < |rows| ::
          rows[i].operation == Move && rows[j].operation == Move && OldKeyOf(rows[i]) == OldKeyOf(rows[j]))
  }

  function DeleteRows(l: Layout, t: Table, rows: seq<StagingRow>): Table {
    t - KeysWith(l, rows, Remove)
  }

  /** A presence flag that is false keeps the stored cell. */
  function CaseWhen(row: Tuple, cells: Tuple): Tuple {
    if |row| == |cells| then MergeCells(row, cells) else row
  }

  function MoveRows(l: Layout, t: Table, rows: seq<StagingRow>): Table {
    t + map k | k in KeysWith(l, rows, Move) && k !in t && OldKeyOf(RowAt(l, rows, Move, k)) in t
          :: CaseWhen(t[OldKeyOf(RowAt(l, rows, Move, k))], RowAt(l, rows, Move, k).cells)
  }

  function DeleteMovedRows(t: Table, rows: seq<StagingRow>): Table {
    t - OldKeys(rows)
  }

  function UpdateRows(l: Layout, t: Table, rows: seq<StagingRow>): Table {
    map k | k in t :: if k in KeysWith(l, rows, Upsert) then CaseWhen(t[k], RowAt(l, rows, Upsert, k).cells) else t[k]
  }

  /** The data columns as copied: an unchanged cell travels as NULL. */
  function StagedData(cells: Tuple): (r: Tuple)
    ensures |r| == |cells|
    ensures Complete(cells) ==> r == cells
  {
    seq(|cells|, i requires 0 <= i < |cells| => if cells[i].UnchangedToast? then Null else cells[i])
  }

  function InsertRows(l: Layout, t: Table, rows: seq<StagingRow>): Table {
    t + map k | k in KeysWith(l, rows, Upsert) && k !in t :: StagedData(RowAt(l, rows, Upsert, k).cells)
  }

  /** Delete, move, delete-moved, update, insert. */
  function StagedApply(l: Layout, t: Table, rows: seq<StagingRow>): Table {
    var deleted := DeleteRows(l, t, rows);
    var moved := MoveRows(l, deleted, rows);
    var vacated := DeleteMovedRows(moved, rows);
    InsertRows(l, UpdateRows(l, vacated, rows), rows)
  }

  // ---- Collapsed batches ----------------------------------------------------------------------

  /** At most one staged row per key and per lineage, and no move leans on another row's work. */
  ghost predicate Collapsed(l: Layout, rows: seq<StagingRow>) {
    && (forall r | r in rows :: WellShaped(l, r))
    && (forall i, j | 0 <= i < j < |rows| :: RowKey(l, rows[i]) != RowKey(l, rows[j]))
    && (forall i, j | 0 <= i < j < |rows| && rows[i].operation == Move && rows[j].operation == Move ::
          OldKeyOf(rows[i]) != OldKeyOf(rows[j]))
    && (forall r, m | r in rows && m in rows && m.operation == Move && r.operation != Upsert :: RowKey(l, r) != OldKeyOf(m))
    && (forall r, m | r in rows && m in rows && m.operation == Move && r.operation == Upsert && RowKey(l, r) == OldKeyOf(m) ::
          Complete(r.cells))
  }

  ghost predicate WellShaped(l: Layout, r: StagingRow) {
    && |r.cells| == l.width && NoBinary(r.cells) && HasKeyAt(r.cells, l.ordinalIndexes)
    && (r.operation == Move <==> r.oldKey.Some?)
    && (r.operation == Move ==> !OldKeyNull(r) && |r.oldKey.value| == |l.ordinalIndexes| && OldKeyOf(r) != RowKey(l, r))
  }

  lemma SameKeySameRow(l: Layout, rows: seq<StagingRow>, a: StagingRow, b: StagingRow)
    requires Collapsed(l, rows) && a in rows && b in rows && RowKey(l, a) == RowKey(l, b)
    ensures a == b
  {
    hide WellShaped, RowKey, OldKeyOf;
    var i :| 0 <= i < |rows| && rows[i] == a;
    var j :| 0 <= j < |rows| && rows[j] == b;
  }

  lemma RowAtIs(l: Layout, rows: seq<StagingRow>, r: StagingRow)
    requires Collapsed(l, rows) && r in rows
    ensures RowKey(l, r) in KeysWith(l, rows, r.operation) && RowAt(l, rows, r.operation, RowKey(l, r)) == r
    ensures forall op :: RowKey(l, r) in KeysWith(l, rows, op) ==> op == r.operation
  {
    hide Collapsed, RowKey;
    SameKeySameRow(l, rows, RowAt(l, rows, r.operation, RowKey(l, r)), r);
    forall op | RowKey(l, r) in KeysWith(l, rows, op) ensures op == r.operation {
      SameKeySameRow(l, rows, RowAt(l, rows, op, RowKey(l, r)), r);
    }
  }

  /** What a collapsed batch makes of one key, in one look at the table it starts from. */
  function StagedAt(l: Layout, t: Table, rows: seq<StagingRow>, k: Key): Option<Tuple> {
    if k in KeysWith(l, rows, Upsert) then
      var r := RowAt(l, rows, Upsert, k);
      if k in t && k !in OldKeys(rows) then Some(CaseWhen(t[k], r.cells)) else Some(StagedData(r.cells))
    else if k in KeysWith(l, rows, Move) then
      var r := RowAt(l, rows, Move, k);
      if k in t then Some(t[k]) else if OldKeyOf(r) in t then Some(CaseWhen(t[OldKeyOf(r)], r.cells)) else None
    else if k in KeysWith(l, rows, Remove) || k in OldKeys(rows) then None
    else if k in t then Some(t[k]) else None
  }

  function Lookup(t: Table, k: Key): Option<Tuple> {
    if k in t then Some(t[k]) else None
  }

  lemma OldKeysApart(l: Layout, rows: seq<StagingRow>)
    requires Collapsed(l, rows)
    ensures OldKeys(rows) !! KeysWith(l, rows, Remove)
    ensures OldKeys(rows) !! KeysWith(l, rows, Move)
    ensures KeysWith(l, rows, Upsert) !! KeysWith(l, rows, Move)
    ensures KeysWith(l, rows, Upsert) !! KeysWith(l, rows, Remove)
    ensures KeysWith(l, rows, Move) !! KeysWith(l, rows, Remove)
  {
    forall k, a, b | a != b && k in KeysWith(l, rows, a) ensures k !in KeysWith(l, rows, b) {
      RowAtIs(l, rows, RowAt(l, rows, a, k));
    }
  }

  // What each statement leaves at one key.

  lemma DeleteAt(l: Layout, t: Table, rows: seq<StagingRow>, k: Key)
    ensures Lookup(DeleteRows(l, t, rows), k) == if k in KeysWith(l, rows, Remove) then None else Lookup(t, k)
  {
    hide KeysWith;
  }

  lemma MoveAt(l: Layout, t: Table, rows: seq<StagingRow>, k: Key)
    ensures Lookup(MoveRows(l, t, rows), k) ==
      if k in KeysWith(l, rows, Move) && k !in t && OldKeyOf(RowAt(l, rows, Move, k)) in t
      then Some(CaseWhen(t[OldKeyOf(RowAt(l, rows, Move, k))], RowAt(l, rows, Move, k).cells)) else Lookup(t, k)
  {
    hide KeysWith, RowAt, CaseWhen, OldKeyOf;
  }

  lemma VacateAt(t: Table, rows: seq<StagingRow>, k: Key)
    ensures Lookup(DeleteMovedRows(t, rows), k) == if k in OldKeys(rows) then None else Lookup(t, k)
  {
    hide OldKeys;
  }

  lemma UpdateAt(l: Layout, t: Table, rows: seq<StagingRow>, k: Key)
    ensures Lookup(UpdateRows(l, t, rows), k) ==
      if k in KeysWith(l, rows, Upsert) && k in t then Some(CaseWhen(t[k], RowAt(l, rows, Upsert, k).cells)) else Lookup(t, k)
  {
    hide KeysWith, RowAt, CaseWhen;
  }

  lemma InsertAt(l: Layout, t: Table, rows: seq<StagingRow>, k: Key)
    ensures Lookup(InsertRows(l, t, rows), k) ==
      if k in KeysWith(l, rows, Upsert) && k !in t then Some(StagedData(RowAt(l, rows, Upsert, k).cells)) else Lookup(t, k)
  {
    hide KeysWith, RowAt, StagedData;
  }

  /** Statement by statement or at one look: the same table. */
  lemma StagedApplyAt(l: Layout, t: Table, rows: seq<StagingRow>, k: Key)
    requires Collapsed(l, rows)
    ensures Lookup(StagedApply(l, t, rows), k) == StagedAt(l, t, rows, k)
  {
    OldKeysApart(l, rows);
    hide Collapsed, KeysWith, OldKeys, CaseWhen, StagedData, OldKeyOf, RowAt,
      DeleteRows, MoveRows, DeleteMovedRows, UpdateRows, InsertRows;
    var deleted := DeleteRows(l, t, rows);
    var moved := MoveRows(l, deleted, rows);
    var vacated := DeleteMovedRows(moved, rows);
    DeleteAt(l, t, rows, k);
    MoveAt(l, deleted, rows, k);
    VacateAt(moved, rows, k);
    UpdateAt(l, vacated, rows, k);
    InsertAt(l, UpdateRows(l, vacated, rows), rows, k);
    if k in KeysWith(l, rows, Move) {
      var r := RowAt(l, rows, Move, k);
      assert OldKeyOf(r) in OldKeys(rows) by { OldKeyListed(l, rows, r); }
      DeleteAt(l, t, rows, OldKeyOf(r));
    }
  }

  lemma OldKeyListed(l: Layout, rows: seq<StagingRow>, r: StagingRow)
    requires r in rows && r.operation == Move
    ensures OldKeyOf(r) in OldKeys(rows)
  {
  }

  // ---- Row order is irrelevant ----------------------------------------------------------------

  lemma SameRowsSameSets(l: Layout, a: seq<StagingRow>, b: seq<StagingRow>)
    requires multiset(a) == multiset(b)
    ensures forall r :: r in a <==> r in b
    ensures forall op :: KeysWith(l, a, op) == KeysWith(l, b, op)
    ensures OldKeys(a) == OldKeys(b)
  {
    forall r ensures r in a <==> r in b {
      assert r in a <==> r in multiset(a);
      assert r in b <==> r in multiset(b);
    }
  }

  lemma SameOldKeySameRow(l: Layout, rows: seq<StagingRow>, a: StagingRow, b: StagingRow)
    requires Collapsed(l, rows) && a in rows && b in rows && a.operation == b.operation == Move && OldKeyOf(a) == OldKeyOf(b)
    ensures a == b
  {
    hide WellShaped, RowKey, OldKeyOf;
    var i :| 0 <= i < |rows| && rows[i] == a;
    var j :| 0 <= j < |rows| && rows[j] == b;
  }

  lemma CollapsedPermutes(l: Layout, a: seq<StagingRow>, b: seq<StagingRow>)
    requires Collapsed(l, a) && multiset(a) == multiset(b)
    ensures Collapsed(l, b)
  {
    hide WellShaped, RowKey, OldKeyOf;
    assert Distinct(a);
    DistinctPermutes(b, a);
    forall i, j | 0 <= i < j < |b|
      ensures RowKey(l, b[i]) != RowKey(l, b[j])
      ensures b[i].operation == Move && b[j].operation == Move ==> OldKeyOf(b[i]) != OldKeyOf(b[j])
    {
      var x, y := b[i], b[j];
      assert x in a && y in a;
      if RowKey(l, x) == RowKey(l, y) { SameKeySameRow(l, a, x, y); }
      if x.operation == Move && y.operation == Move && OldKeyOf(x) == OldKeyOf(y) { SameOldKeySameRow(l, a, x, y); }
    }
    forall r | r in b ensures r in a {}
  }

  /** However the rows of a collapsed batch are ordered, validation and the statements agree. */
  lemma RowOrderIrrelevant(l: Layout, t: Table, a: seq<StagingRow>, b: seq<StagingRow>)
    requires Collapsed(l, a) && multiset(a) == multiset(b)
    ensures Collapsed(l, b)
    ensures InvalidBatch(l, t, a) <==> InvalidBatch(l, t, b)
    ensures StagedApply(l, t, a) == StagedApply(l, t, b)
  {
    hide Collapsed, InvalidBatch, StagedApply;
    CollapsedPermutes(l, a, b);
    CollapsedValidity(l, t, a);
    CollapsedValidity(l, t, b);
    SameRowsSameSets(l, a, b);
    forall k ensures Lookup(StagedApply(l, t, a), k) == Lookup(StagedApply(l, t, b), k) {
      StagedApplyAt(l, t, a, k);
      StagedApplyAt(l, t, b, k);
      SameStagedAt(l, t, a, b, k);
    }
    SameLookups(StagedApply(l, t, a), StagedApply(l, t, b));
  }

  /** On a collapsed batch only the row-wise part of the validation query can fail. */
  lemma CollapsedValidity(l: Layout, t: Table, rows: seq<StagingRow>)
    requires Collapsed(l, rows)
    ensures InvalidBatch(l, t, rows) <==> exists r :: r in rows && InvalidRow(l, t, r)
  {
    hide RowKey, OldKeyOf, WellShaped, InvalidRow;
  }

  lemma SameStagedAt(l: Layout, t: Table, a: seq<StagingRow>, b: seq<StagingRow>, k: Key)
    requires Collapsed(l, b) && (forall r :: r in a <==> r in b)
    requires (forall op :: KeysWith(l, a, op) == KeysWith(l, b, op)) && OldKeys(a) == OldKeys(b)
    ensures StagedAt(l, t, a, k) == StagedAt(l, t, b, k)
  {
    hide Collapsed, KeysWith, OldKeys, CaseWhen, StagedData, OldKeyOf;
    SameRowAt(l, a, b, k);
  }

  lemma SameRowAt(l: Layout, a: seq<StagingRow>, b: seq<StagingRow>, k: Key)
    requires Collapsed(l, b) && (forall r :: r in a <==> r in b)
    requires forall op :: KeysWith(l, a, op) == KeysWith(l, b, op)
    ensures forall op | k in KeysWith(l, a, op) :: RowAt(l, a, op, k) == RowAt(l, b, op, k)
  {
    hide Collapsed, KeysWith;
    forall op | k in KeysWith(l, a, op) ensures RowAt(l, a, op, k) == RowAt(l, b, op, k) {
      RowAtIs(l, b, RowAt(l, a, op, k));
    }
  }

  lemma SameLookups(a: Table, b: Table)
    requires forall k :: Lookup(a, k) == Lookup(b, k)
    ensures a == b
  {
    forall k ensures k in a <==> k in b { assert Lookup(a, k) == Lookup(b, k); }
    forall k | k in a ensures a[k] == b[k] { assert Lookup(a, k) == Lookup(b, k); }
  }

  // ---- Applying twice -------------------------------------------------------------------------

  lemma MergeTwice(row: Tuple, cells: Tuple)
    ensures CaseWhen(CaseWhen(row, cells), cells) == CaseWhen(row, cells)
    ensures |StagedData(cells)| == |cells| && (Complete(cells) ==> CaseWhen(StagedData(cells), cells) == StagedData(cells))
  {
  }

  /** Replaying a batch that was already applied is refused by validation or changes nothing. */
  lemma ReplayIsHarmless(l: Layout, t: Table, rows: seq<StagingRow>)
    requires Collapsed(l, rows) && !InvalidBatch(l, t, rows)
    ensures var applied := StagedApply(l, t, rows);
      InvalidBatch(l, applied, rows) || StagedApply(l, applied, rows) == applied
  {
    var applied := StagedApply(l, t, rows);
    if !InvalidBatch(l, applied, rows) {
      forall k ensures Lookup(StagedApply(l, applied, rows), k) == Lookup(applied, k) {
        ReplayAt(l, t, rows, k);
      }
      SameLookups(StagedApply(l, applied, rows), applied);
    }
  }

  lemma ReplayAt(l: Layout, t: Table, rows: seq<StagingRow>, k: Key)
    requires Collapsed(l, rows) && !InvalidBatch(l, t, rows) && !InvalidBatch(l, StagedApply(l, t, rows), rows)
    ensures var applied := StagedApply(l, t, rows); StagedAt(l, applied, rows, k) == Lookup(applied, k)
    ensures var applied := StagedApply(l, t, rows); Lookup(StagedApply(l, applied, rows), k) == Lookup(applied, k)
  {
    var applied := StagedApply(l, t, rows);
    StagedApplyAt(l, t, rows, k);
    StagedApplyAt(l, applied, rows, k);
    if k in KeysWith(l, rows, Upsert) {
      var r := RowAt(l, rows, Upsert, k);
      UpsertReplay(l, t, rows, r);
    } else if k in KeysWith(l, rows, Move) {
      var r := RowAt(l, rows, Move, k);
      StagedApplyAt(l, t, rows, OldKeyOf(r));
      OldKeyListed(l, rows, r);
      OldKeysApart(l, rows);
      assert !InvalidRow(l, t, r) && !InvalidRow(l, applied, r);
    } else {
      OldKeysApart(l, rows);
    }
  }

  lemma UpsertReplay(l: Layout, t: Table, rows: seq<StagingRow>, r: StagingRow)
    requires Collapsed(l, rows) && !InvalidBatch(l, t, rows) && r in rows && r.operation == Upsert
    requires !InvalidBatch(l, StagedApply(l, t, rows), rows)
    ensures var applied, k := StagedApply(l, t, rows), RowKey(l, r); StagedAt(l, applied, rows, k) == Lookup(applied, k)
  {
    var applied, k := StagedApply(l, t, rows), RowKey(l, r);
    StagedApplyAt(l, t, rows, k);
    RowAtIs(l, rows, r);
    if k in OldKeys(rows) {
      var m :| m in rows && m.operation == Move && OldKeyOf(m) == k;
      assert Complete(r.cells);
    } else if k in t {
      MergeTwice(t[k], r.cells);
    } else {
      assert !InvalidRow(l, t, r);
      MergeTwice(r.cells, r.cells);
    }
  }
}
