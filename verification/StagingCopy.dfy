/** One staging row as the fields of a COPY line, and back. */
module StagingCopy {
  import opened Core
  import opened PrimaryKey
  import opened RowChanges
  import opened Normalize
  import opened Copy

  const LETTER_U: byte := 85
  const LETTER_D: byte := 68
  const LETTER_M: byte := 77

  datatype StagingError =
    | InvalidRowArity(expected: nat, actual: nat)
    | MissingPrimaryKey(column: nat)
    | MissingOldPrimaryKey
    | UnexpectedOldPrimaryKey
    | InvalidOldKeyArityForMove(expectedKey: nat, actualKey: nat)
    | MissingOldPrimaryKeyColumn(ordinal: nat)
    | CopyFailed(copy: CopyEncodeError)

  predicate Missing(cell: Cell) {
    cell.Null? || cell.UnchangedToast?
  }

  /** Columns that carry a presence flag: those outside the key, in schema order. */
  function PresenceColumns(l: Layout, from: nat): (r: seq<nat>)
    requires from <= l.width
    ensures forall i | 0 <= i < |r| :: from <= r[i] < l.width && r[i] !in l.ordinalIndexes
    ensures forall c | from <= c < l.width && c !in l.ordinalIndexes :: c in r
    decreases l.width - from
  {
    if from == l.width then []
    else (if from in l.ordinalIndexes then [] else [from]) + PresenceColumns(l, from + 1)
  }

  /** The first key column, in schema order, whose cell is missing. */
  function FirstMissingKey(l: Layout, cells: Tuple, from: nat): (r: Option<nat>)
    requires from <= l.width == |cells|
    ensures r.None? <==> forall c | from <= c < l.width && c in l.ordinalIndexes :: !Missing(cells[c])
    ensures r.Some? ==> from <= r.value < l.width && r.value in l.ordinalIndexes && Missing(cells[r.value])
    decreases l.width - from
  {
    if from == l.width then None
    else if from in l.ordinalIndexes && Missing(cells[from]) then Some(from)
    else FirstMissingKey(l, cells, from + 1)
  }

  function FirstMissing(cells: Tuple, from: nat): (r: Option<nat>)
    requires from <= |cells|
    ensures r.None? <==> forall c | from <= c < |cells| :: !Missing(cells[c])
    ensures r.Some? ==> from <= r.value < |cells| && Missing(cells[r.value])
    decreases |cells| - from
  {
    if from == |cells| then None else if Missing(cells[from]) then Some(from) else FirstMissing(cells, from + 1)
  }

  function CheckRow(l: Layout, row: StagingRow): Option<StagingError> {
    if |row.cells| != l.width then Some(InvalidRowArity(l.width, |row.cells|))
    else match FirstMissingKey(l, row.cells, 0)
      case Some(c) => Some(MissingPrimaryKey(c))
      case None =>
        if row.operation == Move && row.oldKey.None? then Some(MissingOldPrimaryKey)
        else if row.operation != Move && row.oldKey.Some? then Some(UnexpectedOldPrimaryKey)
        else if row.oldKey.None? then None
        else if |row.oldKey.value| != |l.ordinalIndexes| then
          Some(InvalidOldKeyArityForMove(|l.ordinalIndexes|, |row.oldKey.value|))
        else match FirstMissing(row.oldKey.value, 0)
          case Some(i) => Some(MissingOldPrimaryKeyColumn(i))
          case None => None
  }

  function OperationField(op: StageOperation): Cell {
    match op case Upsert => Text([LETTER_U]) case Remove => Text([LETTER_D]) case Move => Text([LETTER_M])
  }

  function Flag(b: bool): Cell {
    Text([if b then LOWER_T else LOWER_F])
  }

  /** An unchanged cell travels as NULL; its presence flag tells it from a real NULL. */
  function DataFields(cells: Tuple): (r: Tuple)
    ensures |r| == |cells|
  {
    seq(|cells|, i requires 0 <= i < |cells| => if cells[i].UnchangedToast? then Null else cells[i])
  }

  function PresenceFields(l: Layout, cells: Tuple): (r: Tuple)
    requires |cells| == l.width
    ensures |r| == |PresenceColumns(l, 0)|
  {
    var columns := PresenceColumns(l, 0);
    seq(|columns|, i requires 0 <= i < |columns| => Flag(!cells[columns[i]].UnchangedToast?))
  }

  function OldKeyFields(l: Layout, oldKey: Option<Tuple>): Tuple {
    if oldKey.Some? then oldKey.value else seq(|l.ordinalIndexes|, i => Null)
  }

  function StagingFields(l: Layout, row: StagingRow): Tuple
    requires |row.cells| == l.width
  {
    [OperationField(row.operation)] + DataFields(row.cells) + PresenceFields(l, row.cells) +
    [Flag(row.oldKey.Some?)] + OldKeyFields(l, row.oldKey)
  }

  function EncodeStagingRow(l: Layout, row: StagingRow): Result<Bytes, StagingError> {
    if CheckRow(l, row).Some? then Err(CheckRow(l, row).value)
    else match RowBytesFrom(StagingFields(l, row))
      case Ok(bytes) => Ok(bytes)
      case Err(e) => Err(CopyFailed(e))
  }

  /** The encoder: check in loops, extend the field list, write the line. */
  method Encode(l: Layout, row: StagingRow) returns (encoded: Result<Bytes, StagingError>)
    ensures encoded == EncodeStagingRow(l, row)
  {
    if |row.cells| != l.width { return Err(InvalidRowArity(l.width, |row.cells|)); }
    var c := 0;
    while c < l.width
      invariant c <= l.width && FirstMissingKey(l, row.cells, 0) == FirstMissingKey(l, row.cells, c)
    {
      if c in l.ordinalIndexes && Missing(row.cells[c]) { return Err(MissingPrimaryKey(c)); }
      c := c + 1;
    }
    if row.operation == Move && row.oldKey.None? { return Err(MissingOldPrimaryKey); }
    if row.operation != Move && row.oldKey.Some? { return Err(UnexpectedOldPrimaryKey); }
    if row.oldKey.Some? {
      var oldKey := row.oldKey.value;
      if |oldKey| != |l.ordinalIndexes| { return Err(InvalidOldKeyArityForMove(|l.ordinalIndexes|, |oldKey|)); }
      var i := 0;
      while i < |oldKey|
        invariant i <= |oldKey| && FirstMissing(oldKey, 0) == FirstMissing(oldKey, i)
      {
        if Missing(oldKey[i]) { return Err(MissingOldPrimaryKeyColumn(i)); }
        i := i + 1;
      }
    }
    var fields := [OperationField(row.operation)];
    fields := fields + DataFields(row.cells);
    fields := fields + PresenceFields(l, row.cells);
    fields := fields + [Flag(row.oldKey.Some?)];
    fields := fields + OldKeyFields(l, row.oldKey);
    assert fields == StagingFields(l, row);
    var line := EncodeRow(fields);
    match line
    case Ok(bytes) => return Ok(bytes);
    case Err(e) => return Err(CopyFailed(e));
  }

  // ---- Reading a staging row back -------------------------------------------------------------

  function OperationOf(cell: Cell): Option<StageOperation> {
    if cell == Text([LETTER_U]) then Some(Upsert)
    else if cell == Text([LETTER_D]) then Some(Remove)
    else if cell == Text([LETTER_M]) then Some(Move)
    else None
  }

  /** Data columns with the unchanged ones told apart by their presence flags. */
  function Restored(l: Layout, data: Tuple, flags: Tuple): Tuple
    requires |data| == l.width && |flags| == |PresenceColumns(l, 0)|
  {
    var presence := PresenceColumns(l, 0);
    seq(l.width, c requires 0 <= c < l.width =>
      if c in presence && flags[IndexOf(presence, c)] == Flag(false) then UnchangedToast else data[c])
  }

  /** The staging row that the columns of the staging table describe. */
  function StagedRow(l: Layout, fields: Tuple): Option<StagingRow> {
    var w, p := l.width, |PresenceColumns(l, 0)|;
    if |fields| != 2 + w + p + |l.ordinalIndexes| || OperationOf(fields[0]).None? then None
    else
      Some(StagingRow(OperationOf(fields[0]).value,
                      Restored(l, fields[1..1 + w], fields[1 + w..1 + w + p]),
                      if fields[1 + w + p] == Flag(true) then Some(fields[2 + w + p..]) else None))
  }

  lemma CellsRestored(l: Layout, cells: Tuple)
    requires |cells| == l.width && forall c | 0 <= c < l.width && c in l.ordinalIndexes :: !Missing(cells[c])
    ensures Restored(l, DataFields(cells), PresenceFields(l, cells)) == cells
  {
    var presence := PresenceColumns(l, 0);
    var restored := Restored(l, DataFields(cells), PresenceFields(l, cells));
    forall c | 0 <= c < l.width ensures restored[c] == cells[c] {
      if c in presence {
        assert PresenceFields(l, cells)[IndexOf(presence, c)] == Flag(!cells[c].UnchangedToast?);
      } else {
        assert c in l.ordinalIndexes;
      }
    }
  }

  lemma Parts<T>(a: T, b: seq<T>, c: seq<T>, d: T, e: seq<T>)
    ensures var s := [a] + b + c + [d] + e;
      && |s| == 2 + |b| + |c| + |e| && s[0] == a && s[1..1 + |b|] == b
      && s[1 + |b|..1 + |b| + |c|] == c && s[1 + |b| + |c|] == d && s[2 + |b| + |c|..] == e
  {
  }

  lemma CheckedRow(l: Layout, row: StagingRow)
    ensures CheckRow(l, row).None? <==>
      && |row.cells| == l.width
      && (forall c | 0 <= c < l.width && c in l.ordinalIndexes :: !Missing(row.cells[c]))
      && (row.operation == Move <==> row.oldKey.Some?)
      && (row.oldKey.Some? ==>
            |row.oldKey.value| == |l.ordinalIndexes| && forall i | 0 <= i < |row.oldKey.value| :: !Missing(row.oldKey.value[i]))
  {
    hide Missing;
  }

  lemma FieldsReadBack(l: Layout, row: StagingRow)
    requires CheckRow(l, row).None?
    ensures StagedRow(l, StagingFields(l, row)) == Some(row)
  {
    CheckedRow(l, row);
    hide CheckRow, Missing;
    var data, flags, oldKey := DataFields(row.cells), PresenceFields(l, row.cells), OldKeyFields(l, row.oldKey);
    assert |oldKey| == |l.ordinalIndexes|;
    Parts(OperationField(row.operation), data, flags, Flag(row.oldKey.Some?), oldKey);
    CellsRestored(l, row.cells);
    hide DataFields, PresenceFields, Restored, PresenceColumns;
  }

  /** A staging row encodes exactly when it is well shaped, and then the line reads back as that very
      row: the operation, every cell (unchanged and NULL kept apart) and the old key. */
  lemma StagingRowReadsBack(l: Layout, row: StagingRow, rest: Bytes)
    ensures EncodeStagingRow(l, row).Ok? <==>
      && |row.cells| == l.width && NoBinary(row.cells)
      && (forall c | 0 <= c < l.width && c in l.ordinalIndexes :: row.cells[c].Text?)
      && (row.operation == Move <==> row.oldKey.Some?)
      && (row.oldKey.Some? ==>
            |row.oldKey.value| == |l.ordinalIndexes| && forall i | 0 <= i < |row.oldKey.value| :: row.oldKey.value[i].Text?)
    ensures EncodeStagingRow(l, row).Ok? ==>
      var line := ReadRow(EncodeStagingRow(l, row).value + rest);
      line.Some? && line.value.1 == rest && StagedRow(l, line.value.0) == Some(row)
  {
    CheckedRow(l, row);
    if CheckRow(l, row).None? {
      FieldsEncodable(l, row);
      FieldsReadBack(l, row);
      hide StagingFields, StagedRow, CheckRow;
      if Encodable(StagingFields(l, row)) {
        hide Encodable;
        RowReadsBack(StagingFields(l, row), rest);
      }
    }
  }

  lemma EncodableConcat(a: Tuple, b: Tuple)
    ensures Encodable(a + b) <==> Encodable(a) && Encodable(b)
  {
    if Encodable(a + b) {
      forall i | 0 <= i < |a| ensures a[i].Null? || a[i].Text? { assert (a + b)[i] == a[i]; }
      forall i | 0 <= i < |b| ensures b[i].Null? || b[i].Text? { assert (a + b)[|a| + i] == b[i]; }
    }
  }

  lemma FieldsEncodable(l: Layout, row: StagingRow)
    requires |row.cells| == l.width
    ensures Encodable(StagingFields(l, row)) <==> NoBinary(row.cells) && (row.oldKey.Some? ==> Encodable(row.oldKey.value))
  {
    var op, data, flags := [OperationField(row.operation)], DataFields(row.cells), PresenceFields(l, row.cells);
    var present, oldKey := [Flag(row.oldKey.Some?)], OldKeyFields(l, row.oldKey);
    assert Encodable(op) && Encodable(flags) && Encodable(present);
    assert Encodable(data) <==> NoBinary(row.cells) by {
      forall i | 0 <= i < |data| ensures data[i].Null? || data[i].Text? <==> !row.cells[i].Binary? {}
    }
    assert Encodable(oldKey) <==> (row.oldKey.Some? ==> Encodable(row.oldKey.value));
    EncodableConcat(op, data);
    EncodableConcat(op + data, flags);
    EncodableConcat(op + data + flags, present);
    EncodableConcat(op + data + flags + present, oldKey);
  }
}
