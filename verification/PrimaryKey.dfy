/** Tuples as pgoutput delivers them, and the composite-key layout that reads keys out of them. */
module PrimaryKey {
  import opened Core

  datatype Cell = Null | UnchangedToast | Text(value: Bytes) | Binary(value: Bytes)

  type Tuple = seq<Cell>

  /** A primary key: the text bytes of its cells, in primary-key ordinal order. */
  type Key = seq<Bytes>

  datatype Column = Column(name: string, primaryKeyOrdinal: Option<nat>)

  datatype TableSchema = TableSchema(relationId: nat, generation: nat, supported: bool, columns: seq<Column>)
  {
    /** What the source catalogue guarantees: ordinals name distinct positions of the key index. */
    ghost predicate WellFormed() {
      forall i, j | 0 <= i < j < |columns| && columns[i].primaryKeyOrdinal.Some? && columns[j].primaryKeyOrdinal.Some?
        :: columns[i].primaryKeyOrdinal != columns[j].primaryKeyOrdinal
    }
  }

  datatype TupleKind = InsertTuple | UpdateTuple | OldKeyTuple
  datatype KeyState = NullCell | UnchangedCell | UnchangedWithoutOldKey

  /** Columns are named by their index in the schema. */
  datatype NormalizeError =
    | UnsupportedSchema
    | RelationMismatch(expected: nat, actual: nat)
    | GenerationMismatch(relationId: nat, expectedGeneration: nat, actualGeneration: nat)
    | InvalidTupleArity(kind: TupleKind, width: nat, given: nat)
    | InvalidOldKeyArity(keyOnly: nat, full: nat, given: nat)
    | InvalidPrimaryKey(column: nat, state: KeyState, kind: TupleKind)
    | BinaryValue(column: nat)
    | IncompleteInsert(column: nat)
    | InsertTargetsLiveKey
    | UpdateReferencesMovedKey
    | UpdateTargetsLiveKey
    | UpdateReusesStartKey
    | DeleteReferencesMovedKey
  {
    /** The five rejections the engine reports as an ambiguous row-change sequence. */
    predicate Ambiguous() {
      InsertTargetsLiveKey? || UpdateReferencesMovedKey? || UpdateTargetsLiveKey? || UpdateReusesStartKey? ||
      DeleteReferencesMovedKey?
    }
  }

  /** Indexes of the primary-key columns in schema order, starting at column `from`. */
  function SchemaOrder(columns: seq<Column>, from: nat): (r: seq<nat>)
    requires from <= |columns|
    ensures forall i | 0 <= i < |r| :: from <= r[i] < |columns| && columns[r[i]].primaryKeyOrdinal.Some?
    ensures forall i, j | 0 <= i < j < |r| :: r[i] < r[j]
    ensures forall c | from <= c < |columns| && columns[c].primaryKeyOrdinal.Some? :: c in r
    decreases |columns| - from
  {
    if from == |columns| then []
    else (if columns[from].primaryKeyOrdinal.Some? then [from] else []) + SchemaOrder(columns, from + 1)
  }

  function OrdinalOf(columns: seq<Column>, index: nat): nat {
    if index < |columns| && columns[index].primaryKeyOrdinal.Some? then columns[index].primaryKeyOrdinal.value else 0
  }

  /** One step of a stable insertion sort by ordinal. */
  function InsertByOrdinal(columns: seq<Column>, sorted: seq<nat>, index: nat): (r: seq<nat>)
    ensures multiset(r) == multiset(sorted) + multiset{index}
  {
    if sorted == [] then [index]
    else if OrdinalOf(columns, sorted[|sorted| - 1]) <= OrdinalOf(columns, index) then sorted + [index]
    else
      var init := sorted[..|sorted| - 1];
      assert sorted == init + [sorted[|sorted| - 1]];
      InsertByOrdinal(columns, init, index) + [sorted[|sorted| - 1]]
  }

  function SortByOrdinal(columns: seq<Column>, indexes: seq<nat>): (r: seq<nat>)
    ensures multiset(r) == multiset(indexes)
  {
    if indexes == [] then []
    else
      assert indexes == indexes[..|indexes| - 1] + [indexes[|indexes| - 1]];
      InsertByOrdinal(columns, SortByOrdinal(columns, indexes[..|indexes| - 1]), indexes[|indexes| - 1])
  }

  /** Primary-key column indexes in ordinal order. */
  function OrdinalIndexes(schema: TableSchema): seq<nat> {
    SortByOrdinal(schema.columns, SchemaOrder(schema.columns, 0))
  }

  datatype Layout = Layout(width: nat, ordinalIndexes: seq<nat>, keyTuplePositions: seq<nat>)
  {
    ghost predicate Valid() {
      && |keyTuplePositions| == |ordinalIndexes|
      && (forall i | 0 <= i < |ordinalIndexes| :: ordinalIndexes[i] < width)
      && (forall i | 0 <= i < |keyTuplePositions| :: keyTuplePositions[i] < |keyTuplePositions|)
      && Distinct(ordinalIndexes)
    }
  }

  lemma OrdinalIndexesArePermutation(schema: TableSchema)
    ensures |OrdinalIndexes(schema)| == |SchemaOrder(schema.columns, 0)|
    ensures Distinct(OrdinalIndexes(schema))
    ensures forall x :: x in OrdinalIndexes(schema) <==> x in SchemaOrder(schema.columns, 0)
  {
    DistinctPermutes(OrdinalIndexes(schema), SchemaOrder(schema.columns, 0));
  }

  /** Where each index of `chosen` stands in `order`. */
  function Positions(order: seq<nat>, chosen: seq<nat>): (r: seq<nat>)
    requires forall i | 0 <= i < |chosen| :: chosen[i] in order
    ensures |r| == |chosen|
    ensures forall i | 0 <= i < |r| :: r[i] < |order| && order[r[i]] == chosen[i]
  {
    seq(|chosen|, i requires 0 <= i < |chosen| => IndexOf(order, chosen[i]))
  }

  lemma OrdinalIndexesFacts(schema: TableSchema)
    ensures var order, ordinal := SchemaOrder(schema.columns, 0), OrdinalIndexes(schema);
      && |ordinal| == |order| && Distinct(ordinal)
      && (forall i | 0 <= i < |ordinal| :: ordinal[i] in order && ordinal[i] < |schema.columns|)
  {
    OrdinalIndexesArePermutation(schema);
    var order, ordinal := SchemaOrder(schema.columns, 0), OrdinalIndexes(schema);
    forall i | 0 <= i < |ordinal| ensures ordinal[i] in order && ordinal[i] < |schema.columns| {
      assert ordinal[i] in ordinal;
    }
  }

  function LayoutOf(schema: TableSchema): (l: Layout)
    ensures l.Valid() && l.width == |schema.columns|
  {
    OrdinalIndexesFacts(schema);
    Layout(|schema.columns|, OrdinalIndexes(schema),
           Positions(SchemaOrder(schema.columns, 0), OrdinalIndexes(schema)))
  }

  /** Sortedness of the insertion sort, which makes `OrdinalIndexes` the key index's own order. */
  ghost predicate OrdinalSorted(columns: seq<Column>, s: seq<nat>) {
    forall i, j | 0 <= i < j < |s| :: OrdinalOf(columns, s[i]) <= OrdinalOf(columns, s[j])
  }

  lemma {:induction false} InsertKeepsSorted(columns: seq<Column>, sorted: seq<nat>, index: nat)
    requires OrdinalSorted(columns, sorted)
    ensures OrdinalSorted(columns, InsertByOrdinal(columns, sorted, index))
    decreases |sorted|
  {
    if sorted != [] && OrdinalOf(columns, sorted[|sorted| - 1]) > OrdinalOf(columns, index) {
      var init := sorted[..|sorted| - 1];
      InsertKeepsSorted(columns, init, index);
      var inner := InsertByOrdinal(columns, init, index);
      forall i | 0 <= i < |inner|
        ensures OrdinalOf(columns, inner[i]) <= OrdinalOf(columns, sorted[|sorted| - 1])
      {
        assert inner[i] in multiset(inner);
        assert inner[i] in multiset(init) || inner[i] == index;
      }
    }
  }

  lemma {:induction false} SortSorts(columns: seq<Column>, indexes: seq<nat>)
    ensures OrdinalSorted(columns, SortByOrdinal(columns, indexes))
  {
    if indexes != [] {
      SortSorts(columns, indexes[..|indexes| - 1]);
      InsertKeepsSorted(columns, SortByOrdinal(columns, indexes[..|indexes| - 1]), indexes[|indexes| - 1]);
    }
  }

  /** Keys list exactly the primary-key columns, once each, by strictly increasing ordinal. */
  lemma LayoutFollowsKeyIndex(schema: TableSchema)
    requires schema.WellFormed()
    ensures var idx := OrdinalIndexes(schema);
      && LayoutOf(schema).ordinalIndexes == idx
      && (forall c: nat :: c in idx <==> c < |schema.columns| && schema.columns[c].primaryKeyOrdinal.Some?)
      && (forall i, j | 0 <= i < j < |idx| :: OrdinalOf(schema.columns, idx[i]) < OrdinalOf(schema.columns, idx[j]))
  {
    var idx, order := OrdinalIndexes(schema), SchemaOrder(schema.columns, 0);
    OrdinalIndexesArePermutation(schema);
    OrdinalIndexesFacts(schema);
    SortSorts(schema.columns, order);
    forall i, j | 0 <= i < j < |idx|
      ensures OrdinalOf(schema.columns, idx[i]) < OrdinalOf(schema.columns, idx[j])
    {
      DistinctOrdinals(schema, idx[i], idx[j]);
    }
  }

  lemma DistinctOrdinals(schema: TableSchema, a: nat, b: nat)
    requires schema.WellFormed() && a != b
    requires a in SchemaOrder(schema.columns, 0) && b in SchemaOrder(schema.columns, 0)
    ensures OrdinalOf(schema.columns, a) != OrdinalOf(schema.columns, b)
  {
    var c := schema.columns;
    assert a < b ==> c[a].primaryKeyOrdinal != c[b].primaryKeyOrdinal;
    assert b < a ==> c[b].primaryKeyOrdinal != c[a].primaryKeyOrdinal;
  }

  // ---- Reading keys out of tuples -------------------------------------------------------------

  function KeyCell(cell: Cell, column: nat, kind: TupleKind): (r: Result<Bytes, NormalizeError>)
    ensures r.Ok? <==> cell.Text?
    ensures r.Ok? ==> r.value == cell.value
  {
    match cell
    case Text(value) => Ok(value)
    case Binary(_) => Err(BinaryValue(column))
    case Null => Err(InvalidPrimaryKey(column, NullCell, kind))
    case UnchangedToast => Err(InvalidPrimaryKey(column, UnchangedCell, kind))
  }

  /** Reads the cells at `indexes`, reporting the first bad one under its schema column. */
  function SelectKey(cells: Tuple, indexes: seq<nat>, columns: seq<nat>, kind: TupleKind)
    : (r: Result<Key, NormalizeError>)
    requires |indexes| == |columns| && forall i | 0 <= i < |indexes| :: indexes[i] < |cells|
    ensures r.Ok? <==> HasKeyAt(cells, indexes)
    ensures r.Ok? ==> r.value == KeyAt(cells, indexes)
    ensures r.Err? ==> !r.error.Ambiguous()
  {
    if indexes == [] then Ok([])
    else match KeyCell(cells[indexes[0]], columns[0], kind)
      case Err(e) => Err(e)
      case Ok(first) =>
        match SelectKey(cells, indexes[1..], columns[1..], kind)
        case Err(e) => Err(e)
        case Ok(rest) => Ok([first] + rest)
  }

  predicate HasKeyAt(cells: Tuple, indexes: seq<nat>) {
    forall i | 0 <= i < |indexes| :: indexes[i] < |cells| && cells[indexes[i]].Text?
  }

  function KeyAt(cells: Tuple, indexes: seq<nat>): (k: Key)
    ensures |k| == |indexes|
  {
    seq(|indexes|, i requires 0 <= i < |indexes| =>
      if indexes[i] < |cells| && cells[indexes[i]].Text? then cells[indexes[i]].value else [])
  }

  /** The index list an old tuple is read with: full width first, then key-only. */
  function OldTupleIndexes(l: Layout, tuple: Tuple): Option<seq<nat>> {
    if |tuple| == l.width then Some(l.ordinalIndexes)
    else if |tuple| == |l.ordinalIndexes| then Some(l.keyTuplePositions)
    else None
  }

  function KeyFromOldTuple(l: Layout, tuple: Tuple): (r: Result<Key, NormalizeError>)
    requires l.Valid()
    ensures r.Ok? ==> |r.value| == |l.ordinalIndexes|
    ensures r.Err? ==> !r.error.Ambiguous()
  {
    match OldTupleIndexes(l, tuple)
    case None => Err(InvalidOldKeyArity(|l.ordinalIndexes|, l.width, |tuple|))
    case Some(indexes) => SelectKey(tuple, indexes, l.ordinalIndexes, OldKeyTuple)
  }

  function KeyFromCells(l: Layout, cells: Tuple, kind: TupleKind): (r: Result<Key, NormalizeError>)
    requires l.Valid() && |cells| == l.width
    ensures r.Ok? <==> HasKeyAt(cells, l.ordinalIndexes)
    ensures r.Ok? ==> r.value == KeyAt(cells, l.ordinalIndexes)
    ensures r.Err? ==> !r.error.Ambiguous()
  {
    SelectKey(cells, l.ordinalIndexes, l.ordinalIndexes, kind)
  }

  /** The key of an update's new tuple; an unchanged key cell is taken from the old key. */
  function KeyFromUpdateTuple(l: Layout, cells: Tuple, oldKey: Option<Key>, ordinal: nat)
    : (r: Result<Key, NormalizeError>)
    requires l.Valid() && |cells| == l.width && ordinal <= |l.ordinalIndexes|
    requires oldKey.Some? ==> |oldKey.value| == |l.ordinalIndexes|
    ensures r.Ok? ==> |r.value| == |l.ordinalIndexes| - ordinal
    ensures r.Ok? <==> forall i | ordinal <= i < |l.ordinalIndexes| ::
        cells[l.ordinalIndexes[i]].Text? || (cells[l.ordinalIndexes[i]].UnchangedToast? && oldKey.Some?)
    ensures r.Ok? ==> forall i | ordinal <= i < |l.ordinalIndexes| ::
        r.value[i - ordinal] ==
          if cells[l.ordinalIndexes[i]].Text? then cells[l.ordinalIndexes[i]].value else oldKey.value[i]
    ensures r.Err? ==> !r.error.Ambiguous()
    decreases |l.ordinalIndexes| - ordinal
  {
    if ordinal == |l.ordinalIndexes| then Ok([])
    else
      var column := l.ordinalIndexes[ordinal];
      var first :=
        if cells[column].UnchangedToast? then
          if oldKey.Some? then Ok(oldKey.value[ordinal])
          else Err(InvalidPrimaryKey(column, UnchangedWithoutOldKey, UpdateTuple))
        else KeyCell(cells[column], column, UpdateTuple);
      match first
      case Err(e) => Err(e)
      case Ok(cell) =>
        match KeyFromUpdateTuple(l, cells, oldKey, ordinal + 1)
        case Err(e) => Err(e)
        case Ok(rest) => Ok([cell] + rest)
  }

  /** Writes key cells over `cells` in ordinal order. */
  function WriteKey(indexes: seq<nat>, cells: Tuple, key: Key): (r: Tuple)
    requires |key| == |indexes| && forall i | 0 <= i < |indexes| :: indexes[i] < |cells|
    ensures |r| == |cells|
    ensures forall c | 0 <= c < |cells| && c !in indexes :: r[c] == cells[c]
    ensures Distinct(indexes) ==> forall i | 0 <= i < |indexes| :: r[indexes[i]] == Text(key[i])
    decreases |indexes|
  {
    if indexes == [] then cells
    else
      var n := |indexes| - 1;
      WriteKey(indexes[..n], cells, key[..n])[indexes[n] := Text(key[n])]
  }

  /** The tuple pgoutput sends as a key-only old tuple: key cells in schema order. */
  function KeyOnlyTuple(schema: TableSchema, row: Tuple): Tuple
    requires |row| == |schema.columns|
  {
    var order := SchemaOrder(schema.columns, 0);
    seq(|order|, i requires 0 <= i < |order| => row[order[i]])
  }

  lemma {:induction false} IncreasingAndFull(s: seq<nat>, i: nat)
    requires forall a, b | 0 <= a < b < |s| :: s[a] < s[b]
    requires forall a | 0 <= a < |s| :: s[a] < |s|
    requires i < |s|
    ensures i <= s[i] && s[i] - i <= s[|s| - 1] - (|s| - 1)
    decreases |s|
  {
    IncreasingFrom(s, 0, i);
    IncreasingFrom(s, i, |s| - 1);
  }

  lemma IncreasingFrom(s: seq<nat>, i: nat, j: nat)
    requires forall a, b | 0 <= a < b < |s| :: s[a] < s[b]
    requires i <= j < |s|
    ensures s[i] + (j - i) <= s[j]
    decreases j - i
  {
    if i < j { IncreasingFrom(s, i, j - 1); }
  }

  lemma FullOrderIsIdentity(schema: TableSchema, row: Tuple)
    requires |row| == |schema.columns| == |SchemaOrder(schema.columns, 0)|
    ensures KeyOnlyTuple(schema, row) == row
  {
    var order := SchemaOrder(schema.columns, 0);
    forall i | 0 <= i < |row| ensures order[i] == i { IncreasingAndFull(order, i); }
  }

  /** Reading a reordered tuple through the positions gives what reading the row directly gives. */
  lemma ReorderedKey(row: Tuple, order: seq<nat>, ordinal: seq<nat>, positions: seq<nat>, tuple: Tuple)
    requires |positions| == |ordinal| && |tuple| == |order|
    requires forall i | 0 <= i < |order| :: order[i] < |row| && tuple[i] == row[order[i]]
    requires forall i | 0 <= i < |positions| :: positions[i] < |order| && order[positions[i]] == ordinal[i]
    requires HasKeyAt(row, ordinal)
    ensures HasKeyAt(tuple, positions) && KeyAt(tuple, positions) == KeyAt(row, ordinal)
  {
    forall i | 0 <= i < |positions| ensures tuple[positions[i]] == row[ordinal[i]] {
      assert tuple[positions[i]] == row[order[positions[i]]];
    }
  }

  /** The two orders of a composite key agree: reading the key-only tuple of a row, whose cells come
      in schema order, gives the key that reading the full row gives, in ordinal order. */
  lemma KeyOnlyTupleHasRowKey(schema: TableSchema, row: Tuple)
    requires |row| == |schema.columns|
    requires HasKeyAt(row, LayoutOf(schema).ordinalIndexes)
    ensures KeyFromOldTuple(LayoutOf(schema), KeyOnlyTuple(schema, row)) ==
            Ok(KeyAt(row, LayoutOf(schema).ordinalIndexes))
    ensures KeyFromOldTuple(LayoutOf(schema), row) == Ok(KeyAt(row, LayoutOf(schema).ordinalIndexes))
  {
    var l, tuple := LayoutOf(schema), KeyOnlyTuple(schema, row);
    OrdinalIndexesFacts(schema);
    hide OrdinalIndexes, HasKeyAt, KeyAt;
    if |tuple| == l.width {
      FullOrderIsIdentity(schema, row);
    } else {
      ReorderedKey(row, SchemaOrder(schema.columns, 0), l.ordinalIndexes, l.keyTuplePositions, tuple);
    }
  }
}
