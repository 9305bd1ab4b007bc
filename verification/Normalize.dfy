/** Folding row changes into one staging row per source lineage. */
module Normalize {
  import opened Core
  import opened PrimaryKey
  import opened RowChanges

  datatype StageOperation = Upsert | Remove | Move

  datatype StagingRow = StagingRow(operation: StageOperation, cells: Tuple, oldKey: Option<Tuple>)

  /** The history of one source row within the batch: its key when the batch starts (none when it
      was inserted by the batch), its key now (none when deleted), and every cell learnt so far. */
  datatype Lineage = Lineage(originKey: Option<Key>, currentKey: Option<Key>, cells: Tuple, firstSequence: nat)

  datatype State = State(lineages: seq<Lineage>, currentByKey: map<Key, nat>, originByKey: map<Key, nat>,
                         sequence: nat)

  datatype Stepped = Stepped(state: State, error: Option<NormalizeError>)

  const Initial := State([], map[], map[], 0)

  /** The key cells as staged. */
  function KeyCells(key: Key): (r: Tuple)
    ensures |r| == |key| && forall i | 0 <= i < |r| :: r[i] == Text(key[i])
  {
    seq(|key|, i requires 0 <= i < |key| => Text(key[i]))
  }

  function FindUnchanged(cells: Tuple): (r: Option<nat>)
    ensures r.None? <==> Complete(cells)
    ensures r.Some? ==> r.value < |cells| && cells[r.value].UnchangedToast? && Complete(cells[..r.value])
  {
    if cells == [] then None
    else if cells[0].UnchangedToast? then Some(0)
    else match FindUnchanged(cells[1..])
      case None => None
      case Some(i) => Some(i + 1)
  }

  function FindBinary(cells: Tuple): (r: Option<nat>)
    ensures r.None? <==> NoBinary(cells)
    ensures r.Some? ==> r.value < |cells| && cells[r.value].Binary? && NoBinary(cells[..r.value])
  {
    if cells == [] then None
    else if cells[0].Binary? then Some(0)
    else match FindBinary(cells[1..])
      case None => None
      case Some(i) => Some(i + 1)
  }

  function ValidateNewTuple(l: Layout, cells: Tuple, kind: TupleKind): (r: Option<NormalizeError>)
    ensures r.None? <==> |cells| == l.width && NoBinary(cells)
    ensures r.Some? ==> !r.value.Ambiguous()
  {
    if |cells| != l.width then Some(InvalidTupleArity(kind, l.width, |cells|))
    else match FindBinary(cells)
      case Some(i) => Some(BinaryValue(i))
      case None => None
  }

  // ---- The invariant of the three indexes -----------------------------------------------------

  ghost predicate LineageOk(l: Layout, g: Lineage) {
    && |g.cells| == l.width
    && NoBinary(g.cells)
    && (g.currentKey.Some? ==> HasKeyAt(g.cells, l.ordinalIndexes) && KeyAt(g.cells, l.ordinalIndexes) == g.currentKey.value)
    && (g.originKey.None? ==> Complete(g.cells))
    && (g.originKey.Some? ==> |g.originKey.value| == |l.ordinalIndexes|)
  }

  ghost predicate CurrentIndexed(st: State) {
    && (forall k | k in st.currentByKey :: st.currentByKey[k] < |st.lineages| && st.lineages[st.currentByKey[k]].currentKey == Some(k))
    && (forall i | 0 <= i < |st.lineages| && st.lineages[i].currentKey.Some? ::
          st.lineages[i].currentKey.value in st.currentByKey && st.currentByKey[st.lineages[i].currentKey.value] == i)
  }

  ghost predicate OriginIndexed(st: State) {
    && (forall k | k in st.originByKey :: st.originByKey[k] < |st.lineages| && st.lineages[st.originByKey[k]].originKey == Some(k))
    && (forall i | 0 <= i < |st.lineages| && st.lineages[i].originKey.Some? ::
          st.lineages[i].originKey.value in st.originByKey && st.originByKey[st.lineages[i].originKey.value] == i)
  }

  /** A row that began elsewhere never sits on another row's batch-start key. */
  ghost predicate StartKeysRespected(st: State) {
    forall k | k in st.currentByKey && st.currentByKey[k] < |st.lineages| && st.lineages[st.currentByKey[k]].originKey.Some? ::
      k in st.originByKey ==> st.originByKey[k] == st.currentByKey[k]
  }

  ghost predicate Ordered(st: State) {
    && (forall i, j | 0 <= i < j < |st.lineages| :: st.lineages[i].firstSequence <= st.lineages[j].firstSequence)
    && (forall i | 0 <= i < |st.lineages| :: st.lineages[i].firstSequence <= st.sequence)
    && st.sequence <= USIZE_MAX
  }

  ghost predicate Coherent(l: Layout, st: State) {
    && l.Valid()
    && (forall i | 0 <= i < |st.lineages| :: LineageOk(l, st.lineages[i]))
    && Indexed(st) && Ordered(st)
  }

  /** `sequence` may stamp a lineage appended to `st`. */
  ghost predicate Stampable(st: State, sequence: nat) {
    && (forall i | 0 <= i < |st.lineages| :: st.lineages[i].firstSequence <= sequence)
    && sequence <= st.sequence
  }

  // ---- The four ways the indexes change -------------------------------------------------------

  /** The three index predicates together, apart from what the lineages hold. */
  ghost predicate Indexed(st: State) {
    CurrentIndexed(st) && OriginIndexed(st) && StartKeysRespected(st)
  }

  function Appended(st: State, g: Lineage): State {
    var n := |st.lineages|;
    State(st.lineages + [g],
      if g.currentKey.Some? then st.currentByKey[g.currentKey.value := n] else st.currentByKey,
      if g.originKey.Some? then st.originByKey[g.originKey.value := n] else st.originByKey, st.sequence)
  }

  lemma AppendIndexes(st: State, g: Lineage)
    requires Indexed(st)
    requires g.currentKey.Some? ==> g.currentKey.value !in st.currentByKey
    requires g.originKey.Some? ==> g.originKey.value !in st.originByKey && g.originKey.value !in st.currentByKey
    requires g.originKey.Some? && g.currentKey.Some? ==> g.originKey == g.currentKey
    ensures Indexed(Appended(st, g))
  {
    var r := Appended(st, g);
    assert CurrentIndexed(r) by {
      forall i | 0 <= i < |r.lineages| && r.lineages[i].currentKey.Some?
        ensures r.lineages[i].currentKey.value in r.currentByKey && r.currentByKey[r.lineages[i].currentKey.value] == i
      {}
    }
    assert OriginIndexed(r) by {
      forall i | 0 <= i < |r.lineages| && r.lineages[i].originKey.Some?
        ensures r.lineages[i].originKey.value in r.originByKey && r.originByKey[r.lineages[i].originKey.value] == i
      {}
    }
    assert StartKeysRespected(r) by {
      forall k | k in r.currentByKey && r.currentByKey[k] < |r.lineages| && r.lineages[r.currentByKey[k]].originKey.Some? && k in r.originByKey
        ensures r.originByKey[k] == r.currentByKey[k]
      {
        assert k in st.currentByKey || g.currentKey == Some(k);
        assert k in st.originByKey || g.originKey == Some(k);
      }
    }
  }

  lemma AppendedCoherent(l: Layout, st: State, g: Lineage)
    requires Coherent(l, st) && LineageOk(l, g) && Stampable(st, g.firstSequence)
    requires g.currentKey.Some? ==> g.currentKey.value !in st.currentByKey
    requires g.originKey.Some? ==> g.originKey.value !in st.originByKey && g.originKey.value !in st.currentByKey
    requires g.originKey.Some? && g.currentKey.Some? ==> g.originKey == g.currentKey
    ensures Coherent(l, Appended(st, g))
  {
    AppendIndexes(st, g);
    hide Indexed, HasKeyAt, KeyAt, NoBinary, Complete;
  }

  function SetCells(st: State, index: nat, cells: Tuple): State
    requires index < |st.lineages|
  {
    st.(lineages := st.lineages[index := st.lineages[index].(cells := cells)])
  }

  lemma SetCellsCoherent(l: Layout, st: State, index: nat, cells: Tuple)
    requires Coherent(l, st) && index < |st.lineages| && LineageOk(l, st.lineages[index].(cells := cells))
    ensures Coherent(l, SetCells(st, index, cells))
  {
    hide HasKeyAt, KeyAt, NoBinary, Complete;
  }

  lemma KilledCoherent(l: Layout, st: State, index: nat)
    requires Coherent(l, st) && index < |st.lineages|
    ensures Coherent(l, Killed(st, index))
  {
    hide HasKeyAt, KeyAt, NoBinary, Complete, Indexed;
    KillIndexes(st, index);
  }

  function Killed(st: State, index: nat): State
    requires index < |st.lineages|
  {
    var g := st.lineages[index];
    st.(lineages := st.lineages[index := g.(currentKey := None)],
        currentByKey := if g.currentKey.Some? then st.currentByKey - {g.currentKey.value} else st.currentByKey)
  }

  lemma KillIndexes(st: State, index: nat)
    requires Indexed(st) && index < |st.lineages|
    ensures Indexed(Killed(st, index))
  {
    var r := Killed(st, index);
    assert CurrentIndexed(r) by {
      forall i | 0 <= i < |r.lineages| && r.lineages[i].currentKey.Some?
        ensures r.lineages[i].currentKey.value in r.currentByKey && r.currentByKey[r.lineages[i].currentKey.value] == i
      {}
    }
    assert OriginIndexed(r);
    assert StartKeysRespected(r);
  }

  function Placed(st: State, index: nat, key: Key): State
    requires index < |st.lineages|
  {
    st.(lineages := st.lineages[index := st.lineages[index].(currentKey := Some(key))],
        currentByKey := st.currentByKey[key := index])
  }

  lemma PlaceIndexes(st: State, index: nat, key: Key)
    requires Indexed(st) && index < |st.lineages| && st.lineages[index].currentKey.None?
    requires key !in st.currentByKey
    requires st.lineages[index].originKey.Some? && key in st.originByKey ==> st.originByKey[key] == index
    ensures Indexed(Placed(st, index, key))
  {
    var r := Placed(st, index, key);
    assert CurrentIndexed(r) by {
      forall i | 0 <= i < |r.lineages| && r.lineages[i].currentKey.Some?
        ensures r.lineages[i].currentKey.value in r.currentByKey && r.currentByKey[r.lineages[i].currentKey.value] == i
      {}
    }
    assert OriginIndexed(r);
    assert StartKeysRespected(r);
  }

  lemma PlacedCoherent(l: Layout, st: State, index: nat, key: Key)
    requires Coherent(l, st) && index < |st.lineages| && st.lineages[index].currentKey.None?
    requires key !in st.currentByKey && LineageOk(l, st.lineages[index].(currentKey := Some(key)))
    requires st.lineages[index].originKey.Some? && key in st.originByKey ==> st.originByKey[key] == index
    ensures Coherent(l, Placed(st, index, key))
  {
    PlaceIndexes(st, index, key);
    hide Indexed, HasKeyAt, KeyAt, NoBinary, Complete;
  }

  // ---- One change -----------------------------------------------------------------------------

  function InsertStep(l: Layout, st: State, row: Tuple, sequence: nat): (r: Stepped)
    requires Coherent(l, st) && Stampable(st, sequence)
    ensures r.error.None? ==> Coherent(l, r.state)
  {
    match ValidateNewTuple(l, row, InsertTuple)
    case Some(e) => Stepped(st, Some(e))
    case None =>
      match FindUnchanged(row)
      case Some(i) => Stepped(st, Some(IncompleteInsert(i)))
      case None =>
        match KeyFromCells(l, row, InsertTuple)
        case Err(e) => Stepped(st, Some(e))
        case Ok(key) =>
          if key in st.currentByKey then Stepped(st, Some(InsertTargetsLiveKey))
          else
            InsertedCoherent(l, st, key, row, sequence);
            Stepped(Inserted(st, key, row, sequence), None)
  }

  /** A row inserted at the start key of a dead lineage revives it; otherwise it is a new lineage. */
  function Inserted(st: State, key: Key, row: Tuple, sequence: nat): State {
    if key in st.originByKey && st.originByKey[key] < |st.lineages| && st.lineages[st.originByKey[key]].currentKey.None?
    then Placed(SetCells(st, st.originByKey[key], row), st.originByKey[key], key)
    else Appended(st, Lineage(None, Some(key), row, sequence))
  }

  lemma InsertedCoherent(l: Layout, st: State, key: Key, row: Tuple, sequence: nat)
    requires Coherent(l, st) && Stampable(st, sequence)
    requires |row| == l.width && NoBinary(row) && Complete(row) && HasKeyAt(row, l.ordinalIndexes) && key == KeyAt(row, l.ordinalIndexes)
    requires key !in st.currentByKey
    ensures Coherent(l, Inserted(st, key, row, sequence))
  {
    hide HasKeyAt, KeyAt, NoBinary, Complete;
    if key in st.originByKey && st.lineages[st.originByKey[key]].currentKey.None? {
      var index := st.originByKey[key];
      assert LineageOk(l, st.lineages[index]);
      SetCellsCoherent(l, st, index, row);
      PlacedCoherent(l, SetCells(st, index, row), index, key);
    } else {
      AppendedCoherent(l, st, Lineage(None, Some(key), row, sequence));
    }
  }

  /** Registers the row that held `key` when the batch started. */
  function NewBaseline(l: Layout, st: State, key: Key, sequence: nat, live: bool): (r: State)
    requires Coherent(l, st) && Stampable(st, sequence) && |key| == |l.ordinalIndexes|
    requires key !in st.currentByKey && key !in st.originByKey
    ensures Coherent(l, r)
    ensures |r.lineages| == |st.lineages| + 1
  {
    BaselineCoherent(l, st, key, sequence, live);
    Appended(st, Baseline(l, key, sequence, live))
  }

  /** A batch-start row of which only the key is known. */
  function Baseline(l: Layout, key: Key, sequence: nat, live: bool): Lineage
    requires l.Valid() && |key| == |l.ordinalIndexes|
  {
    Lineage(Some(key), if live then Some(key) else None,
            WriteKey(l.ordinalIndexes, seq(l.width, i => UnchangedToast), key), sequence)
  }

  lemma BaselineCoherent(l: Layout, st: State, key: Key, sequence: nat, live: bool)
    requires Coherent(l, st) && Stampable(st, sequence) && |key| == |l.ordinalIndexes|
    requires key !in st.currentByKey && key !in st.originByKey
    ensures Coherent(l, Appended(st, Baseline(l, key, sequence, live)))
  {
    WrittenKeyReads(l, seq(l.width, i => UnchangedToast), key);
    AppendedCoherent(l, st, Baseline(l, key, sequence, live));
  }

  lemma WrittenKeyReads(l: Layout, blank: Tuple, key: Key)
    requires l.Valid() && |key| == |l.ordinalIndexes| && |blank| == l.width && NoBinary(blank)
    ensures var cells := WriteKey(l.ordinalIndexes, blank, key);
      |cells| == l.width && NoBinary(cells) && HasKeyAt(cells, l.ordinalIndexes) && KeyAt(cells, l.ordinalIndexes) == key
  {
    var cells := WriteKey(l.ordinalIndexes, blank, key);
    forall c | 0 <= c < |cells| ensures !cells[c].Binary? {
      if c in l.ordinalIndexes {
        var i :| 0 <= i < |l.ordinalIndexes| && l.ordinalIndexes[i] == c;
        assert cells[l.ordinalIndexes[i]] == Text(key[i]);
      }
    }
  }

  /** The lineage an existing row is found under, registering an untouched batch-start row. */
  function FindRow(l: Layout, st: State, key: Key, sequence: nat, live: bool, moved: NormalizeError)
    : (r: Result<(State, nat), NormalizeError>)
    requires Coherent(l, st) && Stampable(st, sequence) && |key| == |l.ordinalIndexes|
    ensures r.Ok? ==> Coherent(l, r.value.0) && r.value.1 < |r.value.0.lineages|
    ensures r.Ok? && live ==> r.value.0.lineages[r.value.1].currentKey == Some(key)
    ensures r.Err? ==> r.error == moved
  {
    if key in st.currentByKey then Ok((st, st.currentByKey[key]))
    else if key in st.originByKey then Err(moved)
    else Ok((NewBaseline(l, st, key, sequence, live), |st.lineages|))
  }

  /** Both keys of an update are read before its row is looked up. */
  function UpdateKeys(l: Layout, oldKey: Option<Tuple>, updated: Tuple): (r: Result<Key, NormalizeError>)
    requires l.Valid() && |updated| == l.width
    ensures r.Ok? ==> |r.value| == |l.ordinalIndexes|
    ensures r.Err? ==> !r.error.Ambiguous()
  {
    match oldKey
    case None => KeyFromUpdateTuple(l, updated, None, 0)
    case Some(tuple) =>
      match KeyFromOldTuple(l, tuple)
      case Err(e) => Err(e)
      case Ok(key) =>
        match KeyFromUpdateTuple(l, updated, Some(key), 0)
        case Err(e) => Err(e)
        case Ok(_) => Ok(key)
  }

  function UpdateStep(l: Layout, st: State, oldKey: Option<Tuple>, updated: Tuple, sequence: nat): (r: Stepped)
    requires Coherent(l, st) && Stampable(st, sequence)
    ensures r.error.None? ==> Coherent(l, r.state)
  {
    match ValidateNewTuple(l, updated, UpdateTuple)
    case Some(e) => Stepped(st, Some(e))
    case None =>
      match UpdateKeys(l, oldKey, updated)
      case Err(e) => Stepped(st, Some(e))
      case Ok(lookup) =>
        match FindRow(l, st, lookup, sequence, true, UpdateReferencesMovedKey)
        case Err(e) => Stepped(st, Some(e))
        case Ok((found, index)) => MergeInto(l, found, index, updated)
  }

  /** Merges the update into its live lineage and moves it when its key changed. */
  function MergeInto(l: Layout, st: State, index: nat, updated: Tuple): (r: Stepped)
    requires Coherent(l, st) && index < |st.lineages| && st.lineages[index].currentKey.Some?
    requires |updated| == l.width && NoBinary(updated)
    ensures r.error.None? ==> Coherent(l, r.state)
  {
    LineageWidth(l, st, index);
    var cells := MergeCells(st.lineages[index].cells, updated);
    MergedCoherent(l, st, index, cells);
    Merged(l, st, index, cells)
  }

  function Merged(l: Layout, st: State, index: nat, cells: Tuple): Stepped
    requires l.Valid() && index < |st.lineages| && st.lineages[index].currentKey.Some? && |cells| == l.width
  {
    match KeyFromCells(l, cells, UpdateTuple)
    case Err(e) => Stepped(SetCells(st, index, cells), Some(e))
    case Ok(finalKey) =>
      if finalKey == st.lineages[index].currentKey.value then Stepped(SetCells(st, index, cells), None)
      else if finalKey in st.currentByKey && st.currentByKey[finalKey] != index then
        Stepped(SetCells(st, index, cells), Some(UpdateTargetsLiveKey))
      else if finalKey in st.originByKey && st.originByKey[finalKey] != index then
        Stepped(SetCells(st, index, cells), Some(UpdateReusesStartKey))
      else
        Stepped(Placed(SetCells(Killed(st, index), index, cells), index, finalKey), None)
  }

  lemma LineageWidth(l: Layout, st: State, index: nat)
    requires Coherent(l, st) && index < |st.lineages|
    ensures |st.lineages[index].cells| == l.width && l.Valid() && NoBinary(st.lineages[index].cells)
  {
    hide HasKeyAt, KeyAt, NoBinary, Complete, Indexed, Ordered;
    assert LineageOk(l, st.lineages[index]);
  }

  lemma MergedCoherent(l: Layout, st: State, index: nat, cells: Tuple)
    requires Coherent(l, st) && index < |st.lineages| && st.lineages[index].currentKey.Some?
    requires |cells| == l.width && NoBinary(cells) && (Complete(st.lineages[index].cells) ==> Complete(cells))
    ensures Merged(l, st, index, cells).error.None? ==> Coherent(l, Merged(l, st, index, cells).state)
  {
    hide HasKeyAt, KeyAt, NoBinary, Complete;
    if Merged(l, st, index, cells).error.None? {
      var key := KeyFromCells(l, cells, UpdateTuple).value;
      assert LineageOk(l, st.lineages[index]);
      if key == st.lineages[index].currentKey.value {
        SetCellsCoherent(l, st, index, cells);
      } else {
        var killed := Killed(st, index);
        KilledCoherent(l, st, index);
        SetCellsCoherent(l, killed, index, cells);
        PlacedCoherent(l, SetCells(killed, index, cells), index, key);
      }
    }
  }

  function DeleteStep(l: Layout, st: State, tuple: Tuple, sequence: nat): (r: Stepped)
    requires Coherent(l, st) && Stampable(st, sequence)
    ensures r.error.None? ==> Coherent(l, r.state)
  {
    match KeyFromOldTuple(l, tuple)
    case Err(e) => Stepped(st, Some(e))
    case Ok(key) =>
      match FindRow(l, st, key, sequence, false, DeleteReferencesMovedKey)
      case Err(e) => Stepped(st, Some(e))
      case Ok((found, index)) =>
        KilledCoherent(l, found, index);
        Stepped(Killed(found, index), None)
  }

  function PushStep(schema: TableSchema, st: State, change: TableChange): (r: Stepped)
    requires Coherent(LayoutOf(schema), st)
    ensures r.error.None? ==> Coherent(LayoutOf(schema), r.state)
  {
    if change.relationId != schema.relationId then
      Stepped(st, Some(RelationMismatch(schema.relationId, change.relationId)))
    else if change.generation != schema.generation then
      Stepped(st, Some(GenerationMismatch(change.relationId, schema.generation, change.generation)))
    else
      ChangeStep(LayoutOf(schema), Tick(LayoutOf(schema), st), change.change, st.sequence)
  }

  function Tick(l: Layout, st: State): (r: State)
    requires Coherent(l, st)
    ensures Coherent(l, r) && Stampable(r, st.sequence) && r == st.(sequence := r.sequence)
  {
    st.(sequence := SaturatingAdd(st.sequence, 1))
  }

  function ChangeStep(l: Layout, st: State, change: RowChange, sequence: nat): (r: Stepped)
    requires Coherent(l, st) && Stampable(st, sequence)
    ensures r.error.None? ==> Coherent(l, r.state)
  {
    match change
    case Insert(row) => InsertStep(l, st, row, sequence)
    case Update(oldKey, updated) => UpdateStep(l, st, oldKey, updated, sequence)
    case Delete(tuple) => DeleteStep(l, st, tuple, sequence)
  }

  function PushAll(schema: TableSchema, st: State, changes: seq<TableChange>): (r: Stepped)
    requires Coherent(LayoutOf(schema), st)
    ensures r.error.None? ==> Coherent(LayoutOf(schema), r.state)
    decreases |changes|
  {
    if changes == [] then Stepped(st, None)
    else
      var s := PushStep(schema, st, changes[0]);
      if s.error.Some? then s else PushAll(schema, s.state, changes[1..])
  }

  // ---- Emitting staging rows ------------------------------------------------------------------

  /** One step of a stable insertion sort by first sequence. */
  function InsertBySequence(sorted: seq<Lineage>, g: Lineage): seq<Lineage> {
    if sorted == [] then [g]
    else
      var last := |sorted| - 1;
      if sorted[last].firstSequence <= g.firstSequence then sorted + [g]
      else InsertBySequence(sorted[..last], g) + [sorted[last]]
  }

  function SortBySequence(lineages: seq<Lineage>): seq<Lineage> {
    if lineages == [] then []
    else InsertBySequence(SortBySequence(lineages[..|lineages| - 1]), lineages[|lineages| - 1])
  }

  lemma {:induction false} SortedAlready(lineages: seq<Lineage>)
    requires forall i, j | 0 <= i < j < |lineages| :: lineages[i].firstSequence <= lineages[j].firstSequence
    ensures SortBySequence(lineages) == lineages
    decreases |lineages|
  {
    if lineages != [] {
      SortedAlready(lineages[..|lineages| - 1]);
    }
  }

  /** The staging row a lineage ends in, if it ends in one. */
  function RowOf(l: Layout, currentByKey: map<Key, nat>, g: Lineage): Option<Result<StagingRow, NormalizeError>>
    requires l.Valid() && (g.originKey.Some? ==> |g.originKey.value| == |l.ordinalIndexes|)
  {
    match (g.originKey, g.currentKey)
    case (None, None) => None
    case (None, Some(_)) =>
      Some(match FindUnchanged(g.cells) case Some(i) => Err(IncompleteInsert(i)) case None => Ok(StagingRow(Upsert, g.cells, None)))
    case (Some(origin), Some(current)) =>
      Some(Ok(if origin == current then StagingRow(Upsert, g.cells, None) else StagingRow(Move, g.cells, Some(KeyCells(origin)))))
    case (Some(origin), None) =>
      if origin in currentByKey then None
      else Some(Ok(StagingRow(Remove, WriteKey(l.ordinalIndexes, seq(l.width, i => UnchangedToast), origin), None)))
  }

  ghost predicate OriginWidths(l: Layout, lineages: seq<Lineage>) {
    forall i | 0 <= i < |lineages| && lineages[i].originKey.Some? :: |lineages[i].originKey.value| == |l.ordinalIndexes|
  }

  function FinishFrom(l: Layout, currentByKey: map<Key, nat>, lineages: seq<Lineage>, i: nat): Result<seq<StagingRow>, NormalizeError>
    requires l.Valid() && i <= |lineages|
    requires OriginWidths(l, lineages)
    decreases |lineages| - i
  {
    if i == |lineages| then Ok([])
    else match RowOf(l, currentByKey, lineages[i])
      case None => FinishFrom(l, currentByKey, lineages, i + 1)
      case Some(Err(e)) => Err(e)
      case Some(Ok(row)) =>
        match FinishFrom(l, currentByKey, lineages, i + 1)
        case Err(e) => Err(e)
        case Ok(rest) => Ok([row] + rest)
  }

  function Finish(l: Layout, st: State): Result<seq<StagingRow>, NormalizeError>
    requires Coherent(l, st)
  {
    SortedAlready(st.lineages);
    FinishFrom(l, st.currentByKey, SortBySequence(st.lineages), 0)
  }

  lemma InitialCoherent(l: Layout)
    requires l.Valid()
    ensures Coherent(l, Initial)
  {
  }

  /** The whole of `normalize_table_changes`. */
  function NormalizeTableChanges(schema: TableSchema, changes: seq<TableChange>): Result<seq<StagingRow>, NormalizeError> {
    if !schema.supported || OrdinalIndexes(schema) == [] then Err(UnsupportedSchema)
    else
      InitialCoherent(LayoutOf(schema));
      var s := PushAll(schema, Initial, changes);
      if s.error.Some? then Err(s.error.value) else Finish(LayoutOf(schema), s.state)
  }

  // ---- Contradictions are refused -------------------------------------------------------------

  /** A key that has just been inserted cannot be inserted again. */
  lemma SecondInsertRefused(l: Layout, st: State, row: Tuple, again: Tuple, sequence: nat)
    requires Coherent(l, st) && Stampable(st, sequence) && InsertStep(l, st, row, sequence).error.None?
    requires |again| == l.width && NoBinary(again) && Complete(again) && HasKeyAt(again, l.ordinalIndexes)
    requires KeyAt(again, l.ordinalIndexes) == KeyAt(row, l.ordinalIndexes)
    ensures Stampable(InsertStep(l, st, row, sequence).state, sequence)
    ensures InsertStep(l, InsertStep(l, st, row, sequence).state, again, sequence).error == Some(InsertTargetsLiveKey)
  {
    hide Coherent, HasKeyAt, KeyAt, NoBinary, Complete;
  }

  /** A batch-start row that was deleted cannot be deleted or updated again before something is inserted there. */
  lemma DeletedRowIsGone(l: Layout, st: State, tuple: Tuple, updated: Tuple, sequence: nat)
    requires Coherent(l, st) && Stampable(st, sequence) && DeleteStep(l, st, tuple, sequence).error.None?
    requires KeyFromOldTuple(l, tuple).Ok? && KeyFromOldTuple(l, tuple).value in DeleteStep(l, st, tuple, sequence).state.originByKey
    ensures Stampable(DeleteStep(l, st, tuple, sequence).state, sequence)
    ensures var next := DeleteStep(l, st, tuple, sequence).state;
      && DeleteStep(l, next, tuple, sequence).error == Some(DeleteReferencesMovedKey)
      && UpdateStep(l, next, Some(tuple), updated, sequence).error.Some?
  {
    hide HasKeyAt, KeyAt, NoBinary, Complete, KeyFromOldTuple, Ordered, OriginIndexed, StartKeysRespected;
    var key := KeyFromOldTuple(l, tuple).value;
    var found := FindRow(l, st, key, sequence, false, DeleteReferencesMovedKey).value;
    assert key !in Killed(found.0, found.1).currentByKey;
  }
}
