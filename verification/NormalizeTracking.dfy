/** The normalizer, which never sees the table, tracks the sequential meaning of the changes. */
module NormalizeTracking {
  import opened Core
  import opened PrimaryKey
  import opened RowChanges
  import opened Normalize

  /** The row a lineage stands for, given the table the batch started from. */
  function Materialize(start: Table, g: Lineage): Tuple {
    if g.originKey.Some? && g.originKey.value in start && |start[g.originKey.value]| == |g.cells|
    then MergeCells(start[g.originKey.value], g.cells) else g.cells
  }

  /** How `start` has become `rows` at one key: an indexed row reads through its lineage, every other
      row is untouched, and `started` names the batch-start key each row descends from. */
  ghost predicate MeaningAt(start: Table, rows: Table, started: map<Key, Option<Key>>, st: State, k: Key) {
    && (k in st.originByKey ==> k in start)
    && (k in rows <==> k in started)
    && (k in st.currentByKey ==>
          k in rows && st.currentByKey[k] < |st.lineages| && rows[k] == Materialize(start, st.lineages[st.currentByKey[k]]))
    && (k in rows && k !in st.currentByKey ==> k in start && rows[k] == start[k] && k !in st.originByKey)
    && (k in start && k !in st.originByKey ==> k in rows && k !in st.currentByKey)
    && (k in rows ==> started[k] == StartOf(st, k))
  }

  ghost predicate Meaning(start: Table, rows: Table, started: map<Key, Option<Key>>, st: State) {
    forall k :: MeaningAt(start, rows, started, st, k)
  }

  /** The batch-start key of the row now stored at `k`, if it has one. */
  function StartOf(st: State, k: Key): Option<Key> {
    if k in st.currentByKey && st.currentByKey[k] < |st.lineages| then st.lineages[st.currentByKey[k]].originKey
    else Some(k)
  }

  // ---- Provenance: which batch-start row each stored row descends from ------------------------

  /** A table with, for each row, the key its batch-start row had. A row inserted where a deleted
      batch-start row used to be takes that row's place. */
  datatype Trace = Trace(rows: Table, started: map<Key, Option<Key>>)

  function TraceFrom(start: Table): Trace {
    Trace(start, map k | k in start :: Some(k))
  }

  /** Old and new key of an update, when it changes an existing row. */
  function UpdateMove(l: Layout, t: Table, oldKey: Option<Tuple>, updated: Tuple): Option<(Key, Key)>
    requires l.Valid()
  {
    if |updated| != l.width then None
    else match UpdateLookup(l, oldKey, updated)
      case Err(_) => None
      case Ok(key) =>
        if key !in t || |t[key]| != l.width then None
        else Some((key, KeyAt(MergeCells(t[key], updated), l.ordinalIndexes)))
  }

  /** The one refusal: an update moves a row onto a key at which a different row started the batch. */
  predicate LandsOnStartKey(l: Layout, start: Table, tr: Trace, change: RowChange)
    requires l.Valid()
  {
    match change
    case Update(oldKey, updated) =>
      var move := UpdateMove(l, tr.rows, oldKey, updated);
      && move.Some? && move.value.0 in tr.started
      && move.value.1 != move.value.0 && move.value.1 in start && tr.started[move.value.0] != Some(move.value.1)
    case _ => false
  }

  function TraceChange(l: Layout, start: Table, tr: Trace, change: RowChange): Trace
    requires l.Valid() && ApplyChange(l, tr.rows, change).Some? && tr.started.Keys == tr.rows.Keys
  {
    var rows := ApplyChange(l, tr.rows, change).value;
    match change
    case Insert(row) =>
      var key := KeyAt(row, l.ordinalIndexes);
      var vacated := key in start && forall k | k in tr.started :: tr.started[k] != Some(key);
      Trace(rows, tr.started[key := if vacated then Some(key) else None])
    case Update(oldKey, updated) =>
      var move := UpdateMove(l, tr.rows, oldKey, updated).value;
      Trace(rows, (tr.started - {move.0})[move.1 := tr.started[move.0]])
    case Delete(tuple) => Trace(rows, tr.started - {KeyFromOldTuple(l, tuple).value})
  }

  /** No change of the list lands on another row's batch-start key. */
  ghost predicate NeverLandsOnStartKey(l: Layout, start: Table, tr: Trace, changes: seq<TableChange>)
    requires l.Valid() && tr.started.Keys == tr.rows.Keys && ApplyChanges(l, tr.rows, changes).Some?
    decreases |changes|
  {
    changes == [] ||
    (&& !LandsOnStartKey(l, start, tr, changes[0].change)
     && (TraceChangeKeys(l, start, tr, changes[0].change);
         NeverLandsOnStartKey(l, start, TraceChange(l, start, tr, changes[0].change), changes[1..])))
  }

  lemma TraceChangeKeys(l: Layout, start: Table, tr: Trace, change: RowChange)
    requires l.Valid() && ApplyChange(l, tr.rows, change).Some? && tr.started.Keys == tr.rows.Keys
    ensures TraceChange(l, start, tr, change).started.Keys == TraceChange(l, start, tr, change).rows.Keys
    ensures TraceChange(l, start, tr, change).rows == ApplyChange(l, tr.rows, change).value
  {
  }

  // ---- What each index change means -----------------------------------------------------------

  lemma SetCellsIndexed(st: State, index: nat, cells: Tuple)
    requires Indexed(st) && index < |st.lineages|
    ensures Indexed(SetCells(st, index, cells))
  {
  }

  lemma OverwriteMeaning(start: Table, rows: Table, started: map<Key, Option<Key>>, st: State, key: Key, index: nat, cells: Tuple)
    requires Indexed(st) && Meaning(start, rows, started, st) && index < |st.lineages|
    requires st.lineages[index].currentKey == Some(key)
    ensures Meaning(start, rows[key := Materialize(start, st.lineages[index].(cells := cells))], started, SetCells(st, index, cells))
  {
    hide Materialize;
    var r, rows' := SetCells(st, index, cells), rows[key := Materialize(start, st.lineages[index].(cells := cells))];
    forall k ensures MeaningAt(start, rows', started, r, k) {
      assert MeaningAt(start, rows, started, st, k);
    }
  }

  lemma OverwriteDeadMeaning(start: Table, rows: Table, started: map<Key, Option<Key>>, st: State, index: nat, cells: Tuple)
    requires Indexed(st) && Meaning(start, rows, started, st) && index < |st.lineages|
    requires st.lineages[index].currentKey == None
    ensures Meaning(start, rows, started, SetCells(st, index, cells))
  {
    hide Materialize;
    forall k ensures MeaningAt(start, rows, started, SetCells(st, index, cells), k) {
      assert MeaningAt(start, rows, started, st, k);
    }
  }

  lemma KillMeaning(start: Table, rows: Table, started: map<Key, Option<Key>>, st: State, key: Key, index: nat)
    requires Indexed(st) && Meaning(start, rows, started, st) && index < |st.lineages|
    requires st.lineages[index].currentKey == Some(key)
    ensures Meaning(start, rows - {key}, started - {key}, Killed(st, index))
  {
    hide Materialize;
    forall k ensures MeaningAt(start, rows - {key}, started - {key}, Killed(st, index), k) {
      assert MeaningAt(start, rows, started, st, k);
    }
  }

  lemma PlaceMeaning(start: Table, rows: Table, started: map<Key, Option<Key>>, st: State, key: Key, index: nat)
    requires Indexed(st) && Meaning(start, rows, started, st) && index < |st.lineages|
    requires st.lineages[index].currentKey == None && key !in rows
    ensures Meaning(start, rows[key := Materialize(start, st.lineages[index])],
                    started[key := st.lineages[index].originKey], Placed(st, index, key))
  {
    SameMaterial(start, st.lineages[index], st.lineages[index].(currentKey := Some(key)));
    hide Materialize;
    var rows', started' := rows[key := Materialize(start, st.lineages[index])], started[key := st.lineages[index].originKey];
    forall k ensures MeaningAt(start, rows', started', Placed(st, index, key), k) {
      assert MeaningAt(start, rows, started, st, k);
    }
  }

  lemma AppendMeaning(start: Table, rows: Table, started: map<Key, Option<Key>>, st: State, key: Key, row: Tuple, sequence: nat)
    requires Indexed(st) && Meaning(start, rows, started, st) && key !in rows
    ensures Meaning(start, rows[key := row], started[key := None], Appended(st, Lineage(None, Some(key), row, sequence)))
  {
    var g := Lineage(None, Some(key), row, sequence);
    assert Materialize(start, g) == row;
    hide Materialize;
    var rows', started' := rows[key := row], started[key := None];
    forall k ensures MeaningAt(start, rows', started', Appended(st, g), k) {
      assert MeaningAt(start, rows, started, st, k);
    }
  }

  lemma AppendBaselineMeaning(start: Table, rows: Table, started: map<Key, Option<Key>>, st: State, g: Lineage, key: Key)
    requires Indexed(st) && Meaning(start, rows, started, st) && key in rows && key !in st.currentByKey
    requires key in start && g.originKey == g.currentKey == Some(key) && Materialize(start, g) == start[key]
    ensures Meaning(start, rows, started, Appended(st, g))
  {
    hide Materialize;
    assert MeaningAt(start, rows, started, st, key);
    forall k ensures MeaningAt(start, rows, started, Appended(st, g), k) {
      assert MeaningAt(start, rows, started, st, k);
    }
  }

  lemma AppendDeadMeaning(start: Table, rows: Table, started: map<Key, Option<Key>>, st: State, g: Lineage, key: Key)
    requires Indexed(st) && Meaning(start, rows, started, st) && key in rows && key !in st.currentByKey
    requires g.originKey == Some(key) && g.currentKey == None
    ensures Meaning(start, rows - {key}, started - {key}, Appended(st, g))
  {
    hide Materialize;
    assert MeaningAt(start, rows, started, st, key);
    forall k ensures MeaningAt(start, rows - {key}, started - {key}, Appended(st, g), k) {
      assert MeaningAt(start, rows, started, st, k);
    }
  }

  lemma SameMaterial(start: Table, a: Lineage, b: Lineage)
    requires a.originKey == b.originKey && a.cells == b.cells
    ensures Materialize(start, a) == Materialize(start, b)
  {
  }

  lemma ReviveMeaning(start: Table, rows: Table, started: map<Key, Option<Key>>, st: State, key: Key, index: nat, cells: Tuple)
    requires Indexed(st) && Meaning(start, rows, started, st) && index < |st.lineages|
    requires st.lineages[index].currentKey == None && key !in rows
    ensures Meaning(start, rows[key := Materialize(start, st.lineages[index].(cells := cells))],
                    started[key := st.lineages[index].originKey], Placed(SetCells(st, index, cells), index, key))
  {
    SetCellsIndexed(st, index, cells);
    OverwriteDeadMeaning(start, rows, started, st, index, cells);
    hide Indexed, Meaning, Materialize;
    PlaceMeaning(start, rows, started, SetCells(st, index, cells), key, index);
  }

  lemma MoveMeaning(start: Table, tr: Trace, st: State, key: Key, newKey: Key, index: nat, cells: Tuple)
    requires Indexed(st) && Meaning(start, tr.rows, tr.started, st)
    requires index < |st.lineages| && st.lineages[index].currentKey == Some(key)
    requires newKey != key && newKey !in tr.rows && key in tr.started
    ensures Meaning(start, (tr.rows - {key})[newKey := Materialize(start, st.lineages[index].(cells := cells))],
                    (tr.started - {key})[newKey := st.lineages[index].originKey],
                    Placed(SetCells(Killed(st, index), index, cells), index, newKey))
  {
    KillIndexes(st, index);
    KillMeaning(start, tr.rows, tr.started, st, key, index);
    hide Indexed, Meaning, Materialize;
    ReviveMeaning(start, tr.rows - {key}, tr.started - {key}, Killed(st, index), newKey, index, cells);
    SameMaterial(start, Killed(st, index).lineages[index].(cells := cells), st.lineages[index].(cells := cells));
  }

  // ---- One change -----------------------------------------------------------------------------

  ghost predicate Traced(l: Layout, start: Table, tr: Trace, st: State) {
    Coherent(l, st) && TableOk(l, start) && TableOk(l, tr.rows) && Meaning(start, tr.rows, tr.started, st)
  }

  /** A batch-start row is dead exactly when no stored row descends from it. */
  lemma DeadOrigin(start: Table, rows: Table, started: map<Key, Option<Key>>, st: State, key: Key)
    requires Indexed(st) && Meaning(start, rows, started, st) && key !in rows
    ensures key !in st.currentByKey
    ensures key in st.originByKey <==> key in start
    ensures key in st.originByKey ==> st.originByKey[key] < |st.lineages| && st.lineages[st.originByKey[key]].originKey == Some(key)
    ensures key in st.originByKey ==>
      (st.lineages[st.originByKey[key]].currentKey.None? <==> forall k | k in started :: started[k] != Some(key))
  {
    hide Materialize;
    assert MeaningAt(start, rows, started, st, key);
    if key in st.originByKey {
      var g := st.lineages[st.originByKey[key]];
      if g.currentKey.Some? {
        assert MeaningAt(start, rows, started, st, g.currentKey.value);
      } else {
        forall k | k in started ensures started[k] != Some(key) {
          assert MeaningAt(start, rows, started, st, k);
          assert k in st.currentByKey ==> st.lineages[st.currentByKey[k]].currentKey == Some(k);
        }
      }
    }
  }

  lemma InsertTraced(l: Layout, start: Table, tr: Trace, st: State, row: Tuple, sequence: nat)
    requires Traced(l, start, tr, st) && tr.started.Keys == tr.rows.Keys && Stampable(st, sequence) && ApplyChange(l, tr.rows, Insert(row)).Some?
    ensures var s := InsertStep(l, st, row, sequence);
      s.error.None? && Traced(l, start, TraceChange(l, start, tr, Insert(row)), s.state)
  {
    var key := KeyAt(row, l.ordinalIndexes);
    ApplyChangeKeepsTableOk(l, tr.rows, Insert(row));
    DeadOrigin(start, tr.rows, tr.started, st, key);
    assert Complete(row) && NoBinary(row) && |row| == l.width && HasKeyAt(row, l.ordinalIndexes);
    assert ApplyChange(l, tr.rows, Insert(row)) == Some(tr.rows[key := row]);
    MeaningDomains(start, tr.rows, tr.started, st);
    hide Coherent, Meaning, Materialize, TableOk, HasKeyAt, KeyAt, FullRow, ApplyChange, Complete, NoBinary, Placed, SetCells, Appended;
    if key in st.originByKey && st.lineages[st.originByKey[key]].currentKey.None? {
      var i := st.originByKey[key];
      CompleteMaterializes(start, st.lineages[i].(cells := row));
      ReviveMeaning(start, tr.rows, tr.started, st, key, i, row);
    } else {
      AppendMeaning(start, tr.rows, tr.started, st, key, row, sequence);
    }
  }

  lemma MeaningDomains(start: Table, rows: Table, started: map<Key, Option<Key>>, st: State)
    requires Meaning(start, rows, started, st)
    ensures rows.Keys == started.Keys
    ensures forall k | k in st.currentByKey :: k in rows && st.currentByKey[k] < |st.lineages| && started[k] == st.lineages[st.currentByKey[k]].originKey
  {
    hide Materialize;
    forall k ensures k in rows <==> k in started
             ensures k in st.currentByKey ==> k in rows && st.currentByKey[k] < |st.lineages| && started[k] == st.lineages[st.currentByKey[k]].originKey
    {
      assert MeaningAt(start, rows, started, st, k);
    }
  }

  lemma CompleteMaterializes(start: Table, g: Lineage)
    requires Complete(g.cells)
    ensures Materialize(start, g) == g.cells
  {
  }

  lemma BlankMaterializes(l: Layout, start: Table, key: Key, g: Lineage)
    requires l.Valid() && TableOk(l, start) && key in start && |key| == |l.ordinalIndexes|
    requires g.originKey == Some(key)
    requires g.cells == WriteKey(l.ordinalIndexes, seq(l.width, i => UnchangedToast), key)
    ensures Materialize(start, g) == start[key]
  {
    assert FullRow(l, start[key]) && KeyAt(start[key], l.ordinalIndexes) == key;
    hide TableOk, FullRow, HasKeyAt, KeyAt, WriteKey;
    KeyOverOwnRow(l, start[key], key);
  }

  /** Writing a row's own key over blanks and merging that into the row changes nothing. */
  lemma KeyOverOwnRow(l: Layout, row: Tuple, key: Key)
    requires l.Valid() && FullRow(l, row) && KeyAt(row, l.ordinalIndexes) == key
    ensures |row| == l.width && MergeCells(row, WriteKey(l.ordinalIndexes, seq(l.width, i => UnchangedToast), key)) == row
  {
    var cells := WriteKey(l.ordinalIndexes, seq(l.width, i => UnchangedToast), key);
    forall c | 0 <= c < |row| ensures cells[c].UnchangedToast? || cells[c] == row[c] {
      if c in l.ordinalIndexes {
        var i :| 0 <= i < |l.ordinalIndexes| && l.ordinalIndexes[i] == c;
        assert cells[l.ordinalIndexes[i]] == Text(key[i]);
        assert row[l.ordinalIndexes[i]].Text?;
      }
    }
    hide WriteKey, KeyAt, HasKeyAt;
  }

  /** Finding the row of a stored key never fails, and registering it changes no meaning. */
  lemma FoundRowTraced(l: Layout, start: Table, tr: Trace, st: State, key: Key, sequence: nat, moved: NormalizeError)
    requires Traced(l, start, tr, st) && Stampable(st, sequence) && key in tr.rows && |key| == |l.ordinalIndexes|
    ensures var found := FindRow(l, st, key, sequence, true, moved);
      && found.Ok? && Traced(l, start, tr, found.value.0)
      && found.value.0.lineages[found.value.1].currentKey == Some(key)
  {
    hide Materialize;
    assert MeaningAt(start, tr.rows, tr.started, st, key);
    if key !in st.currentByKey {
      var found := FindRow(l, st, key, sequence, true, moved).value.0;
      var g := found.lineages[|st.lineages|];
      BlankMaterializes(l, start, key, g);
      AppendBaselineMeaning(start, tr.rows, tr.started, st, g, key);
    }
  }

  /** Key cells are always present in a live lineage, so they read the same from lineage and row. */
  lemma KeysOfMerge(l: Layout, start: Table, g: Lineage)
    requires l.Valid() && |g.cells| == l.width
    requires forall i | 0 <= i < |l.ordinalIndexes| :: !g.cells[l.ordinalIndexes[i]].UnchangedToast?
    ensures var row := Materialize(start, g);
      && |row| == l.width
      && (HasKeyAt(g.cells, l.ordinalIndexes) <==> HasKeyAt(row, l.ordinalIndexes))
      && KeyAt(g.cells, l.ordinalIndexes) == KeyAt(row, l.ordinalIndexes)
  {
    var row := Materialize(start, g);
    forall i | 0 <= i < |l.ordinalIndexes| ensures row[l.ordinalIndexes[i]] == g.cells[l.ordinalIndexes[i]] {}
  }

  lemma MergeMaterializes(start: Table, g: Lineage, updated: Tuple)
    requires |updated| == |g.cells|
    ensures |Materialize(start, g)| == |updated|
    ensures Materialize(start, g.(cells := MergeCells(g.cells, updated))) == MergeCells(Materialize(start, g), updated)
  {
    if g.originKey.Some? && g.originKey.value in start && |start[g.originKey.value]| == |g.cells| {
      MergeAssociates(start[g.originKey.value], g.cells, updated);
    }
  }

  /** What a valid update means for the lineage of its row. */
  lemma ValidMerge(l: Layout, start: Table, rows: Table, g: Lineage, key: Key, updated: Tuple, oldKey: Option<Tuple>)
    requires l.Valid() && LineageOk(l, g) && g.currentKey == Some(key) && key in rows && rows[key] == Materialize(start, g)
    requires ApplyChange(l, rows, Update(oldKey, updated)).Some? && UpdateLookup(l, oldKey, updated) == Ok(key)
    ensures |updated| == l.width && NoBinary(updated)
    ensures var cells, row := MergeCells(g.cells, updated), MergeCells(rows[key], updated);
      && row == Materialize(start, g.(cells := cells))
      && KeyFromCells(l, cells, UpdateTuple) == Ok(KeyAt(row, l.ordinalIndexes))
      && UpdateMove(l, rows, oldKey, updated) == Some((key, KeyAt(row, l.ordinalIndexes)))
      && ApplyChange(l, rows, Update(oldKey, updated)) == Some((rows - {key})[KeyAt(row, l.ordinalIndexes) := row])
      && (KeyAt(row, l.ordinalIndexes) == key || KeyAt(row, l.ordinalIndexes) !in rows)
  {
    MergeMaterializes(start, g, updated);
    KeysOfMerge(l, start, g.(cells := MergeCells(g.cells, updated)));
  }

  lemma MergeTraced(l: Layout, start: Table, tr: Trace, st: State, key: Key, index: nat, updated: Tuple, oldKey: Option<Tuple>)
    requires Traced(l, start, tr, st) && tr.started.Keys == tr.rows.Keys
    requires index < |st.lineages| && st.lineages[index].currentKey == Some(key)
    requires ApplyChange(l, tr.rows, Update(oldKey, updated)).Some? && UpdateLookup(l, oldKey, updated) == Ok(key)
    requires |updated| == l.width && NoBinary(updated)
    ensures var s := MergeInto(l, st, index, updated);
      && (s.error == if LandsOnStartKey(l, start, tr, Update(oldKey, updated)) then Some(UpdateReusesStartKey) else None)
      && (s.error.None? ==> Traced(l, start, TraceChange(l, start, tr, Update(oldKey, updated)), s.state))
  {
    var g := st.lineages[index];
    hide HasKeyAt, KeyAt, ApplyChange, UpdateMove, NoBinary, Materialize, TableOk, LineageOk, MergeInto;
    assert key in st.currentByKey && st.currentByKey[key] == index;
    MeaningDomains(start, tr.rows, tr.started, st);
    assert MeaningAt(start, tr.rows, tr.started, st, key);
    ValidMerge(l, start, tr.rows, g, key, updated, oldKey);
    ApplyChangeKeepsTableOk(l, tr.rows, Update(oldKey, updated));
    var cells, row := MergeCells(g.cells, updated), MergeCells(tr.rows[key], updated);
    var newKey := KeyAt(row, l.ordinalIndexes);
    MergeIntoBranches(l, st, index, updated, cells, newKey);
    MergedMeaning(start, tr, st, key, newKey, index, cells, row);
    if newKey != key {
      DeadOrigin(start, tr.rows, tr.started, st, newKey);
    }
  }

  lemma MergedMeaning(start: Table, tr: Trace, st: State, key: Key, newKey: Key, index: nat, cells: Tuple, row: Tuple)
    requires Indexed(st) && Meaning(start, tr.rows, tr.started, st) && index < |st.lineages|
    requires st.lineages[index].currentKey == Some(key) && row == Materialize(start, st.lineages[index].(cells := cells))
    requires newKey == key || newKey !in tr.rows
    requires key in tr.started && tr.started[key] == st.lineages[index].originKey
    ensures newKey == key ==>
      Meaning(start, (tr.rows - {key})[newKey := row], (tr.started - {key})[newKey := tr.started[key]], SetCells(st, index, cells))
    ensures newKey != key ==>
      Meaning(start, (tr.rows - {key})[newKey := row], (tr.started - {key})[newKey := tr.started[key]],
              Placed(SetCells(Killed(st, index), index, cells), index, newKey))
    ensures newKey in st.originByKey ==> (st.originByKey[newKey] == index <==> tr.started[key] == Some(newKey))
  {
    hide Indexed, Meaning, Materialize;
    if newKey == key {
      OverwriteMeaning(start, tr.rows, tr.started, st, key, index, cells);
      assert (tr.rows - {key})[key := row] == tr.rows[key := row];
      assert (tr.started - {key})[key := tr.started[key]] == tr.started;
    } else {
      MoveMeaning(start, tr, st, key, newKey, index, cells);
    }
    if newKey in st.originByKey { OriginOwner(st, index, newKey); }
  }

  lemma OriginOwner(st: State, index: nat, key: Key)
    requires Indexed(st) && index < |st.lineages| && key in st.originByKey
    ensures st.originByKey[key] == index <==> st.lineages[index].originKey == Some(key)
  {
  }

  /** The outcomes of `MergeInto`, by final key. */
  lemma MergeIntoBranches(l: Layout, st: State, index: nat, updated: Tuple, cells: Tuple, newKey: Key)
    requires Coherent(l, st) && index < |st.lineages| && st.lineages[index].currentKey.Some?
    requires |updated| == l.width && NoBinary(updated) && cells == MergeCells(st.lineages[index].cells, updated)
    requires KeyFromCells(l, cells, UpdateTuple) == Ok(newKey)
    ensures var s, key := MergeInto(l, st, index, updated), st.lineages[index].currentKey.value;
      && (newKey == key ==> s == Stepped(SetCells(st, index, cells), None))
      && (newKey != key && newKey !in st.currentByKey ==>
           if newKey in st.originByKey && st.originByKey[newKey] != index then s.error == Some(UpdateReusesStartKey)
           else s == Stepped(Placed(SetCells(Killed(st, index), index, cells), index, newKey), None))
      && (s.error.None? ==> Coherent(l, s.state))
  {
    hide Indexed, KeyFromCells;
  }

  lemma UpdateTraced(l: Layout, start: Table, tr: Trace, st: State, oldKey: Option<Tuple>, updated: Tuple, sequence: nat)
    requires Traced(l, start, tr, st) && tr.started.Keys == tr.rows.Keys && Stampable(st, sequence) && ApplyChange(l, tr.rows, Update(oldKey, updated)).Some?
    ensures var s := UpdateStep(l, st, oldKey, updated, sequence);
      && (s.error == if LandsOnStartKey(l, start, tr, Update(oldKey, updated)) then Some(UpdateReusesStartKey) else None)
      && (s.error.None? ==> Traced(l, start, TraceChange(l, start, tr, Update(oldKey, updated)), s.state))
  {
    var key := UpdateLookup(l, oldKey, updated).value;
    UpdateKeysAgree(l, tr.rows, oldKey, updated);
    FoundRowTraced(l, start, tr, st, key, sequence, UpdateReferencesMovedKey);
    var found := FindRow(l, st, key, sequence, true, UpdateReferencesMovedKey).value;
    MergeTraced(l, start, tr, found.0, key, found.1, updated, oldKey);
  }

  lemma UpdateKeysAgree(l: Layout, t: Table, oldKey: Option<Tuple>, updated: Tuple)
    requires l.Valid() && ApplyChange(l, t, Update(oldKey, updated)).Some?
    ensures UpdateKeys(l, oldKey, updated) == UpdateLookup(l, oldKey, updated)
  {
    var key := UpdateLookup(l, oldKey, updated).value;
    var row := MergeCells(t[key], updated);
    forall i | 0 <= i < |l.ordinalIndexes|
      ensures updated[l.ordinalIndexes[i]].Text? || updated[l.ordinalIndexes[i]].UnchangedToast?
    {
      assert row[l.ordinalIndexes[i]].Text?;
    }
    if oldKey.None? {
      assert UpdateKeys(l, oldKey, updated).value == KeyAt(updated, l.ordinalIndexes);
    }
  }

  lemma DeleteTraced(l: Layout, start: Table, tr: Trace, st: State, tuple: Tuple, sequence: nat)
    requires Traced(l, start, tr, st) && tr.started.Keys == tr.rows.Keys && Stampable(st, sequence)
    requires ApplyChange(l, tr.rows, Delete(tuple)).Some?
    ensures var s := DeleteStep(l, st, tuple, sequence);
      s.error.None? && Traced(l, start, TraceChange(l, start, tr, Delete(tuple)), s.state)
  {
    var key := KeyFromOldTuple(l, tuple).value;
    ApplyChangeKeepsTableOk(l, tr.rows, Delete(tuple));
    assert ApplyChange(l, tr.rows, Delete(tuple)) == Some(tr.rows - {key}) && key in tr.rows;
    hide Meaning, Indexed, TableOk, LineageOk, ApplyChange, Stampable;
    DeleteMeaning(l, start, tr, st, key, sequence);
  }

  lemma DeleteMeaning(l: Layout, start: Table, tr: Trace, st: State, key: Key, sequence: nat)
    requires Coherent(l, st) && Meaning(start, tr.rows, tr.started, st) && Stampable(st, sequence)
    requires key in tr.rows && |key| == |l.ordinalIndexes|
    ensures var found := FindRow(l, st, key, sequence, false, DeleteReferencesMovedKey);
      && found.Ok?
      && Meaning(start, tr.rows - {key}, tr.started - {key}, Killed(found.value.0, found.value.1))
  {
    hide Materialize, LineageOk, WriteKey;
    assert MeaningAt(start, tr.rows, tr.started, st, key);
    if key in st.currentByKey {
      KillMeaning(start, tr.rows, tr.started, st, key, st.currentByKey[key]);
    } else {
      var found := FindRow(l, st, key, sequence, false, DeleteReferencesMovedKey).value.0;
      AppendDeadMeaning(start, tr.rows, tr.started, st, found.lineages[|st.lineages|], key);
      assert Killed(found, |st.lineages|) == found;
    }
  }

  lemma ChangeTraced(l: Layout, start: Table, tr: Trace, st: State, change: RowChange, sequence: nat)
    requires Traced(l, start, tr, st) && tr.started.Keys == tr.rows.Keys && Stampable(st, sequence) && ApplyChange(l, tr.rows, change).Some?
    ensures var s := ChangeStep(l, st, change, sequence);
      && (s.error == if LandsOnStartKey(l, start, tr, change) then Some(UpdateReusesStartKey) else None)
      && (s.error.None? ==> Traced(l, start, TraceChange(l, start, tr, change), s.state))
  {
    match change
    case Insert(row) => InsertTraced(l, start, tr, st, row, sequence);
    case Update(oldKey, updated) => UpdateTraced(l, start, tr, st, oldKey, updated, sequence);
    case Delete(tuple) => DeleteTraced(l, start, tr, st, tuple, sequence);
  }

  // ---- Whole sequences ------------------------------------------------------------------------

  /** All changes belong to the schema being normalized. */
  ghost predicate OfSchema(schema: TableSchema, changes: seq<TableChange>) {
    forall i | 0 <= i < |changes| :: changes[i].relationId == schema.relationId && changes[i].generation == schema.generation
  }

  lemma PushTraced(schema: TableSchema, start: Table, tr: Trace, st: State, change: TableChange)
    requires change.relationId == schema.relationId && change.generation == schema.generation
    requires Traced(LayoutOf(schema), start, tr, st) && tr.started.Keys == tr.rows.Keys && ApplyChange(LayoutOf(schema), tr.rows, change.change).Some?
    ensures var l, s := LayoutOf(schema), PushStep(schema, st, change);
      && (s.error == if LandsOnStartKey(l, start, tr, change.change) then Some(UpdateReusesStartKey) else None)
      && (s.error.None? ==> Traced(l, start, TraceChange(l, start, tr, change.change), s.state))
      && tr.started.Keys == tr.rows.Keys
  {
    var l := LayoutOf(schema);
    MeaningDomains(start, tr.rows, tr.started, st);
    hide LayoutOf, TableOk, LineageOk, Materialize, ApplyChange;
    var ticked := Tick(l, st);
    forall k ensures MeaningAt(start, tr.rows, tr.started, ticked, k) {
      assert MeaningAt(start, tr.rows, tr.started, st, k);
    }
    ChangeTraced(l, start, tr, ticked, change.change, st.sequence);
  }

  lemma {:induction false} ChangesTraced(schema: TableSchema, start: Table, tr: Trace, st: State, changes: seq<TableChange>)
    requires OfSchema(schema, changes)
    requires Traced(LayoutOf(schema), start, tr, st) && tr.started.Keys == tr.rows.Keys && ApplyChanges(LayoutOf(schema), tr.rows, changes).Some?
    ensures var l, s := LayoutOf(schema), PushAll(schema, st, changes);
      && (s.error == if NeverLandsOnStartKey(l, start, tr, changes) then None else Some(UpdateReusesStartKey))
      && (s.error.None? ==> exists started :: Traced(l, start, Trace(ApplyChanges(l, tr.rows, changes).value, started), s.state))
    decreases |changes|
  {
    hide LayoutOf, Coherent, TableOk, Meaning, ApplyChange, TraceChange, LandsOnStartKey, PushStep;
    var l := LayoutOf(schema);
    if changes == [] {
      assert tr == Trace(tr.rows, tr.started);
    } else {
      var change := changes[0].change;
      PushTraced(schema, start, tr, st, changes[0]);
      var s := PushStep(schema, st, changes[0]);
      if s.error.None? {
        TraceChangeKeys(l, start, tr, change);
        ChangesTraced(schema, start, TraceChange(l, start, tr, change), s.state, changes[1..]);
      }
    }
  }
}
