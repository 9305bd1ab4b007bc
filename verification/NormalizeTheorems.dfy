/** What normalizing a batch guarantees about applying it. */
module NormalizeTheorems {
  import opened Core
  import opened PrimaryKey
  import opened RowChanges
  import opened Normalize
  import opened NormalizeTracking
  import opened Staging

  // ---- Which lineage each emitted row comes from ----------------------------------------------

  /** Indexes, from `i` on, of the lineages that emit a row. */
  function Emitters(l: Layout, currentByKey: map<Key, nat>, lineages: seq<Lineage>, i: nat): seq<nat>
    requires l.Valid() && i <= |lineages|
    requires OriginWidths(l, lineages)
    decreases |lineages| - i
  {
    if i == |lineages| then []
    else (if RowOf(l, currentByKey, lineages[i]).Some? then [i] else []) + Emitters(l, currentByKey, lineages, i + 1)
  }

  ghost predicate EmitsSlice(l: Layout, currentByKey: map<Key, nat>, lineages: seq<Lineage>, i: nat, e: seq<nat>, rows: seq<StagingRow>)
    requires l.Valid() && i <= |lineages|
    requires OriginWidths(l, lineages)
  {
    && |e| == |rows|
    && (forall p | 0 <= p < |e| :: i <= e[p] < |lineages| && RowOf(l, currentByKey, lineages[e[p]]) == Some(Ok(rows[p])))
    && (forall p, q | 0 <= p < q < |e| :: e[p] < e[q])
    && (forall j | i <= j < |lineages| && RowOf(l, currentByKey, lineages[j]).Some? :: j in e)
  }

  lemma EmitsCons(l: Layout, currentByKey: map<Key, nat>, lineages: seq<Lineage>, i: nat, e: seq<nat>, rows: seq<StagingRow>, row: StagingRow)
    requires l.Valid() && i < |lineages|
    requires OriginWidths(l, lineages)
    requires EmitsSlice(l, currentByKey, lineages, i + 1, e, rows) && RowOf(l, currentByKey, lineages[i]) == Some(Ok(row))
    ensures EmitsSlice(l, currentByKey, lineages, i, [i] + e, [row] + rows)
  {
    hide RowOf;
    forall j | i <= j < |lineages| && RowOf(l, currentByKey, lineages[j]).Some? ensures j in [i] + e {
      if j != i { assert j in e; }
    }
  }

  lemma EmitsSkip(l: Layout, currentByKey: map<Key, nat>, lineages: seq<Lineage>, i: nat, e: seq<nat>, rows: seq<StagingRow>)
    requires l.Valid() && i < |lineages|
    requires OriginWidths(l, lineages)
    requires EmitsSlice(l, currentByKey, lineages, i + 1, e, rows) && RowOf(l, currentByKey, lineages[i]).None?
    ensures EmitsSlice(l, currentByKey, lineages, i, e, rows)
  {
    hide RowOf, OriginWidths;
  }

  /** Lineages of inserted rows are complete, so emitting one never fails. */
  ghost predicate InsertedComplete(lineages: seq<Lineage>) {
    forall i | 0 <= i < |lineages| && lineages[i].originKey.None? :: Complete(lineages[i].cells)
  }

  lemma {:induction false} EmittedRows(l: Layout, currentByKey: map<Key, nat>, lineages: seq<Lineage>, i: nat)
    requires l.Valid() && i <= |lineages|
    requires OriginWidths(l, lineages) && InsertedComplete(lineages)
    ensures FinishFrom(l, currentByKey, lineages, i).Ok?
    ensures EmitsSlice(l, currentByKey, lineages, i, Emitters(l, currentByKey, lineages, i),
                       FinishFrom(l, currentByKey, lineages, i).value)
    decreases |lineages| - i
  {
    hide Complete, RowOf;
    if i < |lineages| {
      hide EmitsSlice;
      RowOfOk(l, currentByKey, lineages[i]);
      EmittedRows(l, currentByKey, lineages, i + 1);
      hide OriginWidths, InsertedComplete;
      var e, rest := Emitters(l, currentByKey, lineages, i + 1), FinishFrom(l, currentByKey, lineages, i + 1).value;
      if RowOf(l, currentByKey, lineages[i]).Some? {
        EmitsCons(l, currentByKey, lineages, i, e, rest, RowOf(l, currentByKey, lineages[i]).value.value);
      } else {
        EmitsSkip(l, currentByKey, lineages, i, e, rest);
        assert Emitters(l, currentByKey, lineages, i) == e;
      }
    }
  }

  lemma RowOfOk(l: Layout, currentByKey: map<Key, nat>, g: Lineage)
    requires l.Valid() && (g.originKey.Some? ==> |g.originKey.value| == |l.ordinalIndexes|)
    requires g.originKey.None? ==> Complete(g.cells)
    ensures RowOf(l, currentByKey, g).Some? ==> RowOf(l, currentByKey, g).value.Ok?
  {
  }

  /** Every lineage that emits, its row is in the batch; every row of the batch has its lineage. */
  ghost predicate Emits(l: Layout, st: State, rows: seq<StagingRow>, from: seq<nat>) {
    && Coherent(l, st) && |from| == |rows|
    && (forall p | 0 <= p < |from| :: from[p] < |st.lineages| && RowOf(l, st.currentByKey, st.lineages[from[p]]) == Some(Ok(rows[p])))
    && (forall p, q | 0 <= p < q < |from| :: from[p] != from[q])
    && (forall j | 0 <= j < |st.lineages| && RowOf(l, st.currentByKey, st.lineages[j]).Some? :: j in from)
  }

  lemma FinishEmits(l: Layout, st: State)
    requires Coherent(l, st)
    ensures Finish(l, st).Ok?
    ensures Emits(l, st, Finish(l, st).value, Emitters(l, st.currentByKey, st.lineages, 0))
  {
    hide Indexed, RowOf, EmitsSlice, Emits;
    CoherentEmits(l, st);
    SortedAlready(st.lineages);
    EmittedRows(l, st.currentByKey, st.lineages, 0);
    hide Coherent;
    SliceEmits(l, st, Emitters(l, st.currentByKey, st.lineages, 0), Finish(l, st).value);
  }

  lemma CoherentEmits(l: Layout, st: State)
    requires Coherent(l, st)
    ensures OriginWidths(l, st.lineages) && InsertedComplete(st.lineages)
  {
    hide Indexed, Ordered, Complete, HasKeyAt, KeyAt, NoBinary;
    forall i | 0 <= i < |st.lineages| ensures LineageOk(l, st.lineages[i]) {}
  }

  lemma SliceEmits(l: Layout, st: State, e: seq<nat>, rows: seq<StagingRow>)
    requires Coherent(l, st) && OriginWidths(l, st.lineages)
    requires EmitsSlice(l, st.currentByKey, st.lineages, 0, e, rows)
    ensures Emits(l, st, rows, e)
  {
    hide Coherent, RowOf;
  }

  // ---- The shape of one row -------------------------------------------------------------------

  lemma CellsOfKey(key: Key)
    ensures CellValues(KeyCells(key)) == key
  {
  }

  /** What `RowOf` says of a lineage, in terms of staging keys. */
  lemma RowOfFacts(l: Layout, st: State, i: nat)
    requires Coherent(l, st) && i < |st.lineages| && RowOf(l, st.currentByKey, st.lineages[i]).Some?
    ensures RowOf(l, st.currentByKey, st.lineages[i]).value.Ok?
    ensures var g, r := st.lineages[i], RowOf(l, st.currentByKey, st.lineages[i]).value.value;
      && WellShaped(l, r)
      && match r.operation
         case Upsert => g.currentKey == Some(RowKey(l, r)) && r.cells == g.cells && (g.originKey == None || g.originKey == g.currentKey)
         case Move => g.currentKey == Some(RowKey(l, r)) && r.cells == g.cells && g.originKey == Some(OldKeyOf(r)) && OldKeyOf(r) != RowKey(l, r)
         case Remove => g.currentKey == None && g.originKey == Some(RowKey(l, r)) && RowKey(l, r) !in st.currentByKey
  {
    var g := st.lineages[i];
    assert LineageOk(l, g);
    hide Indexed;
    if g.originKey.Some? {
      CellsOfKey(g.originKey.value);
      if g.currentKey.None? {
        WrittenKeyReads(l, seq(l.width, i => UnchangedToast), g.originKey.value);
      }
    }
  }

  // ---- Any accepted sequence ------------------------------------------------------------------

  lemma EmittedPair(l: Layout, st: State, i: nat, j: nat)
    requires Coherent(l, st) && i < |st.lineages| && j < |st.lineages| && i != j
    requires RowOf(l, st.currentByKey, st.lineages[i]).Some? && RowOf(l, st.currentByKey, st.lineages[j]).Some?
    ensures RowOf(l, st.currentByKey, st.lineages[i]).value.Ok? && RowOf(l, st.currentByKey, st.lineages[j]).value.Ok?
    ensures var a, b := RowOf(l, st.currentByKey, st.lineages[i]).value.value, RowOf(l, st.currentByKey, st.lineages[j]).value.value;
      && RowKey(l, a) != RowKey(l, b)
      && (a.operation == Move && b.operation == Move ==> OldKeyOf(a) != OldKeyOf(b))
      && (a.operation == Move && b.operation != Upsert ==> OldKeyOf(a) != RowKey(l, b))
      && (a.operation == Move && b.operation == Upsert && OldKeyOf(a) == RowKey(l, b) ==> Complete(b.cells))
  {
    RowOfFacts(l, st, i);
    RowOfFacts(l, st, j);
    hide RowOf, WellShaped, RowKey, OldKeyOf, Complete;
    assert LineageOk(l, st.lineages[j]);
    hide LineageOk;
  }

  lemma EmitsCollapsed(l: Layout, st: State, rows: seq<StagingRow>, from: seq<nat>)
    requires Emits(l, st, rows, from)
    ensures Collapsed(l, rows)
  {
    hide Coherent, RowOf, WellShaped, RowKey, OldKeyOf, Complete;
    forall p | 0 <= p < |rows| ensures WellShaped(l, rows[p]) && (rows[p].operation == Move ==> OldKeyOf(rows[p]) != RowKey(l, rows[p])) {
      RowOfFacts(l, st, from[p]);
    }
    forall p, q | 0 <= p < |rows| && 0 <= q < |rows| && p != q
      ensures RowKey(l, rows[p]) != RowKey(l, rows[q])
      ensures rows[p].operation == Move && rows[q].operation == Move ==> OldKeyOf(rows[p]) != OldKeyOf(rows[q])
      ensures rows[p].operation == Move && rows[q].operation != Upsert ==> OldKeyOf(rows[p]) != RowKey(l, rows[q])
      ensures rows[p].operation == Move && rows[q].operation == Upsert && OldKeyOf(rows[p]) == RowKey(l, rows[q]) ==> Complete(rows[q].cells)
    {
      assert p < q ==> from[p] != from[q];
      EmittedPair(l, st, from[p], from[q]);
    }
    CollapsedFromPairs(l, rows);
  }

  lemma CollapsedFromPairs(l: Layout, rows: seq<StagingRow>)
    requires forall p | 0 <= p < |rows| :: WellShaped(l, rows[p]) && (rows[p].operation == Move ==> OldKeyOf(rows[p]) != RowKey(l, rows[p]))
    requires forall p, q | 0 <= p < |rows| && 0 <= q < |rows| && p != q ::
      && RowKey(l, rows[p]) != RowKey(l, rows[q])
      && (rows[p].operation == Move && rows[q].operation == Move ==> OldKeyOf(rows[p]) != OldKeyOf(rows[q]))
      && (rows[p].operation == Move && rows[q].operation != Upsert ==> OldKeyOf(rows[p]) != RowKey(l, rows[q]))
      && (rows[p].operation == Move && rows[q].operation == Upsert && OldKeyOf(rows[p]) == RowKey(l, rows[q]) ==> Complete(rows[q].cells))
    ensures Collapsed(l, rows)
  {
    hide WellShaped, RowKey, OldKeyOf, Complete;
  }

  /** Whatever change list is accepted, valid or not, its staging rows form a collapsed batch: keys
      are pairwise distinct, so are old keys, and no old key is another row's new or deleted key. */
  lemma AcceptedIsCollapsed(schema: TableSchema, changes: seq<TableChange>)
    ensures NormalizeTableChanges(schema, changes).Ok? ==>
      Collapsed(LayoutOf(schema), NormalizeTableChanges(schema, changes).value)
  {
    hide LayoutOf, Collapsed, Emits, PushAll, Finish;
    if NormalizeTableChanges(schema, changes).Ok? {
      var l := LayoutOf(schema);
      InitialCoherent(l);
      var s := PushAll(schema, Initial, changes);
      hide Coherent;
      FinishEmits(l, s.state);
      EmitsCollapsed(l, s.state, Finish(l, s.state).value, Emitters(l, s.state.currentByKey, s.state.lineages, 0));
    }
  }

  // ---- Valid sequences ------------------------------------------------------------------------

  lemma InitialTraced(l: Layout, start: Table)
    requires l.Valid() && TableOk(l, start)
    ensures Traced(l, start, TraceFrom(start), Initial)
    ensures TraceFrom(start).started.Keys == TraceFrom(start).rows.Keys
  {
    InitialCoherent(l);
    hide TableOk, Coherent;
    var tr := TraceFrom(start);
    forall k ensures MeaningAt(start, tr.rows, tr.started, Initial, k) {}
  }

  /** A valid change list is rejected exactly when one of its updates lands on the batch-start key of
      another row; no other rejection can happen, and emitting the rows never fails. */
  lemma RejectsExactlyReusedStartKeys(schema: TableSchema, start: Table, changes: seq<TableChange>)
    requires schema.supported && OrdinalIndexes(schema) != []
    requires OfSchema(schema, changes) && TableOk(LayoutOf(schema), start)
    requires ApplyChanges(LayoutOf(schema), start, changes).Some?
    ensures TraceFrom(start).started.Keys == TraceFrom(start).rows.Keys
    ensures NormalizeTableChanges(schema, changes).Ok? <==>
            NeverLandsOnStartKey(LayoutOf(schema), start, TraceFrom(start), changes)
    ensures NormalizeTableChanges(schema, changes).Err? ==>
            NormalizeTableChanges(schema, changes).error == UpdateReusesStartKey
  {
    hide LayoutOf, TableOk, PushAll, Finish, NeverLandsOnStartKey, Traced, Coherent, ApplyChanges, OrdinalIndexes;
    var l := LayoutOf(schema);
    InitialCoherent(l);
    InitialTraced(l, start);
    ChangesTraced(schema, start, TraceFrom(start), Initial, changes);
    var s := PushAll(schema, Initial, changes);
    if s.error.None? { FinishEmits(l, s.state); }
  }

  /** Emitted rows by key, for the batch of a state that tracks `rows`. */
  lemma BatchAt(l: Layout, start: Table, tr: Trace, st: State, batch: seq<StagingRow>, from: seq<nat>, k: Key)
    requires Traced(l, start, tr, st) && Emits(l, st, batch, from) && Collapsed(l, batch)
    ensures StagedAt(l, start, batch, k) == Lookup(tr.rows, k)
  {
    hide TableOk, Collapsed, WellShaped, RowKey, OldKeyOf, CaseWhen, StagedData, LineageOk, Materialize, RowOf;
    assert MeaningAt(start, tr.rows, tr.started, st, k);
    if k in st.currentByKey {
      LiveAt(l, start, tr, st, batch, from, k);
    } else {
      NotLiveAt(l, st, batch, from, k);
    }
  }

  /** Where the row of lineage `i` stands in the batch. */
  lemma EmittedIn(l: Layout, st: State, batch: seq<StagingRow>, from: seq<nat>, i: nat)
    requires Emits(l, st, batch, from) && i < |st.lineages| && RowOf(l, st.currentByKey, st.lineages[i]).Some?
    ensures RowOf(l, st.currentByKey, st.lineages[i]).value.Ok?
    ensures RowOf(l, st.currentByKey, st.lineages[i]).value.value in batch
  {
    hide Coherent, RowOf;
    assert i in from;
    var p :| 0 <= p < |from| && from[p] == i;
    assert batch[p] in batch;
  }

  lemma EmitterOf(l: Layout, st: State, batch: seq<StagingRow>, from: seq<nat>, r: StagingRow) returns (i: nat)
    requires Emits(l, st, batch, from) && r in batch
    ensures i < |st.lineages| && RowOf(l, st.currentByKey, st.lineages[i]) == Some(Ok(r))
  {
    hide Coherent, RowOf;
    var p :| 0 <= p < |batch| && batch[p] == r;
    i := from[p];
  }

  /** A live key has one staged row, made from its lineage. */
  lemma LiveAt(l: Layout, start: Table, tr: Trace, st: State, batch: seq<StagingRow>, from: seq<nat>, k: Key)
    requires Traced(l, start, tr, st) && Emits(l, st, batch, from) && Collapsed(l, batch) && k in st.currentByKey
    ensures StagedAt(l, start, batch, k) == Lookup(tr.rows, k)
  {
    hide TableOk, Collapsed, WellShaped, RowKey, OldKeyOf, KeysWith, OldKeys, NoBinary;
    var i := st.currentByKey[k];
    var g := st.lineages[i];
    assert LineageOk(l, g) && g.currentKey == Some(k);
    assert MeaningAt(start, tr.rows, tr.started, st, k);
    EmittedIn(l, st, batch, from, i);
    RowOfFacts(l, st, i);
    var r := RowOf(l, st.currentByKey, g).value.value;
    RowAtIs(l, batch, r);
    hide RowOf, Emits;
    if g.originKey.Some? {
      var o := g.originKey.value;
      assert MeaningAt(start, tr.rows, tr.started, st, o);
      StartWidth(l, start, o);
      if r.operation == Move {
        assert k !in start by {
          assert k !in st.originByKey;
        }
        assert StagedAt(l, start, batch, k) == Some(CaseWhen(start[o], g.cells));
      } else {
        assert o == k;
        OwnOriginNotVacated(l, st, batch, from, i, k);
        assert StagedAt(l, start, batch, k) == Some(CaseWhen(start[k], g.cells));
      }
    } else {
      CompleteCaseWhen(l, start, k, g.cells);
      assert StagedAt(l, start, batch, k) == Some(g.cells);
    }
  }

  lemma StartWidth(l: Layout, start: Table, o: Key)
    requires TableOk(l, start) && o in start
    ensures |start[o]| == l.width
  {
  }

  lemma CompleteCaseWhen(l: Layout, start: Table, k: Key, cells: Tuple)
    requires TableOk(l, start) && Complete(cells) && |cells| == l.width
    ensures k in start ==> CaseWhen(start[k], cells) == cells
    ensures StagedData(cells) == cells
  {
  }

  /** A row back at its own batch-start key was not moved away from there by another lineage. */
  lemma OwnOriginNotVacated(l: Layout, st: State, batch: seq<StagingRow>, from: seq<nat>, i: nat, k: Key)
    requires Emits(l, st, batch, from) && i < |st.lineages| && st.lineages[i].originKey == st.lineages[i].currentKey == Some(k)
    ensures k !in OldKeys(batch)
  {
    hide RowOf, WellShaped, RowKey, OldKeyOf, LineageOk;
    if k in OldKeys(batch) {
      var m :| m in batch && m.operation == Move && OldKeyOf(m) == k;
      var j := EmitterOf(l, st, batch, from, m);
      RowOfFacts(l, st, j);
      assert false;
    }
  }

  /** A key that is not live is vacated by the batch exactly when a lineage started there. */
  lemma NotLiveAt(l: Layout, st: State, batch: seq<StagingRow>, from: seq<nat>, k: Key)
    requires Emits(l, st, batch, from) && k !in st.currentByKey
    ensures k !in KeysWith(l, batch, Upsert) && k !in KeysWith(l, batch, Move)
    ensures k in st.originByKey <==> k in KeysWith(l, batch, Remove) || k in OldKeys(batch)
  {
    hide RowOf, WellShaped, RowKey, OldKeyOf, LineageOk;
    forall r | r in batch
      ensures r.operation != Remove ==> RowKey(l, r) != k
      ensures r.operation == Remove && RowKey(l, r) == k ==> k in st.originByKey
      ensures r.operation == Move && OldKeyOf(r) == k ==> k in st.originByKey
    {
      var j := EmitterOf(l, st, batch, from, r);
      RowOfFacts(l, st, j);
    }
    if k in st.originByKey {
      var j := st.originByKey[k];
      StartedRowEmits(l, st, j, k);
      EmittedIn(l, st, batch, from, j);
      RowOfFacts(l, st, j);
    }
  }

  lemma StartedRowEmits(l: Layout, st: State, j: nat, k: Key)
    requires Coherent(l, st) && j < |st.lineages| && st.lineages[j].originKey == Some(k) && k !in st.currentByKey
    ensures RowOf(l, st.currentByKey, st.lineages[j]).Some?
    ensures RowOf(l, st.currentByKey, st.lineages[j]).value.Ok?
    ensures RowOf(l, st.currentByKey, st.lineages[j]).value.value.operation != Upsert
  {
    assert LineageOk(l, st.lineages[j]);
    hide LineageOk, WriteKey, KeyCells;
  }

  /** Every emitted row passes the row-wise checks of the validation query on the starting table. */
  lemma RowIsValid(l: Layout, start: Table, tr: Trace, st: State, i: nat)
    requires Traced(l, start, tr, st) && i < |st.lineages| && RowOf(l, st.currentByKey, st.lineages[i]).Some?
    ensures RowOf(l, st.currentByKey, st.lineages[i]).value.Ok?
    ensures !InvalidRow(l, start, RowOf(l, st.currentByKey, st.lineages[i]).value.value)
  {
    hide TableOk, RowKey, OldKeyOf, Complete, Materialize, RowOf, HasKeyAt, OldKeyNull;
    RowOfFacts(l, st, i);
    var g, r := st.lineages[i], RowOf(l, st.currentByKey, st.lineages[i]).value.value;
    assert LineageOk(l, g);
    assert MeaningAt(start, tr.rows, tr.started, st, RowKey(l, r));
    if r.operation == Move { assert MeaningAt(start, tr.rows, tr.started, st, OldKeyOf(r)); }
  }

  lemma BatchIsValid(l: Layout, start: Table, tr: Trace, st: State, batch: seq<StagingRow>, from: seq<nat>)
    requires Traced(l, start, tr, st) && Emits(l, st, batch, from) && Collapsed(l, batch)
    ensures !InvalidBatch(l, start, batch)
  {
    CollapsedValidity(l, start, batch);
    hide Traced, Collapsed, InvalidRow, InvalidBatch;
    forall r | r in batch ensures !InvalidRow(l, start, r) {
      var i := EmitterOf(l, st, batch, from, r);
      RowIsValid(l, start, tr, st, i);
    }
  }

  /** Normalizing preserves meaning. On every well-formed table and every change list valid on it,
      an accepted batch passes the target's validation query, and delete, move, delete-moved, update
      and insert produce exactly the table that applying the changes one at a time produces. */
  lemma NormalizationPreservesMeaning(schema: TableSchema, start: Table, changes: seq<TableChange>)
    requires OfSchema(schema, changes) && TableOk(LayoutOf(schema), start)
    requires ApplyChanges(LayoutOf(schema), start, changes).Some?
    requires NormalizeTableChanges(schema, changes).Ok?
    ensures var l, batch := LayoutOf(schema), NormalizeTableChanges(schema, changes).value;
      && !InvalidBatch(l, start, batch)
      && StagedApply(l, start, batch) == ApplyChanges(l, start, changes).value
  {
    var l, batch := LayoutOf(schema), NormalizeTableChanges(schema, changes).value;
    hide LayoutOf, TableOk, PushAll, Finish, NeverLandsOnStartKey, Traced, Coherent, ApplyChanges, Collapsed, Emits,
      InvalidBatch, StagedApply, StagedAt;
    InitialCoherent(l);
    InitialTraced(l, start);
    ChangesTraced(schema, start, TraceFrom(start), Initial, changes);
    var st := PushAll(schema, Initial, changes).state;
    FinishEmits(l, st);
    var from := Emitters(l, st.currentByKey, st.lineages, 0);
    EmitsCollapsed(l, st, batch, from);
    var after := ApplyChanges(l, start, changes).value;
    var started :| Traced(l, start, Trace(after, started), st);
    BatchIsValid(l, start, Trace(after, started), st, batch, from);
    forall k ensures Lookup(StagedApply(l, start, batch), k) == Lookup(after, k) {
      StagedApplyAt(l, start, batch, k);
      BatchAt(l, start, Trace(after, started), st, batch, from, k);
    }
    SameLookups(StagedApply(l, start, batch), after);
  }
}
