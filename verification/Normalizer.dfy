/** The normalizer as the engine runs it: one object whose indexes and lineages change in place. */
module NormalizerObject {
  import opened Core
  import opened PrimaryKey
  import opened RowChanges
  import opened Normalize

  class Normalizer {
    const schema: TableSchema
    const layout: Layout
    var lineages: seq<Lineage>
    var currentByKey: map<Key, nat>
    var originByKey: map<Key, nat>
    var sequence: nat

    ghost function Contents(): State
      reads this
    {
      State(lineages, currentByKey, originByKey, sequence)
    }

    ghost predicate Valid()
      reads this
    {
      layout == LayoutOf(schema) && Coherent(layout, Contents())
    }

    constructor (schema: TableSchema)
      ensures Valid() && this.schema == schema && Contents() == Initial
    {
      this.schema := schema;
      layout := LayoutOf(schema);
      lineages, currentByKey, originByKey, sequence := [], map[], map[], 0;
      new;
      InitialCoherent(layout);
    }

    /** Every step leaves exactly the state of the specification, also when it is refused midway. */
    method Push(change: TableChange) returns (error: Option<NormalizeError>)
      requires Valid()
      modifies this
      ensures Stepped(Contents(), error) == PushStep(schema, old(Contents()), change)
      ensures error.None? ==> Valid()
    {
      hide Coherent, LayoutOf, ChangeStep;
      if change.relationId != schema.relationId {
        return Some(RelationMismatch(schema.relationId, change.relationId));
      }
      if change.generation != schema.generation {
        return Some(GenerationMismatch(change.relationId, schema.generation, change.generation));
      }
      ghost var ticked := Tick(layout, Contents());
      ghost var before := Contents();
      var stamp := sequence;
      sequence := SaturatingAdd(sequence, 1);
      assert Contents() == ticked;
      error := Apply(change.change, stamp);
      assert PushStep(schema, before, change) == ChangeStep(layout, ticked, change.change, stamp);
    }

    method Apply(change: RowChange, stamp: nat) returns (error: Option<NormalizeError>)
      requires Valid() && Stampable(Contents(), stamp)
      modifies this
      ensures Stepped(Contents(), error) == ChangeStep(layout, old(Contents()), change, stamp)
      ensures error.None? ==> Valid()
    {
      hide Coherent, LayoutOf, InsertStep, UpdateStep, DeleteStep, Stampable;
      match change
      case Insert(row) => error := Insert(row, stamp);
      case Update(oldKey, updated) => error := Update(oldKey, updated, stamp);
      case Delete(tuple) => error := Delete(tuple, stamp);
    }

    method Insert(row: Tuple, stamp: nat) returns (error: Option<NormalizeError>)
      requires Valid() && Stampable(Contents(), stamp)
      modifies this
      ensures Stepped(Contents(), error) == InsertStep(layout, old(Contents()), row, stamp)
      ensures error.None? ==> Valid()
    {
      ghost var before := Contents();
      hide Coherent, LayoutOf, Stampable;
      error := ValidateNewTuple(layout, row, InsertTuple);
      if error.Some? { return; }
      match FindUnchanged(row) {
        case Some(column) => return Some(IncompleteInsert(column));
        case None =>
      }
      match KeyFromCells(layout, row, InsertTuple) {
        case Err(e) => return Some(e);
        case Ok(key) =>
          if key in currentByKey { return Some(InsertTargetsLiveKey); }
          if key in originByKey {
            CoherentIndexes(layout, before, key);
            var index := originByKey[key];
            if lineages[index].currentKey.None? {
              lineages := lineages[index := lineages[index].(currentKey := Some(key), cells := row)];
              currentByKey := currentByKey[key := index];
              return None;
            }
          }
          currentByKey := currentByKey[key := |lineages|];
          lineages := lineages + [Lineage(None, Some(key), row, stamp)];
          return None;
      }
    }

    method Update(oldTuple: Option<Tuple>, updated: Tuple, stamp: nat) returns (error: Option<NormalizeError>)
      requires Valid() && Stampable(Contents(), stamp)
      modifies this
      ensures Stepped(Contents(), error) == UpdateStep(layout, old(Contents()), oldTuple, updated, stamp)
      ensures error.None? ==> Valid()
    {
      hide Coherent, LayoutOf, Stampable, LineageOk, MergeInto;
      ghost var before := Contents();
      error := ValidateNewTuple(layout, updated, UpdateTuple);
      if error.Some? { return; }
      match UpdateKeys(layout, oldTuple, updated) {
        case Err(e) => return Some(e);
        case Ok(lookup) =>
          var index;
          if lookup in currentByKey {
            CoherentIndexes(layout, before, lookup);
            index := currentByKey[lookup];
          } else if lookup in originByKey {
            return Some(UpdateReferencesMovedKey);
          } else {
            index := AddBaseline(lookup, stamp, true);
          }
          assert FindRow(layout, before, lookup, stamp, true, UpdateReferencesMovedKey) == Ok((Contents(), index));
          error := Merge(index, updated);
      }
    }

    /** Overwrites a lineage's cells one by one with the incoming cells that carry a value. */
    method Absorb(index: nat, updated: Tuple)
      requires index < |lineages| && |lineages[index].cells| == |updated|
      modifies this`lineages
      ensures lineages == old(lineages)[index := old(lineages[index]).(cells := MergeCells(old(lineages[index].cells), updated))]
    {
      var cells := lineages[index].cells;
      var cell := 0;
      while cell < |updated|
        invariant cell <= |updated| == |cells|
        invariant forall c | 0 <= c < |cells| ::
          cells[c] == if c < cell && !updated[c].UnchangedToast? then updated[c] else lineages[index].cells[c]
      {
        if !updated[cell].UnchangedToast? {
          cells := cells[cell := updated[cell]];
        }
        cell := cell + 1;
      }
      assert cells == MergeCells(lineages[index].cells, updated);
      lineages := lineages[index := lineages[index].(cells := cells)];
    }

    /** Merges the incoming cells, then moves the lineage when its key changed. */
    method Merge(index: nat, updated: Tuple) returns (error: Option<NormalizeError>)
      requires Valid() && index < |lineages| && lineages[index].currentKey.Some?
      requires |updated| == layout.width && NoBinary(updated)
      modifies this
      ensures Stepped(Contents(), error) == MergeInto(layout, old(Contents()), index, updated)
      ensures error.None? ==> Valid()
    {
      ghost var before := Contents();
      LineageWidth(layout, before, index);
      ghost var cells := MergeCells(lineages[index].cells, updated);
      hide Coherent, LayoutOf, HasKeyAt, KeyAt, NoBinary, MergeCells, KeyFromCells, SetCells, Killed, Placed;
      Absorb(index, updated);
      ghost var absorbed := Contents();
      AbsorbedIs(before, absorbed, index, cells);
      match KeyFromCells(layout, lineages[index].cells, UpdateTuple) {
        case Err(e) => return Some(e);
        case Ok(key) =>
          if key != lineages[index].currentKey.value {
            if key in currentByKey && currentByKey[key] != index { return Some(UpdateTargetsLiveKey); }
            if key in originByKey && originByKey[key] != index { return Some(UpdateReusesStartKey); }
            Relocate(index, key);
            MovedIs(before, index, cells, key);
          }
          return None;
      }
    }

    method Relocate(index: nat, key: Key)
      requires index < |lineages| && lineages[index].currentKey.Some?
      modifies this`lineages, this`currentByKey
      ensures Contents() == Placed(Killed(old(Contents()), index), index, key)
    {
      ghost var before := Contents();
      var previous := lineages[index].currentKey.value;
      currentByKey := currentByKey - {previous};
      currentByKey := currentByKey[key := index];
      lineages := lineages[index := lineages[index].(currentKey := Some(key))];
      assert Placed(Killed(before, index), index, key).lineages == lineages;
    }

    method Delete(tuple: Tuple, stamp: nat) returns (error: Option<NormalizeError>)
      requires Valid() && Stampable(Contents(), stamp)
      modifies this
      ensures Stepped(Contents(), error) == DeleteStep(layout, old(Contents()), tuple, stamp)
      ensures error.None? ==> Valid()
    {
      hide LayoutOf, Stampable, Coherent;
      ghost var before := Contents();
      match KeyFromOldTuple(layout, tuple) {
        case Err(e) => return Some(e);
        case Ok(key) =>
          var index;
          if key in currentByKey {
            CoherentIndexes(layout, before, key);
            index := currentByKey[key];
            currentByKey := currentByKey - {key};
          } else if key in originByKey {
            return Some(DeleteReferencesMovedKey);
          } else {
            index := AddBaseline(key, stamp, false);
            assert Contents().lineages[index].currentKey.None?;
          }
          lineages := lineages[index := lineages[index].(currentKey := None)];
          return None;
      }
    }

    method AddBaseline(key: Key, stamp: nat, live: bool) returns (index: nat)
      requires Valid() && Stampable(Contents(), stamp) && |key| == |layout.ordinalIndexes|
      requires key !in currentByKey && key !in originByKey
      modifies this
      ensures Valid() && index == old(|lineages|)
      ensures Contents() == NewBaseline(layout, old(Contents()), key, stamp, live)
    {
      hide Coherent, LayoutOf, Stampable;
      ghost var before := Contents();
      var cells := WriteKey(layout.ordinalIndexes, seq(layout.width, i => UnchangedToast), key);
      index := |lineages|;
      lineages := lineages + [Lineage(Some(key), if live then Some(key) else None, cells, stamp)];
      originByKey := originByKey[key := index];
      if live {
        currentByKey := currentByKey[key := index];
      }
      assert Contents() == NewBaseline(layout, before, key, stamp, live);
    }

    method Finish() returns (rows: Result<seq<StagingRow>, NormalizeError>)
      requires Valid()
      ensures rows == Normalize.Finish(layout, Contents())
    {
      hide Coherent, LayoutOf, RowOf, SortBySequence;
      var ordered := SortBySequence(lineages);
      ghost var all := Normalize.Finish(layout, Contents());
      CoherentSorted(layout, Contents());
      PrefixedEnds(all, []);
      var emitted: seq<StagingRow> := [];
      var i := 0;
      while i < |ordered|
        invariant i <= |ordered|
        invariant all == Prefixed(emitted, FinishFrom(layout, currentByKey, ordered, i))
      {
        PrefixedSteps(emitted, layout, currentByKey, ordered, i);
        match RowOf(layout, currentByKey, ordered[i]) {
          case None =>
          case Some(Err(e)) => return Err(e);
          case Some(Ok(row)) => emitted := emitted + [row];
        }
        i := i + 1;
      }
      PrefixedEnds(Ok([]), emitted);
      return Ok(emitted);
    }
  }

  function Prefixed(emitted: seq<StagingRow>, rest: Result<seq<StagingRow>, NormalizeError>)
    : Result<seq<StagingRow>, NormalizeError>
  {
    match rest
    case Ok(rows) => Ok(emitted + rows)
    case Err(e) => Err(e)
  }

  lemma PrefixedEnds(rest: Result<seq<StagingRow>, NormalizeError>, emitted: seq<StagingRow>)
    ensures Prefixed([], rest) == rest && Prefixed(emitted, Ok([])) == Ok(emitted)
  {
    if rest.Ok? { assert [] + rest.value == rest.value; }
    assert emitted + [] == emitted;
  }

  lemma PrefixedSteps(emitted: seq<StagingRow>, l: Layout, currentByKey: map<Key, nat>, lineages: seq<Lineage>, i: nat)
    requires l.Valid() && i < |lineages| && OriginWidths(l, lineages)
    ensures var row, rest := RowOf(l, currentByKey, lineages[i]), FinishFrom(l, currentByKey, lineages, i + 1);
      Prefixed(emitted, FinishFrom(l, currentByKey, lineages, i)) ==
        if row.None? then Prefixed(emitted, rest)
        else if row.value.Err? then Err(row.value.error)
        else Prefixed(emitted + [row.value.value], rest)
  {
    hide RowOf;
    var row, rest := RowOf(l, currentByKey, lineages[i]), FinishFrom(l, currentByKey, lineages, i + 1);
    if row.Some? && row.value.Ok? && rest.Ok? {
      assert emitted + ([row.value.value] + rest.value) == emitted + [row.value.value] + rest.value;
    }
  }

  lemma AbsorbedIs(before: State, absorbed: State, index: nat, cells: Tuple)
    requires index < |before.lineages| && absorbed == before.(lineages := absorbed.lineages)
    requires absorbed.lineages == before.lineages[index := before.lineages[index].(cells := cells)]
    ensures absorbed == SetCells(before, index, cells) && absorbed.lineages[index].cells == cells
    ensures absorbed.lineages[index].currentKey == before.lineages[index].currentKey
  {
  }

  /** Moving a row after merging its cells or before makes no difference. */
  lemma MovedIs(st: State, index: nat, cells: Tuple, key: Key)
    requires index < |st.lineages|
    ensures Placed(Killed(SetCells(st, index, cells), index), index, key) ==
            Placed(SetCells(Killed(st, index), index, cells), index, key)
  {
    assert Placed(Killed(SetCells(st, index, cells), index), index, key).lineages ==
           Placed(SetCells(Killed(st, index), index, cells), index, key).lineages;
  }

  lemma CoherentIndexes(l: Layout, st: State, key: Key)
    requires Coherent(l, st)
    ensures key in st.originByKey ==> st.originByKey[key] < |st.lineages|
    ensures key in st.currentByKey ==>
      st.currentByKey[key] < |st.lineages| && st.lineages[st.currentByKey[key]].currentKey == Some(key)
  {
  }

  lemma CoherentSorted(l: Layout, st: State)
    requires Coherent(l, st)
    ensures l.Valid() && OriginWidths(l, SortBySequence(st.lineages)) && SortBySequence(st.lineages) == st.lineages
  {
    SortedAlready(st.lineages);
    forall i | 0 <= i < |st.lineages| ensures LineageOk(l, st.lineages[i]) {}
  }

  /** Normalizes a whole change list with one object. */
  method NormalizeWith(schema: TableSchema, changes: seq<TableChange>) returns (rows: Result<seq<StagingRow>, NormalizeError>)
    ensures rows == NormalizeTableChanges(schema, changes)
  {
    if !schema.supported || OrdinalIndexes(schema) == [] { return Err(UnsupportedSchema); }
    InitialCoherent(LayoutOf(schema));
    hide Coherent, LayoutOf, OrdinalIndexes, Normalize.Finish, PushStep;
    var n := new Normalizer(schema);
    var i := 0;
    while i < |changes|
      invariant i <= |changes| && n.Valid() && n.schema == schema
      invariant PushAll(schema, Initial, changes) == PushAll(schema, n.Contents(), changes[i..])
      modifies n
    {
      assert changes[i..][0] == changes[i] && changes[i..][1..] == changes[i + 1..];
      var error := n.Push(changes[i]);
      if error.Some? { return Err(error.value); }
      i := i + 1;
    }
    rows := n.Finish();
  }
}
