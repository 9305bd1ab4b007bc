/** Row changes of one relation and their reference meaning: apply them to a table one at a time. */
module RowChanges {
  import opened Core
  import opened PrimaryKey

  datatype RowChange =
    | Insert(inserted: Tuple)
    | Update(oldKey: Option<Tuple>, updated: Tuple)
    | Delete(deletedKey: Tuple)

  datatype TableChange = TableChange(relationId: nat, generation: nat, change: RowChange)

  type Table = map<Key, Tuple>

  /** A row as a table stores it: full width, no transport-only cells, a complete key. */
  predicate FullRow(l: Layout, row: Tuple) {
    && |row| == l.width
    && (forall i | 0 <= i < |row| :: row[i].Null? || row[i].Text?)
    && HasKeyAt(row, l.ordinalIndexes)
  }

  ghost predicate TableOk(l: Layout, t: Table) {
    forall k | k in t :: FullRow(l, t[k]) && KeyAt(t[k], l.ordinalIndexes) == k
  }

  /** Overwrites `base` with every cell of `over` that carries a value. */
  function MergeCells(base: Tuple, over: Tuple): (r: Tuple)
    requires |base| == |over|
    ensures |r| == |base|
    ensures forall i | 0 <= i < |r| :: r[i] == if over[i].UnchangedToast? then base[i] else over[i]
  {
    seq(|base|, i requires 0 <= i < |base| => if over[i].UnchangedToast? then base[i] else over[i])
  }

  predicate Complete(cells: Tuple) {
    forall i | 0 <= i < |cells| :: !cells[i].UnchangedToast?
  }

  predicate NoBinary(cells: Tuple) {
    forall i | 0 <= i < |cells| :: !cells[i].Binary?
  }

  /** The key an update names its row by: the old key when one is sent, else the new tuple's key. */
  function UpdateLookup(l: Layout, oldKey: Option<Tuple>, updated: Tuple): Result<Key, NormalizeError>
    requires l.Valid() && |updated| == l.width
  {
    match oldKey
    case Some(tuple) => KeyFromOldTuple(l, tuple)
    case None => KeyFromCells(l, updated, UpdateTuple)
  }

  /** One change applied to a table, or `None` when the change is malformed or not valid on it. */
  function ApplyChange(l: Layout, t: Table, change: RowChange): Option<Table>
    requires l.Valid()
  {
    match change
    case Insert(row) =>
      if FullRow(l, row) && KeyAt(row, l.ordinalIndexes) !in t
      then Some(t[KeyAt(row, l.ordinalIndexes) := row]) else None
    case Update(oldKey, updated) =>
      if |updated| != l.width || !NoBinary(updated) then None
      else (match UpdateLookup(l, oldKey, updated)
        case Err(_) => None
        case Ok(key) =>
          if key !in t || |t[key]| != l.width then None
          else
            var row := MergeCells(t[key], updated);
            var newKey := KeyAt(row, l.ordinalIndexes);
            if !HasKeyAt(row, l.ordinalIndexes) || (newKey != key && newKey in t) then None
            else Some((t - {key})[newKey := row]))
    case Delete(tuple) =>
      match KeyFromOldTuple(l, tuple)
      case Err(_) => None
      case Ok(key) => if key in t then Some(t - {key}) else None
  }

  /** The sequential meaning of a change list: `None` as soon as one change is not valid. */
  function ApplyChanges(l: Layout, t: Table, changes: seq<TableChange>): Option<Table>
    requires l.Valid()
    decreases |changes|
  {
    if changes == [] then Some(t)
    else match ApplyChange(l, t, changes[0].change)
      case None => None
      case Some(next) => ApplyChanges(l, next, changes[1..])
  }

  lemma ApplyChangeKeepsTableOk(l: Layout, t: Table, change: RowChange)
    requires l.Valid() && TableOk(l, t) && ApplyChange(l, t, change).Some?
    ensures TableOk(l, ApplyChange(l, t, change).value)
  {
  }

  lemma {:induction false} ApplyChangesSplit(l: Layout, t: Table, a: seq<TableChange>, b: seq<TableChange>)
    requires l.Valid()
    ensures ApplyChanges(l, t, a + b) ==
      match ApplyChanges(l, t, a) case None => None case Some(mid) => ApplyChanges(l, mid, b)
    decreases |a|
  {
    if a == [] {
      assert a + b == b;
    } else {
      assert (a + b)[1..] == a[1..] + b;
      match ApplyChange(l, t, a[0].change)
      case None =>
      case Some(next) => ApplyChangesSplit(l, next, a[1..], b);
    }
  }

  lemma {:induction false} ApplyChangesKeepsTableOk(l: Layout, t: Table, changes: seq<TableChange>)
    requires l.Valid() && TableOk(l, t) && ApplyChanges(l, t, changes).Some?
    ensures TableOk(l, ApplyChanges(l, t, changes).value)
    decreases |changes|
  {
    if changes != [] {
      ApplyChangeKeepsTableOk(l, t, changes[0].change);
      ApplyChangesKeepsTableOk(l, ApplyChange(l, t, changes[0].change).value, changes[1..]);
    }
  }

  lemma MergeAssociates(a: Tuple, b: Tuple, c: Tuple)
    requires |a| == |b| == |c|
    ensures MergeCells(MergeCells(a, b), c) == MergeCells(a, MergeCells(b, c))
  {
  }
}
