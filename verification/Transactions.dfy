/** Committed source transactions as they travel from the decoder to the target. */
module Transactions {
  import opened Core
  import opened PrimaryKey
  import opened RowChanges

  datatype SourcePosition = SourcePosition(nodeId: int, systemIdentifier: nat, timeline: nat, lsn: nat)

  datatype DdlMessage = DdlMessage(version: nat, commandTag: string, relationIds: seq<nat>, affectedSchemas: seq<string>,
                                   schemaFingerprint: string)

  datatype TransactionChange =
    | Row(row: TableChange)
    | Truncate(relationIds: seq<nat>, cascade: bool, restartIdentity: bool)
    | Ddl(message: DdlMessage)
  {
    predicate RequiresGenerationBarrier() {
      Truncate? || Ddl?
    }
  }

  datatype SourceTransaction = SourceTransaction(xid: nat, finalPosition: SourcePosition, changes: seq<TransactionChange>)
  {
    predicate HasBarrier() {
      exists i | 0 <= i < |changes| :: changes[i].RequiresGenerationBarrier()
    }
  }

  function TupleBytes(cells: Tuple): nat {
    if cells == [] then 0
    else (match cells[0]
      case Null => 1
      case UnchangedToast => 1
      case Text(value) => |value|
      case Binary(value) => |value|) + TupleBytes(cells[1..])
  }

  function RowBytes(change: RowChange): nat {
    match change
    case Insert(inserted) => TupleBytes(inserted)
    case Update(oldKey, updated) => (if oldKey.Some? then TupleBytes(oldKey.value) else 0) + TupleBytes(updated)
    case Delete(deletedKey) => TupleBytes(deletedKey)
  }

  /** The row changes of a transaction list, in commit order. */
  function RowsOf(changes: seq<TransactionChange>): seq<TableChange> {
    if changes == [] then []
    else (if changes[0].Row? then [changes[0].row] else []) + RowsOf(changes[1..])
  }

  function AllRows(transactions: seq<SourceTransaction>): seq<TableChange> {
    if transactions == [] then [] else RowsOf(transactions[0].changes) + AllRows(transactions[1..])
  }

  lemma {:induction false} AllRowsConcat(a: seq<SourceTransaction>, b: seq<SourceTransaction>)
    ensures AllRows(a + b) == AllRows(a) + AllRows(b)
  {
    if a == [] {
      assert a + b == b;
    } else {
      assert (a + b)[1..] == a[1..] + b;
      AllRowsConcat(a[1..], b);
    }
  }

  /** The bytes a cell is taken to need: its value's, and one where it has none. */
  function CellBytes(cell: Cell): nat {
    if cell.Text? || cell.Binary? then |cell.value| else 1
  }

  /** A tuple needs what its cells need together. */
  lemma {:induction false} TupleBytesAdd(a: Tuple, b: Tuple)
    ensures TupleBytes(a + b) == TupleBytes(a) + TupleBytes(b)
    ensures forall cell :: TupleBytes([cell]) == CellBytes(cell)
  {
    forall cell: Cell ensures TupleBytes([cell]) == CellBytes(cell) { assert [cell][1..] == []; }
    if a == [] {
      assert a + b == b;
    } else {
      assert (a + b)[1..] == a[1..] + b;
      TupleBytesAdd(a[1..], b);
    }
  }

  /** The cells a row change carries, old key first. */
  function CarriedCells(change: RowChange): Tuple {
    match change
    case Insert(row) => row
    case Update(key, row) => (if key.Some? then key.value else []) + row
    case Delete(key) => key
  }

  lemma RowNeedsItsCells(change: RowChange)
    ensures RowBytes(change) == TupleBytes(CarriedCells(change))
  {
    if change.Update? && change.oldKey.Some? { TupleBytesAdd(change.oldKey.value, change.updated); }
    if change.Update? && change.oldKey.None? { assert [] + change.updated == change.updated; }
  }
}
