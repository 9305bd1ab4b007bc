/** The apply transaction: every staged table and the checkpoint change together, or nothing does. */
module Execute {
  import opened Core
  import opened PrimaryKey
  import opened RowChanges
  import opened Normalize
  import opened Staging
  import opened StagingCopy
  import opened Checkpoint
  import opened Apply

  type Tables = map<string, Table>

  /** A 64-bit row counter. */
  type Count = n: nat | n <= USIZE_MAX

  datatype Counters = Counters(staged: Count, deleted: Count, moved: Count, updated: Count, inserted: Count)

  /** Row counts the statements of one table report. */
  datatype Effects = Effects(staged: nat, deleted: nat, moved: nat, updated: nat, inserted: nat)

  datatype ApplyOutcome = ApplyOutcome(counters: Counters, advance: AdvanceOutcome)

  /** The update statement exists only when there is a column outside the key to set. */
  predicate HasDataColumns(l: Layout) {
    PresenceColumns(l, 0) != []
  }

  /** The five statements in their order, as the plan has them. */
  function AfterStatements(l: Layout, t: Table, rows: seq<StagingRow>): Table {
    var vacated := DeleteMovedRows(MoveRows(l, DeleteRows(l, t, rows), rows), rows);
    InsertRows(l, if HasDataColumns(l) then UpdateRows(l, vacated, rows) else vacated, rows)
  }

  // Rows each statement reports as affected.

  function DeletedCount(l: Layout, t: Table, rows: seq<StagingRow>): nat {
    |KeysWith(l, rows, Remove) * t.Keys|
  }

  function MovedCount(before: Table, after: Table): nat {
    |after.Keys - before.Keys|
  }

  function VacatedCount(t: Table, rows: seq<StagingRow>): nat {
    |OldKeys(rows) * t.Keys|
  }

  function UpdatedCount(l: Layout, t: Table, rows: seq<StagingRow>): nat {
    |KeysWith(l, rows, Upsert) * t.Keys|
  }

  function InsertedCount(l: Layout, t: Table, rows: seq<StagingRow>): nat {
    |KeysWith(l, rows, Upsert) - t.Keys|
  }

  function Affected(l: Layout, t: Table, rows: seq<StagingRow>): Effects {
    var deleted := DeleteRows(l, t, rows);
    var moved := MoveRows(l, deleted, rows);
    var vacated := DeleteMovedRows(moved, rows);
    Effects(|rows|, DeletedCount(l, t, rows) + VacatedCount(moved, rows), MovedCount(deleted, moved),
            if HasDataColumns(l) then UpdatedCount(l, vacated, rows) else 0, InsertedCount(l, vacated, rows))
  }

  function AddCounters(a: Counters, b: Effects): Counters {
    Counters(SaturatingAdd(a.staged, b.staged), SaturatingAdd(a.deleted, b.deleted), SaturatingAdd(a.moved, b.moved),
             SaturatingAdd(a.updated, b.updated), SaturatingAdd(a.inserted, b.inserted))
  }

  function FirstEncodeError(l: Layout, rows: seq<StagingRow>): Option<StagingError> {
    if rows == [] then None
    else if EncodeStagingRow(l, rows[0]).Err? then Some(EncodeStagingRow(l, rows[0]).error)
    else FirstEncodeError(l, rows[1..])
  }

  function ApplyTable(tables: Tables, counters: Counters, b: TableBatch): Result<(Tables, Counters), ApplyError> {
    if b.rows == [] then Ok((tables, counters))
    else if b.target !in tables then Err(UndefinedTable(b.target))
    else if FirstEncodeError(b.layout, b.rows).Some? then Err(StagingFailed(FirstEncodeError(b.layout, b.rows).value))
    else if InvalidBatch(b.layout, tables[b.target], b.rows) then Err(InvalidBatchFor(b.target))
    else Ok((tables[b.target := AfterStatements(b.layout, tables[b.target], b.rows)],
             AddCounters(counters, Affected(b.layout, tables[b.target], b.rows))))
  }

  function ApplyTables(tables: Tables, counters: Counters, batches: seq<TableBatch>): Result<(Tables, Counters), ApplyError>
    decreases |batches|
  {
    if batches == [] then Ok((tables, counters))
    else match ApplyTable(tables, counters, batches[0])
      case Err(e) => Err(e)
      case Ok((next, more)) => ApplyTables(next, more, batches[1..])
  }

  function RepeatedStagingName(seen: set<string>, tables: seq<TableBatch>): Option<string>
    decreases |tables|
  {
    if tables == [] then None
    else if tables[0].stagingName in seen then Some(tables[0].stagingName)
    else RepeatedStagingName(seen + {tables[0].stagingName}, tables[1..])
  }

  datatype TargetState = TargetState(meta: Meta, tables: Tables)

  const NoCounts := Counters(0, 0, 0, 0, 0)

  function ExecuteApply(s: TargetState, request: ApplyRequest): Result<(TargetState, ApplyOutcome), ApplyError> {
    if RepeatedStagingName({}, request.tables).Some? then Err(DuplicateStaging(RepeatedStagingName({}, request.tables).value))
    else if LockFence(s.meta, request.fence).Some? then Err(CheckpointFailed(LockFence(s.meta, request.fence).value))
    else match ApplyTables(s.tables, NoCounts, request.tables)
      case Err(e) => Err(e)
      case Ok((tables, counters)) =>
        match AdvanceCheckpoint(s.meta, request.fence, request.checkpoint)
        case Err(e) => Err(CheckpointFailed(e))
        case Ok((meta, advance)) => Ok((TargetState(meta, tables), ApplyOutcome(counters, advance)))
  }

  // ---- The target database --------------------------------------------------------------------

  /** A database transaction works on copies and assigns them when it commits; leaving early rolls back. */
  class TargetDatabase {
    var meta: Meta
    var tables: Tables

    ghost function Contents(): TargetState
      reads this
    {
      TargetState(meta, tables)
    }

    constructor ()
      ensures Contents() == TargetState(Meta(map[], map[]), map[])
    {
      meta, tables := Meta(map[], map[]), map[];
    }

    method ActivateFence(fence: Fence) returns (error: Option<CheckpointError>)
      modifies this`meta
      ensures match Checkpoint.ActivateFence(old(meta), fence)
        case Ok(next) => error.None? && meta == next
        case Err(e) => error == Some(e) && meta == old(meta)
    {
      if ValidateFence(fence).Some? { return ValidateFence(fence); }
      var row := RowOfFence(fence);
      if fence.pipelineId in meta.fences {
        var stored := meta.fences[fence.pipelineId];
        if row.generation < stored.generation || row.token < stored.token { return Some(StaleFence(row, stored)); }
      }
      meta := meta.(fences := meta.fences[fence.pipelineId := row]);
      return None;
    }

    method Execute(request: ApplyRequest) returns (outcome: Result<ApplyOutcome, ApplyError>)
      modifies this
      ensures match ExecuteApply(old(Contents()), request)
        case Ok((after, o)) => outcome == Ok(o) && Contents() == after
        case Err(e) => outcome == Err(e) && Contents() == old(Contents())
    {
      hide ApplyTable, AdvanceCheckpoint;
      var repeated := ValidateRequest(request);
      if repeated.Some? { return Err(DuplicateStaging(repeated.value)); }
      var lock := LockFence(meta, request.fence);
      if lock.Some? { return Err(CheckpointFailed(lock.value)); }
      var working, counters := tables, NoCounts;
      var i := 0;
      while i < |request.tables|
        invariant i <= |request.tables| && meta == old(meta) && tables == old(tables)
        invariant ApplyTables(tables, NoCounts, request.tables) == ApplyTables(working, counters, request.tables[i..])
      {
        assert request.tables[i..][0] == request.tables[i] && request.tables[i..][1..] == request.tables[i + 1..];
        if request.tables[i].rows != [] {
          var applied := ApplyOne(working, counters, request.tables[i]);
          if applied.Err? { return Err(applied.error); }
          working, counters := applied.value.0, applied.value.1;
        } else {
          SkipEmpty(working, counters, request.tables[i]);
        }
        i := i + 1;
      }
      var advanced := AdvanceCheckpoint(meta, request.fence, request.checkpoint);
      if advanced.Err? { return Err(CheckpointFailed(advanced.error)); }
      meta, tables := advanced.value.0, working;
      return Ok(ApplyOutcome(counters, advanced.value.1));
    }

    static method ValidateRequest(request: ApplyRequest) returns (repeated: Option<string>)
      ensures repeated == RepeatedStagingName({}, request.tables)
    {
      var names: set<string> := {};
      var i := 0;
      while i < |request.tables|
        invariant i <= |request.tables|
        invariant RepeatedStagingName({}, request.tables) == RepeatedStagingName(names, request.tables[i..])
      {
        if request.tables[i].stagingName in names { return Some(request.tables[i].stagingName); }
        names := names + {request.tables[i].stagingName};
        i := i + 1;
      }
      return None;
    }

    /** Stages, validates and merges one non-empty table batch. */
    static method ApplyOne(tables: Tables, counters: Counters, b: TableBatch)
      returns (applied: Result<(Tables, Counters), ApplyError>)
      requires b.rows != []
      ensures applied == ApplyTable(tables, counters, b)
    {
      hide InvalidBatch, AfterStatements, Affected, AddCounters, EncodeStagingRow;
      if b.target !in tables { return Err(UndefinedTable(b.target)); }
      var l, t, rows := b.layout, tables[b.target], b.rows;
      var i := 0;
      while i < |rows|
        invariant i <= |rows| && FirstEncodeError(l, rows) == FirstEncodeError(l, rows[i..])
      {
        assert rows[i..][0] == rows[i] && rows[i..][1..] == rows[i + 1..];
        var encoded := Encode(l, rows[i]);
        if encoded.Err? { return Err(StagingFailed(encoded.error)); }
        i := i + 1;
      }
      if InvalidBatch(l, t, rows) { return Err(InvalidBatchFor(b.target)); }
      var merged, c := MergeStaged(l, t, rows, counters);
      return Ok((tables[b.target := merged], c));
    }

    /** The statements, each adding what it affected to the counters. */
    static method MergeStaged(l: Layout, t: Table, rows: seq<StagingRow>, counters: Counters)
      returns (merged: Table, c: Counters)
      ensures merged == AfterStatements(l, t, rows) && c == AddCounters(counters, Affected(l, t, rows))
    {
      hide HasDataColumns, DeletedCount, MovedCount, VacatedCount, UpdatedCount, InsertedCount, DeleteRows, MoveRows, DeleteMovedRows, UpdateRows, InsertRows;
      c := counters.(staged := SaturatingAdd(counters.staged, |rows|));
      var deleted := DeleteRows(l, t, rows);
      c := c.(deleted := SaturatingAdd(c.deleted, DeletedCount(l, t, rows)));
      var moved := MoveRows(l, deleted, rows);
      c := c.(moved := SaturatingAdd(c.moved, MovedCount(deleted, moved)));
      var vacated := DeleteMovedRows(moved, rows);
      SaturatingTwice(counters.deleted, DeletedCount(l, t, rows), VacatedCount(moved, rows));
      c := c.(deleted := SaturatingAdd(c.deleted, VacatedCount(moved, rows)));
      merged := vacated;
      if HasDataColumns(l) {
        merged := UpdateRows(l, vacated, rows);
        c := c.(updated := SaturatingAdd(c.updated, UpdatedCount(l, vacated, rows)));
      }
      merged := InsertRows(l, merged, rows);
      c := c.(inserted := SaturatingAdd(c.inserted, InsertedCount(l, vacated, rows)));
    }
  }

  lemma SaturatingTwice(x: nat, a: nat, b: nat)
    ensures SaturatingAdd(SaturatingAdd(x, a), b) == SaturatingAdd(x, a + b)
  {
  }

  lemma SkipEmpty(tables: Tables, counters: Counters, b: TableBatch)
    requires b.rows == []
    ensures ApplyTable(tables, counters, b) == Ok((tables, counters))
  {
  }
}
