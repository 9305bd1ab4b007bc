/** The target's authority records: one fence per pipeline and one applied position per source node. */
module Checkpoint {
  import opened Core

  type PipelineId = nat

  datatype Fence = Fence(pipelineId: PipelineId, generation: nat, token: int)

  datatype FenceRow = FenceRow(generation: nat, token: int)

  datatype CheckpointKey = CheckpointKey(pipelineId: PipelineId, generation: nat, nodeId: int)

  datatype NodeCheckpoint = NodeCheckpoint(key: CheckpointKey, systemIdentifier: nat, timeline: nat, slotName: Bytes,
                                           appliedLsn: nat)

  datatype StoredCheckpoint = StoredCheckpoint(checkpoint: NodeCheckpoint, token: int)

  datatype Meta = Meta(fences: map<PipelineId, FenceRow>, checkpoints: map<CheckpointKey, StoredCheckpoint>)

  datatype AdvanceOutcome = Inserted | Unchanged | Advanced(previousLsn: nat)

  datatype CheckpointError =
    | GenerationOutOfRange(generation: nat)
    | InvalidFencingToken
    | InvalidTimeline
    | InvalidSlotName
    | MissingFence
    | StaleFence(expected: FenceRow, actual: FenceRow)
    | FenceKeyMismatch
    | SourceIdentityChanged
    | LsnRegression(current: nat, proposed: nat)

  function ValidateFence(f: Fence): Option<CheckpointError> {
    if f.generation > I64_MAX then Some(GenerationOutOfRange(f.generation))
    else if f.token <= 0 then Some(InvalidFencingToken)
    else None
  }

  function ValidateCheckpoint(c: NodeCheckpoint): Option<CheckpointError> {
    if c.key.generation > I64_MAX then Some(GenerationOutOfRange(c.key.generation))
    else if c.timeline == 0 then Some(InvalidTimeline)
    else if c.slotName == [] || 0 in c.slotName then Some(InvalidSlotName)
    else None
  }

  /** Componentwise order of fences; two fences may be incomparable. */
  predicate AtMost(a: FenceRow, b: FenceRow) {
    a.generation <= b.generation && a.token <= b.token
  }

  function RowOfFence(f: Fence): FenceRow {
    FenceRow(f.generation, f.token)
  }

  /** Upsert guarded componentwise: the statement writes only when neither component would shrink. */
  function ActivateFence(m: Meta, f: Fence): Result<Meta, CheckpointError> {
    if ValidateFence(f).Some? then Err(ValidateFence(f).value)
    else if f.pipelineId in m.fences && !AtMost(m.fences[f.pipelineId], RowOfFence(f)) then
      Err(StaleFence(RowOfFence(f), m.fences[f.pipelineId]))
    else Ok(m.(fences := m.fences[f.pipelineId := RowOfFence(f)]))
  }

  function LockFence(m: Meta, f: Fence): Option<CheckpointError> {
    if ValidateFence(f).Some? then ValidateFence(f)
    else if f.pipelineId !in m.fences then Some(MissingFence)
    else if m.fences[f.pipelineId] == RowOfFence(f) then None
    else Some(StaleFence(RowOfFence(f), m.fences[f.pipelineId]))
  }

  predicate SameIdentity(a: NodeCheckpoint, b: NodeCheckpoint) {
    a.key == b.key && a.systemIdentifier == b.systemIdentifier && a.timeline == b.timeline && a.slotName == b.slotName
  }

  function CheckAdvance(current: Option<StoredCheckpoint>, proposed: NodeCheckpoint): Result<AdvanceOutcome, CheckpointError> {
    if ValidateCheckpoint(proposed).Some? then Err(ValidateCheckpoint(proposed).value)
    else match current
      case None => Ok(Inserted)
      case Some(stored) =>
        if !SameIdentity(stored.checkpoint, proposed) then Err(SourceIdentityChanged)
        else if proposed.appliedLsn < stored.checkpoint.appliedLsn then
          Err(LsnRegression(stored.checkpoint.appliedLsn, proposed.appliedLsn))
        else if proposed.appliedLsn == stored.checkpoint.appliedLsn then Ok(Unchanged)
        else Ok(Advanced(stored.checkpoint.appliedLsn))
  }

  function CheckpointReached(current: Option<StoredCheckpoint>, required: NodeCheckpoint): Result<bool, CheckpointError> {
    if ValidateCheckpoint(required).Some? then Err(ValidateCheckpoint(required).value)
    else match current
      case None => Ok(false)
      case Some(stored) =>
        if !SameIdentity(stored.checkpoint, required) then Err(SourceIdentityChanged)
        else Ok(stored.checkpoint.appliedLsn >= required.appliedLsn)
  }

  function StoredAt(m: Meta, key: CheckpointKey): Option<StoredCheckpoint> {
    if key in m.checkpoints then Some(m.checkpoints[key]) else None
  }

  function AdvanceCheckpoint(m: Meta, f: Fence, proposed: NodeCheckpoint): Result<(Meta, AdvanceOutcome), CheckpointError> {
    if ValidateCheckpoint(proposed).Some? then Err(ValidateCheckpoint(proposed).value)
    else if proposed.key.pipelineId != f.pipelineId || proposed.key.generation != f.generation then Err(FenceKeyMismatch)
    else if LockFence(m, f).Some? then Err(LockFence(m, f).value)
    else match CheckAdvance(StoredAt(m, proposed.key), proposed)
      case Err(e) => Err(e)
      case Ok(outcome) =>
        var row :=
          if outcome.Inserted? then StoredCheckpoint(proposed, f.token)
          else
            var stored := m.checkpoints[proposed.key];
            stored.(checkpoint := stored.checkpoint.(appliedLsn := proposed.appliedLsn), token := f.token);
        Ok((m.(checkpoints := m.checkpoints[proposed.key := row]), outcome))
  }

  // ---- Runs of the target ---------------------------------------------------------------------

  /** Everything that writes the authority records; a refused operation rolls back. */
  datatype Operation = Activate(fence: Fence) | Advance(owner: Fence, proposed: NodeCheckpoint)

  function Perform(m: Meta, op: Operation): Meta {
    match op
    case Activate(f) => (match ActivateFence(m, f) case Ok(next) => next case Err(_) => m)
    case Advance(f, proposed) => (match AdvanceCheckpoint(m, f, proposed) case Ok((next, _)) => next case Err(_) => m)
  }

  function PerformAll(m: Meta, ops: seq<Operation>): Meta
    decreases |ops|
  {
    if ops == [] then m else PerformAll(Perform(m, ops[0]), ops[1..])
  }

  ghost predicate FencesGrow(a: Meta, b: Meta) {
    forall p | p in a.fences :: p in b.fences && AtMost(a.fences[p], b.fences[p])
  }

  /** Positions never move back, and the identity recorded first stays. */
  ghost predicate CheckpointsGrow(a: Meta, b: Meta) {
    forall k | k in a.checkpoints :: k in b.checkpoints &&
      SameIdentity(a.checkpoints[k].checkpoint, b.checkpoints[k].checkpoint) &&
      a.checkpoints[k].checkpoint.appliedLsn <= b.checkpoints[k].checkpoint.appliedLsn
  }

  lemma {:induction false} RunsOnlyGrow(m: Meta, ops: seq<Operation>)
    ensures FencesGrow(m, PerformAll(m, ops)) && CheckpointsGrow(m, PerformAll(m, ops))
    decreases |ops|
  {
    if ops != [] {
      RunsOnlyGrow(Perform(m, ops[0]), ops[1..]);
    }
  }

  /** Every record is filed under its own key, by a token no later than its pipeline's fence. */
  ghost predicate RecordsOk(m: Meta) {
    forall k | k in m.checkpoints ::
      && m.checkpoints[k].checkpoint.key == k && k.pipelineId in m.fences
      && AtMost(FenceRow(k.generation, m.checkpoints[k].token), m.fences[k.pipelineId])
  }

  lemma {:induction false} RunsKeepRecordsOk(m: Meta, ops: seq<Operation>)
    requires RecordsOk(m)
    ensures RecordsOk(PerformAll(m, ops))
    decreases |ops|
  {
    if ops != [] {
      RunsKeepRecordsOk(Perform(m, ops[0]), ops[1..]);
    }
  }

  /** Once a different fence has replaced `f`, then in every later state of the records alone, whatever
      activations and advances come in between, `f` cannot be locked, activated or used to advance a
      checkpoint. Module `Superseded` draws the consequence for whole runs of the lifecycle and of replication. */
  lemma ReplacedFenceNeverCommits(m: Meta, f: Fence, g: Fence, ops: seq<Operation>, proposed: NodeCheckpoint)
    requires LockFence(m, f).None? && g != f && g.pipelineId == f.pipelineId
    requires ActivateFence(m, g).Ok?
    ensures var later := PerformAll(ActivateFence(m, g).value, ops);
      LockFence(later, f).Some? && ActivateFence(later, f).Err? && AdvanceCheckpoint(later, f, proposed).Err?
  {
    RunsOnlyGrow(ActivateFence(m, g).value, ops);
  }

  /** An accepted advance is exactly a fenced, identity-preserving, non-regressing write of one row. */
  lemma AdvanceIffCurrent(m: Meta, f: Fence, proposed: NodeCheckpoint)
    ensures AdvanceCheckpoint(m, f, proposed).Ok? <==>
      && ValidateCheckpoint(proposed).None? && ValidateFence(f).None?
      && proposed.key.pipelineId == f.pipelineId && proposed.key.generation == f.generation
      && f.pipelineId in m.fences && m.fences[f.pipelineId] == RowOfFence(f)
      && (proposed.key in m.checkpoints ==>
            SameIdentity(m.checkpoints[proposed.key].checkpoint, proposed) &&
            m.checkpoints[proposed.key].checkpoint.appliedLsn <= proposed.appliedLsn)
    ensures AdvanceCheckpoint(m, f, proposed).Ok? ==>
      var next := AdvanceCheckpoint(m, f, proposed).value.0;
      && next.fences == m.fences && next.checkpoints.Keys == m.checkpoints.Keys + {proposed.key}
      && next.checkpoints[proposed.key] == StoredCheckpoint(proposed, f.token)
      && (forall k | k in m.checkpoints && k != proposed.key :: next.checkpoints[k] == m.checkpoints[k])
      && CheckpointReached(StoredAt(next, proposed.key), proposed) == Ok(true)
  {
    if proposed.key in m.checkpoints && AdvanceCheckpoint(m, f, proposed).Ok? {
      var stored := m.checkpoints[proposed.key];
      assert stored.(checkpoint := stored.checkpoint.(appliedLsn := proposed.appliedLsn), token := f.token) ==
             StoredCheckpoint(proposed, f.token);
    }
  }

  /** A fence is taken if and only if it is well formed and neither component would shrink; it is then the one
      that locks, and no position changes. */
  lemma TakenExactly(m: Meta, f: Fence)
    ensures ActivateFence(m, f).Ok? <==>
      && f.generation <= I64_MAX && f.token > 0
      && (f.pipelineId in m.fences ==> m.fences[f.pipelineId].generation <= f.generation && m.fences[f.pipelineId].token <= f.token)
    ensures ActivateFence(m, f).Ok? ==>
      var next := ActivateFence(m, f).value;
      && next.checkpoints == m.checkpoints && LockFence(next, f).None?
      && (forall g: Fence | g.pipelineId == f.pipelineId && g != f :: LockFence(next, g).Some?)
      && (forall p | p != f.pipelineId :: (p in next.fences <==> p in m.fences) && (p in m.fences ==> next.fences[p] == m.fences[p]))
  {
  }

  /** Whether a position was reached is answered exactly when it is well formed and of the recorded stream. */
  lemma ReachedExactly(m: Meta, required: NodeCheckpoint)
    ensures CheckpointReached(StoredAt(m, required.key), required) == Ok(true) <==>
      && required.key.generation <= I64_MAX && required.timeline != 0 && required.slotName != [] && 0 !in required.slotName
      && required.key in m.checkpoints
      && (var c := m.checkpoints[required.key].checkpoint;
          c.key == required.key && c.systemIdentifier == required.systemIdentifier && c.timeline == required.timeline &&
          c.slotName == required.slotName && required.appliedLsn <= c.appliedLsn)
  {
  }

  /** What has just been advanced to is reached, and stays so over every run. */
  lemma AdvancedIsReached(m: Meta, f: Fence, proposed: NodeCheckpoint, ops: seq<Operation>)
    requires AdvanceCheckpoint(m, f, proposed).Ok?
    ensures var later := PerformAll(AdvanceCheckpoint(m, f, proposed).value.0, ops);
      CheckpointReached(StoredAt(later, proposed.key), proposed) == Ok(true)
  {
    AdvanceIffCurrent(m, f, proposed);
    RunsOnlyGrow(AdvanceCheckpoint(m, f, proposed).value.0, ops);
    ReachedExactly(PerformAll(AdvanceCheckpoint(m, f, proposed).value.0, ops), proposed);
  }
}
