/** The snapshot-group lifecycle on the target: register a manifest, load shadows, activate, clean up
    and collect. Every operation is one target transaction under the pipeline fence. */
module Snapshot {
  import opened Core
  import opened Checkpoint
  import opened Framing
  import opened Manifest
  import opened ManifestStore

  datatype TableState = ShadowTable | ActiveTable | BlockedTable | QuarantinedTable

  datatype Record = Record(pipelineId: PipelineId, groupId: GroupId, oid: nat, sourceRelationId: nat, tableGeneration: nat,
                           fingerprint: Bytes, state: TableState, token: int)

  datatype Reason = Replaced | Stale

  datatype LogEntry = LogEntry(groupId: GroupId, original: QualifiedName, quarantine: QualifiedName, oid: nat,
                               pipelineId: PipelineId, generation: nat, sourceRelationId: nat, previousGroupId: GroupId,
                               tableGeneration: nat, fingerprint: Bytes, reason: Reason, previousToken: int, token: int,
                               recordedAt: nat, purgedBy: Option<int>)

  type LogKey = (GroupId, QualifiedName)

  datatype Group = Group(state: GroupState, request: ActivationRequest)

  /** The target database as the lifecycle sees it: relations by name with their object identity, the
      metadata rows, the groups (whose rows load back as registered), and the audit log. `current` is
      history: the group activated last. */
  datatype Target = Target(now: nat, meta: Meta, relations: map<QualifiedName, nat>, managed: map<QualifiedName, Record>,
                           groups: map<GroupId, Group>, log: map<LogKey, LogEntry>, nextOid: nat, current: map<PipelineId, GroupId>)

  datatype SnapshotError =
    | FenceFailed(checkpoint: CheckpointError)
    | ManifestFailed(manifest: ManifestError)
    | GroupAlreadyActive | GroupNotLoading | TableNotInManifest | TableManifestMismatch
    | UnmanagedTable(name: QualifiedName) | RelationMissing(name: QualifiedName)
    | ManagedByOtherPipeline(name: QualifiedName) | ManagedByOtherSource(name: QualifiedName) | ManagedByNewerFence(name: QualifiedName)
    | UnexpectedState(name: QualifiedName) | TargetAlreadyActive(name: QualifiedName)
    | ShadowGroupMismatch(name: QualifiedName) | ShadowGenerationMismatch(name: QualifiedName) | ShadowFingerprintMismatch(name: QualifiedName)
    | IncompleteShadow(name: QualifiedName) | GenerationNotNewer(name: QualifiedName) | MixedState
    | QuarantineConflict(name: QualifiedName) | CheckpointIncomplete(nodeId: int) | RenameFailed(name: QualifiedName) | DuplicateLogKey
    | InvalidCleanupFence | GroupFenceMismatch | UnexpectedShadow(name: QualifiedName) | IdentityMismatch(name: QualifiedName)
    | MissingQuarantineMetadata(name: QualifiedName) | QuarantineMetadataMismatch(name: QualifiedName) | QuarantineRecordMismatch(name: QualifiedName)
    | MissingActiveGroup | MultipleActiveGroups

  // ---- Relation states ------------------------------------------------------------------------

  datatype RelationState = Vacant | Unmanaged | ObjectMissing(missing: Record) | Managed(record: Record)

  function StateOf(t: Target, name: QualifiedName): RelationState {
    if name in t.relations then
      if name in t.managed then Managed(t.managed[name]) else Unmanaged
    else if name in t.managed then ObjectMissing(t.managed[name]) else Vacant
  }

  /** The checks every managed row passes first: who owns it, and that no newer lease wrote it. */
  function CheckOwner(name: QualifiedName, r: Record, fence: Fence, sourceRelationId: nat): Option<SnapshotError> {
    if r.pipelineId != fence.pipelineId then Some(ManagedByOtherPipeline(name))
    else if r.sourceRelationId != sourceRelationId then Some(ManagedByOtherSource(name))
    else if r.token > fence.token then Some(ManagedByNewerFence(name))
    else None
  }

  predicate MatchesActivation(r: Record, table: ActivationTable, groupId: GroupId) {
    r.groupId == groupId && r.sourceRelationId == table.sourceRelationId && r.tableGeneration == table.tableGeneration &&
    r.fingerprint == table.fingerprint
  }

  // ---- Registering ----------------------------------------------------------------------------

  datatype Registration = Registered | AlreadyRegistered | AlreadyActive

  ghost function BeginGroup(t: Target, request: ActivationRequest): Result<(Target, Registration), SnapshotError> {
    match Canonical(request)
    case Err(e) => Err(ManifestFailed(e))
    case Ok(canonical) =>
      if LockFence(t.meta, canonical.fence).Some? then Err(FenceFailed(LockFence(t.meta, canonical.fence).value))
      else if canonical.groupId in t.groups then
        if t.groups[canonical.groupId].request != canonical then Err(ManifestFailed(ManifestMismatch))
        else Ok((t, if t.groups[canonical.groupId].state == Loading then AlreadyRegistered else AlreadyActive))
      else Ok((t.(groups := t.groups[canonical.groupId := Group(Loading, canonical)]), Registered))
  }

  // ---- Loading one shadow ---------------------------------------------------------------------

  function CheckTargetForLoad(t: Target, table: ActivationTable, fence: Fence): Option<SnapshotError> {
    match StateOf(t, table.target)
    case Vacant => None
    case Unmanaged => Some(UnmanagedTable(table.target))
    case ObjectMissing(_) => Some(RelationMissing(table.target))
    case Managed(r) =>
      if CheckOwner(table.target, r, fence, table.sourceRelationId).Some? then CheckOwner(table.target, r, fence, table.sourceRelationId)
      else if r.state != ActiveTable then Some(UnexpectedState(table.target))
      else if r.tableGeneration == table.tableGeneration && r.fingerprint == table.fingerprint then Some(TargetAlreadyActive(table.target))
      else None
  }

  /** Whether a committed shadow is there to be replaced. */
  function CheckShadowForRebuild(t: Target, table: ActivationTable, fence: Fence, groupId: GroupId): Result<bool, SnapshotError> {
    match StateOf(t, table.shadow)
    case Vacant => Ok(false)
    case Unmanaged => Err(UnmanagedTable(table.shadow))
    case ObjectMissing(_) => Err(RelationMissing(table.shadow))
    case Managed(r) =>
      if CheckOwner(table.shadow, r, fence, table.sourceRelationId).Some? then
        Err(CheckOwner(table.shadow, r, fence, table.sourceRelationId).value)
      else if r.state != ShadowTable then Err(UnexpectedState(table.shadow))
      else if r.groupId != groupId then
        if r.token < fence.token then Ok(true) else Err(ShadowGroupMismatch(table.shadow))
      else if r.tableGeneration != table.tableGeneration then Err(ShadowGenerationMismatch(table.shadow))
      else if r.fingerprint != table.fingerprint then Err(ShadowFingerprintMismatch(table.shadow))
      else Ok(true)
  }

  /** The manifest's entry for a target. */
  function EntryFor(tables: seq<ActivationTable>, target: QualifiedName): (r: Option<ActivationTable>)
    ensures r.Some? ==> r.value in tables && r.value.target == target
    ensures r.None? ==> forall x | x in tables :: x.target != target
  {
    if tables == [] then None
    else if tables[0].target == target then Some(tables[0])
    else
      assert tables == [tables[0]] + tables[1..];
      EntryFor(tables[1..], target)
  }

  function Membership(t: Target, fence: Fence, groupId: GroupId, table: ActivationTable): Option<SnapshotError> {
    if groupId !in t.groups then Some(ManifestFailed(NotRegistered))
    else if t.groups[groupId].request.fence != fence then Some(ManifestFailed(ManifestMismatch))
    else match EntryFor(t.groups[groupId].request.tables, table.target)
      case None => Some(TableNotInManifest)
      case Some(entry) => if entry != table then Some(TableManifestMismatch) else None
  }

  /** Creates the shadow under a fresh object identity, replacing one that is there, and loads it. */
  function LoadShadow(t: Target, fence: Fence, groupId: GroupId, table: ActivationTable): Result<Target, SnapshotError> {
    if LockFence(t.meta, fence).Some? then Err(FenceFailed(LockFence(t.meta, fence).value))
    else if Membership(t, fence, groupId, table).Some? then Err(Membership(t, fence, groupId, table).value)
    else if t.groups[groupId].state == Active then Err(GroupAlreadyActive)
    else if CheckTargetForLoad(t, table, fence).Some? then Err(CheckTargetForLoad(t, table, fence).value)
    else match CheckShadowForRebuild(t, table, fence, groupId)
      case Err(e) => Err(e)
      case Ok(_) =>
        Ok(t.(relations := t.relations[table.shadow := t.nextOid],
              managed := t.managed[table.shadow := Record(fence.pipelineId, groupId, t.nextOid, table.sourceRelationId,
                                                          table.tableGeneration, table.fingerprint, ShadowTable, fence.token)],
              nextOid := t.nextOid + 1))
  }

  // ---- Moving relations -----------------------------------------------------------------------

  const QUARANTINE_PREFIX: Bytes := [112, 103, 50, 99, 98, 95, 113, 95]
  const SHADOW_PREFIX: Bytes := [112, 103, 50, 99, 98, 95, 115, 104, 97, 100, 111, 119, 95]

  /** What is hashed for a quarantine name. */
  function QuarantineBytes(target: QualifiedName, r: Record): Bytes {
    Field(target.schema) + (Field(target.name) + (Field(BigEndian(r.pipelineId, 16)) + (Field(BigEndian(r.sourceRelationId, 4)) +
    (Field(BigEndian(r.tableGeneration, 8)) + (Field(r.fingerprint) + Field(BigEndian(if r.token < 0 then 0 else r.token, 8)))))))
  }

  function QuarantineName(target: QualifiedName, r: Record): QualifiedName {
    QualifiedName(target.schema, QUARANTINE_PREFIX + QuarantineBytes(target, r))
  }

  /** One rename together with the metadata row that follows it, logged when it is a quarantine. */
  datatype Move = Move(source: QualifiedName, destination: QualifiedName, record: Record, reason: Option<Reason>)

  function LogEntryFor(t: Target, request: ActivationRequest, m: Move, previous: Record): LogEntry
    requires m.reason.Some?
  {
    LogEntry(request.groupId, m.source, m.destination, previous.oid, request.fence.pipelineId, request.fence.generation,
             previous.sourceRelationId, previous.groupId, previous.tableGeneration, previous.fingerprint, m.reason.value,
             previous.token, request.fence.token, t.now, None)
  }

  /** Renames, moves the metadata row and logs; fails where the database would. */
  function ApplyMove(t: Target, request: ActivationRequest, m: Move): Result<Target, SnapshotError> {
    if m.source !in t.relations || m.destination in t.relations || m.source !in t.managed || m.destination in t.managed then
      Err(RenameFailed(m.source))
    else if m.reason.Some? && (request.groupId, m.source) in t.log then Err(DuplicateLogKey)
    else
      var log := if m.reason.Some?
        then t.log[(request.groupId, m.source) := LogEntryFor(t, request, m, t.managed[m.source])] else t.log;
      Ok(t.(relations := (t.relations - {m.source})[m.destination := t.relations[m.source]],
            managed := (t.managed - {m.source})[m.destination := m.record], log := log))
  }

  function ApplyMoves(t: Target, request: ActivationRequest, moves: seq<Move>): Result<Target, SnapshotError> {
    if moves == [] then Ok(t)
    else match ApplyMoves(t, request, moves[..|moves| - 1])
      case Err(e) => Err(e)
      case Ok(next) => ApplyMove(next, request, moves[|moves| - 1])
  }

  // ---- Classifying tables ---------------------------------------------------------------------

  datatype Classified = Pending(shadow: Record, previous: Option<Record>) | InPlace

  function ClassifyTarget(t: Target, table: ActivationTable, fence: Fence): Result<Option<Record>, SnapshotError> {
    match StateOf(t, table.target)
    case Vacant => Ok(None)
    case Unmanaged => Err(UnmanagedTable(table.target))
    case ObjectMissing(_) => Err(RelationMissing(table.target))
    case Managed(r) =>
      if CheckOwner(table.target, r, fence, table.sourceRelationId).Some? then
        Err(CheckOwner(table.target, r, fence, table.sourceRelationId).value)
      else if r.state != ActiveTable then Err(UnexpectedState(table.target))
      else Ok(Some(r))
  }

  function ClassifyShadow(t: Target, table: ActivationTable, fence: Fence, groupId: GroupId): Result<Option<Record>, SnapshotError> {
    match StateOf(t, table.shadow)
    case Vacant => Ok(None)
    case Unmanaged => Err(UnmanagedTable(table.shadow))
    case ObjectMissing(_) => Err(RelationMissing(table.shadow))
    case Managed(r) =>
      if CheckOwner(table.shadow, r, fence, table.sourceRelationId).Some? then
        Err(CheckOwner(table.shadow, r, fence, table.sourceRelationId).value)
      else if r.state != ShadowTable then Err(UnexpectedState(table.shadow))
      else if r.groupId != groupId then Err(ShadowGroupMismatch(table.shadow))
      else if r.tableGeneration != table.tableGeneration then Err(ShadowGenerationMismatch(table.shadow))
      else if r.fingerprint != table.fingerprint then Err(ShadowFingerprintMismatch(table.shadow))
      else Ok(Some(r))
  }

  function Classify(t: Target, table: ActivationTable, fence: Fence, groupId: GroupId): Result<Classified, SnapshotError> {
    match ClassifyTarget(t, table, fence)
    case Err(e) => Err(e)
    case Ok(target) =>
      match ClassifyShadow(t, table, fence, groupId)
      case Err(e) => Err(e)
      case Ok(shadow) =>
        if target.Some? && MatchesActivation(target.value, table, groupId) then
          if shadow.None? then Ok(InPlace) else Err(IncompleteShadow(table.shadow))
        else if shadow.None? then Err(IncompleteShadow(table.shadow))
        else if target.Some? && target.value.tableGeneration >= table.tableGeneration then Err(GenerationNotNewer(table.target))
        else Ok(Pending(shadow.value, target))
  }

  function ClassifyAll(t: Target, tables: seq<ActivationTable>, fence: Fence, groupId: GroupId): (r: Result<seq<Classified>, SnapshotError>)
    ensures r.Ok? ==> |r.value| == |tables|
    ensures r.Ok? <==> forall i | 0 <= i < |tables| :: Classify(t, tables[i], fence, groupId).Ok?
    ensures r.Ok? ==> forall i | 0 <= i < |tables| :: Classify(t, tables[i], fence, groupId) == Ok(r.value[i])
  {
    if tables == [] then Ok([])
    else match Classify(t, tables[0], fence, groupId)
      case Err(e) => Err(e)
      case Ok(first) =>
        assert forall i | 1 <= i < |tables| :: tables[i] == tables[1..][i - 1];
        match ClassifyAll(t, tables[1..], fence, groupId)
        case Err(e) => Err(e)
        case Ok(rest) => Ok([first] + rest)
  }
}
