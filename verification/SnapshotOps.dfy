/** Activating a group, cleaning up interrupted ones and collecting quarantined tables. */
module SnapshotOps {
  import opened Core
  import opened Checkpoint
  import opened Manifest
  import opened ManifestStore
  import opened Snapshot

  // ---- Names in order -------------------------------------------------------------------------

  lemma LeastExists(s: set<QualifiedName>) returns (m: QualifiedName)
    requires s != {}
    ensures m in s && forall x | x in s :: x == m || NameLess(m, x)
    decreases |s|
  {
    hide NameLess;
    m :| m in s;
    var others := s - {m};
    if others != {} {
      var rest := LeastExists(others);
      NameOrder(m, rest, m);
      if NameLess(rest, m) {
        m := rest;
      } else {
        forall x | x in s && x != m ensures NameLess(m, x) { NameOrder(m, rest, x); }
      }
    }
  }

  ghost function Least(s: set<QualifiedName>): (m: QualifiedName)
    requires s != {}
    ensures m in s && forall x | x in s :: x == m || NameLess(m, x)
  {
    assert exists m :: m in s && forall x | x in s :: x == m || NameLess(m, x) by { var w := LeastExists(s); }
    var m :| m in s && forall x | x in s :: x == m || NameLess(m, x);
    m
  }

  /** The names of a set in ascending order, as a query returns them. */
  ghost function InOrder(s: set<QualifiedName>): (r: seq<QualifiedName>)
    ensures |r| == |s| && (forall x :: x in r <==> x in s) && Distinct(r)
    decreases |s|
  {
    if s == {} then []
    else
      var m := Least(s);
      var rest := InOrder(s - {m});
      assert forall x :: x in [m] + rest <==> x in s;
      assert Distinct([m] + rest);
      [m] + rest
  }

  // ---- Planning an activation -----------------------------------------------------------------

  function TargetsOf(tables: seq<ActivationTable>): set<QualifiedName> {
    set x | x in tables :: x.target
  }

  function ShadowsOf(tables: seq<ActivationTable>): set<QualifiedName> {
    set x | x in tables :: x.shadow
  }

  /** Active tables of the pipeline that the request does not cover. */
  function StaleNames(t: Target, request: ActivationRequest): set<QualifiedName> {
    set n | n in t.managed && t.managed[n].pipelineId == request.fence.pipelineId && t.managed[n].state == ActiveTable &&
            n !in TargetsOf(request.tables)
  }

  function FirstStaleError(t: Target, stale: seq<QualifiedName>, token: int): Option<SnapshotError>
    requires forall x | x in stale :: x in t.managed
  {
    if stale == [] then None
    else
      assert stale == [stale[0]] + stale[1..];
      if t.managed[stale[0]].token > token then Some(ManagedByNewerFence(stale[0]))
      else if stale[0] !in t.relations then Some(RelationMissing(stale[0]))
      else FirstStaleError(t, stale[1..], token)
  }

  function QuarantineMove(name: QualifiedName, r: Record, token: int, reason: Reason): Move {
    Move(name, QuarantineName(name, r), r.(state := QuarantinedTable, token := token), Some(reason))
  }

  function PromoteMove(table: ActivationTable, shadow: Record, token: int): Move {
    Move(table.shadow, table.target, shadow.(state := ActiveTable, token := token), None)
  }

  /** The table replaced goes to quarantine, then the shadow takes its name. */
  function StepMoves(table: ActivationTable, c: Classified, token: int): seq<Move>
    requires c.Pending?
  {
    (if c.previous.Some? then [QuarantineMove(table.target, c.previous.value, token, Replaced)] else []) +
    [PromoteMove(table, c.shadow, token)]
  }

  function TableMoves(tables: seq<ActivationTable>, classified: seq<Classified>, token: int): seq<Move>
    requires |tables| == |classified| && forall i | 0 <= i < |classified| :: classified[i].Pending?
  {
    if tables == [] then []
    else
      var k := |tables| - 1;
      TableMoves(tables[..k], classified[..k], token) + StepMoves(tables[k], classified[k], token)
  }

  function StaleMoves(t: Target, stale: seq<QualifiedName>, token: int): (r: seq<Move>)
    requires forall x | x in stale :: x in t.managed
    ensures |r| == |stale|
    ensures forall i | 0 <= i < |r| :: r[i] == QuarantineMove(stale[i], t.managed[stale[i]], token, Stale)
  {
    seq(|stale|, i requires 0 <= i < |stale| => QuarantineMove(stale[i], t.managed[stale[i]], token, Stale))
  }

  function ReplacedNames(tables: seq<ActivationTable>, classified: seq<Classified>): seq<QualifiedName>
    requires |tables| == |classified| && forall i | 0 <= i < |classified| :: classified[i].Pending?
  {
    if tables == [] then []
    else
      var k := |tables| - 1;
      ReplacedNames(tables[..k], classified[..k]) +
      (if classified[k].previous.Some? then [QuarantineName(tables[k].target, classified[k].previous.value)] else [])
  }

  function StaleQuarantines(t: Target, stale: seq<QualifiedName>): (r: seq<QualifiedName>)
    requires forall x | x in stale :: x in t.managed
    ensures |r| == |stale| && forall i | 0 <= i < |r| :: r[i] == QuarantineName(stale[i], t.managed[stale[i]])
  {
    seq(|stale|, i requires 0 <= i < |stale| => QuarantineName(stale[i], t.managed[stale[i]]))
  }

  /** Quarantine names must be new to the request and to the database. */
  function Preflight(t: Target, wanted: seq<QualifiedName>, reserved: set<QualifiedName>): Option<SnapshotError>
    decreases |wanted|
  {
    if wanted == [] then None
    else if wanted[0] in reserved || StateOf(t, wanted[0]) != Vacant then Some(QuarantineConflict(wanted[0]))
    else Preflight(t, wanted[1..], reserved + {wanted[0]})
  }

  function FirstCheckpointError(m: Meta, cs: seq<NodeCheckpoint>): Option<CheckpointError> {
    if cs == [] then None
    else match CheckAdvance(StoredAt(m, cs[0].key), cs[0])
      case Err(e) => Some(e)
      case Ok(_) => FirstCheckpointError(m, cs[1..])
  }

  function FirstUnreached(m: Meta, cs: seq<NodeCheckpoint>): Option<SnapshotError> {
    if cs == [] then None
    else match CheckpointReached(StoredAt(m, cs[0].key), cs[0])
      case Err(e) => Some(FenceFailed(e))
      case Ok(reached) => if reached then FirstUnreached(m, cs[1..]) else Some(CheckpointIncomplete(cs[0].key.nodeId))
  }

  function AdvanceAll(m: Meta, fence: Fence, cs: seq<NodeCheckpoint>): Result<Meta, CheckpointError>
    decreases |cs|
  {
    if cs == [] then Ok(m)
    else match AdvanceCheckpoint(m, fence, cs[0])
      case Err(e) => Err(e)
      case Ok((next, _)) => AdvanceAll(next, fence, cs[1..])
  }

  datatype Disposition = Activated | WasActive

  /** Every table that goes to quarantine gets a name first; only then does anything change. */
  ghost function ActivateGroup(t: Target, request: ActivationRequest): Result<(Target, Disposition), SnapshotError> {
    match Canonical(request)
    case Err(e) => Err(ManifestFailed(e))
    case Ok(r) =>
      if LockFence(t.meta, r.fence).Some? then Err(FenceFailed(LockFence(t.meta, r.fence).value))
      else if r.groupId !in t.groups then Err(ManifestFailed(NotRegistered))
      else if t.groups[r.groupId].request != r then Err(ManifestFailed(ManifestMismatch))
      else match ClassifyAll(t, r.tables, r.fence, r.groupId)
        case Err(e) => Err(e)
        case Ok(classified) => ActivateClassified(t, r, classified)
  }

  ghost function ActivateClassified(t: Target, r: ActivationRequest, classified: seq<Classified>): Result<(Target, Disposition), SnapshotError>
    requires |classified| == |r.tables| && r.groupId in t.groups
  {
    var stale := InOrder(StaleNames(t, r));
    var reserved := TargetsOf(r.tables) + ShadowsOf(r.tables) + StaleNames(t, r);
    if FirstStaleError(t, stale, r.fence.token).Some? then Err(FirstStaleError(t, stale, r.fence.token).value)
    else if forall i | 0 <= i < |classified| :: classified[i].InPlace? then ConfirmActive(t, r, stale, reserved)
    else if exists i | 0 <= i < |classified| :: classified[i].InPlace? then Err(MixedState)
    else if t.groups[r.groupId].state != Loading then Err(ManifestFailed(CorruptManifest))
    else if FirstCheckpointError(t.meta, r.checkpoints).Some? then Err(FenceFailed(FirstCheckpointError(t.meta, r.checkpoints).value))
    else if Preflight(t, ReplacedNames(r.tables, classified) + StaleQuarantines(t, stale), reserved).Some? then
      Err(Preflight(t, ReplacedNames(r.tables, classified) + StaleQuarantines(t, stale), reserved).value)
    else match ApplyMoves(t, r, TableMoves(r.tables, classified, r.fence.token) + StaleMoves(t, stale, r.fence.token))
      case Err(e) => Err(e)
      case Ok(moved) =>
        match AdvanceAll(moved.meta, r.fence, r.checkpoints)
        case Err(e) => Err(FenceFailed(e))
        case Ok(meta) =>
          Ok((moved.(meta := meta, groups := moved.groups[r.groupId := Group(Active, r)],
                     current := moved.current[r.fence.pipelineId := r.groupId]), Activated))
  }

  ghost function ConfirmActive(t: Target, r: ActivationRequest, stale: seq<QualifiedName>, reserved: set<QualifiedName>)
    : Result<(Target, Disposition), SnapshotError>
    requires r.groupId in t.groups && forall x | x in stale :: x in t.managed
  {
    if t.groups[r.groupId].state != Active then Err(ManifestFailed(CorruptManifest))
    else if FirstUnreached(t.meta, r.checkpoints).Some? then Err(FirstUnreached(t.meta, r.checkpoints).value)
    else if Preflight(t, StaleQuarantines(t, stale), reserved).Some? then Err(Preflight(t, StaleQuarantines(t, stale), reserved).value)
    else match ApplyMoves(t, r, StaleMoves(t, stale, r.fence.token))
      case Err(e) => Err(e)
      case Ok(moved) => Ok((moved, WasActive))
  }

  // ---- Cleaning up interrupted groups ---------------------------------------------------------

  predicate CleanupAuthority(current: Fence, group: Fence) {
    current.token > 0 && group.token > 0 && current.pipelineId == group.pipelineId && current.generation >= group.generation &&
    current.token >= group.token
  }

  /** One manifest entry of an interrupted group: its shadow, if it was committed. */
  function CleanupEntry(t: Target, group: ActivationRequest, table: ActivationTable): Result<Option<QualifiedName>, SnapshotError> {
    match StateOf(t, table.shadow)
    case Vacant => Ok(None)
    case ObjectMissing(_) => Err(RelationMissing(table.shadow))
    case Unmanaged => Err(UnmanagedTable(table.shadow))
    case Managed(r) =>
      if r.pipelineId != group.fence.pipelineId then Err(ManagedByOtherPipeline(table.shadow))
      else if !MatchesActivation(r, table, group.groupId) || r.state != ShadowTable || r.token != group.fence.token then
        Err(TableManifestMismatch)
      else if t.relations[table.shadow] != r.oid then Err(IdentityMismatch(table.shadow))
      else Ok(Some(table.shadow))
  }

  function CleanupEntries(t: Target, group: ActivationRequest, tables: seq<ActivationTable>): Result<seq<QualifiedName>, SnapshotError> {
    if tables == [] then Ok([])
    else match CleanupEntry(t, group, tables[0])
      case Err(e) => Err(e)
      case Ok(first) =>
        match CleanupEntries(t, group, tables[1..])
        case Err(e) => Err(e)
        case Ok(rest) => Ok((if first.Some? then [first.value] else []) + rest)
  }

  /** Shadows recorded for a group that its manifest does not list. */
  function ExtraShadows(t: Target, pipelineId: PipelineId, group: ActivationRequest): set<QualifiedName> {
    set n | n in t.managed && t.managed[n].pipelineId == pipelineId && t.managed[n].groupId == group.groupId &&
            t.managed[n].state == ShadowTable && n !in ShadowsOf(group.tables)
  }

  function Names(s: seq<QualifiedName>): set<QualifiedName> {
    set x | x in s
  }

  ghost function CleanupGroup(t: Target, current: Fence, groupFence: Fence, groupId: GroupId): Result<Target, SnapshotError> {
    if groupId == 0 || !CleanupAuthority(current, groupFence) then Err(InvalidCleanupFence)
    else if groupId !in t.groups then Err(ManifestFailed(NotRegistered))
    else if t.groups[groupId].request.fence != groupFence then Err(GroupFenceMismatch)
    else if t.groups[groupId].state != Loading then Err(GroupNotLoading)
    else match CleanupEntries(t, t.groups[groupId].request, t.groups[groupId].request.tables)
      case Err(e) => Err(e)
      case Ok(shadows) =>
        if ExtraShadows(t, current.pipelineId, t.groups[groupId].request) != {} then
          Err(UnexpectedShadow(Least(ExtraShadows(t, current.pipelineId, t.groups[groupId].request))))
        else Ok(t.(relations := t.relations - Names(shadows), managed := t.managed - Names(shadows), groups := t.groups - {groupId}))
  }

  /** Loading groups that the fence dominates. */
  function StaleGroups(t: Target, fence: Fence): set<GroupId> {
    set g | g in t.groups && t.groups[g].state == Loading && t.groups[g].request.fence.pipelineId == fence.pipelineId &&
      (t.groups[g].request.fence.generation < fence.generation ||
       (t.groups[g].request.fence.generation == fence.generation && t.groups[g].request.fence.token < fence.token))
  }

  ghost function CleanupAll(t: Target, fence: Fence, groups: seq<GroupId>): Result<Target, SnapshotError>
    decreases |groups|
  {
    if groups == [] then Ok(t)
    else if groups[0] !in t.groups then Err(ManifestFailed(NotRegistered))
    else match CleanupGroup(t, fence, t.groups[groups[0]].request.fence, groups[0])
      case Err(e) => Err(e)
      case Ok(next) => CleanupAll(next, fence, groups[1..])
  }

  /** Discovery and removal in one transaction, for any order in which the groups are visited. */
  ghost predicate CleanupStale(t: Target, fence: Fence, order: seq<GroupId>, result: Result<Target, SnapshotError>) {
    && Distinct(order) && (forall g :: g in order <==> g in StaleGroups(t, fence))
    && result == if LockFence(t.meta, fence).Some? then Err(FenceFailed(LockFence(t.meta, fence).value)) else CleanupAll(t, fence, order)
  }

  // ---- Collecting quarantines -----------------------------------------------------------------

  predicate Collectable(t: Target, pipelineId: PipelineId, retention: nat, k: LogKey) {
    k in t.log && t.log[k].pipelineId == pipelineId && t.log[k].purgedBy.None? && t.log[k].recordedAt + retention <= t.now
  }

  /** The row that was quarantined, as the log remembers it. */
  function LoggedRecord(e: LogEntry): Record {
    Record(e.pipelineId, e.previousGroupId, e.oid, e.sourceRelationId, e.tableGeneration, e.fingerprint, QuarantinedTable, e.previousToken)
  }

  function UnpurgedAt(t: Target, name: QualifiedName): set<LogKey> {
    set k | k in t.log && t.log[k].quarantine == name && t.log[k].purgedBy.None?
  }

  function CollectOne(t: Target, fence: Fence, k: LogKey): Result<Target, SnapshotError>
    requires k in t.log
  {
    var e := t.log[k];
    if e.pipelineId != fence.pipelineId || e.generation > fence.generation || e.token > fence.token then Err(InvalidCleanupFence)
    else if QuarantineName(e.original, LoggedRecord(e)) != e.quarantine then Err(QuarantineRecordMismatch(e.quarantine))
    else match StateOf(t, e.quarantine)
      case Vacant => Err(MissingQuarantineMetadata(e.quarantine))
      case Unmanaged => Err(MissingQuarantineMetadata(e.quarantine))
      case ObjectMissing(_) => Err(MissingQuarantineMetadata(e.quarantine))
      case Managed(r) =>
        if r != LoggedRecord(e).(token := e.token) then Err(QuarantineMetadataMismatch(e.quarantine))
        else if t.relations[e.quarantine] != r.oid then Err(IdentityMismatch(e.quarantine))
        else if |UnpurgedAt(t, e.quarantine)| != 1 then Err(QuarantineRecordMismatch(e.quarantine))
        else Ok(t.(relations := t.relations - {e.quarantine}, managed := t.managed - {e.quarantine},
                   log := t.log[k := e.(purgedBy := Some(fence.token))]))
  }

  function CollectAll(t: Target, fence: Fence, keys: seq<LogKey>): Result<Target, SnapshotError>
    decreases |keys|
  {
    if keys == [] then Ok(t)
    else if keys[0] !in t.log then Err(QuarantineRecordMismatch(keys[0].1))
    else match CollectOne(t, fence, keys[0])
      case Err(e) => Err(e)
      case Ok(next) => CollectAll(next, fence, keys[1..])
  }

  /** One collection pass over candidates that were old enough, at most `limit` of them. */
  ghost predicate Collected(t: Target, fence: Fence, retention: nat, limit: nat, keys: seq<LogKey>, result: Result<Target, SnapshotError>) {
    && Distinct(keys) && |keys| <= limit && (forall k | k in keys :: Collectable(t, fence.pipelineId, retention, k))
    && (|keys| < limit ==> forall k | Collectable(t, fence.pipelineId, retention, k) :: k in keys)
    && (forall j, k | j in keys && Collectable(t, fence.pipelineId, retention, k) && k !in keys :: t.log[j].recordedAt <= t.log[k].recordedAt)
    && result == if LockFence(t.meta, fence).Some? then Err(FenceFailed(LockFence(t.meta, fence).value)) else CollectAll(t, fence, keys)
  }
}
