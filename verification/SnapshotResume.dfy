/** The check a run makes before it resumes from a stored position. */
module SnapshotResume {
  import opened Core
  import opened Checkpoint
  import opened Framing
  import opened Sorting
  import opened Manifest
  import opened ManifestStore
  import opened Snapshot
  import opened SnapshotNames
  import opened SnapshotOps
  import opened SnapshotInvariant
  import opened SnapshotClassify

  function ActiveGroups(t: Target, f: Fence): set<GroupId> {
    set g | g in t.groups && t.groups[g].state == Active && t.groups[g].request.fence.pipelineId == f.pipelineId &&
            t.groups[g].request.fence.generation == f.generation
  }

  function FirstNotInPlace(t: Target, tables: seq<ActivationTable>, f: Fence, g: GroupId): Option<SnapshotError> {
    if tables == [] then None
    else match Classify(t, tables[0], f, g)
      case Err(e) => Some(e)
      case Ok(c) => if c.InPlace? then FirstNotInPlace(t, tables[1..], f, g) else Some(MixedState)
  }

  ghost function CheckGroup(t: Target, f: Fence, tables: seq<ActivationTable>, g: GroupId): Result<GroupId, SnapshotError>
    requires g in t.groups
  {
    var stored := t.groups[g].request;
    if t.groups[g].state != Active || stored.fence.pipelineId != f.pipelineId || stored.fence.generation != f.generation ||
       stored.fence.token > f.token then Err(ManifestFailed(CorruptManifest))
    else match Canonical(ActivationRequest(f, g, tables, stored.checkpoints))
      case Err(e) => Err(ManifestFailed(e))
      case Ok(expected) =>
        if expected.tables != stored.tables then Err(ManifestFailed(ManifestMismatch))
        else if FirstNotInPlace(t, expected.tables, f, g).Some? then Err(FirstNotInPlace(t, expected.tables, f, g).value)
        else if FirstUnreached(t.meta, stored.checkpoints).Some? then Err(FirstUnreached(t.meta, stored.checkpoints).value)
        else Ok(g)
  }

  /** The generation must have one active group, with exactly these tables in place and its position reached. */
  ghost function ValidateActive(t: Target, f: Fence, tables: seq<ActivationTable>): Result<GroupId, SnapshotError> {
    if LockFence(t.meta, f).Some? then Err(FenceFailed(LockFence(t.meta, f).value))
    else if ActiveGroups(t, f) == {} then Err(MissingActiveGroup)
    else if |ActiveGroups(t, f)| > 1 then Err(MultipleActiveGroups)
    else
      var g :| g in ActiveGroups(t, f);
      CheckGroup(t, f, tables, g)
  }

  // ---- What it can still refuse ---------------------------------------------------------------

  /** Where a position is on record for the present generation, exactly the current group is active in it. */
  lemma CurrentIsTheActiveGroup(t: Target, f: Fence)
    requires Inv(t) && LockFence(t.meta, f).None? && NodeKey(f) in t.meta.checkpoints
    ensures f.pipelineId in t.current && ActiveGroups(t, f) == {t.current[f.pipelineId]}
    ensures t.current[f.pipelineId] in t.groups && t.groups[t.current[f.pipelineId]].request.fence.token <= f.token
  {
    hide NamesMatch, RowsOk, LogOk, LogApart, PlannedRequest, Reached, GroupOk, CurrentOk;
    assert InvOk(t);
    assert CheckpointOk(t, NodeKey(f));
    var g :| ActiveAt(t, g, NodeKey(f));
    hide GroupsOk, CurrentsOk, CheckpointsOk;
    ActiveIsLatest(t, f, g);
    forall h | h in ActiveGroups(t, f) ensures h == g {
      assert ActiveAt(t, h, NodeKey(f));
      ActiveIsLatest(t, f, h);
    }
  }

  lemma ActiveIsLatest(t: Target, f: Fence, g: GroupId)
    requires Inv(t) && LockFence(t.meta, f).None? && ActiveAt(t, g, NodeKey(f))
    ensures f.pipelineId in t.current && t.current[f.pipelineId] == g && t.groups[g].request.fence.token <= f.token
  {
    hide Inv, PlannedRequest, Reached, CurrentOk;
    GroupIn(t, g);
    GroupIn(t, t.current[f.pipelineId]);
    CurrentIsOfPipeline(t, f.pipelineId);
  }

  lemma CurrentIsOfPipeline(t: Target, p: PipelineId)
    requires Inv(t) && p in t.current
    ensures t.current[p] in t.groups && t.groups[t.current[p]].request.fence.pipelineId == p && t.groups[t.current[p]].state == Active
  {
    hide Inv;
    CurrentIn(t, p);
  }

  lemma {:induction false} TablesInPlace(t: Target, p: PipelineId, tables: seq<ActivationTable>, f: Fence)
    requires Inv(t) && p in t.current && t.current[p] in t.groups && f.pipelineId == p && t.groups[t.current[p]].request.fence.token <= f.token
    requires forall x | x in tables :: x in t.groups[t.current[p]].request.tables
    ensures FirstNotInPlace(t, tables, f, t.current[p]).None?
  {
    hide Inv, Classify;
    if tables != [] {
      assert tables == [tables[0]] + tables[1..];
      ClassifyInPlace(t, p, tables[0], f);
      TablesInPlace(t, p, tables[1..], f);
    }
  }

  lemma PositionReached(t: Target, g: GroupId)
    requires Inv(t) && g in t.groups && t.groups[g].state == Active
    ensures FirstUnreached(t.meta, t.groups[g].request.checkpoints).None?
  {
    hide Inv, PlannedRequest, ValidateCheckpoint, Overtaken;
    GroupIn(t, g);
    PlannedNode(t.groups[g].request);
    assert FirstUnreached(t.meta, t.groups[g].request.checkpoints[1..]).None?;
  }

  /** The nodes of a stored group are canonical under any later fence of its generation. */
  lemma NodesUnderLaterFence(q: ActivationRequest, f: Fence)
    requires Canonical(q) == Ok(q) && f.pipelineId == q.fence.pipelineId && f.generation == q.fence.generation
    ensures CanonicalNodes(f, q.checkpoints) == Ok(q.checkpoints)
  {
    CanonicalParts(q);
    hide Canonical, CanonicalTables, Sort;
    assert forall c | c in q.checkpoints :: ValidateNode(f, c) == ValidateNode(q.fence, c);
  }

  lemma ExpectedTables(t: Target, f: Fence, tables: seq<ActivationTable>, g: GroupId)
    requires Inv(t) && LockFence(t.meta, f).None? && g in t.groups
    requires t.groups[g].request.fence.pipelineId == f.pipelineId && t.groups[g].request.fence.generation == f.generation
    ensures var c := Canonical(ActivationRequest(f, g, tables, t.groups[g].request.checkpoints));
      && (c.Ok? <==> tables != [] && CanonicalTables(tables).Ok?) && (c.Ok? ==> c.value.tables == CanonicalTables(tables).value)
  {
    hide Inv, PlannedRequest, CanonicalTables, CanonicalNodes, Overtaken, Reached;
    GroupIn(t, g);
    PlanIsCanonical(t.groups[g].request);
    PlanBounds(t.groups[g].request);
    NodesUnderLaterFence(t.groups[g].request, f);
    hide PlannedTable, Range;
  }

  /** What the pipeline's current group registered. */
  function RegisteredTables(t: Target, p: PipelineId): seq<ActivationTable> {
    if p in t.current && t.current[p] in t.groups then t.groups[t.current[p]].request.tables else []
  }

  /** In a reachable state a run that finds a position on record is let through exactly when its tables are,
      up to order, those of the registered manifest; it can never find the group missing, doubled, corrupt or
      mixed, nor its position unreached. */
  lemma ResumeAcceptedExactly(t: Target, f: Fence, tables: seq<ActivationTable>)
    requires Inv(t) && LockFence(t.meta, f).None? && NodeKey(f) in t.meta.checkpoints
    ensures ValidateActive(t, f, tables).Ok? <==> tables != [] && CanonicalTables(tables) == Ok(RegisteredTables(t, f.pipelineId))
    ensures ValidateActive(t, f, tables).Ok? ==>
      f.pipelineId in t.current && t.current[f.pipelineId] == ValidateActive(t, f, tables).value
    ensures ValidateActive(t, f, tables).Err? ==>
      ValidateActive(t, f, tables).error.ManifestFailed? && ValidateActive(t, f, tables).error.manifest != CorruptManifest
  {
    hide Inv, LockFence, Canonical, CanonicalTables, Classify;
    CurrentIsTheActiveGroup(t, f);
    var g := t.current[f.pipelineId];
    assert g in ActiveGroups(t, f);
    ExpectedTables(t, f, tables, g);
    TablesInPlace(t, f.pipelineId, t.groups[g].request.tables, f);
    PositionReached(t, g);
    NotCorrupt(ActivationRequest(f, g, tables, t.groups[g].request.checkpoints));
    hide FirstNotInPlace, FirstUnreached;
  }

  lemma NotCorrupt(r: ActivationRequest)
    ensures Canonical(r).Err? ==> Canonical(r).error != CorruptManifest
  {
    TablesNotCorrupt(r.tables);
    NodesNotCorrupt(r.fence, r.checkpoints);
    hide CanonicalTables, CanonicalNodes;
  }

  lemma {:induction false} TablesNotCorrupt(ts: seq<ActivationTable>)
    ensures CanonicalTables(ts).Err? ==> CanonicalTables(ts).error != CorruptManifest
    ensures FirstBadTable(ts).Some? ==> FirstBadTable(ts).value != CorruptManifest
  {
    hide Sort, RelationNames, SourceRelations, Distinct, AdjacentTargetsDiffer;
    if ts != [] { TablesNotCorrupt(ts[1..]); }
  }

  lemma {:induction false} NodesNotCorrupt(f: Fence, cs: seq<NodeCheckpoint>)
    ensures CanonicalNodes(f, cs).Err? ==> CanonicalNodes(f, cs).error != CorruptManifest
    ensures FirstBadNode(f, cs).Some? ==> FirstBadNode(f, cs).value != CorruptManifest
  {
    hide Sort, ValidateCheckpoint, AdjacentNodesDiffer;
    if cs != [] { NodesNotCorrupt(f, cs[1..]); }
  }

  // ---- The tables a resuming run plans --------------------------------------------------------

  /** The same tables as a run holding `f` plans them: their shadows are named after its own token. */
  function Replanned(tables: seq<ActivationTable>, f: Fence): (r: seq<ActivationTable>)
    requires 0 <= f.token
    ensures |r| == |tables|
  {
    seq(|tables|, i requires 0 <= i < |tables| =>
      tables[i].(shadow := ShadowName(tables[i].target.schema, f.pipelineId, tables[i].sourceRelationId, f.token)))
  }

  lemma ReplannedUnderSameToken(q: ActivationRequest, f: Fence)
    requires PlannedRequest(q) && f.pipelineId == q.fence.pipelineId && 0 <= f.token == q.fence.token
    ensures Replanned(q.tables, f) == q.tables
  {
    hide PlannedRequest, ShadowName, Range;
    PlanBounds(q);
    forall i | 0 <= i < |q.tables| ensures Replanned(q.tables, f)[i] == q.tables[i] {
      assert PlannedTable(q.fence, q.tables[i]);
    }
  }

  lemma ReplannedUnderLaterToken(q: ActivationRequest, f: Fence)
    requires PlannedRequest(q) && f.pipelineId == q.fence.pipelineId && 0 <= f.token <= I64_MAX && f.token != q.fence.token
    ensures CanonicalTables(Replanned(q.tables, f)) != Ok(q.tables)
  {
    hide PlannedRequest, Sort, Distinct, RelationNames, SourceRelations, ShadowName, Canonical;
    var again := Replanned(q.tables, f);
    if CanonicalTables(again) == Ok(q.tables) {
      SameTables(again, q.tables);
      PlanIsCanonical(q);
      var x := q.tables[0];
      assert x in again;
      var i :| 0 <= i < |again| && again[i] == x;
      ShadowsTellTokens(q, f, x, q.tables[i]);
    }
  }

  lemma SameTables(a: seq<ActivationTable>, b: seq<ActivationTable>)
    requires CanonicalTables(a) == Ok(b)
    ensures forall x :: x in a <==> x in b
  {
    SameMembers(a, b);
    hide RelationNames;
  }

  lemma ShadowsTellTokens(q: ActivationRequest, f: Fence, x: ActivationTable, y: ActivationTable)
    requires PlannedRequest(q) && x in q.tables && y in q.tables && f.pipelineId == q.fence.pipelineId && 0 <= f.token <= I64_MAX
    requires x.shadow == ShadowName(y.target.schema, f.pipelineId, y.sourceRelationId, f.token)
    ensures f.token == q.fence.token
  {
    hide PlannedRequest, ShadowName;
    PlanBounds(q);
    TableWidths(q.fence, x);
    TableWidths(q.fence, y);
    RangeOf8();
    ShadowNameTells(x.target.schema, q.fence.pipelineId, x.sourceRelationId, q.fence.token,
                    y.target.schema, f.pipelineId, y.sourceRelationId, f.token);
  }

  /** A run that plans the very tables that were registered is let through if and only if it holds the lease
      token they were registered under. Every start of a pipeline acquires a lease and with it a new token,
      so a run never gets past this check in the place of another. */
  lemma ResumeNeedsTheSameToken(t: Target, f: Fence)
    requires Inv(t) && LockFence(t.meta, f).None? && NodeKey(f) in t.meta.checkpoints && 0 < f.token <= I64_MAX
    ensures ValidateActive(t, f, Replanned(RegisteredTables(t, f.pipelineId), f)).Ok? <==>
      f.pipelineId in t.current && t.current[f.pipelineId] in t.groups && t.groups[t.current[f.pipelineId]].request.fence.token == f.token
  {
    hide Inv, ValidateActive, PlannedRequest, CanonicalTables, Replanned, LockFence;
    CurrentIsTheActiveGroup(t, f);
    var g := t.current[f.pipelineId];
    CurrentIsOfPipeline(t, f.pipelineId);
    GroupIn(t, g);
    var q := t.groups[g].request;
    PlanIsCanonical(q);
    ResumeAcceptedExactly(t, f, Replanned(q.tables, f));
    if f.token == q.fence.token { ReplannedUnderSameToken(q, f); } else { ReplannedUnderLaterToken(q, f); }
  }
}
