/** Before anything moves: which activations pass their checks in a reachable state. */
module SnapshotClassify {
  import opened Core
  import opened Checkpoint
  import opened Sorting
  import opened Manifest
  import opened ManifestStore
  import opened Snapshot
  import opened SnapshotNames
  import opened SnapshotOps
  import opened SnapshotInvariant

  /** A stored group at the pipeline's present fence. */
  ghost predicate AtFence(t: Target, r: ActivationRequest, state: GroupState) {
    r.groupId in t.groups && t.groups[r.groupId] == Group(state, r) && LockFence(t.meta, r.fence).None?
  }

  lemma GroupAtFence(t: Target, r: ActivationRequest, state: GroupState)
    requires Inv(t) && AtFence(t, r, state)
    ensures PlannedRequest(r) && Canonical(r) == Ok(r) && GroupOk(t, r.groupId)
    ensures r.fence.pipelineId in t.meta.fences && t.meta.fences[r.fence.pipelineId] == RowOfFence(r.fence)
  {
    hide Inv, PlannedRequest, Canonical, Overtaken, Reached;
    GroupIn(t, r.groupId);
    PlanIsCanonical(r);
    hide CanonicalTables, CanonicalNodes;
  }

  // ---- A group already active -----------------------------------------------------------------

  /** At the present fence an active group is the current one: it cannot have been overtaken. */
  lemma ActiveAtFenceIsCurrent(t: Target, r: ActivationRequest)
    requires Inv(t) && AtFence(t, r, Active)
    ensures r.fence.pipelineId in t.current && t.current[r.fence.pipelineId] == r.groupId
  {
    hide Inv, PlannedRequest, Reached;
    GroupAtFence(t, r, Active);
    var c := t.current[r.fence.pipelineId];
    GroupIn(t, c);
    CurrentIn(t, r.fence.pipelineId);
    hide CurrentOk;
  }

  lemma CurrentTableInPlace(t: Target, p: PipelineId, x: ActivationTable)
    requires Inv(t) && p in t.current && t.current[p] in t.groups && x in t.groups[t.current[p]].request.tables
    ensures x.target in t.managed && x.target in t.relations && x.shadow !in t.managed && x.shadow !in t.relations
    ensures t.managed[x.target] == RowFor(t.groups[t.current[p]].request, x, t.relations[x.target], ActiveTable)
  {
    hide Inv;
    CurrentIn(t, p);
    ShadowOfGroup(t, t.current[p], x);
    NamesIn(t);
  }

  lemma ClassifyInPlace(t: Target, p: PipelineId, x: ActivationTable, f: Fence)
    requires Inv(t) && p in t.current && t.current[p] in t.groups && x in t.groups[t.current[p]].request.tables
    requires f.pipelineId == p && t.groups[t.current[p]].request.fence.token <= f.token
    ensures Classify(t, x, f, t.current[p]) == Ok(InPlace)
  {
    hide Inv, PlannedRequest, Reached, Overtaken;
    CurrentTableInPlace(t, p, x);
    GroupIn(t, t.current[p]);
    assert t.groups[t.current[p]].request.fence.pipelineId == p by { CurrentIn(t, p); }
    hide CurrentOk, GroupOk;
  }

  // ---- A group still loading ------------------------------------------------------------------

  /** The target's name is free, or an earlier group of the same pipeline replicates the same source table into it. */
  ghost predicate TargetFree(t: Target, r: ActivationRequest, x: ActivationTable) {
    x.target in t.relations ==>
      x.target in t.managed && t.managed[x.target].pipelineId == r.fence.pipelineId &&
      t.managed[x.target].sourceRelationId == x.sourceRelationId
  }

  function PreviousAt(t: Target, n: QualifiedName): Option<Record> {
    if n in t.managed then Some(t.managed[n]) else None
  }

  /** The current group is of an earlier generation than a group loading at the present fence: its own
      generation has a position on record, and the loading one's has none. */
  lemma CurrentIsOlder(t: Target, r: ActivationRequest)
    requires Inv(t) && AtFence(t, r, Loading) && r.fence.pipelineId in t.current
    ensures var c := t.current[r.fence.pipelineId];
      && c in t.groups && c != r.groupId && t.groups[c].state == Active && t.groups[c].request.fence.pipelineId == r.fence.pipelineId
      && t.groups[c].request.fence.generation < r.fence.generation && t.groups[c].request.fence.token < r.fence.token
  {
    hide Inv, PlannedRequest, Overtaken, ValidateCheckpoint, LockFence;
    GroupAtFence(t, r, Loading);
    CurrentIn(t, r.fence.pipelineId);
    var c := t.current[r.fence.pipelineId];
    GroupIn(t, c);
    PlannedNode(t.groups[c].request);
    ApartIn(t);
    hide CurrentOk;
  }

  /** Every active table of the pipeline is of an earlier generation. */
  lemma ActiveRowsAreOlder(t: Target, r: ActivationRequest, n: QualifiedName)
    requires Inv(t) && AtFence(t, r, Loading) && n in t.managed && t.managed[n].state == ActiveTable
    requires t.managed[n].pipelineId == r.fence.pipelineId
    ensures t.managed[n].tableGeneration < r.fence.generation && t.managed[n].groupId != r.groupId && t.managed[n].token <= r.fence.token
    ensures r.fence.pipelineId in t.current && t.managed[n].groupId == t.current[r.fence.pipelineId]
  {
    hide Inv, AtFence, Plain, ShadowLike, QuarantineLike, RecordFits, HasTarget;
    RowGroup(t, n);
    RowIn(t, n);
    CurrentIsOlder(t, r);
  }

  /** What stands under the target's name: a relation nobody manages, or an active table of some group. */
  lemma PreviousTable(t: Target, r: ActivationRequest, x: ActivationTable)
    requires Inv(t) && AtFence(t, r, Loading) && x in r.tables
    ensures x.target in t.managed ==> x.target in t.relations && t.managed[x.target].state == ActiveTable
    ensures x.target in t.managed && t.managed[x.target].pipelineId == r.fence.pipelineId ==>
      t.managed[x.target].token <= r.fence.token && t.managed[x.target].groupId != r.groupId &&
      t.managed[x.target].tableGeneration < x.tableGeneration
  {
    hide Inv, AtFence, PlannedRequest, Plain, ShadowLike, QuarantineLike, RecordFits, GroupOk;
    GroupAtFence(t, r, Loading);
    RowNames(r, x);
    if x.target in t.managed {
      NamesIn(t);
      PlainRowIsActive(t, x.target);
      if t.managed[x.target].pipelineId == r.fence.pipelineId { ActiveRowsAreOlder(t, r, x.target); }
    }
  }

  lemma ClassifyTargetOf(t: Target, r: ActivationRequest, x: ActivationTable)
    requires Inv(t) && AtFence(t, r, Loading) && x in r.tables
    ensures ClassifyTarget(t, x, r.fence).Ok? <==> TargetFree(t, r, x)
    ensures TargetFree(t, r, x) ==> ClassifyTarget(t, x, r.fence) == Ok(PreviousAt(t, x.target))
    ensures TargetFree(t, r, x) && x.target in t.managed ==>
      !MatchesActivation(t.managed[x.target], x, r.groupId) && t.managed[x.target].tableGeneration < x.tableGeneration
  {
    hide Inv, AtFence;
    PreviousTable(t, r, x);
  }

  lemma ClassifyShadowOf(t: Target, r: ActivationRequest, x: ActivationTable)
    requires Inv(t) && AtFence(t, r, Loading) && x in r.tables
    ensures ClassifyShadow(t, x, r.fence, r.groupId) == Ok(PreviousAt(t, x.shadow))
  {
    hide Inv;
    ShadowOfGroup(t, r.groupId, x);
    GroupAtFence(t, r, Loading);
  }

  /** A table of a loading group classifies exactly when its shadow was loaded and its target is free. */
  lemma ClassifyLoading(t: Target, r: ActivationRequest, x: ActivationTable)
    requires Inv(t) && AtFence(t, r, Loading) && x in r.tables
    ensures Classify(t, x, r.fence, r.groupId).Ok? <==> x.shadow in t.managed && TargetFree(t, r, x)
    ensures x.shadow in t.managed && TargetFree(t, r, x) ==>
      Classify(t, x, r.fence, r.groupId) == Ok(Pending(t.managed[x.shadow], PreviousAt(t, x.target)))
  {
    ClassifyTargetOf(t, r, x);
    ClassifyShadowOf(t, r, x);
    hide Inv, ClassifyTarget, ClassifyShadow, TargetFree, AtFence;
  }

  // ---- Stale tables, checkpoints and quarantine names -----------------------------------------

  /** An active table of the pipeline: what an activation displaces. */
  ghost predicate Displaced(t: Target, p: PipelineId, n: QualifiedName) {
    n in t.managed && t.managed[n].pipelineId == p && t.managed[n].state == ActiveTable
  }

  lemma {:induction false} NoStaleError(t: Target, stale: seq<QualifiedName>, token: int)
    requires forall x | x in stale :: x in t.managed && t.managed[x].token <= token && x in t.relations
    ensures FirstStaleError(t, stale, token).None?
  {
    if stale != [] {
      assert stale == [stale[0]] + stale[1..];
      NoStaleError(t, stale[1..], token);
    }
  }

  lemma StaleIsFine(t: Target, r: ActivationRequest, state: GroupState)
    requires Inv(t) && AtFence(t, r, state)
    ensures FirstStaleError(t, InOrder(StaleNames(t, r)), r.fence.token).None?
  {
    hide Inv, InOrder;
    GroupAtFence(t, r, state);
    NamesIn(t);
    forall n | n in StaleNames(t, r) ensures t.managed[n].token <= r.fence.token { TokensBounded(t, n); }
    NoStaleError(t, InOrder(StaleNames(t, r)), r.fence.token);
  }

  lemma FirstCheckpointIsFine(t: Target, r: ActivationRequest)
    requires Inv(t) && AtFence(t, r, Loading)
    ensures |r.checkpoints| == 1 && r.checkpoints[0].key == NodeKey(r.fence) && ValidateCheckpoint(r.checkpoints[0]).None?
    ensures NodeKey(r.fence) !in t.meta.checkpoints && FirstCheckpointError(t.meta, r.checkpoints).None?
  {
    hide Inv, PlannedRequest, ValidateCheckpoint, Overtaken, LockFence, Reached;
    GroupAtFence(t, r, Loading);
    PlannedNode(r);
    assert FirstCheckpointError(t.meta, r.checkpoints[1..]).None?;
  }

  lemma PlannedNode(r: ActivationRequest)
    requires PlannedRequest(r)
    ensures |r.checkpoints| == 1 && r.checkpoints[0].key == NodeKey(r.fence) && ValidateCheckpoint(r.checkpoints[0]).None?
  {
    hide PlannedRequest, Canonical, CanonicalTables, Sort, AdjacentNodesDiffer, PlannedTable;
    PlanBounds(r);
    PlanIsCanonical(r);
    assert ValidateNode(r.fence, r.checkpoints[0]).None? by { assert r.checkpoints[0] in r.checkpoints; }
  }

  lemma ActiveIsReached(t: Target, r: ActivationRequest)
    requires Inv(t) && AtFence(t, r, Active)
    ensures FirstUnreached(t.meta, r.checkpoints).None?
  {
    hide Inv, PlannedRequest, ValidateCheckpoint, Overtaken, LockFence;
    GroupAtFence(t, r, Active);
    PlannedNode(r);
    assert FirstUnreached(t.meta, r.checkpoints[1..]).None?;
  }

  /** The quarantine name of a displaced table is a free name. */
  lemma QuarantineIsVacant(t: Target, n: QualifiedName)
    requires Inv(t) && n in t.managed && t.managed[n].state == ActiveTable
    ensures StateOf(t, QuarantineName(n, t.managed[n])) == Vacant && QuarantineLike(QuarantineName(n, t.managed[n]))
  {
    hide Inv, Plain, QuarantineLike, ShadowLike, RecordFits;
    var q := QuarantineName(n, t.managed[n]);
    QuarantineNameLike(n, t.managed[n]);
    NotPlain(q);
    ReservedIsManaged(t, q);
    if q in t.managed {
      var k := QuarantinedRow(t, q);
      NoSuchEntry(t, n, k);
    }
  }

  lemma NotPlain(n: QualifiedName)
    ensures QuarantineLike(n) ==> !Plain(n) && !ShadowLike(n)
    ensures ShadowLike(n) ==> !Plain(n) && !QuarantineLike(n)
  {
    FamiliesApart(n);
  }

  /** The current group has no entry as the group displaced. */
  lemma NoSuchEntry(t: Target, n: QualifiedName, k: LogKey)
    requires Inv(t) && n in t.managed && t.managed[n].state == ActiveTable && k in t.log
    ensures t.log[k].quarantine != QuarantineName(n, t.managed[n])
    ensures t.log[k].original == n ==> t.log[k].previousGroupId != t.managed[n].groupId
  {
    hide Inv, PlannedRequest, HasTarget, Formerly, Overtaken, Reached, Plain, ShadowLike, QuarantineLike, RecordFits, QuarantineName, GroupOk;
    var e, r := t.log[k], t.managed[n];
    RowGroup(t, n);
    RowIn(t, n);
    EntryIn(t, k);
    FormerGroup(t, k);
    ApartIn(t);
    if e.quarantine == QuarantineName(n, r) {
      QuarantineNameTells(n, r, e.original, LoggedRecord(e));
    }
  }

  /** The record an entry remembers carries the token of the group it belonged to. */
  lemma FormerGroup(t: Target, k: LogKey)
    requires Inv(t) && k in t.log
    ensures var e := t.log[k];
      && e.previousGroupId in t.groups && RecordFits(e.original, LoggedRecord(e))
      && t.groups[e.previousGroupId].request.fence.pipelineId == e.pipelineId
      && t.groups[e.previousGroupId].request.fence.token == e.previousToken
      && e.quarantine == QuarantineName(e.original, LoggedRecord(e))
  {
    hide Inv, PlannedRequest, Overtaken, Reached, RecordFits, Plain, ShadowLike, QuarantineLike, QuarantineName;
    EntryIn(t, k);
    var e := t.log[k];
    GroupIn(t, e.previousGroupId);
    var q := t.groups[e.previousGroupId].request;
    var x :| x in q.tables && x.target == e.original && LoggedRecord(e) == RowFor(q, x, e.oid, QuarantinedTable);
    RowNames(q, x);
  }
}
