/** A fence that was replaced never takes effect again, in any run of the lifecycle or of replication. */
module Superseded {
  import opened Core
  import opened Checkpoint
  import opened Manifest
  import opened ManifestStore
  import opened Snapshot
  import opened SnapshotOps
  import opened SnapshotSteps
  import opened SnapshotTarget
  import opened SnapshotResume
  import SnapshotRuns
  import Replication
  import Execute
  import Apply

  /** `f` belongs to the pipeline but is not, and never again will be, the stored fence. */
  ghost predicate Gone(m: Meta, f: Fence) {
    f.pipelineId in m.fences && m.fences[f.pipelineId] != RowOfFence(f) && AtMost(RowOfFence(f), m.fences[f.pipelineId])
  }

  lemma ReplacedIsGone(m: Meta, f: Fence, g: Fence)
    requires LockFence(m, f).None? && g != f && g.pipelineId == f.pipelineId && ActivateFence(m, g).Ok?
    ensures Gone(ActivateFence(m, g).value, f)
  {
  }

  lemma GoneStays(a: Meta, b: Meta, f: Fence)
    requires Gone(a, f) && FencesGrow(a, b)
    ensures Gone(b, f)
  {
  }

  lemma GoneIsRefused(m: Meta, f: Fence)
    requires Gone(m, f)
    ensures LockFence(m, f).Some? && ActivateFence(m, f).Err?
  {
  }

  lemma GrowthComposes(a: Meta, b: Meta, c: Meta)
    requires FencesGrow(a, b) && FencesGrow(b, c)
    ensures FencesGrow(a, c)
  {
  }

  lemma GrowthStarts(m: Meta)
    ensures FencesGrow(m, m)
  {
  }

  // ---- Runs of the snapshot-group lifecycle ---------------------------------------------------

  lemma AdvanceKeepsFences(m: Meta, f: Fence, proposed: NodeCheckpoint)
    ensures AdvanceCheckpoint(m, f, proposed).Ok? ==> AdvanceCheckpoint(m, f, proposed).value.0.fences == m.fences
  {
    AdvanceIffCurrent(m, f, proposed);
    hide AdvanceCheckpoint;
  }

  lemma {:induction false} AdvancesKeepFences(m: Meta, f: Fence, cs: seq<NodeCheckpoint>)
    ensures AdvanceAll(m, f, cs).Ok? ==> AdvanceAll(m, f, cs).value.fences == m.fences
    decreases |cs|
  {
    hide AdvanceCheckpoint;
    if cs != [] && AdvanceCheckpoint(m, f, cs[0]).Ok? {
      AdvanceKeepsFences(m, f, cs[0]);
      AdvancesKeepFences(AdvanceCheckpoint(m, f, cs[0]).value.0, f, cs[1..]);
    }
  }

  lemma {:induction false} MovesKeepMeta(t: Target, request: ActivationRequest, moves: seq<Move>)
    ensures ApplyMoves(t, request, moves).Ok? ==> ApplyMoves(t, request, moves).value.meta == t.meta
    decreases |moves|
  {
    if moves != [] { MovesKeepMeta(t, request, moves[..|moves| - 1]); }
  }

  lemma ConfirmationKeepsMeta(t: Target, r: ActivationRequest, stale: seq<QualifiedName>, reserved: set<QualifiedName>)
    requires r.groupId in t.groups && forall x | x in stale :: x in t.managed
    ensures ConfirmActive(t, r, stale, reserved).Ok? ==> ConfirmActive(t, r, stale, reserved).value.0.meta == t.meta
  {
    hide ApplyMoves, Preflight, FirstUnreached, StaleMoves, StaleQuarantines;
    MovesKeepMeta(t, r, StaleMoves(t, stale, r.fence.token));
  }

  lemma MovesAndAdvancesKeepFences(t: Target, r: ActivationRequest, moves: seq<Move>)
    ensures ApplyMoves(t, r, moves).Ok? && AdvanceAll(ApplyMoves(t, r, moves).value.meta, r.fence, r.checkpoints).Ok? ==>
      AdvanceAll(ApplyMoves(t, r, moves).value.meta, r.fence, r.checkpoints).value.fences == t.meta.fences
  {
    hide ApplyMoves, AdvanceAll;
    MovesKeepMeta(t, r, moves);
    if ApplyMoves(t, r, moves).Ok? { AdvancesKeepFences(ApplyMoves(t, r, moves).value.meta, r.fence, r.checkpoints); }
  }

  lemma ActivationKeepsFences(t: Target, r: ActivationRequest, classified: seq<Classified>)
    requires |classified| == |r.tables| && r.groupId in t.groups
    ensures ActivateClassified(t, r, classified).Ok? ==> ActivateClassified(t, r, classified).value.0.meta.fences == t.meta.fences
  {
    hide ApplyMoves, AdvanceAll, Preflight, FirstStaleError, FirstCheckpointError, ConfirmActive, TableMoves, StaleMoves, ReplacedNames,
      StaleQuarantines, InOrder, StaleNames, TargetsOf, ShadowsOf;
    var stale := InOrder(StaleNames(t, r));
    assert forall x | x in stale :: x in t.managed by { StaleAreManaged(t, r); }
    if forall i | 0 <= i < |classified| :: classified[i].InPlace? {
      ConfirmationKeepsMeta(t, r, stale, TargetsOf(r.tables) + ShadowsOf(r.tables) + StaleNames(t, r));
    } else if forall i | 0 <= i < |classified| :: classified[i].Pending? {
      MovesAndAdvancesKeepFences(t, r, TableMoves(r.tables, classified, r.fence.token) + StaleMoves(t, stale, r.fence.token));
    }
  }

  lemma GroupActivationKeepsFences(t: Target, request: ActivationRequest)
    ensures ActivateGroup(t, request).Ok? ==> ActivateGroup(t, request).value.0.meta.fences == t.meta.fences
  {
    hide Canonical, ClassifyAll, ActivateClassified, LockFence;
    if Canonical(request).Ok? {
      var r := Canonical(request).value;
      if r.groupId in t.groups && ClassifyAll(t, r.tables, r.fence, r.groupId).Ok? {
        ActivationKeepsFences(t, r, ClassifyAll(t, r.tables, r.fence, r.groupId).value);
      }
    }
  }

  lemma {:induction false} CleanupKeepsMeta(t: Target, f: Fence, groups: seq<GroupId>)
    ensures CleanupAll(t, f, groups).Ok? ==> CleanupAll(t, f, groups).value.meta == t.meta
    decreases |groups|
  {
    hide CleanupEntries, ExtraShadows;
    if groups != [] && groups[0] in t.groups {
      var first := CleanupGroup(t, f, t.groups[groups[0]].request.fence, groups[0]);
      if first.Ok? { CleanupKeepsMeta(first.value, f, groups[1..]); }
    }
  }

  lemma {:induction false} CollectionKeepsMeta(t: Target, f: Fence, keys: seq<LogKey>)
    ensures CollectAll(t, f, keys).Ok? ==> CollectAll(t, f, keys).value.meta == t.meta
    decreases |keys|
  {
    hide QuarantineName, UnpurgedAt;
    if keys != [] && keys[0] in t.log {
      var first := CollectOne(t, f, keys[0]);
      if first.Ok? { CollectionKeepsMeta(first.value, f, keys[1..]); }
    }
  }

  lemma LifecycleStepGrows(t: Target, a: SnapshotRuns.Action)
    requires SnapshotRuns.Allowed(t, a)
    ensures FencesGrow(t.meta, SnapshotRuns.After(t, a).meta)
  {
    hide ActivateGroup, LoadShadow, BeginGroup, CleanupAll, CollectAll, AdvanceCheckpoint, Collectable, StaleGroups, SnapshotRuns.First;
    match a
    case TakesFence(f) =>
    case Registers(request) => RegistrationKeepsMeta(t, request);
    case Loads(f, g, x) => LoadKeepsMeta(t, f, g, x);
    case Activates(request) => ActivationGrows(t, request);
    case CleansUp(f, order, cleaned) => CleanupKeepsMeta(t, f, order);
    case Collects(f, retention, limit, keys, collected) => CollectionKeepsMeta(t, f, keys);
    case Advances(f, proposed) => AdvanceKeepsFences(t.meta, f, proposed);
    case Creates(n) =>
    case Drops(n) =>
    case Passes(elapsed) =>
  }

  lemma ActivationGrows(t: Target, request: ActivationRequest)
    ensures FencesGrow(t.meta, Settled(t, SnapshotRuns.First(ActivateGroup(t, request))).meta)
  {
    hide ActivateGroup;
    GroupActivationKeepsFences(t, request);
  }

  lemma RegistrationKeepsMeta(t: Target, request: ActivationRequest)
    ensures Register(t, request).meta == t.meta
  {
    hide Canonical, LockFence;
  }

  lemma LoadKeepsMeta(t: Target, f: Fence, g: GroupId, x: ActivationTable)
    ensures Settled(t, LoadShadow(t, f, g, x)).meta == t.meta
  {
    hide LockFence, Membership, CheckTargetForLoad, CheckShadowForRebuild;
  }

  lemma {:induction false} LifecycleGrows(t: Target, run: seq<SnapshotRuns.Action>)
    requires SnapshotRuns.ValidRun(t, run)
    ensures FencesGrow(t.meta, SnapshotRuns.AfterAll(t, run).meta)
    decreases |run|
  {
    hide SnapshotRuns.After, SnapshotRuns.Allowed, FencesGrow;
    if run == [] {
      GrowthStarts(t.meta);
    } else {
      var next := SnapshotRuns.After(t, run[0]);
      LifecycleStepGrows(t, run[0]);
      LifecycleGrows(next, run[1..]);
      GrowthComposes(t.meta, next.meta, SnapshotRuns.AfterAll(next, run[1..]).meta);
    }
  }

  /** No operation of the lifecycle carrying `f` is accepted. */
  ghost predicate RefusedByLifecycle(t: Target, f: Fence) {
    && (forall request: ActivationRequest | request.fence == f :: BeginGroup(t, request).Err? && ActivateGroup(t, request).Err?)
    && (forall g: GroupId, x: ActivationTable :: LoadShadow(t, f, g, x).Err?)
    && (forall order, result | CleanupStale(t, f, order, result) :: result.Err?)
    && (forall retention, limit, keys, result | Collected(t, f, retention, limit, keys, result) :: result.Err?)
    && (forall proposed: NodeCheckpoint :: AdvanceCheckpoint(t.meta, f, proposed).Err?)
    && (forall tables: seq<ActivationTable> :: ValidateActive(t, f, tables).Err?)
    && ActivateFence(t.meta, f).Err?
  }

  lemma GoneIsRefusedByLifecycle(t: Target, f: Fence)
    requires Gone(t.meta, f)
    ensures RefusedByLifecycle(t, f)
  {
    GoneIsRefused(t.meta, f);
    hide Gone, LockFence, ActivateFence, CanonicalTables, CanonicalNodes;
    forall request: ActivationRequest | request.fence == f ensures BeginGroup(t, request).Err? && ActivateGroup(t, request).Err? {
      if Canonical(request).Ok? { CanonicalIsIdempotent(request); }
      hide Canonical;
    }
    hide Canonical, CleanupAll, CollectAll, StaleGroups, Collectable, CheckGroup, CheckAdvance, Membership;
    forall g: GroupId, x: ActivationTable ensures LoadShadow(t, f, g, x).Err? { }
    forall proposed: NodeCheckpoint ensures AdvanceCheckpoint(t.meta, f, proposed).Err? { }
    forall tables: seq<ActivationTable> ensures ValidateActive(t, f, tables).Err? { }
  }

  /** Once another fence of the pipeline is activated, nothing carrying the old one is ever accepted again:
      no registration, load, activation, cleanup, collection, advance, resume check or re-activation, in any
      later state of any run. */
  lemma ReplacedFenceRefusedForGood(t: Target, f: Fence, g: Fence, run: seq<SnapshotRuns.Action>)
    requires LockFence(t.meta, f).None? && g != f && g.pipelineId == f.pipelineId && ActivateFence(t.meta, g).Ok?
    requires SnapshotRuns.ValidRun(TakeFence(t, g), run)
    ensures RefusedByLifecycle(SnapshotRuns.AfterAll(TakeFence(t, g), run), f)
  {
    hide RefusedByLifecycle, Gone, FencesGrow, LockFence;
    var s := TakeFence(t, g);
    ReplacedIsGone(t.meta, f, g);
    assert s.meta == ActivateFence(t.meta, g).value;
    LifecycleGrows(s, run);
    GoneStays(s.meta, SnapshotRuns.AfterAll(s, run).meta, f);
    GoneIsRefusedByLifecycle(SnapshotRuns.AfterAll(s, run), f);
  }

  // ---- Runs of the replication machine --------------------------------------------------------

  lemma ExecuteKeepsFences(s: Execute.TargetState, request: Apply.ApplyRequest)
    ensures Execute.ExecuteApply(s, request).Ok? ==> Execute.ExecuteApply(s, request).value.0.meta.fences == s.meta.fences
  {
    hide Execute.ApplyTables, Execute.RepeatedStagingName, LockFence, AdvanceCheckpoint;
    AdvanceKeepsFences(s.meta, request.fence, request.checkpoint);
  }

  lemma CommitGrows(c: Replication.Config, s: Replication.System, i: nat)
    ensures Replication.CommitStep(c, s, i).Some? ==> FencesGrow(s.target.meta, Replication.CommitStep(c, s, i).value.target.meta)
  {
    if Replication.CommitStep(c, s, i).Some? {
      Replication.CommitStepIs(c, s, i);
      ExecuteKeepsFences(s.target, Replication.RequestOf(c, s.workers[i]).value);
    }
    hide Replication.CommitStep, Replication.RequestOf, Execute.ExecuteApply;
  }

  lemma ReplicationStepGrows(c: Replication.Config, s: Replication.System, a: Replication.Action)
    requires Replication.Act(c, s, a).Some?
    ensures FencesGrow(s.target.meta, Replication.Act(c, s, a).value.target.meta)
  {
    hide Replication.CommitStep, Replication.AcknowledgeLast, Replication.Received;
    if a.CommitBatch? { CommitGrows(c, s, a.worker); }
  }

  lemma {:induction false} ReplicationGrows(c: Replication.Config, s: Replication.System, actions: seq<Replication.Action>)
    ensures Replication.Run(c, s, actions).Some? ==> FencesGrow(s.target.meta, Replication.Run(c, s, actions).value.target.meta)
    decreases |actions|
  {
    hide Replication.Act, FencesGrow;
    if actions == [] {
      GrowthStarts(s.target.meta);
    } else if Replication.Act(c, s, actions[0]).Some? {
      var next := Replication.Act(c, s, actions[0]).value;
      ReplicationStepGrows(c, s, actions[0]);
      ReplicationGrows(c, next, actions[1..]);
      if Replication.Run(c, next, actions[1..]).Some? {
        GrowthComposes(s.target.meta, next.target.meta, Replication.Run(c, next, actions[1..]).value.target.meta);
      }
    }
  }

  /** A job that lost its fence never commits again, in any later state of any run: no apply request carrying
      the fence is accepted, and the fence cannot be taken back. */
  lemma ReplacedFenceNeverApplies(c: Replication.Config, s: Replication.System, f: Fence, g: Fence, actions: seq<Replication.Action>)
    requires LockFence(s.target.meta, f).None? && g != f && g.pipelineId == f.pipelineId
    requires Replication.Act(c, s, Replication.ActivateOwner(g)).Some?
    ensures var next := Replication.Act(c, s, Replication.ActivateOwner(g)).value;
      Replication.Run(c, next, actions).Some? ==>
        var e := Replication.Run(c, next, actions).value;
        && (forall request: Apply.ApplyRequest | request.fence == f :: Execute.ExecuteApply(e.target, request).Err?)
        && Replication.Act(c, e, Replication.ActivateOwner(f)).None?
  {
    hide Gone, FencesGrow, LockFence, Replication.Run;
    var next := Replication.Act(c, s, Replication.ActivateOwner(g)).value;
    ReplacedIsGone(s.target.meta, f, g);
    ReplicationGrows(c, next, actions);
    if Replication.Run(c, next, actions).Some? {
      var e := Replication.Run(c, next, actions).value;
      GoneStays(next.target.meta, e.target.meta, f);
      GoneIsRefused(e.target.meta, f);
      hide Execute.ApplyTables, Execute.RepeatedStagingName, AdvanceCheckpoint;
    }
  }
}
