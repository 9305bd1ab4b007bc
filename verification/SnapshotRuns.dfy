/** Every run of the snapshot-group lifecycle, and what its operations can still refuse. */
module SnapshotRuns {
  import opened Core
  import opened Checkpoint
  import opened Manifest
  import opened ManifestStore
  import opened Snapshot
  import opened SnapshotNames
  import opened SnapshotOps
  import opened SnapshotInvariant
  import opened SnapshotSteps
  import opened SnapshotClassify
  import opened SnapshotPlan
  import opened SnapshotOutcome
  import opened SnapshotActivated
  import opened SnapshotCleanup
  import opened SnapshotCollection

  // ---- Activating -----------------------------------------------------------------------------

  lemma NoneStale(t: Target, r: ActivationRequest)
    requires Inv(t) && AtFence(t, r, Active)
    ensures StaleNames(t, r) == {} && InOrder(StaleNames(t, r)) == []
  {
    hide Inv, AtFence;
    ActiveAtFenceIsCurrent(t, r);
    forall n | n in StaleNames(t, r) ensures false {
      RowIn(t, n);
      ActiveStored(t, r);
    }
  }

  lemma ActiveStored(t: Target, r: ActivationRequest)
    requires AtFence(t, r, Active)
    ensures r.groupId in t.groups && t.groups[r.groupId].request == r && t.groups[r.groupId].state == Active && LockFence(t.meta, r.fence).None?
  {
    hide LockFence;
  }

  lemma AllInPlace(t: Target, r: ActivationRequest)
    requires Inv(t) && AtFence(t, r, Active)
    ensures ClassifyAll(t, r.tables, r.fence, r.groupId).Ok?
    ensures forall i | 0 <= i < |r.tables| :: ClassifyAll(t, r.tables, r.fence, r.groupId).value[i] == InPlace
  {
    hide Inv, AtFence, Classify, ClassifyAll;
    ActiveAtFenceIsCurrent(t, r);
    ActiveStored(t, r);
    GroupAtFence(t, r, Active);
    forall i | 0 <= i < |r.tables| ensures Classify(t, r.tables[i], r.fence, r.groupId) == Ok(InPlace) {
      ClassifyInPlace(t, r.fence.pipelineId, r.tables[i], r.fence);
    }
  }

  /** Asking again under the fence that activated the group finds it active and changes nothing. */
  lemma RetryChangesNothing(t: Target, r: ActivationRequest)
    requires Inv(t) && AtFence(t, r, Active)
    ensures ActivateGroup(t, r) == Ok((t, WasActive))
  {
    hide Inv, AtFence, Canonical, ClassifyAll, StaleNames, LockFence, TargetsOf, ShadowsOf;
    GroupAtFence(t, r, Active);
    ActiveStored(t, r);
    AllInPlace(t, r);
    NoneStale(t, r);
    ActiveIsReached(t, r);
    var classified := ClassifyAll(t, r.tables, r.fence, r.groupId).value;
    assert forall i | 0 <= i < |classified| :: classified[i].InPlace?;
    assert StaleMoves(t, [], r.fence.token) == [];
    hide GroupOk, PlannedRequest, FirstUnreached;
  }

  /** In a reachable state an activation is accepted exactly when it repeats what is registered under the
      present fence and either the group is active already, or each of its tables was loaded and no table of
      another pipeline, of another source relation, or of nobody stands under a target's name. */
  lemma ActivationAcceptedExactly(t: Target, request: ActivationRequest)
    requires Inv(t)
    ensures ActivateGroup(t, request).Ok? <==>
      && Canonical(request).Ok? && LockFence(t.meta, request.fence).None?
      && request.groupId in t.groups && t.groups[request.groupId].request == Canonical(request).value
      && (t.groups[request.groupId].state == Loading ==> Ready(t, Canonical(request).value))
    ensures ActivateGroup(t, request).Ok? && t.groups[request.groupId].state == Active ==> ActivateGroup(t, request) == Ok((t, WasActive))
    ensures ActivateGroup(t, request).Ok? && t.groups[request.groupId].state == Loading ==>
      Accepted(t, Canonical(request).value, ActivateGroup(t, request)) && Inv(ActivateGroup(t, request).value.0)
  {
    hide Inv, Canonical, LockFence, Ready, ClassifyAll, ActivateClassified, Accepted;
    if Canonical(request).Ok? {
      CanonicalIsIdempotent(request);
      var r := Canonical(request).value;
      if LockFence(t.meta, r.fence).None? && r.groupId in t.groups && t.groups[r.groupId].request == r {
        if t.groups[r.groupId].state == Active {
          assert AtFence(t, r, Active);
          hide AtFence;
          RetryChangesNothing(t, r);
        } else {
          assert AtFence(t, r, Loading);
          hide AtFence;
          LoadingActivates(t, r);
        }
      }
    }
  }

  lemma LoadingActivates(t: Target, r: ActivationRequest)
    requires Inv(t) && AtFence(t, r, Loading) && Canonical(r) == Ok(r)
    ensures ActivateGroup(t, r).Ok? <==> Ready(t, r)
    ensures ActivateGroup(t, r).Ok? ==> Accepted(t, r, ActivateGroup(t, r)) && Inv(ActivateGroup(t, r).value.0)
  {
    hide Inv, Ready, ClassifyAll, ActivateClassified, ActivatedTo, Canonical, LockFence;
    ClassifiesWhenReady(t, r);
    if Ready(t, r) {
      ReadyActivates(t, r);
      var s := ActivateClassified(t, r, ClassifiedOf(t, r.tables)).value.0;
      assert Step(t, r, s);
      hide AtFence, Step, ClassifiedOf;
      ActivationKeeps(t, r, s);
    }
  }

  /** What activation means for the pipeline: its active tables are exactly the group's, every relation is
      still there under some name with its identity, and generations under a target's name grow. */
  lemma ActivationOutcome(t: Target, r: ActivationRequest, s: Target)
    requires Step(t, r, s)
    ensures forall n :: Displaced(s, r.fence.pipelineId, n) <==> n in TargetsOf(r.tables)
    ensures forall n | n in t.relations :: exists m :: m in s.relations && s.relations[m] == t.relations[n]
    ensures forall n | n in TargetsOf(r.tables) && n in t.managed :: n in s.managed && t.managed[n].tableGeneration < s.managed[n].tableGeneration
    ensures forall k | k in s.log && k !in t.log :: k.0 == r.groupId && Displaced(t, r.fence.pipelineId, k.1)
  {
    hide Inv, AtFence, Ready, ActivatedTo;
    ActivationKeeps(t, r, s);
    forall n ensures Displaced(s, r.fence.pipelineId, n) <==> n in TargetsOf(r.tables) { ActiveSet(t, r, s, n); }
    forall n | n in t.relations ensures exists m :: m in s.relations && s.relations[m] == t.relations[n] { Survives(t, r, s, n); }
    forall n | n in TargetsOf(r.tables) && n in t.managed ensures n in s.managed && t.managed[n].tableGeneration < s.managed[n].tableGeneration {
      var x :| x in r.tables && x.target == n;
      GenerationGrows(t, r, s, x);
    }
    forall k | k in s.log && k !in t.log ensures k.0 == r.groupId && Displaced(t, r.fence.pipelineId, k.1) { NewKey(t, r, s, k); }
  }

  lemma NewKey(t: Target, r: ActivationRequest, s: Target, k: LogKey)
    requires Step(t, r, s) && k in s.log && k !in t.log
    ensures k.0 == r.groupId && Displaced(t, r.fence.pipelineId, k.1)
  {
    hide Inv, AtFence, Ready, Promoted, Quarantined, OthersStay, MarkedActive;
  }

  lemma ActiveSet(t: Target, r: ActivationRequest, s: Target, n: QualifiedName)
    requires Step(t, r, s) && Inv(s)
    ensures Displaced(s, r.fence.pipelineId, n) <==> n in TargetsOf(r.tables)
  {
    hide Inv, AtFence, Ready, Promoted, Quarantined, OthersStay, LogGrows, RowOk;
    if n in TargetsOf(r.tables) {
      var x :| x in r.tables && x.target == n;
      PromotedRow(t, r, s, x);
    }
    if Displaced(s, r.fence.pipelineId, n) {
      RowIn(s, n);
      ActiveIsListed(s, r, n);
    }
  }

  lemma ActiveIsListed(s: Target, r: ActivationRequest, n: QualifiedName)
    requires n in s.managed && RowOk(s, n) && Displaced(s, r.fence.pipelineId, n)
    requires r.fence.pipelineId in s.current && s.current[r.fence.pipelineId] == r.groupId && r.groupId in s.groups && s.groups[r.groupId].request == r
    ensures n in TargetsOf(r.tables)
  {
  }

  lemma Survives(t: Target, r: ActivationRequest, s: Target, n: QualifiedName)
    requires Step(t, r, s) && n in t.relations
    ensures exists m :: m in s.relations && s.relations[m] == t.relations[n]
  {
    hide Inv, AtFence, LogGrows, MarkedActive, QuarantineName, TargetFree, Plain, ShadowLike, QuarantineLike;
    if n in ShadowsOf(r.tables) {
      var x :| x in r.tables && x.shadow == n;
      assert s.relations[x.target] == t.relations[n];
    } else if Displaced(t, r.fence.pipelineId, n) {
      assert s.relations[QuarantineName(n, t.managed[n])] == t.relations[n];
    } else {
      StaysElsewhere(t, r, n);
      assert s.relations[n] == t.relations[n];
    }
  }

  lemma StaysElsewhere(t: Target, r: ActivationRequest, n: QualifiedName)
    requires Inv(t) && AtFence(t, r, Loading) && Ready(t, r) && n in t.relations && !Displaced(t, r.fence.pipelineId, n)
    ensures Elsewhere(t, r, n)
  {
    hide Inv, AtFence, QuarantineName, QuarantineLike;
    forall x | x in r.tables ensures x.target != n {
      assert TargetFree(t, r, x);
      PreviousTable(t, r, x);
    }
    if QuarantineOf(t, DisplacedNames(t, r.fence.pipelineId), n) {
      var o :| o in DisplacedNames(t, r.fence.pipelineId) && o in t.managed && QuarantineName(o, t.managed[o]) == n;
      QuarantineIsVacant(t, o);
    }
  }

  lemma GenerationGrows(t: Target, r: ActivationRequest, s: Target, x: ActivationTable)
    requires Step(t, r, s) && x in r.tables && x.target in t.managed
    ensures x.target in s.managed && t.managed[x.target].tableGeneration < s.managed[x.target].tableGeneration
  {
    hide Inv, AtFence, ActivatedTo, RowOk;
    PromotedRow(t, r, s, x);
    PreviousTable(t, r, x);
    NamesIn(t);
    assert TargetFree(t, r, x);
  }

  lemma LoadTarget(t: Target, r: ActivationRequest, x: ActivationTable)
    requires Inv(t) && AtFence(t, r, Loading) && x in r.tables
    ensures CheckTargetForLoad(t, x, r.fence).None? <==> TargetFree(t, r, x)
  {
    hide Inv, AtFence;
    PreviousTable(t, r, x);
  }

  lemma LoadRebuilds(t: Target, r: ActivationRequest, x: ActivationTable)
    requires Inv(t) && AtFence(t, r, Loading) && x in r.tables
    ensures CheckShadowForRebuild(t, x, r.fence, r.groupId).Ok?
  {
    hide Inv;
    ShadowOfGroup(t, r.groupId, x);
    GroupAtFence(t, r, Loading);
    hide GroupOk, PlannedRequest, LockFence;
  }

  lemma LoadIsMember(t: Target, r: ActivationRequest, x: ActivationTable)
    requires Inv(t) && AtFence(t, r, Loading) && x in r.tables
    ensures Membership(t, r.fence, r.groupId, x).None?
  {
    hide Inv;
    GroupAtFence(t, r, Loading);
    var found := EntryFor(r.tables, x.target);
    hide GroupOk, PlannedRequest, LockFence, EntryFor;
    assert found.Some?;
    PlannedApart(r, found.value, x);
  }

  /** A load is refused only for what stands under the target's name: an earlier shadow is always replaced. */
  lemma LoadAcceptedExactly(t: Target, r: ActivationRequest, x: ActivationTable)
    requires Inv(t) && AtFence(t, r, Loading) && x in r.tables
    ensures LoadShadow(t, r.fence, r.groupId, x).Ok? <==> TargetFree(t, r, x)
  {
    LoadTarget(t, r, x);
    LoadRebuilds(t, r, x);
    LoadIsMember(t, r, x);
    hide Inv, LockFence, TargetFree, CheckTargetForLoad, CheckShadowForRebuild, Membership;
  }

  // ---- Runs -----------------------------------------------------------------------------------

  datatype Action =
    | TakesFence(fence: Fence)
    | Registers(request: ActivationRequest)
    | Loads(fence: Fence, groupId: GroupId, table: ActivationTable)
    | Activates(request: ActivationRequest)
    | CleansUp(fence: Fence, order: seq<GroupId>, cleaned: Result<Target, SnapshotError>)
    | Collects(fence: Fence, retention: nat, limit: nat, keys: seq<LogKey>, collected: Result<Target, SnapshotError>)
    | Advances(fence: Fence, proposed: NodeCheckpoint)
    | Creates(name: QualifiedName)
    | Drops(name: QualifiedName)
    | Passes(elapsed: nat)

  /** What runs and users may attempt. A run registers by its own rules and advances only a position that is
      on record; users keep away from managed tables and reserved names. Everything else may be attempted at
      any time, under any fence. */
  ghost predicate Allowed(t: Target, a: Action) {
    match a
    case TakesFence(_) => true
    case Registers(request) => MayRegister(t, request)
    case Loads(_, _, _) => true
    case Activates(_) => true
    case CleansUp(f, order, cleaned) => CleanupStale(t, f, order, cleaned)
    case Collects(f, retention, limit, keys, collected) => Collected(t, f, retention, limit, keys, collected)
    case Advances(_, proposed) => proposed.key in t.meta.checkpoints
    case Creates(n) => Plain(n) && n !in t.relations
    case Drops(n) => n !in t.managed
    case Passes(_) => true
  }

  function First<A>(r: Result<(Target, A), SnapshotError>): Result<Target, SnapshotError> {
    match r case Ok((s, _)) => Ok(s) case Err(e) => Err(e)
  }

  ghost function After(t: Target, a: Action): Target {
    match a
    case TakesFence(f) => TakeFence(t, f)
    case Registers(request) => Register(t, request)
    case Loads(f, g, x) => Settled(t, LoadShadow(t, f, g, x))
    case Activates(request) => Settled(t, First(ActivateGroup(t, request)))
    case CleansUp(_, _, cleaned) => Settled(t, cleaned)
    case Collects(_, _, _, _, collected) => Settled(t, collected)
    case Advances(f, proposed) => Progress(t, f, proposed)
    case Creates(n) => UserCreates(t, n)
    case Drops(n) => UserDrops(t, n)
    case Passes(elapsed) => t.(now := t.now + elapsed)
  }

  ghost function AfterAll(t: Target, run: seq<Action>): Target
    decreases |run|
  {
    if run == [] then t else AfterAll(After(t, run[0]), run[1..])
  }

  ghost predicate ValidRun(t: Target, run: seq<Action>)
    decreases |run|
  {
    run == [] || (Allowed(t, run[0]) && ValidRun(After(t, run[0]), run[1..]))
  }

  /** A target no run has touched yet. */
  ghost predicate Untouched(t: Target) {
    t.managed == map[] && t.groups == map[] && t.log == map[] && t.current == map[] && t.meta.checkpoints == map[] && NamesMatch(t)
  }

  lemma CleansUpKeeps(t: Target, f: Fence, order: seq<GroupId>, cleaned: Result<Target, SnapshotError>)
    requires Inv(t) && CleanupStale(t, f, order, cleaned)
    ensures Inv(Settled(t, cleaned))
  {
    hide Inv, LockFence, CleanupAll, StaleGroups;
    if LockFence(t.meta, f).None? { CleanupRemovesExactlyStale(t, f, order, cleaned); }
  }

  lemma CollectsKeeps(t: Target, f: Fence, retention: nat, limit: nat, keys: seq<LogKey>, collected: Result<Target, SnapshotError>)
    requires Inv(t) && Collected(t, f, retention, limit, keys, collected)
    ensures Inv(Settled(t, collected))
  {
    hide Inv, LockFence, CollectAll, Collectable;
    if LockFence(t.meta, f).None? { CollectionPurgesExactlyTheOld(t, f, retention, limit, keys, collected); }
  }

  lemma ActivatesKeeps(t: Target, request: ActivationRequest)
    requires Inv(t)
    ensures Inv(Settled(t, First(ActivateGroup(t, request))))
  {
    hide Inv, ActivateGroup, Canonical, LockFence, Ready, Accepted;
    ActivationAcceptedExactly(t, request);
  }

  lemma StepKeeps(t: Target, a: Action)
    requires Inv(t) && Allowed(t, a)
    ensures Inv(After(t, a))
  {
    hide Inv, MayRegister, CleanupStale, Collected, Plain, TakeFence, Register, LoadShadow, ActivateGroup, Progress, UserCreates, UserDrops, First, Settled;
    match a
    case TakesFence(f) => TakingAFenceKeeps(t, f);
    case Registers(request) => RegisteringKeeps(t, request);
    case Loads(f, g, x) => LoadingKeeps(t, f, g, x);
    case Activates(request) => ActivatesKeeps(t, request);
    case CleansUp(f, order, cleaned) => CleansUpKeeps(t, f, order, cleaned);
    case Collects(f, retention, limit, keys, collected) => CollectsKeeps(t, f, retention, limit, keys, collected);
    case Advances(f, proposed) => ProgressKeeps(t, f, proposed);
    case Creates(n) => UsersKeep(t, n);
    case Drops(n) => UsersKeep(t, n);
    case Passes(elapsed) => TimeKeeps(t, elapsed);
  }

  lemma {:induction false} RunKeeps(t: Target, run: seq<Action>)
    requires Inv(t) && ValidRun(t, run)
    ensures Inv(AfterAll(t, run))
    decreases |run|
  {
    hide Inv, Allowed, After;
    if run != [] {
      StepKeeps(t, run[0]);
      RunKeeps(After(t, run[0]), run[1..]);
    }
  }

  lemma UntouchedIsFine(t: Target)
    requires Untouched(t)
    ensures Inv(t)
  {
  }

  /** After any run, rows and relations correspond one to one by name and identity, no row and no group is
      ahead of the stored fence, each quarantined table has exactly one unpurged entry and it matches field
      for field, and a generation has at most one active group. */
  lemma EveryRunKeepsTheBooks(t: Target, run: seq<Action>)
    requires Untouched(t) && ValidRun(t, run)
    ensures var s := AfterAll(t, run);
      && (forall n | n in s.managed :: n in s.relations && s.managed[n].oid == s.relations[n])
      && (forall m, n | m in s.managed && n in s.managed && s.managed[m].oid == s.managed[n].oid :: m == n)
      && (forall n | n in s.managed :: s.managed[n].pipelineId in s.meta.fences && s.managed[n].token <= s.meta.fences[s.managed[n].pipelineId].token)
      && (forall g | g in s.groups :: var f := s.groups[g].request.fence;
            f.pipelineId in s.meta.fences && AtMost(RowOfFence(f), s.meta.fences[f.pipelineId]))
      && (forall n | n in s.managed && s.managed[n].state == QuarantinedTable :: exists k | k in s.log ::
            UnpurgedAt(s, n) == {k} && s.managed[n] == LoggedRecord(s.log[k]).(token := s.log[k].token))
      && (forall g, h | g in s.groups && h in s.groups && s.groups[g].state == Active && s.groups[h].state == Active &&
            NodeKey(s.groups[g].request.fence) == NodeKey(s.groups[h].request.fence) :: g == h)
  {
    hide Inv;
    UntouchedIsFine(t);
    RunKeeps(t, run);
    var s := AfterAll(t, run);
    hide AfterAll, ValidRun, Untouched;
    NamesIn(s);
    ApartIn(s);
    forall n | n in s.managed ensures s.managed[n].pipelineId in s.meta.fences && s.managed[n].token <= s.meta.fences[s.managed[n].pipelineId].token {
      TokensBounded(s, n);
    }
    forall g | g in s.groups
      ensures s.groups[g].request.fence.pipelineId in s.meta.fences
      ensures AtMost(RowOfFence(s.groups[g].request.fence), s.meta.fences[s.groups[g].request.fence.pipelineId])
    {
      GroupIn(s, g);
    }
    hide PlannedRequest, LoggedRecord, UnpurgedAt;
    forall n | n in s.managed && s.managed[n].state == QuarantinedTable
      ensures exists k | k in s.log :: UnpurgedAt(s, n) == {k} && s.managed[n] == LoggedRecord(s.log[k]).(token := s.log[k].token)
    {
      var k := QuarantinedRow(s, n);
      UnpurgedOnce(s, k);
    }
  }
}
