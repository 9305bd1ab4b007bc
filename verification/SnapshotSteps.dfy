/** The steps around an activation keep the invariant: fences, registration, loading, progress, users and time. */
module SnapshotSteps {
  import opened Core
  import opened Checkpoint
  import opened Manifest
  import opened ManifestStore
  import opened Snapshot
  import opened SnapshotNames
  import opened SnapshotOps
  import opened SnapshotInvariant

  /** The state after a step; a refused step rolls back. */
  function Settled<E>(t: Target, r: Result<Target, E>): Target {
    match r case Ok(s) => s case Err(_) => t
  }

  ghost function TakeFence(t: Target, f: Fence): Target {
    match ActivateFence(t.meta, f)
    case Ok(meta) => t.(meta := meta)
    case Err(_) => t
  }

  ghost function Register(t: Target, request: ActivationRequest): Target {
    match BeginGroup(t, request)
    case Ok((s, _)) => s
    case Err(_) => t
  }

  /** A run registers one group, planned by its own rules, and only when no position is on record yet. */
  ghost predicate MayRegister(t: Target, request: ActivationRequest) {
    Canonical(request).Ok? ==>
      var r := Canonical(request).value;
      && PlannedRequest(r)
      && (r.groupId !in t.groups ==>
            NodeKey(r.fence) !in t.meta.checkpoints &&
            forall g | g in t.groups && t.groups[g].request.fence.pipelineId == r.fence.pipelineId ::
              t.groups[g].request.fence.token != r.fence.token)
  }

  ghost function Progress(t: Target, f: Fence, proposed: NodeCheckpoint): Target {
    match AdvanceCheckpoint(t.meta, f, proposed)
    case Ok((meta, _)) => t.(meta := meta)
    case Err(_) => t
  }

  // ---- Parts that a step leaves alone ---------------------------------------------------------

  ghost predicate GroupsExtend(t: Target, s: Target) {
    forall g | g in t.groups :: g in s.groups && s.groups[g] == t.groups[g]
  }

  lemma RowsCarry(t: Target, s: Target)
    requires RowsOk(t) && s.managed == t.managed && s.current == t.current && s.log == t.log && GroupsExtend(t, s)
    ensures RowsOk(s)
  {
    hide RowOk;
    forall n | n in s.managed ensures RowOk(s, n) { assert RowOk(t, n); RowKept(t, s, n); }
  }

  lemma CurrentsCarry(t: Target, s: Target)
    requires CurrentsOk(t) && s.managed == t.managed && s.current == t.current && GroupsExtend(t, s)
    ensures CurrentsOk(s)
  {
    forall p | p in s.current ensures CurrentOk(s, p) { assert CurrentOk(t, p); }
  }

  lemma CheckpointsCarry(t: Target, s: Target)
    requires CheckpointsOk(t) && s.meta.checkpoints.Keys == t.meta.checkpoints.Keys && GroupsExtend(t, s)
    ensures CheckpointsOk(s)
  {
    forall key | key in s.meta.checkpoints ensures CheckpointOk(s, key) {
      assert key in t.meta.checkpoints && CheckpointOk(t, key);
      var g :| ActiveAt(t, g, key);
      assert ActiveAt(s, g, key);
    }
  }

  lemma LogCarries(t: Target, s: Target)
    requires LogOk(t) && s.managed == t.managed && s.current == t.current && s.log == t.log && GroupsExtend(t, s)
    ensures LogOk(s)
  {
    forall k | k in s.log ensures EntryOk(s, k) {
      assert EntryOk(t, k);
      EntryKept(t, s, k);
    }
  }

  lemma AllCarry(t: Target, s: Target)
    requires Inv(t) && s.managed == t.managed && s.current == t.current && s.log == t.log && GroupsExtend(t, s)
    requires s.meta.checkpoints.Keys == t.meta.checkpoints.Keys
    requires NamesMatch(s) && GroupsOk(s) && GroupsApart(s)
    ensures Inv(s)
  {
    assert InvOk(t);
    RowsCarry(t, s);
    CurrentsCarry(t, s);
    CheckpointsCarry(t, s);
    LogCarries(t, s);
    hide NamesMatch, RowsOk, GroupsOk, CurrentsOk, GroupsApart, CheckpointsOk, LogOk;
    assert LogApart(s);
  }

  // ---- Steps on the authority records ---------------------------------------------------------

  lemma FenceKeepsGroup(t: Target, f: Fence, g: GroupId)
    requires g in t.groups && GroupOk(t, g)
    ensures GroupOk(TakeFence(t, f), g)
  {
    hide PlannedRequest;
  }

  lemma FenceKeepsGroups(t: Target, f: Fence)
    requires GroupsOk(t)
    ensures GroupsOk(TakeFence(t, f))
  {
    hide GroupOk, TakeFence;
    var s := TakeFence(t, f);
    FenceTouches(t, f);
    forall g | g in s.groups ensures GroupOk(s, g) { assert GroupOk(t, g); FenceKeepsGroup(t, f, g); }
  }

  lemma FenceTouches(t: Target, f: Fence)
    ensures var s := TakeFence(t, f); s == t.(meta := s.meta) && s.meta.checkpoints == t.meta.checkpoints
  {
  }

  lemma TakingAFenceKeeps(t: Target, f: Fence)
    requires Inv(t)
    ensures Inv(TakeFence(t, f))
  {
    hide RowsOk, GroupsOk, CurrentsOk, CheckpointsOk, LogOk, LogApart, TakeFence;
    assert InvOk(t);
    var s := TakeFence(t, f);
    FenceKeepsGroups(t, f);
    FenceTouches(t, f);
    AllCarry(t, s);
  }

  lemma ProgressKeepsGroup(t: Target, f: Fence, proposed: NodeCheckpoint, g: GroupId)
    requires g in t.groups && GroupOk(t, g) && proposed.key in t.meta.checkpoints
    ensures GroupOk(Progress(t, f, proposed), g)
  {
    AdvanceIffCurrent(t.meta, f, proposed);
    hide PlannedRequest, AdvanceCheckpoint;
  }

  lemma ProgressKeepsGroups(t: Target, f: Fence, proposed: NodeCheckpoint)
    requires GroupsOk(t) && proposed.key in t.meta.checkpoints
    ensures GroupsOk(Progress(t, f, proposed))
  {
    hide GroupOk, AdvanceCheckpoint;
    var s := Progress(t, f, proposed);
    forall g | g in s.groups ensures GroupOk(s, g) { assert GroupOk(t, g); ProgressKeepsGroup(t, f, proposed, g); }
  }

  lemma ProgressTouches(t: Target, f: Fence, proposed: NodeCheckpoint)
    requires proposed.key in t.meta.checkpoints
    ensures var s := Progress(t, f, proposed); s == t.(meta := s.meta) && s.meta.checkpoints.Keys == t.meta.checkpoints.Keys
  {
    AdvanceIffCurrent(t.meta, f, proposed);
    hide AdvanceCheckpoint;
    assert t.meta.checkpoints.Keys + {proposed.key} == t.meta.checkpoints.Keys;
  }

  lemma ProgressKeeps(t: Target, f: Fence, proposed: NodeCheckpoint)
    requires Inv(t) && proposed.key in t.meta.checkpoints
    ensures Inv(Progress(t, f, proposed))
  {
    hide RowsOk, GroupsOk, CurrentsOk, CheckpointsOk, LogOk, LogApart, Progress;
    assert InvOk(t);
    var s := Progress(t, f, proposed);
    ProgressKeepsGroups(t, f, proposed);
    ProgressTouches(t, f, proposed);
    AllCarry(t, s);
  }

  // ---- Time and users -------------------------------------------------------------------------

  /** Relations without a row come and go, and time passes. */
  lemma OnlyUnmanagedChanged(t: Target, s: Target)
    requires Inv(t) && s == t.(now := s.now, relations := s.relations, nextOid := s.nextOid) && NamesMatch(s)
    ensures Inv(s)
  {
    hide RowsOk, CurrentsOk, CheckpointsOk, LogOk, LogApart, NamesMatch, PlannedRequest, Reached;
    assert InvOk(t);
    assert GroupsOk(s) by {
      forall g | g in s.groups ensures GroupOk(s, g) { assert GroupOk(t, g); }
    }
    hide GroupsOk;
    AllCarry(t, s);
  }

  function UserCreates(t: Target, n: QualifiedName): Target {
    t.(relations := t.relations[n := t.nextOid], nextOid := t.nextOid + 1)
  }

  function UserDrops(t: Target, n: QualifiedName): Target {
    t.(relations := t.relations - {n})
  }

  lemma UsersKeepNames(t: Target, n: QualifiedName)
    requires NamesMatch(t)
    ensures Plain(n) && n !in t.relations ==> NamesMatch(UserCreates(t, n))
    ensures n !in t.managed ==> NamesMatch(UserDrops(t, n))
  {
    hide Plain;
  }

  lemma UsersKeep(t: Target, n: QualifiedName)
    requires Inv(t)
    ensures Plain(n) && n !in t.relations ==> Inv(UserCreates(t, n))
    ensures n !in t.managed ==> Inv(UserDrops(t, n))
  {
    hide Inv, NamesMatch, Plain;
    NamesIn(t);
    UsersKeepNames(t, n);
    if Plain(n) && n !in t.relations { OnlyUnmanagedChanged(t, UserCreates(t, n)); }
    if n !in t.managed { OnlyUnmanagedChanged(t, UserDrops(t, n)); }
  }

  lemma TimeKeeps(t: Target, elapsed: nat)
    requires Inv(t)
    ensures Inv(t.(now := t.now + elapsed))
  {
    hide RowsOk, GroupsOk, CurrentsOk, GroupsApart, CheckpointsOk, LogOk, LogApart, Plain;
    assert InvOk(t);
    OnlyUnmanagedChanged(t, t.(now := t.now + elapsed));
  }

  // ---- Registering ----------------------------------------------------------------------------

  lemma RegistrationKeepsGroup(t: Target, r: ActivationRequest, g: GroupId)
    requires g in t.groups && GroupOk(t, g) && r.groupId !in t.groups
    ensures GroupOk(t.(groups := t.groups[r.groupId := Group(Loading, r)]), g)
  {
    hide PlannedRequest, Reached;
  }

  lemma NewGroupKeepsGroups(t: Target, r: ActivationRequest)
    requires GroupsOk(t) && PlannedRequest(r) && r.groupId !in t.groups && LockFence(t.meta, r.fence).None?
    requires NodeKey(r.fence) !in t.meta.checkpoints
    ensures GroupsOk(t.(groups := t.groups[r.groupId := Group(Loading, r)]))
  {
    hide PlannedRequest;
    var s := t.(groups := t.groups[r.groupId := Group(Loading, r)]);
    assert GroupOk(s, r.groupId);
    hide GroupOk;
    forall g | g in s.groups ensures GroupOk(s, g) {
      if g != r.groupId { assert GroupOk(t, g); RegistrationKeepsGroup(t, r, g); }
    }
  }

  lemma NewGroupKeeps(t: Target, r: ActivationRequest)
    requires Inv(t) && PlannedRequest(r) && r.groupId !in t.groups && LockFence(t.meta, r.fence).None?
    requires NodeKey(r.fence) !in t.meta.checkpoints
    requires forall g | g in t.groups && t.groups[g].request.fence.pipelineId == r.fence.pipelineId ::
              t.groups[g].request.fence.token != r.fence.token
    ensures Inv(t.(groups := t.groups[r.groupId := Group(Loading, r)]))
  {
    hide RowsOk, GroupsOk, CurrentsOk, CheckpointsOk, LogOk, LogApart, PlannedRequest;
    assert InvOk(t);
    NewGroupKeepsGroups(t, r);
    AllCarry(t, t.(groups := t.groups[r.groupId := Group(Loading, r)]));
  }

  lemma RegisteringKeeps(t: Target, request: ActivationRequest)
    requires Inv(t) && MayRegister(t, request)
    ensures Inv(Register(t, request))
  {
    hide Inv, Canonical, PlannedRequest;
    if BeginGroup(t, request).Ok? && Canonical(request).value.groupId !in t.groups {
      NewGroupKeeps(t, Canonical(request).value);
    }
  }

  // ---- Loading --------------------------------------------------------------------------------

  /** What a load that succeeds has found out. */
  lemma LoadFinds(t: Target, f: Fence, g: GroupId, x: ActivationTable)
    requires LoadShadow(t, f, g, x).Ok?
    ensures g in t.groups && t.groups[g].state == Loading && t.groups[g].request.fence == f && x in t.groups[g].request.tables
    ensures LoadShadow(t, f, g, x).value ==
      t.(relations := t.relations[x.shadow := t.nextOid], nextOid := t.nextOid + 1,
         managed := t.managed[x.shadow := Record(f.pipelineId, g, t.nextOid, x.sourceRelationId, x.tableGeneration, x.fingerprint,
                                                 ShadowTable, f.token)])
  {
    hide LockFence, CheckTargetForLoad, CheckShadowForRebuild;
  }

  lemma LoadedNames(t: Target, n: QualifiedName, r: Record)
    requires NamesMatch(t) && r.oid == t.nextOid && (n in t.relations ==> n in t.managed)
    ensures NamesMatch(t.(relations := t.relations[n := t.nextOid], managed := t.managed[n := r], nextOid := t.nextOid + 1))
  {
    hide Plain;
  }

  lemma LoadingKeeps(t: Target, f: Fence, g: GroupId, x: ActivationTable)
    requires Inv(t)
    ensures Inv(Settled(t, LoadShadow(t, f, g, x)))
  {
    hide LoadShadow, NamesMatch, RowsOk, CurrentsOk, GroupsApart, CheckpointsOk, LogOk, LogApart;
    assert InvOk(t);
    if LoadShadow(t, f, g, x).Ok? {
      LoadFinds(t, f, g, x);
      assert GroupOk(t, g);
      hide GroupsOk;
      LoadedKeeps(t, g, x, LoadShadow(t, f, g, x).value);
    }
  }

  ghost predicate Loaded(t: Target, g: GroupId, x: ActivationTable, s: Target) {
    && g in t.groups && t.groups[g].state == Loading && x in t.groups[g].request.tables
    && s == t.(relations := t.relations[x.shadow := t.nextOid], nextOid := t.nextOid + 1,
               managed := t.managed[x.shadow := RowFor(t.groups[g].request, x, t.nextOid, ShadowTable)])
  }

  lemma LoadedRows(t: Target, g: GroupId, x: ActivationTable, s: Target)
    requires Loaded(t, g, x, s) && RowsOk(t) && t.groups[g].request.groupId == g
    ensures RowsOk(s)
  {
    forall n | n in s.managed ensures RowOk(s, n) {
      if n != x.shadow { assert RowOk(t, n); RowKept(t, s, n); }
    }
  }

  lemma LoadedGroups(t: Target, g: GroupId, x: ActivationTable, s: Target)
    requires Loaded(t, g, x, s) && GroupsOk(t)
    ensures GroupsOk(s)
  {
    hide PlannedRequest, Reached;
    forall h | h in s.groups ensures GroupOk(s, h) { assert GroupOk(t, h); }
  }

  lemma LoadedOthers(t: Target, g: GroupId, x: ActivationTable, s: Target)
    requires Inv(t) && Loaded(t, g, x, s) && ShadowLike(x.shadow) && !Plain(x.shadow)
    ensures CurrentsOk(s) && LogOk(s)
  {
    hide RowsOk, GroupsOk, CheckpointsOk, LogApart, GroupsApart, NamesMatch, Plain, ShadowLike, CurrentOk, EntryOk;
    assert InvOk(t);
    forall p | p in s.current ensures CurrentOk(s, p) { LoadedCurrent(t, s, p, x.shadow); }
    forall k | k in s.log ensures EntryOk(s, k) {
      assert EntryOk(t, k);
      LoadedEntry(t, s, k, x.shadow);
    }
  }

  lemma LoadedName(t: Target, g: GroupId, x: ActivationTable, s: Target)
    requires Inv(t) && Loaded(t, g, x, s)
    ensures ShadowLike(x.shadow) && !Plain(x.shadow) && NamesMatch(s) && t.groups[g].request.groupId == g
  {
    hide Inv, NamesMatch, Plain, ShadowLike, QuarantineLike, RecordFits, PlannedRequest, GroupOk, ShadowName, GroupsApart;
    GroupIn(t, g);
    NamesIn(t);
    RowNames(t.groups[g].request, x);
    ReservedIsManaged(t, x.shadow);
    LoadedNames(t, x.shadow, RowFor(t.groups[g].request, x, t.nextOid, ShadowTable));
  }

  lemma LoadedKeeps(t: Target, g: GroupId, x: ActivationTable, s: Target)
    requires Inv(t) && Loaded(t, g, x, s)
    ensures Inv(s)
  {
    hide RowsOk, GroupsOk, CurrentsOk, CheckpointsOk, LogOk, NamesMatch, Plain, ShadowLike;
    assert InvOk(t);
    LoadedName(t, g, x, s);
    LoadedRows(t, g, x, s);
    LoadedGroups(t, g, x, s);
    LoadedOthers(t, g, x, s);
    CheckpointsCarry(t, s);
  }

  lemma LoadedCurrent(t: Target, s: Target, p: PipelineId, shadow: QualifiedName)
    requires Inv(t) && p in t.current && ShadowLike(shadow) && !Plain(shadow)
    requires s.groups == t.groups && s.current == t.current && forall n | n in t.managed && n != shadow :: n in s.managed && s.managed[n] == t.managed[n]
    ensures CurrentOk(s, p)
  {
    hide Inv, Plain, ShadowLike, PlannedRequest, QuarantineLike, RecordFits, Overtaken, Reached;
    CurrentIn(t, p);
    var q := t.groups[t.current[p]].request;
    GroupIn(t, t.current[p]);
    forall x | x in q.tables
      ensures x.target in s.managed && s.managed[x.target] == RowFor(q, x, s.managed[x.target].oid, ActiveTable)
    {
      RowNames(q, x);
    }
  }

  lemma LoadedEntry(t: Target, s: Target, k: LogKey, shadow: QualifiedName)
    requires k in t.log && EntryOk(t, k) && ShadowLike(shadow)
    requires s.groups == t.groups && s.current == t.current && s.log == t.log
    requires forall n | n in t.managed && n != shadow :: n in s.managed && s.managed[n] == t.managed[n]
    ensures EntryOk(s, k)
  {
    QuarantineNameLike(t.log[k].original, LoggedRecord(t.log[k]));
    FamiliesApart(shadow);
    EntryKept(t, s, k);
  }

  // ---- What registering does, and doing it again ----------------------------------------------

  /** A request is registered if and only if it is canonical, under the present fence, and not at odds with what
      stands under its group. A new group is then loading with exactly its canonical tables, and nothing else
      changed; a known one is left alone. */
  lemma RegisteredExactly(t: Target, request: ActivationRequest)
    ensures BeginGroup(t, request).Ok? <==>
      && Canonical(request).Ok? && LockFence(t.meta, request.fence).None?
      && (request.groupId in t.groups ==> t.groups[request.groupId].request == Canonical(request).value)
    ensures BeginGroup(t, request).Ok? ==>
      var (s, r) := BeginGroup(t, request).value;
      if request.groupId in t.groups then
        s == t && r == (if t.groups[request.groupId].state == Active then AlreadyActive else AlreadyRegistered)
      else
        s == t.(groups := t.groups[request.groupId := Group(Loading, Canonical(request).value)]) && r == Registered
  {
    hide CanonicalTables, CanonicalNodes, LockFence;
  }

  /** Registering the same group again, its tables in any order, changes nothing. */
  lemma RegisteringAgain(t: Target, request: ActivationRequest, again: ActivationRequest)
    requires BeginGroup(t, request).Ok? && again.fence == request.fence && again.groupId == request.groupId
    requires multiset(again.tables) == multiset(request.tables) && multiset(again.checkpoints) == multiset(request.checkpoints)
    ensures var s := BeginGroup(t, request).value.0; BeginGroup(s, again).Ok? && BeginGroup(s, again).value.0 == s
  {
    RegisteredExactly(t, request);
    RegisteredExactly(BeginGroup(t, request).value.0, again);
    CanonicalIgnoresOrder(request, again);
    hide Canonical, LockFence, BeginGroup;
  }
}
