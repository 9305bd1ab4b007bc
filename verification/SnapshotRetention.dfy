/** What an activation logs about the tables it displaces, and how long they are kept. */
module SnapshotRetention {
  import opened Core
  import opened Checkpoint
  import opened Manifest
  import opened ManifestStore
  import opened Snapshot
  import opened SnapshotNames
  import opened SnapshotOps
  import opened SnapshotInvariant
  import opened SnapshotSteps
  import opened SnapshotClassify
  import opened SnapshotPlan
  import opened SnapshotOutcome
  import opened SnapshotActivated
  import opened SnapshotCleanup
  import opened SnapshotCollection
  import opened SnapshotRuns

  // ---- The entry of a displaced table ---------------------------------------------------------

  lemma AcceptedStep(t: Target, request: ActivationRequest, s: Target)
    requires Inv(t) && ActivateGroup(t, request) == Ok((s, Activated))
    ensures Canonical(request).Ok? && Step(t, Canonical(request).value, s)
  {
    hide Inv, Ready, ActivatedTo, ActivateGroup, Canonical, LockFence;
    ActivationAcceptedExactly(t, request);
    CanonicalFence(request);
  }

  lemma CanonicalFence(request: ActivationRequest)
    requires Canonical(request).Ok?
    ensures var r := Canonical(request).value; r.fence == request.fence && r.groupId == request.groupId
  {
    hide CanonicalTables, CanonicalNodes;
  }

  /** One of the targets of the request. */
  ghost predicate IsTarget(r: ActivationRequest, n: QualifiedName) {
    exists x | x in r.tables :: x.target == n
  }

  lemma ReasonOf(r: ActivationRequest, n: QualifiedName)
    ensures ReasonFor(r, n) == Replaced <==> IsTarget(r, n)
  {
  }

  /** Every entry an activation adds is of a table it displaced, field for field: what the row said, who
      displaced it, the present time, and that it was replaced exactly when its name is one of the request's
      targets. Every displaced table has one. */
  lemma NewEntry(t: Target, request: ActivationRequest, s: Target, k: LogKey)
    requires Inv(t) && ActivateGroup(t, request) == Ok((s, Activated))
    ensures Canonical(request).Ok?
    ensures var r := Canonical(request).value;
      && (k in s.log && k !in t.log <==> k.0 == r.groupId && Displaced(t, r.fence.pipelineId, k.1))
      && (k in s.log && k !in t.log ==>
           var row := t.managed[k.1];
           s.log[k] == LogEntry(r.groupId, k.1, QuarantineName(k.1, row), row.oid, r.fence.pipelineId, r.fence.generation,
                                row.sourceRelationId, row.groupId, row.tableGeneration, row.fingerprint,
                                if IsTarget(r, k.1) then Replaced else Stale, row.token, r.fence.token, t.now, None))
  {
    hide Inv, ActivateGroup, Canonical, AtFence, Ready, Promoted, OthersStay, MarkedActive, QuarantineName, IsTarget;
    AcceptedStep(t, request, s);
    var r := Canonical(request).value;
    ReasonOf(r, k.1);
    if k.0 == r.groupId {
      SomeStored(t, r);
      NotLoggedYet(t, r.groupId, k.1);
    }
  }

  // ---- Kept for as long as asked --------------------------------------------------------------

  /** An unpurged entry has its table: there under its quarantine name, with the identity it always had. */
  lemma EntryHasTable(t: Target, k: LogKey)
    requires Inv(t) && k in t.log && t.log[k].purgedBy.None?
    ensures var e := t.log[k];
      && e.quarantine in t.relations && t.relations[e.quarantine] == e.oid
      && e.quarantine in t.managed && t.managed[e.quarantine].state == QuarantinedTable
  {
    hide Inv, Formerly, QuarantineName;
    EntryIn(t, k);
    NamesIn(t);
  }

  lemma ActivationKeepsEntry(t: Target, request: ActivationRequest, k: LogKey)
    requires Inv(t) && k in t.log
    ensures var s := Settled(t, First(ActivateGroup(t, request))); k in s.log && s.log[k] == t.log[k]
  {
    hide Inv, ActivateGroup, Canonical, LockFence, Ready, Step;
    ActivationAcceptedExactly(t, request);
    if ActivateGroup(t, request).Ok? && ActivateGroup(t, request).value.1 == Activated {
      var s := ActivateGroup(t, request).value.0;
      AcceptedStep(t, request, s);
      LogKept(t, Canonical(request).value, s, k);
    }
    hide Accepted;
  }

  lemma CleanupKeepsLog(t: Target, f: Fence, order: seq<GroupId>, cleaned: Result<Target, SnapshotError>)
    requires Inv(t) && CleanupStale(t, f, order, cleaned)
    ensures Settled(t, cleaned).log == t.log && Settled(t, cleaned).now == t.now
  {
    hide Inv, LockFence, CleanupAll, StaleGroups;
    if LockFence(t.meta, f).None? { CleanupOutcome(t, f, order, cleaned); }
  }

  /** A collection purges, of the entries that are its to purge, no younger one than it was asked to. */
  lemma CollectionKeepsYoung(t: Target, f: Fence, retention: nat, limit: nat, keys: seq<LogKey>, collected: Result<Target, SnapshotError>,
                             k: LogKey)
    requires Inv(t) && Collected(t, f, retention, limit, keys, collected) && k in t.log && t.now < t.log[k].recordedAt + retention
    ensures var s := Settled(t, collected); k in s.log && s.log[k] == t.log[k] && s.now == t.now
  {
    hide Inv, LockFence, CollectAll;
    if LockFence(t.meta, f).None? { CollectionPurgesExactlyTheOld(t, f, retention, limit, keys, collected); }
    assert k !in KeySet(keys);
  }

  lemma StepKeepsEntry(t: Target, a: Action, k: LogKey, d: nat)
    requires Inv(t) && Allowed(t, a) && k in t.log && (a.Collects? ==> a.retention >= d) && t.now < t.log[k].recordedAt + d
    ensures k in After(t, a).log && After(t, a).log[k] == t.log[k]
  {
    hide Inv, MayRegister, CleanupStale, Collected, Plain, LoadShadow, ActivateGroup, AdvanceCheckpoint, ActivateFence, BeginGroup, First, Settled;
    match a
    case TakesFence(f) =>
    case Registers(request) => RegistrationTouches(t, request);
    case Loads(f, g, x) => LoadKeepsLog(t, f, g, x);
    case Activates(request) => ActivationKeepsEntry(t, request, k);
    case CleansUp(f, order, cleaned) => CleanupKeepsLog(t, f, order, cleaned);
    case Collects(f, retention, limit, keys, collected) => CollectionKeepsYoung(t, f, retention, limit, keys, collected, k);
    case Advances(f, proposed) =>
    case Creates(n) =>
    case Drops(n) =>
    case Passes(elapsed) =>
  }

  lemma RegistrationTouches(t: Target, request: ActivationRequest)
    ensures Register(t, request).log == t.log && Register(t, request).now == t.now
  {
    hide Canonical, LockFence;
  }

  lemma LoadKeepsLog(t: Target, f: Fence, g: GroupId, x: ActivationTable)
    ensures Settled(t, LoadShadow(t, f, g, x)).log == t.log && Settled(t, LoadShadow(t, f, g, x)).now == t.now
  {
    hide LockFence, Membership, CheckTargetForLoad, CheckShadowForRebuild;
  }

  lemma ActivationKeepsTime(t: Target, request: ActivationRequest)
    requires Inv(t)
    ensures Settled(t, First(ActivateGroup(t, request))).now == t.now
  {
    hide Inv, ActivateGroup, Canonical, LockFence, Ready, Promoted, Quarantined, OthersStay, LogGrows;
    ActivationAcceptedExactly(t, request);
  }

  lemma CollectionKeepsTime(t: Target, f: Fence, retention: nat, limit: nat, keys: seq<LogKey>, collected: Result<Target, SnapshotError>)
    requires Inv(t) && Collected(t, f, retention, limit, keys, collected)
    ensures Settled(t, collected).now == t.now
  {
    hide Inv, LockFence, CollectAll, Collectable;
    if LockFence(t.meta, f).None? { CollectionPurgesExactlyTheOld(t, f, retention, limit, keys, collected); }
  }

  /** Only the passing of time moves the clock. */
  lemma StepKeepsTime(t: Target, a: Action)
    requires Inv(t) && Allowed(t, a)
    ensures After(t, a).now == t.now + if a.Passes? then a.elapsed else 0
  {
    hide Inv, MayRegister, CleanupStale, Collected, Plain, LoadShadow, ActivateGroup, AdvanceCheckpoint, ActivateFence, BeginGroup, First, Settled;
    match a
    case TakesFence(f) =>
    case Registers(request) => RegistrationTouches(t, request);
    case Loads(f, g, x) => LoadKeepsLog(t, f, g, x);
    case Activates(request) => ActivationKeepsTime(t, request);
    case CleansUp(f, order, cleaned) => CleanupKeepsLog(t, f, order, cleaned);
    case Collects(f, retention, limit, keys, collected) => CollectionKeepsTime(t, f, retention, limit, keys, collected);
    case Advances(f, proposed) =>
    case Creates(n) =>
    case Drops(n) =>
    case Passes(elapsed) =>
  }

  /** No run whose collections all ask for at least `d` purges an entry before `d` has passed since it was
      written: until then entry and table are as they were, whoever activates, cleans up or collects. */
  lemma {:induction false} NotPurgedEarly(t: Target, run: seq<Action>, k: LogKey, d: nat)
    requires Inv(t) && ValidRun(t, run) && k in t.log && t.log[k].purgedBy.None?
    requires forall a | a in run && a.Collects? :: a.retention >= d
    ensures var s := AfterAll(t, run);
      && t.now <= s.now
      && (s.now < t.log[k].recordedAt + d ==>
           && k in s.log && s.log[k] == t.log[k]
           && t.log[k].quarantine in s.relations && s.relations[t.log[k].quarantine] == t.log[k].oid)
    decreases |run|
  {
    hide Inv, Allowed, After;
    if run == [] {
      EntryHasTable(t, k);
    } else {
      var next := After(t, run[0]);
      StepKeeps(t, run[0]);
      StepKeepsTime(t, run[0]);
      RunKeepsTime(next, run[1..]);
      if AfterAll(t, run).now < t.log[k].recordedAt + d {
        StepKeepsEntry(t, run[0], k, d);
        NotPurgedEarly(next, run[1..], k, d);
      }
    }
  }

  lemma {:induction false} RunKeepsTime(t: Target, run: seq<Action>)
    requires Inv(t) && ValidRun(t, run)
    ensures t.now <= AfterAll(t, run).now
    decreases |run|
  {
    hide Inv, Allowed, After;
    if run != [] {
      StepKeeps(t, run[0]);
      StepKeepsTime(t, run[0]);
      RunKeepsTime(After(t, run[0]), run[1..]);
    }
  }

  /** A table an activation displaced is still there, under its quarantine name and with its identity, in
      every later state until `d` has passed since, as long as no collection asks for less. */
  lemma DisplacedIsKept(t: Target, request: ActivationRequest, s: Target, n: QualifiedName, run: seq<Action>, d: nat)
    requires Inv(t) && ActivateGroup(t, request) == Ok((s, Activated)) && ValidRun(s, run)
    requires n in t.managed && t.managed[n].state == ActiveTable && t.managed[n].pipelineId == request.fence.pipelineId
    requires forall a | a in run && a.Collects? :: a.retention >= d
    ensures n in t.relations
    ensures var e, q := AfterAll(s, run), QuarantineName(n, t.managed[n]);
      e.now < t.now + d ==> q in e.relations && e.relations[q] == t.relations[n]
  {
    hide Inv, ActivateGroup, Canonical, ValidRun, AfterAll, QuarantineName, Step, IsTarget;
    NamesIn(t);
    AcceptedStep(t, request, s);
    CanonicalFence(request);
    var r := Canonical(request).value;
    NewEntry(t, request, s, (r.groupId, n));
    ActivationKeeps(t, r, s);
    NotPurgedEarly(s, run, (r.groupId, n), d);
  }

  // ---- And no longer --------------------------------------------------------------------------

  /** A collection pass with room to spare purges an entry of its pipeline exactly when the time since it was
      written has reached what was asked, and drops its table. */
  lemma PurgedExactlyWhenDue(t: Target, f: Fence, retention: nat, limit: nat, keys: seq<LogKey>, result: Result<Target, SnapshotError>, k: LogKey)
    requires Inv(t) && LockFence(t.meta, f).None? && Collected(t, f, retention, limit, keys, result) && |keys| < limit
    requires k in t.log && t.log[k].purgedBy.None? && t.log[k].pipelineId == f.pipelineId
    ensures result.Ok?
    ensures var e, s := t.log[k], result.value;
      if e.recordedAt + retention <= t.now then
        k in s.log && s.log[k] == e.(purgedBy := Some(f.token)) && e.quarantine !in s.relations && e.quarantine !in s.managed
      else
        k in s.log && s.log[k] == e && e.quarantine in s.relations && s.relations[e.quarantine] == e.oid
  {
    hide Inv, LockFence, CollectAll;
    CollectionPurgesExactlyTheOld(t, f, retention, limit, keys, result);
    if t.log[k].recordedAt + retention <= t.now {
      assert k in KeySet(keys);
    } else {
      CollectionKeepsYoung(t, f, retention, limit, keys, result, k);
      EntryHasTable(result.value, k);
    }
  }

  /** A pass purges no more entries than it may, and the oldest first: what it purges is no younger than anything
      due that it leaves. */
  lemma OldestFirst(t: Target, f: Fence, retention: nat, limit: nat, keys: seq<LogKey>, result: Result<Target, SnapshotError>, j: LogKey, k: LogKey)
    requires Inv(t) && LockFence(t.meta, f).None? && Collected(t, f, retention, limit, keys, result)
    requires j in t.log && k in t.log && t.log[j].purgedBy.None? && t.log[k].purgedBy.None? && t.log[k].pipelineId == f.pipelineId
    ensures result.Ok? && result.value.log.Keys == t.log.Keys
    ensures result.value.log[j].purgedBy.Some? && result.value.log[k].purgedBy.None? && t.log[k].recordedAt + retention <= t.now ==>
      t.log[j].recordedAt <= t.log[k].recordedAt
    ensures forall m | m in t.log && result.value.log[m] != t.log[m] :: m in keys
    ensures |keys| <= limit
  {
    hide Inv, LockFence, CollectAll;
    CollectionPurgesExactlyTheOld(t, f, retention, limit, keys, result);
  }
}
