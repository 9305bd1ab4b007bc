/** Activation keeps the invariant. */
module SnapshotActivated {
  import opened Core
  import opened Checkpoint
  import opened Manifest
  import opened ManifestStore
  import opened Snapshot
  import opened SnapshotNames
  import opened SnapshotOps
  import opened SnapshotInvariant
  import opened SnapshotClassify
  import opened SnapshotPlan
  import opened SnapshotOutcome

  /** An activation accepted in a reachable state. */
  ghost predicate Step(t: Target, r: ActivationRequest, s: Target) {
    Inv(t) && AtFence(t, r, Loading) && Ready(t, r) && ActivatedTo(t, r, s)
  }

  // ---- Who is where ---------------------------------------------------------------------------

  ghost predicate FromShadow(t: Target, r: ActivationRequest, n: QualifiedName, o: QualifiedName) {
    exists x | x in r.tables :: x.target == n && x.shadow == o
  }

  ghost predicate FromActive(t: Target, r: ActivationRequest, n: QualifiedName, o: QualifiedName) {
    Displaced(t, r.fence.pipelineId, o) && n == QuarantineName(o, t.managed[o])
  }

  ghost predicate Stayed(t: Target, r: ActivationRequest, n: QualifiedName, o: QualifiedName) {
    n == o && Elsewhere(t, r, n) && n !in ShadowsOf(r.tables) && !Displaced(t, r.fence.pipelineId, n)
  }

  /** Every relation after the activation was one before it, under the name it left. */
  lemma OriginOf(t: Target, r: ActivationRequest, s: Target, n: QualifiedName) returns (o: QualifiedName)
    requires Step(t, r, s) && (n in s.relations || n in s.managed)
    ensures FromShadow(t, r, n, o) || FromActive(t, r, n, o) || Stayed(t, r, n, o)
    ensures n in s.relations && o in t.relations && s.relations[n] == t.relations[o]
  {
    hide Inv, AtFence, Ready, LogGrows, MarkedActive, QuarantineName;
    NamesIn(t);
    if n in TargetsOf(r.tables) {
      var x :| x in r.tables && x.target == n;
      o := x.shadow;
    } else if QuarantineOf(t, DisplacedNames(t, r.fence.pipelineId), n) {
      o :| o in DisplacedNames(t, r.fence.pipelineId) && o in t.managed && QuarantineName(o, t.managed[o]) == n;
    } else {
      o := n;
    }
  }

  /** What is known of a name in each place. */
  lemma OriginKinds(t: Target, r: ActivationRequest, n: QualifiedName, o: QualifiedName)
    requires Inv(t) && AtFence(t, r, Loading)
    ensures FromShadow(t, r, n, o) ==> Plain(n) && ShadowLike(o) && o in ShadowsOf(r.tables)
    ensures FromActive(t, r, n, o) ==> QuarantineLike(n) && Plain(o) && StateOf(t, n) == Vacant
  {
    hide Inv, AtFence, Plain, ShadowLike, QuarantineLike, RecordFits, PlannedRequest, GroupOk, QuarantineName;
    GroupAtFence(t, r, Loading);
    if FromShadow(t, r, n, o) {
      var x :| x in r.tables && x.target == n && x.shadow == o;
      RowNames(r, x);
    }
    if FromActive(t, r, n, o) {
      ActiveIsPlain(t, o);
      QuarantineIsVacant(t, o);
    }
  }

  /** One relation does not end up under two names. */
  lemma OriginsApart(t: Target, r: ActivationRequest, m: QualifiedName, n: QualifiedName, o: QualifiedName)
    requires Inv(t) && AtFence(t, r, Loading)
    requires FromShadow(t, r, m, o) || FromActive(t, r, m, o) || Stayed(t, r, m, o)
    requires FromShadow(t, r, n, o) || FromActive(t, r, n, o) || Stayed(t, r, n, o)
    ensures m == n
  {
    hide Inv, AtFence, Elsewhere, Plain, ShadowLike, QuarantineLike, RecordFits, PlannedRequest, GroupOk, QuarantineName;
    OriginKinds(t, r, m, o);
    OriginKinds(t, r, n, o);
    NotPlain(o);
    GroupAtFence(t, r, Loading);
    if FromShadow(t, r, m, o) && FromShadow(t, r, n, o) {
      var x :| x in r.tables && x.target == m && x.shadow == o;
      var y :| y in r.tables && y.target == n && y.shadow == o;
      PlannedApart(r, x, y);
    }
  }

  // ---- Names ----------------------------------------------------------------------------------

  lemma OidOfRow(t: Target, r: ActivationRequest, s: Target, n: QualifiedName)
    requires Step(t, r, s) && n in s.managed
    ensures n in s.relations && s.managed[n].oid == s.relations[n]
  {
    hide Inv, AtFence, Ready, LogGrows, MarkedActive, QuarantineName;
    NamesIn(t);
    if n in TargetsOf(r.tables) {
      var x :| x in r.tables && x.target == n;
    } else if QuarantineOf(t, DisplacedNames(t, r.fence.pipelineId), n) {
      var o :| o in DisplacedNames(t, r.fence.pipelineId) && o in t.managed && QuarantineName(o, t.managed[o]) == n;
    }
  }

  lemma RowOfRelation(t: Target, r: ActivationRequest, s: Target, n: QualifiedName)
    requires Step(t, r, s) && n in s.relations
    ensures s.relations[n] < t.nextOid && (n in s.managed || Plain(n))
  {
    var o := OriginOf(t, r, s, n);
    hide Inv, AtFence, Ready, LogGrows, MarkedActive, QuarantineName, Plain;
    NamesIn(t);
    OriginKinds(t, r, n, o);
  }

  lemma ActivationKeepsNames(t: Target, r: ActivationRequest, s: Target)
    requires Step(t, r, s)
    ensures NamesMatch(s)
  {
    hide Inv, AtFence, Ready, Promoted, Quarantined, OthersStay, LogGrows, Plain, FromShadow, FromActive, Stayed;
    NamesIn(t);
    forall n | n in s.managed ensures n in s.relations && s.managed[n].oid == s.relations[n] { OidOfRow(t, r, s, n); }
    forall n | n in s.relations ensures s.relations[n] < s.nextOid && (n in s.managed || Plain(n)) { RowOfRelation(t, r, s, n); }
    forall m, n | m in s.relations && n in s.relations && s.relations[m] == s.relations[n] ensures m == n {
      var o := OriginOf(t, r, s, m);
      var p := OriginOf(t, r, s, n);
      assert o == p;
      OriginsApart(t, r, m, n, o);
    }
  }

  // ---- Rows -----------------------------------------------------------------------------------

  lemma PromotedRow(t: Target, r: ActivationRequest, s: Target, x: ActivationTable)
    requires Step(t, r, s) && x in r.tables
    ensures x.target in s.managed && s.managed[x.target] == RowFor(r, x, s.managed[x.target].oid, ActiveTable)
    ensures RowOk(s, x.target)
  {
    hide Inv, Quarantined, OthersStay, LogGrows, Ready, LockFence;
    ShadowOfGroup(t, r.groupId, x);
    GroupAtFence(t, r, Loading);
    hide GroupOk, PlannedRequest;
  }

  lemma QuarantinedRowOk(t: Target, r: ActivationRequest, s: Target, n: QualifiedName)
    requires Step(t, r, s) && QuarantineOf(t, DisplacedNames(t, r.fence.pipelineId), n)
    ensures n in s.managed && RowOk(s, n)
  {
    hide Inv, Promoted, OthersStay, LogGrows, Ready, AtFence, QuarantineName, HasTarget, HasShadow;
    var o :| o in DisplacedNames(t, r.fence.pipelineId) && o in t.managed && QuarantineName(o, t.managed[o]) == n;
    assert s.log[(r.groupId, o)].quarantine == n;
  }

  /** Nothing logged before is overwritten. */
  lemma LogKept(t: Target, r: ActivationRequest, s: Target, k: LogKey)
    requires Step(t, r, s) && k in t.log
    ensures k in s.log && s.log[k] == t.log[k] && k.0 != r.groupId
  {
    hide Inv, Promoted, Quarantined, OthersStay, Ready, LockFence;
    if k.0 == r.groupId { NotLoggedYet(t, r.groupId, k.1); }
  }

  lemma UntouchedRow(t: Target, r: ActivationRequest, s: Target, n: QualifiedName)
    requires Step(t, r, s) && n in s.managed && Elsewhere(t, r, n)
    ensures n in t.managed && s.managed[n] == t.managed[n] && n !in ShadowsOf(r.tables) && !Displaced(t, r.fence.pipelineId, n)
  {
    hide Inv, Promoted, Quarantined, LogGrows, MarkedActive, Ready, AtFence, Elsewhere;
  }

  lemma UntouchedRowOk(t: Target, r: ActivationRequest, s: Target, n: QualifiedName)
    requires Step(t, r, s) && n in s.managed && Elsewhere(t, r, n)
    ensures RowOk(s, n)
  {
    hide Inv, Promoted, Quarantined, OthersStay, LogGrows, Ready, LockFence, Elsewhere, Plain, ShadowLike, QuarantineLike, RecordFits;
    UntouchedRow(t, r, s, n);
    RowIn(t, n);
    var row := t.managed[n];
    forall k | k in t.log && t.log[k].quarantine == n && t.log[k].purgedBy.None? ensures k in s.log && s.log[k] == t.log[k] { LogKept(t, r, s, k); }
    if row.state != QuarantinedTable {
      RowGroup(t, n);
      if row.groupId == r.groupId { OwnRow(t, r, n); }
    }
    hide HasShadow, HasTarget, Displaced, ShadowsOf;
    RowKept(t, s, n);
  }

  /** A row of the loading group is one of its shadows. */
  lemma OwnRow(t: Target, r: ActivationRequest, n: QualifiedName)
    requires Inv(t) && AtFence(t, r, Loading) && n in t.managed && t.managed[n].state != QuarantinedTable && t.managed[n].groupId == r.groupId
    ensures n in ShadowsOf(r.tables)
  {
    hide Inv, LockFence;
    RowIn(t, n);
    if t.managed[n].state == ActiveTable { CurrentIn(t, t.managed[n].pipelineId); }
    hide CurrentOk;
  }

  lemma ActivationKeepsRows(t: Target, r: ActivationRequest, s: Target)
    requires Step(t, r, s)
    ensures RowsOk(s)
  {
    hide Step, RowOk, QuarantineOf, DisplacedNames;
    forall n | n in s.managed ensures RowOk(s, n) {
      if n in TargetsOf(r.tables) {
        var x :| x in r.tables && x.target == n;
        PromotedRow(t, r, s, x);
      } else if QuarantineOf(t, DisplacedNames(t, r.fence.pipelineId), n) {
        QuarantinedRowOk(t, r, s, n);
      } else {
        UntouchedRowOk(t, r, s, n);
      }
    }
  }

  // ---- Groups ---------------------------------------------------------------------------------

  /** Every active group of the pipeline is now overtaken. */
  lemma ActiveGroupsAreOlder(t: Target, r: ActivationRequest, h: GroupId)
    requires Inv(t) && AtFence(t, r, Loading) && h in t.groups && t.groups[h].state == Active
    requires t.groups[h].request.fence.pipelineId == r.fence.pipelineId
    ensures t.groups[h].request.fence.generation < r.fence.generation && t.groups[h].request.fence.token < r.fence.token
  {
    hide Inv, AtFence, PlannedRequest, Reached;
    GroupIn(t, h);
    CurrentIsOlder(t, r);
  }

  lemma OtherGroupOk(t: Target, r: ActivationRequest, s: Target, h: GroupId)
    requires Step(t, r, s) && h in t.groups && h != r.groupId
    ensures GroupOk(s, h)
  {
    hide Inv, Promoted, Quarantined, OthersStay, LogGrows, Ready, PlannedRequest, ValidateCheckpoint, ValidateFence;
    GroupIn(t, h);
    ApartIn(t);
    FirstCheckpointIsFine(t, r);
    var f := t.groups[h].request.fence;
    if t.groups[h].state == Active && f.pipelineId == r.fence.pipelineId { ActiveGroupsAreOlder(t, r, h); }
    if t.groups[h].state == Active { CurrentIn(t, f.pipelineId); CurrentGroupMoves(t, r, f.pipelineId); }
    hide CurrentOk, FirstCheckpointError, CheckAdvance;
  }

  lemma CurrentGroupMoves(t: Target, r: ActivationRequest, p: PipelineId)
    requires Inv(t) && AtFence(t, r, Loading) && p in t.current
    ensures t.current[p] != r.groupId && t.current[p] in t.groups && t.groups[t.current[p]].request.fence.pipelineId == p
  {
    hide Inv, LockFence;
    CurrentIn(t, p);
  }

  lemma OwnGroupOk(t: Target, r: ActivationRequest, s: Target)
    requires Step(t, r, s)
    ensures r.groupId in s.groups && GroupOk(s, r.groupId)
  {
    hide Inv, AtFence, Promoted, Quarantined, OthersStay, LogGrows, Ready;
    GroupAtFence(t, r, Loading);
    FirstCheckpointIsFine(t, r);
    StoredGroupOk(t, r, s);
  }

  lemma StoredGroupOk(t: Target, r: ActivationRequest, s: Target)
    requires MarkedActive(t, r, s) && PlannedRequest(r) && r.checkpoints[0].key == NodeKey(r.fence)
    requires r.fence.pipelineId in t.meta.fences && t.meta.fences[r.fence.pipelineId] == RowOfFence(r.fence)
    ensures r.groupId in s.groups && GroupOk(s, r.groupId)
  {
    hide PlannedRequest;
  }

  lemma ActivationKeepsGroups(t: Target, r: ActivationRequest, s: Target)
    requires Step(t, r, s)
    ensures GroupsOk(s) && GroupsApart(s)
  {
    hide GroupOk, Inv, AtFence, Ready, Promoted, Quarantined, OthersStay, LogGrows;
    OwnGroupOk(t, r, s);
    forall h | h in s.groups ensures GroupOk(s, h) {
      if h != r.groupId { OtherGroupOk(t, r, s, h); }
    }
    ApartIn(t);
    assert r.groupId in t.groups && t.groups[r.groupId].request == r by { SomeStored(t, r); }
    forall h | h in t.groups && h != r.groupId && t.groups[h].state == Active && t.groups[h].request.fence.pipelineId == r.fence.pipelineId
      ensures t.groups[h].request.fence.generation < r.fence.generation
    {
      ActiveGroupsAreOlder(t, r, h);
    }
  }

  lemma SomeStored(t: Target, r: ActivationRequest)
    requires AtFence(t, r, Loading)
    ensures r.groupId in t.groups && t.groups[r.groupId].request == r && t.groups[r.groupId].state == Loading
  {
    hide LockFence;
  }

  // ---- Current groups and checkpoints ---------------------------------------------------------

  lemma OtherCurrentOk(t: Target, r: ActivationRequest, s: Target, p: PipelineId)
    requires Step(t, r, s) && p in t.current && p != r.fence.pipelineId
    ensures p in s.current && CurrentOk(s, p)
  {
    hide Inv, Ready, Promoted, Quarantined, LogGrows, LockFence, Plain, QuarantineName;
    CurrentIn(t, p);
    CurrentGroupMoves(t, r, p);
    var q := t.groups[t.current[p]].request;
    forall x | x in q.tables
      ensures x.target in s.managed && s.managed[x.target] == RowFor(q, x, s.managed[x.target].oid, ActiveTable)
    {
      ForeignRowStays(t, r, s, x.target);
    }
    hide OthersStay;
  }

  lemma ForeignRowStays(t: Target, r: ActivationRequest, s: Target, n: QualifiedName)
    requires Step(t, r, s) && n in t.managed && t.managed[n].state == ActiveTable && t.managed[n].pipelineId != r.fence.pipelineId
    ensures n in s.managed && s.managed[n] == t.managed[n]
  {
    hide Inv, AtFence, Promoted, Quarantined, LogGrows, MarkedActive, Plain, ShadowLike, QuarantineLike, QuarantineName;
    ActiveIsPlain(t, n);
    NotPlain(n);
    NamesIn(t);
    PlainIsElsewhere(t, r, n);
    hide TargetFree;
  }

  /** An ordinary name that is no target of the request is not touched unless its table is displaced. */
  lemma PlainIsElsewhere(t: Target, r: ActivationRequest, n: QualifiedName)
    requires Inv(t) && AtFence(t, r, Loading) && Ready(t, r) && Plain(n)
    requires n in t.managed && n in t.relations && t.managed[n].pipelineId != r.fence.pipelineId
    ensures Elsewhere(t, r, n) && n !in ShadowsOf(r.tables)
  {
    hide Inv, AtFence, Plain, ShadowLike, QuarantineLike, QuarantineName, PlannedRequest, RecordFits, GroupOk;
    GroupAtFence(t, r, Loading);
    NotPlain(n);
    forall x | x in r.tables ensures x.target != n && x.shadow != n {
      RowNames(r, x);
      assert TargetFree(t, r, x);
    }
    if QuarantineOf(t, DisplacedNames(t, r.fence.pipelineId), n) {
      var o :| o in DisplacedNames(t, r.fence.pipelineId) && o in t.managed && QuarantineName(o, t.managed[o]) == n;
      QuarantineNameLike(o, t.managed[o]);
    }
  }

  lemma ActivationKeepsCurrents(t: Target, r: ActivationRequest, s: Target)
    requires Step(t, r, s)
    ensures CurrentsOk(s)
  {
    hide CurrentOk, Inv, AtFence, Ready, Promoted, Quarantined, OthersStay, LogGrows;
    forall p | p in s.current ensures CurrentOk(s, p) {
      if p != r.fence.pipelineId { OtherCurrentOk(t, r, s, p); } else { OwnCurrentOk(t, r, s); }
    }
  }

  lemma OwnCurrentOk(t: Target, r: ActivationRequest, s: Target)
    requires Step(t, r, s)
    ensures r.fence.pipelineId in s.current && CurrentOk(s, r.fence.pipelineId)
  {
    hide RowOk, Inv, AtFence, Ready, Promoted, Quarantined, OthersStay, LogGrows;
    forall x | x in r.tables
      ensures x.target in s.managed && s.managed[x.target] == RowFor(r, x, s.managed[x.target].oid, ActiveTable)
    {
      PromotedRow(t, r, s, x);
    }
  }

  lemma ActivationKeepsCheckpoints(t: Target, r: ActivationRequest, s: Target)
    requires Step(t, r, s)
    ensures CheckpointsOk(s)
  {
    hide AtFence, Ready, Promoted, Quarantined, OthersStay, LogGrows, NamesMatch, RowsOk, GroupsOk, CurrentsOk, GroupsApart, LogOk, LogApart;
    assert InvOk(t);
    SomeStored(t, r);
    forall key | key in s.meta.checkpoints ensures CheckpointOk(s, key) {
      if key in t.meta.checkpoints {
        assert CheckpointOk(t, key);
        var g :| ActiveAt(t, g, key);
        assert ActiveAt(s, g, key);
      } else {
        assert ActiveAt(s, r.groupId, key);
      }
    }
  }

  // ---- The log --------------------------------------------------------------------------------

  lemma QuarantineStays(t: Target, r: ActivationRequest, s: Target, n: QualifiedName)
    requires Step(t, r, s) && n in t.managed && QuarantineLike(n)
    ensures n in s.managed && s.managed[n] == t.managed[n]
  {
    hide Inv, AtFence, Ready, Promoted, Quarantined, LogGrows, MarkedActive, Plain, ShadowLike, QuarantineLike, QuarantineName, PlannedRequest,
      RecordFits, GroupOk;
    GroupAtFence(t, r, Loading);
    NotPlain(n);
    forall x | x in r.tables ensures x.target != n && x.shadow != n { RowNames(r, x); }
    if QuarantineOf(t, DisplacedNames(t, r.fence.pipelineId), n) {
      var o :| o in DisplacedNames(t, r.fence.pipelineId) && o in t.managed && QuarantineName(o, t.managed[o]) == n;
      QuarantineIsVacant(t, o);
    }
    if Displaced(t, r.fence.pipelineId, n) { ActiveIsPlain(t, n); }
    assert Elsewhere(t, r, n);
  }

  lemma FormerEntryOk(t: Target, r: ActivationRequest, s: Target, k: LogKey)
    requires Step(t, r, s) && k in t.log
    ensures k in s.log && EntryOk(s, k)
  {
    hide Inv, Ready, Promoted, Quarantined, OthersStay, LogGrows, LockFence, QuarantineLike, QuarantineName, Formerly, LoggedRecord;
    EntryIn(t, k);
    LogKept(t, r, s, k);
    var e := t.log[k];
    QuarantineNameLike(e.original, LoggedRecord(e));
    if e.quarantine in t.managed { QuarantineStays(t, r, s, e.quarantine); }
    SomeStored(t, r);
    EntryKept(t, s, k);
  }

  lemma NewEntryOk(t: Target, r: ActivationRequest, s: Target, n: QualifiedName)
    requires Step(t, r, s) && Displaced(t, r.fence.pipelineId, n)
    ensures (r.groupId, n) in s.log && EntryOk(s, (r.groupId, n))
  {
    hide Inv, AtFence, Ready, Promoted, OthersStay, LogGrows, Plain, ShadowLike, QuarantineLike, RecordFits, HasShadow;
    ActiveRowsAreOlder(t, r, n);
    CurrentIsOlder(t, r);
    RowIn(t, n);
    FormerlyListed(t, n, s.log[(r.groupId, n)]);
    assert r == s.groups[r.groupId].request;
    hide HasTarget, Formerly;
  }

  lemma FormerlyListed(t: Target, n: QualifiedName, e: LogEntry)
    requires n in t.managed && t.managed[n].groupId in t.groups && HasTarget(t.groups[t.managed[n].groupId].request, n, t.managed[n])
    requires e.original == n && LoggedRecord(e) == t.managed[n].(state := QuarantinedTable)
    ensures Formerly(t.groups[t.managed[n].groupId].request, e)
  {
    var q := t.groups[t.managed[n].groupId].request;
    var x :| x in q.tables && x.target == n && t.managed[n] == RowFor(q, x, t.managed[n].oid, ActiveTable);
    assert LoggedRecord(e) == RowFor(q, x, e.oid, QuarantinedTable);
  }

  lemma ActivationKeepsLog(t: Target, r: ActivationRequest, s: Target)
    requires Step(t, r, s)
    ensures LogOk(s)
  {
    hide EntryOk, Inv, AtFence, Ready, Promoted, Quarantined, OthersStay, MarkedActive;
    forall k | k in s.log ensures EntryOk(s, k) {
      if k in t.log { FormerEntryOk(t, r, s, k); } else { NewEntryOk(t, r, s, k.1); }
    }
  }

  lemma ActivationKeepsLogApart(t: Target, r: ActivationRequest, s: Target)
    requires Step(t, r, s)
    ensures LogApart(s)
  {
    hide Inv, AtFence, Ready, Promoted, OthersStay, MarkedActive, LogApart, QuarantineName;
    forall j, k | j in s.log && k in s.log && s.log[j].original == s.log[k].original && s.log[j].previousGroupId == s.log[k].previousGroupId
      ensures j == k
    {
      EntryPairs(t, r, s, j, k);
    }
    assert LogApart(s) by { LogApartFrom(s); }
  }

  lemma LogApartFrom(s: Target)
    requires forall j, k | j in s.log && k in s.log && s.log[j].original == s.log[k].original &&
      s.log[j].previousGroupId == s.log[k].previousGroupId :: j == k
    ensures LogApart(s)
  {
  }

  lemma EntryPairs(t: Target, r: ActivationRequest, s: Target, j: LogKey, k: LogKey)
    requires Step(t, r, s) && j in s.log && k in s.log
    requires s.log[j].original == s.log[k].original && s.log[j].previousGroupId == s.log[k].previousGroupId
    ensures j == k
  {
    hide NamesMatch, RowsOk, GroupsOk, CurrentsOk, GroupsApart, CheckpointsOk, LogOk, AtFence, Ready, Promoted, OthersStay, MarkedActive, QuarantineName;
    assert InvOk(t);
    if j in t.log { LogKept(t, r, s, j); }
    if k in t.log { LogKept(t, r, s, k); }
    if j in t.log && k !in t.log { NoSuchEntry(t, k.1, j); }
    if k in t.log && j !in t.log { NoSuchEntry(t, j.1, k); }
  }

  /** An accepted activation leaves a state of the same kind. */
  lemma ActivationKeeps(t: Target, r: ActivationRequest, s: Target)
    requires Step(t, r, s)
    ensures Inv(s)
  {
    hide Step, NamesMatch, RowsOk, GroupsOk, CurrentsOk, GroupsApart, CheckpointsOk, LogOk, LogApart;
    ActivationKeepsNames(t, r, s);
    ActivationKeepsRows(t, r, s);
    ActivationKeepsGroups(t, r, s);
    ActivationKeepsCurrents(t, r, s);
    ActivationKeepsCheckpoints(t, r, s);
    ActivationKeepsLog(t, r, s);
    ActivationKeepsLogApart(t, r, s);
  }
}
