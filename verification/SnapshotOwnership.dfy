/** What an operation leaves alone in any state of the target whatever, reachable or not: relations nobody
    manages, tables of other pipelines, and tables a newer owner wrote. */
module SnapshotOwnership {
  import opened Core
  import opened Checkpoint
  import opened Manifest
  import opened ManifestStore
  import opened Snapshot
  import opened SnapshotOps
  import opened SnapshotTarget

  /** A relation that is not `f`'s to touch. */
  ghost predicate Foreign(t: Target, f: Fence, n: QualifiedName) {
    n in t.relations && (n in t.managed ==> t.managed[n].pipelineId != f.pipelineId || t.managed[n].token > f.token)
  }

  ghost predicate Untouched(t: Target, s: Target, n: QualifiedName) {
    && n in t.relations && n in s.relations && s.relations[n] == t.relations[n]
    && (n in s.managed <==> n in t.managed) && (n in t.managed ==> s.managed[n] == t.managed[n])
  }

  ghost predicate ForeignStay(t: Target, s: Target, f: Fence) {
    forall n | Foreign(t, f, n) :: Untouched(t, s, n)
  }

  // ---- Moves ----------------------------------------------------------------------------------

  /** A move whose source is one of `f`'s own tables. */
  ghost predicate OwnSource(t: Target, f: Fence, n: QualifiedName) {
    n in t.managed && t.managed[n].pipelineId == f.pipelineId && t.managed[n].token <= f.token
  }

  lemma OneMoveKeeps(t: Target, next: Target, request: ActivationRequest, m: Move, n: QualifiedName)
    requires Untouched(t, next, n) && ApplyMove(next, request, m).Ok? && m.source != n
    ensures Untouched(t, ApplyMove(next, request, m).value, n)
  {
    hide LogEntryFor;
  }

  lemma {:induction false} MovesKeepForeign(t: Target, request: ActivationRequest, f: Fence, moves: seq<Move>, n: QualifiedName)
    requires ApplyMoves(t, request, moves).Ok? && Foreign(t, f, n) && forall i | 0 <= i < |moves| :: moves[i].source != n
    ensures Untouched(t, ApplyMoves(t, request, moves).value, n)
    decreases |moves|
  {
    hide ApplyMove;
    if moves != [] {
      var init := moves[..|moves| - 1];
      MovesKeepForeign(t, request, f, init, n);
      OneMoveKeeps(t, ApplyMoves(t, request, init).value, request, moves[|moves| - 1], n);
    }
  }

  lemma {:induction false} TableSourcesOwn(t: Target, r: ActivationRequest, tables: seq<ActivationTable>, classified: seq<Classified>, i: nat)
    requires |tables| == |classified| && forall k | 0 <= k < |classified| :: classified[k].Pending?
    requires forall k | 0 <= k < |tables| :: Classify(t, tables[k], r.fence, r.groupId) == Ok(classified[k])
    requires i < |TableMoves(tables, classified, r.fence.token)|
    ensures OwnSource(t, r.fence, TableMoves(tables, classified, r.fence.token)[i].source)
    decreases |tables|
  {
    hide ClassifyAll, QuarantineName, OwnSource, Classify;
    if tables != [] {
      var k := |tables| - 1;
      if i < |TableMoves(tables[..k], classified[..k], r.fence.token)| {
        TableSourcesOwn(t, r, tables[..k], classified[..k], i);
      } else {
        ClassifiedOwn(t, r, tables[k], classified[k]);
      }
    }
  }

  /** What is classified as pending is the pipeline's own, and not a newer owner's: the group's loaded shadow as
      the manifest lists it, and the active table of an earlier generation of the same source table. */
  lemma ClassifiedOwn(t: Target, r: ActivationRequest, x: ActivationTable, c: Classified)
    requires Classify(t, x, r.fence, r.groupId) == Ok(c) && c.Pending?
    ensures OwnSource(t, r.fence, x.shadow) && x.shadow in t.relations && t.managed[x.shadow].state == ShadowTable
    ensures var row := t.managed[x.shadow];
      && row.groupId == r.groupId && row.sourceRelationId == x.sourceRelationId && row.tableGeneration == x.tableGeneration
      && row.fingerprint == x.fingerprint && c.shadow == row
    ensures c.previous.Some? ==>
      && OwnSource(t, r.fence, x.target) && t.managed[x.target].state == ActiveTable && c.previous.value == t.managed[x.target]
      && t.managed[x.target].sourceRelationId == x.sourceRelationId && t.managed[x.target].tableGeneration < x.tableGeneration
    ensures c.previous.None? ==> x.target !in t.relations && x.target !in t.managed
  {
  }

  lemma {:induction false} StaleSourcesOwn(t: Target, stale: seq<QualifiedName>, token: int, i: nat)
    requires (forall x | x in stale :: x in t.managed) && FirstStaleError(t, stale, token).None? && i < |stale|
    ensures t.managed[stale[i]].token <= token && stale[i] in t.relations
  {
    if i > 0 {
      assert stale == [stale[0]] + stale[1..];
      StaleSourcesOwn(t, stale[1..], token, i - 1);
    }
  }

  lemma SourcesAreOwn(t: Target, r: ActivationRequest, classified: seq<Classified>, stale: seq<QualifiedName>, i: nat)
    requires |r.tables| == |classified| && (forall k | 0 <= k < |classified| :: classified[k].Pending?)
    requires forall k | 0 <= k < |r.tables| :: Classify(t, r.tables[k], r.fence, r.groupId) == Ok(classified[k])
    requires (forall x | x in stale :: x in StaleNames(t, r) && x in t.managed) && FirstStaleError(t, stale, r.fence.token).None?
    requires i < |TableMoves(r.tables, classified, r.fence.token) + StaleMoves(t, stale, r.fence.token)|
    ensures OwnSource(t, r.fence, (TableMoves(r.tables, classified, r.fence.token) + StaleMoves(t, stale, r.fence.token))[i].source)
  {
    hide Classify, QuarantineName, FirstStaleError, TableMoves;
    var own := TableMoves(r.tables, classified, r.fence.token);
    if i < |own| {
      TableSourcesOwn(t, r, r.tables, classified, i);
    } else {
      StaleSourcesOwn(t, stale, r.fence.token, i - |own|);
      assert stale[i - |own|] in stale;
    }
  }

  lemma OwnIsNotForeign(t: Target, f: Fence, n: QualifiedName, m: QualifiedName)
    requires Foreign(t, f, n) && OwnSource(t, f, m)
    ensures m != n
  {
  }

  ghost function StaleOf(t: Target, r: ActivationRequest): (stale: seq<QualifiedName>)
    ensures forall x | x in stale :: x in StaleNames(t, r) && x in t.managed
  {
    StaleAreManaged(t, r);
    InOrder(StaleNames(t, r))
  }

  /** The moves an activation makes for what it classified. */
  ghost function MovesFor(t: Target, r: ActivationRequest, classified: seq<Classified>): seq<Move>
    requires |classified| == |r.tables|
  {
    var late := StaleMoves(t, StaleOf(t, r), r.fence.token);
    if forall i | 0 <= i < |classified| :: classified[i].InPlace? then late
    else if forall i | 0 <= i < |classified| :: classified[i].Pending? then TableMoves(r.tables, classified, r.fence.token) + late
    else []
  }

  /** An accepted activation is its moves, as far as relations and rows go. */
  lemma AcceptedIsMoves(t: Target, r: ActivationRequest, classified: seq<Classified>)
    requires |classified| == |r.tables| && r.groupId in t.groups && ActivateClassified(t, r, classified).Ok?
    ensures FirstStaleError(t, StaleOf(t, r), r.fence.token).None? && ApplyMoves(t, r, MovesFor(t, r, classified)).Ok?
    ensures (forall i | 0 <= i < |classified| :: classified[i].InPlace?) || (forall i | 0 <= i < |classified| :: classified[i].Pending?)
    ensures var moved, s := ApplyMoves(t, r, MovesFor(t, r, classified)).value, ActivateClassified(t, r, classified).value.0;
      moved.relations == s.relations && moved.managed == s.managed
  {
    hide ApplyMoves, AdvanceAll, Preflight, FirstStaleError, FirstCheckpointError, FirstUnreached, TableMoves, ReplacedNames, StaleQuarantines,
      InOrder, StaleNames, TargetsOf, ShadowsOf, StaleMoves;
    StaleAreManaged(t, r);
    assert InOrder(StaleNames(t, r)) == StaleOf(t, r);
  }

  lemma MovesAreOwn(t: Target, r: ActivationRequest, classified: seq<Classified>, i: nat)
    requires r.groupId in t.groups && ClassifyAll(t, r.tables, r.fence, r.groupId) == Ok(classified) && |classified| == |r.tables|
    requires FirstStaleError(t, StaleOf(t, r), r.fence.token).None? && i < |MovesFor(t, r, classified)|
    ensures OwnSource(t, r.fence, MovesFor(t, r, classified)[i].source)
  {
    hide FirstStaleError, TableMoves, ClassifyAll, Classify, OwnSource, QuarantineName, StaleOf;
    var stale := StaleOf(t, r);
    if forall k | 0 <= k < |classified| :: classified[k].InPlace? {
      StaleSourcesOwn(t, stale, r.fence.token, i);
      StaleIsOwn(t, r, stale[i]);
    } else {
      SourcesAreOwn(t, r, classified, stale, i);
    }
  }

  lemma StaleIsOwn(t: Target, r: ActivationRequest, x: QualifiedName)
    requires x in StaleNames(t, r) && t.managed[x].token <= r.fence.token
    ensures OwnSource(t, r.fence, x)
  {
  }

  lemma ClassifiedKeepsForeign(t: Target, r: ActivationRequest, classified: seq<Classified>, n: QualifiedName)
    requires r.groupId in t.groups && ClassifyAll(t, r.tables, r.fence, r.groupId) == Ok(classified) && |classified| == |r.tables|
    requires ActivateClassified(t, r, classified).Ok? && Foreign(t, r.fence, n)
    ensures Untouched(t, ActivateClassified(t, r, classified).value.0, n)
  {
    hide ActivateClassified, MovesFor, ApplyMoves, FirstStaleError, ClassifyAll, Foreign, OwnSource, StaleOf;
    AcceptedIsMoves(t, r, classified);
    var moves := MovesFor(t, r, classified);
    forall i | 0 <= i < |moves| ensures moves[i].source != n {
      MovesAreOwn(t, r, classified, i);
      OwnIsNotForeign(t, r.fence, n, moves[i].source);
    }
    MovesKeepForeign(t, r, r.fence, moves, n);
  }

  /** An activation, whatever the state it finds, leaves every foreign relation as it is. */
  lemma ActivationLeavesForeign(t: Target, request: ActivationRequest)
    requires ActivateGroup(t, request).Ok?
    ensures ForeignStay(t, ActivateGroup(t, request).value.0, request.fence)
  {
    hide Canonical, ClassifyAll, ActivateClassified, LockFence, Foreign, Untouched;
    var r := Canonical(request).value;
    CanonicalHasFence(request);
    var classified := ClassifyAll(t, r.tables, r.fence, r.groupId).value;
    forall n | Foreign(t, request.fence, n) ensures Untouched(t, ActivateGroup(t, request).value.0, n) {
      ClassifiedKeepsForeign(t, r, classified, n);
    }
  }

  lemma CanonicalHasFence(request: ActivationRequest)
    requires Canonical(request).Ok?
    ensures Canonical(request).value.fence == request.fence
  {
    hide CanonicalTables, CanonicalNodes;
  }

  // ---- No table is lost -----------------------------------------------------------------------

  ghost predicate AllThere(t: Target, s: Target) {
    forall n | n in t.relations :: exists m :: m in s.relations && s.relations[m] == t.relations[n]
  }

  lemma {:induction false} MovesLoseNothing(t: Target, request: ActivationRequest, moves: seq<Move>)
    requires ApplyMoves(t, request, moves).Ok?
    ensures AllThere(t, ApplyMoves(t, request, moves).value)
    decreases |moves|
  {
    hide ApplyMove;
    if moves == [] {
      NothingLost(t);
    } else {
      var init := moves[..|moves| - 1];
      MovesLoseNothing(t, request, init);
      var mid := ApplyMoves(t, request, init).value;
      OneMoveLosesNothing(t, mid, request, moves[|moves| - 1]);
    }
  }

  lemma NothingLost(t: Target)
    ensures AllThere(t, t)
  {
  }

  lemma OneMoveLosesNothing(t: Target, mid: Target, request: ActivationRequest, m: Move)
    requires AllThere(t, mid) && ApplyMove(mid, request, m).Ok?
    ensures AllThere(t, ApplyMove(mid, request, m).value)
  {
    hide LogEntryFor;
    var s := ApplyMove(mid, request, m).value;
    forall n | n in t.relations ensures exists k :: k in s.relations && s.relations[k] == t.relations[n] {
      var k :| k in mid.relations && mid.relations[k] == t.relations[n];
      if k == m.source { assert s.relations[m.destination] == t.relations[n]; } else { assert s.relations[k] == t.relations[n]; }
    }
  }

  /** An activation drops nothing, in any state: every relation is there afterwards, under some name, with its
      identity. */
  lemma ActivationLosesNothing(t: Target, request: ActivationRequest)
    requires ActivateGroup(t, request).Ok?
    ensures AllThere(t, ActivateGroup(t, request).value.0)
  {
    hide Canonical, ClassifyAll, LockFence, ActivateClassified, MovesFor, ApplyMoves, AllThere;
    var r := Canonical(request).value;
    var classified := ClassifyAll(t, r.tables, r.fence, r.groupId).value;
    AcceptedIsMoves(t, r, classified);
    MovesLoseNothing(t, r, MovesFor(t, r, classified));
    SameRelations(t, ApplyMoves(t, r, MovesFor(t, r, classified)).value, ActivateClassified(t, r, classified).value.0);
  }

  lemma SameRelations(t: Target, a: Target, b: Target)
    requires AllThere(t, a) && a.relations == b.relations
    ensures AllThere(t, b)
  {
  }

  // ---- Loading, cleaning up, collecting -------------------------------------------------------

  /** A load replaces nothing but a shadow of its own group or of an older token of its pipeline, and only where the
      target's name is free or holds an active table of the same source table that is not the one to load. */
  lemma LoadLeavesForeign(t: Target, f: Fence, g: GroupId, x: ActivationTable)
    requires LoadShadow(t, f, g, x).Ok?
    ensures ForeignStay(t, LoadShadow(t, f, g, x).value, f)
    ensures x.shadow in t.relations ==>
      && x.shadow in t.managed && t.managed[x.shadow].state == ShadowTable
      && (var row := t.managed[x.shadow];
          row.token < f.token || (row.groupId == g && row.tableGeneration == x.tableGeneration && row.fingerprint == x.fingerprint))
    ensures x.target in t.relations ==>
      && x.target in t.managed && t.managed[x.target].state == ActiveTable
      && (var row := t.managed[x.target];
          && row.pipelineId == f.pipelineId && row.sourceRelationId == x.sourceRelationId && row.token <= f.token
          && (row.tableGeneration != x.tableGeneration || row.fingerprint != x.fingerprint))
  {
    hide LockFence, Membership;
  }

  /** Where the shadows a cleanup found stand, and whose they are. */
  lemma {:induction false} EntriesAreOwn(t: Target, q: ActivationRequest, tables: seq<ActivationTable>, n: QualifiedName)
    requires CleanupEntries(t, q, tables).Ok? && n in CleanupEntries(t, q, tables).value
    ensures n in t.managed && n in t.relations && t.relations[n] == t.managed[n].oid
    ensures t.managed[n].pipelineId == q.fence.pipelineId && t.managed[n].token == q.fence.token && t.managed[n].state == ShadowTable
    ensures t.managed[n].groupId == q.groupId
  {
    if tables != [] {
      var first := CleanupEntry(t, q, tables[0]);
      if first.value.None? || n != first.value.value { EntriesAreOwn(t, q, tables[1..], n); }
    }
  }

  lemma GroupLeavesForeign(t: Target, f: Fence, groupFence: Fence, g: GroupId, n: QualifiedName)
    requires CleanupGroup(t, f, groupFence, g).Ok? && Foreign(t, f, n)
    ensures Untouched(t, CleanupGroup(t, f, groupFence, g).value, n)
  {
    hide CleanupEntries, ExtraShadows;
    var q := t.groups[g].request;
    if n in CleanupEntries(t, q, q.tables).value { EntriesAreOwn(t, q, q.tables, n); }
  }

  lemma {:induction false} ListedShadowsFound(t: Target, q: ActivationRequest, tables: seq<ActivationTable>, n: QualifiedName)
    requires CleanupEntries(t, q, tables).Ok? && n in ShadowsOf(tables) && n in t.managed
    ensures n in CleanupEntries(t, q, tables).value
  {
    if tables[0].shadow != n {
      var x :| x in tables && x.shadow == n;
      assert tables == [tables[0]] + tables[1..];
      ListedShadowsFound(t, q, tables[1..], n);
    }
  }

  /** A group that is cleaned up, in any state, was loading under a fence the cleaner dominates, and leaves no
      shadow of its own behind. */
  lemma CleanedLeavesNoShadow(t: Target, f: Fence, groupFence: Fence, g: GroupId)
    requires CleanupGroup(t, f, groupFence, g).Ok? && (g in t.groups ==> t.groups[g].request.groupId == g)
    ensures g in t.groups && t.groups[g].state == Loading && t.groups[g].request.fence == groupFence
    ensures groupFence.pipelineId == f.pipelineId && groupFence.generation <= f.generation && 0 < groupFence.token <= f.token
    ensures var s := CleanupGroup(t, f, groupFence, g).value;
      && g !in s.groups
      && forall n | n in s.managed && s.managed[n].pipelineId == f.pipelineId && s.managed[n].groupId == g :: s.managed[n].state != ShadowTable
  {
    hide CleanupEntries, ShadowsOf;
    var q, s := t.groups[g].request, CleanupGroup(t, f, groupFence, g).value;
    forall n | n in s.managed && s.managed[n].pipelineId == f.pipelineId && s.managed[n].groupId == g ensures s.managed[n].state != ShadowTable {
      if s.managed[n].state == ShadowTable {
        assert n !in ExtraShadows(t, f.pipelineId, q);
        ListedShadowsFound(t, q, q.tables, n);
      }
    }
  }

  lemma ForeignLater(t: Target, s: Target, f: Fence, n: QualifiedName)
    requires Foreign(t, f, n) && Untouched(t, s, n)
    ensures Foreign(s, f, n)
  {
  }

  lemma UntouchedTwice(t: Target, m: Target, s: Target, n: QualifiedName)
    requires Untouched(t, m, n) && Untouched(m, s, n)
    ensures Untouched(t, s, n)
  {
  }

  lemma {:induction false} GroupsLeaveForeign(t: Target, f: Fence, order: seq<GroupId>, n: QualifiedName)
    requires CleanupAll(t, f, order).Ok? && Foreign(t, f, n)
    ensures Untouched(t, CleanupAll(t, f, order).value, n)
    decreases |order|
  {
    hide CleanupGroup, Untouched;
    if order == [] {
      assert Untouched(t, t, n) by { ForeignIsThere(t, f, n); }
    } else {
      var fence := t.groups[order[0]].request.fence;
      var next := CleanupGroup(t, f, fence, order[0]).value;
      GroupLeavesForeign(t, f, fence, order[0], n);
      ForeignLater(t, next, f, n);
      GroupsLeaveForeign(next, f, order[1..], n);
      UntouchedTwice(t, next, CleanupAll(next, f, order[1..]).value, n);
    }
  }

  lemma ForeignIsThere(t: Target, f: Fence, n: QualifiedName)
    requires Foreign(t, f, n)
    ensures Untouched(t, t, n)
  {
  }

  /** A cleanup, in any state, leaves every foreign relation as it is. */
  lemma CleanupLeavesForeign(t: Target, f: Fence, order: seq<GroupId>, result: Result<Target, SnapshotError>)
    requires CleanupStale(t, f, order, result) && result.Ok?
    ensures ForeignStay(t, result.value, f)
  {
    hide CleanupAll, StaleGroups, LockFence, Foreign, Untouched;
    forall n | Foreign(t, f, n) ensures Untouched(t, result.value, n) { GroupsLeaveForeign(t, f, order, n); }
  }

  lemma EntryLeavesForeign(t: Target, f: Fence, k: LogKey, n: QualifiedName)
    requires k in t.log && CollectOne(t, f, k).Ok? && Foreign(t, f, n)
    ensures Untouched(t, CollectOne(t, f, k).value, n)
    ensures var e := t.log[k];
      && e.quarantine in t.relations && t.relations[e.quarantine] == e.oid
      && e.quarantine in t.managed && t.managed[e.quarantine].state == QuarantinedTable && t.managed[e.quarantine].pipelineId == f.pipelineId
      && t.managed[e.quarantine].oid == e.oid && t.managed[e.quarantine].token == e.token <= f.token && e.generation <= f.generation
      && e.quarantine == QuarantineName(e.original, LoggedRecord(e))
      && |set j | j in t.log && t.log[j].quarantine == e.quarantine && t.log[j].purgedBy.None?| == 1
  {
    hide QuarantineName;
  }

  lemma {:induction false} EntriesLeaveForeign(t: Target, f: Fence, keys: seq<LogKey>, n: QualifiedName)
    requires CollectAll(t, f, keys).Ok? && Foreign(t, f, n)
    ensures Untouched(t, CollectAll(t, f, keys).value, n)
    decreases |keys|
  {
    hide CollectOne, Untouched;
    if keys == [] {
      ForeignIsThere(t, f, n);
    } else {
      var next := CollectOne(t, f, keys[0]).value;
      EntryLeavesForeign(t, f, keys[0], n);
      ForeignLater(t, next, f, n);
      EntriesLeaveForeign(next, f, keys[1..], n);
      UntouchedTwice(t, next, CollectAll(next, f, keys[1..]).value, n);
    }
  }

  /** A collection, in any state, leaves every foreign relation as it is. */
  lemma CollectionLeavesForeign(t: Target, f: Fence, retention: nat, limit: nat, keys: seq<LogKey>, result: Result<Target, SnapshotError>)
    requires Collected(t, f, retention, limit, keys, result) && result.Ok?
    ensures ForeignStay(t, result.value, f)
  {
    hide CollectAll, Collectable, LockFence, Foreign, Untouched;
    forall n | Foreign(t, f, n) ensures Untouched(t, result.value, n) { EntriesLeaveForeign(t, f, keys, n); }
  }
}
