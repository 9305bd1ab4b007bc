/** Cleaning up interrupted groups: in a reachable state it never fails and removes exactly what it should. */
module SnapshotCleanup {
  import opened Core
  import opened Checkpoint
  import opened Manifest
  import opened ManifestStore
  import opened Snapshot
  import opened SnapshotNames
  import opened SnapshotOps
  import opened SnapshotInvariant

  /** The shadows of a set of groups. */
  function ShadowRows(t: Target, groups: set<GroupId>): set<QualifiedName> {
    set n | n in t.managed && t.managed[n].state == ShadowTable && t.managed[n].groupId in groups
  }

  /** The groups and their shadows are gone, and nothing else. */
  function Without(t: Target, groups: set<GroupId>): Target {
    t.(relations := t.relations - ShadowRows(t, groups), managed := t.managed - ShadowRows(t, groups), groups := t.groups - groups)
  }

  // ---- One group ------------------------------------------------------------------------------

  lemma {:induction false} EntriesPass(t: Target, q: ActivationRequest, tables: seq<ActivationTable>)
    requires forall x | x in tables ::
      (x.shadow in t.managed <==> x.shadow in t.relations) &&
      (x.shadow in t.managed ==> t.managed[x.shadow] == RowFor(q, x, t.relations[x.shadow], ShadowTable))
    ensures CleanupEntries(t, q, tables).Ok?
    ensures Names(CleanupEntries(t, q, tables).value) == set n | n in ShadowsOf(tables) && n in t.managed
  {
    if tables != [] {
      assert tables == [tables[0]] + tables[1..];
      EntriesPass(t, q, tables[1..]);
      assert CleanupEntry(t, q, tables[0]) == Ok(if tables[0].shadow in t.managed then Some(tables[0].shadow) else None);
      assert ShadowsOf(tables) == {tables[0].shadow} + ShadowsOf(tables[1..]);
      var first := if tables[0].shadow in t.managed then [tables[0].shadow] else [];
      var rest := CleanupEntries(t, q, tables[1..]).value;
      assert CleanupEntries(t, q, tables).value == first + rest;
      assert Names(first + rest) == Names(first) + Names(rest);
    }
  }

  lemma RowsOfGroup(t: Target, g: GroupId)
    requires Inv(t) && g in t.groups && t.groups[g].state == Loading
    ensures var q := t.groups[g].request;
      && (set n | n in ShadowsOf(q.tables) && n in t.managed) == ShadowRows(t, {g})
      && ExtraShadows(t, q.fence.pipelineId, q) == {} && q.groupId == g
  {
    hide Inv, PlannedRequest;
    GroupIn(t, g);
    var q := t.groups[g].request;
    forall n | n in t.managed && t.managed[n].state == ShadowTable && t.managed[n].groupId == g ensures n in ShadowsOf(q.tables) {
      RowIn(t, n);
    }
    forall n | n in ShadowsOf(q.tables) && n in t.managed ensures t.managed[n].state == ShadowTable && t.managed[n].groupId == g {
      var x :| x in q.tables && x.shadow == n;
      ShadowOfGroup(t, g, x);
    }
  }

  /** A loading group dominated by the present fence is removed with its shadows; none of the ownership,
      identity or manifest checks can fail. */
  lemma GroupCleansUp(t: Target, f: Fence, g: GroupId)
    requires Inv(t) && LockFence(t.meta, f).None? && g in StaleGroups(t, f)
    ensures CleanupGroup(t, f, t.groups[g].request.fence, g) == Ok(Without(t, {g}))
  {
    hide Inv, PlannedRequest, CleanupEntries, ExtraShadows, Overtaken, Reached, Canonical, CanonicalTables, CanonicalNodes;
    GroupIn(t, g);
    var q := t.groups[g].request;
    PlanIsCanonical(q);
    PlanBounds(q);
    RowsOfGroup(t, g);
    forall x | x in q.tables
      ensures (x.shadow in t.managed <==> x.shadow in t.relations) &&
        (x.shadow in t.managed ==> t.managed[x.shadow] == RowFor(q, x, t.relations[x.shadow], ShadowTable))
    {
      ShadowOfGroup(t, g, x);
    }
    EntriesPass(t, q, q.tables);
    hide PlannedTable;
  }

  // ---- The state is still of the same kind ----------------------------------------------------

  lemma WithoutKeepsRows(t: Target, g: GroupId)
    requires RowsOk(t) && g in t.groups && t.groups[g].state == Loading && CurrentsOk(t)
    ensures RowsOk(Without(t, {g}))
  {
    hide HasShadow, HasTarget;
    var s := Without(t, {g});
    forall n | n in s.managed ensures RowOk(s, n) {
      assert RowOk(t, n);
      if t.managed[n].state == ActiveTable { assert CurrentOk(t, t.managed[n].pipelineId); }
      hide CurrentOk;
      RowKept(t, s, n);
    }
  }

  lemma WithoutKeepsGroup(t: Target, g: GroupId, h: GroupId)
    requires Inv(t) && g in t.groups && t.groups[g].state == Loading && h in t.groups && h != g
    ensures GroupOk(Without(t, {g}), h)
  {
    hide Inv, PlannedRequest, Reached, ShadowRows;
    GroupIn(t, h);
    if t.groups[h].state == Active { CurrentIn(t, t.groups[h].request.fence.pipelineId); }
    hide CurrentOk;
  }

  lemma WithoutKeepsCurrent(t: Target, g: GroupId, p: PipelineId)
    requires Inv(t) && g in t.groups && t.groups[g].state == Loading && p in t.current
    ensures CurrentOk(Without(t, {g}), p)
  {
    hide Inv;
    CurrentIn(t, p);
  }

  lemma WithoutKeepsEntry(t: Target, g: GroupId, k: LogKey)
    requires Inv(t) && g in t.groups && t.groups[g].state == Loading && k in t.log
    ensures EntryOk(Without(t, {g}), k)
  {
    hide Inv, Formerly, QuarantineName;
    EntryIn(t, k);
    EntryKeptWithout(t, g, k);
  }

  lemma EntryKeptWithout(t: Target, g: GroupId, k: LogKey)
    requires Inv(t) && g in t.groups && t.groups[g].state == Loading && k in t.log && EntryOk(t, k)
    ensures EntryOk(Without(t, {g}), k)
  {
    hide Inv, Formerly, QuarantineName, LoggedRecord, QuarantineLike, ShadowLike, Plain, RecordFits;
    var s, q := Without(t, {g}), t.log[k].quarantine;
    QuarantineNameLike(t.log[k].original, LoggedRecord(t.log[k]));
    if q in t.managed {
      NotShadow(t, q);
      assert s.managed[q] == t.managed[q];
    }
    EntryKept(t, s, k);
  }

  lemma NotShadow(t: Target, n: QualifiedName)
    requires Inv(t) && n in t.managed && QuarantineLike(n)
    ensures t.managed[n].state != ShadowTable
  {
    hide Inv, Plain, ShadowLike, QuarantineLike, RecordFits;
    if t.managed[n].state == ShadowTable { RowGroup(t, n); }
  }

  lemma CleanupKeeps(t: Target, g: GroupId)
    requires Inv(t) && g in t.groups && t.groups[g].state == Loading
    ensures Inv(Without(t, {g}))
  {
    hide NamesMatch, RowsOk, GroupOk, CurrentOk, EntryOk, CheckpointsOk, Without;
    assert InvOk(t);
    var s := Without(t, {g});
    WithoutKeepsRows(t, g);
    WithoutTouches(t, g);
    WithoutKeepsNames(t, g);
    WithoutKeepsCheckpoints(t, g);
    forall h | h in s.groups ensures GroupOk(s, h) { WithoutKeepsGroup(t, g, h); }
    forall p | p in s.current ensures CurrentOk(s, p) { WithoutKeepsCurrent(t, g, p); }
    forall k | k in s.log ensures EntryOk(s, k) { WithoutKeepsEntry(t, g, k); }
  }

  lemma WithoutTouches(t: Target, g: GroupId)
    ensures var s := Without(t, {g}); s.groups == t.groups - {g} && s.current == t.current && s.log == t.log && s.meta == t.meta
  {
  }

  lemma WithoutKeepsNames(t: Target, g: GroupId)
    requires NamesMatch(t)
    ensures NamesMatch(Without(t, {g}))
  {
    hide Plain;
  }

  lemma WithoutKeepsCheckpoints(t: Target, g: GroupId)
    requires CheckpointsOk(t) && g in t.groups && t.groups[g].state == Loading
    ensures CheckpointsOk(Without(t, {g}))
  {
    hide ShadowRows;
    var s := Without(t, {g});
    forall key | key in s.meta.checkpoints ensures CheckpointOk(s, key) {
      assert CheckpointOk(t, key);
      var h :| ActiveAt(t, h, key);
      assert ActiveAt(s, h, key);
    }
  }

  // ---- All of them ----------------------------------------------------------------------------

  lemma WithoutTwice(t: Target, g: GroupId, rest: set<GroupId>)
    ensures Without(Without(t, {g}), rest) == Without(t, {g} + rest)
  {
    var s := Without(t, {g});
    assert ShadowRows(t, {g} + rest) == ShadowRows(t, {g}) + ShadowRows(s, rest);
    assert s.managed - ShadowRows(s, rest) == t.managed - ShadowRows(t, {g} + rest);
    assert s.relations - ShadowRows(s, rest) == t.relations - ShadowRows(t, {g} + rest);
    assert s.groups - rest == t.groups - ({g} + rest);
  }

  function Set(s: seq<GroupId>): set<GroupId> {
    set g | g in s
  }

  lemma {:induction false} GroupsCleanUp(t: Target, f: Fence, order: seq<GroupId>)
    requires Inv(t) && LockFence(t.meta, f).None? && Distinct(order) && forall g | g in order :: g in StaleGroups(t, f)
    ensures CleanupAll(t, f, order) == Ok(Without(t, Set(order))) && Inv(Without(t, Set(order)))
    decreases |order|
  {
    hide Inv, CleanupGroup, LockFence;
    if order == [] {
      assert Set(order) == {} && ShadowRows(t, {}) == {};
      assert t.relations - {} == t.relations && t.managed - {} == t.managed && t.groups - {} == t.groups;
      assert Without(t, Set(order)) == t;
    } else {
      var g, rest, s := order[0], order[1..], Without(t, {order[0]});
      assert order == [g] + rest;
      GroupCleansUp(t, f, g);
      CleanupKeeps(t, g);
      assert g !in rest;
      forall h | h in rest ensures h in StaleGroups(s, f) {
        assert h in order && h != g;
        assert s.groups[h] == t.groups[h];
      }
      GroupsCleanUp(s, f, rest);
      WithoutTwice(t, g, Set(rest));
      assert Set(order) == {g} + Set(rest);
      hide Without, StaleGroups;
    }
  }

  /** In every reachable state the cleanup of a run succeeds and removes precisely the loading groups its
      fence dominates, with precisely their shadows, whatever order it visits them in. */
  lemma CleanupRemovesExactlyStale(t: Target, f: Fence, order: seq<GroupId>, result: Result<Target, SnapshotError>)
    requires Inv(t) && LockFence(t.meta, f).None? && CleanupStale(t, f, order, result)
    ensures result == Ok(Without(t, StaleGroups(t, f))) && Inv(result.value)
    ensures StaleGroups(result.value, f) == {}
    ensures forall n | n in t.relations && n !in result.value.relations :: n in t.managed && t.managed[n].state == ShadowTable
  {
    hide Inv, LockFence, CleanupAll;
    GroupsCleanUp(t, f, order);
    assert Set(order) == StaleGroups(t, f);
  }

  // ---- The same in the fields of the rows -----------------------------------------------------

  /** Interrupted before its activation, by an earlier owner of the pipeline. */
  ghost predicate Interrupted(t: Target, f: Fence, g: GroupId) {
    g in t.groups && t.groups[g].state == Loading && t.groups[g].request.fence.pipelineId == f.pipelineId && t.groups[g].request.fence != f
  }

  /** In a reachable state the present fence dominates every other fence a group of its pipeline has. */
  lemma InterruptedIsStale(t: Target, f: Fence, g: GroupId)
    requires Inv(t) && LockFence(t.meta, f).None?
    ensures g in StaleGroups(t, f) <==> Interrupted(t, f, g)
  {
    hide Inv, PlannedRequest, Overtaken, Reached;
    if g in t.groups { GroupIn(t, g); }
  }

  /** Whatever an earlier owner left loading is gone after a cleanup, under an older token of the present
      generation no less than of an older generation: the group and each of its shadows, and nothing else.
      What is registered under `f` itself stays, with its shadows. */
  lemma CleanupOutcome(t: Target, f: Fence, order: seq<GroupId>, result: Result<Target, SnapshotError>)
    requires Inv(t) && LockFence(t.meta, f).None? && CleanupStale(t, f, order, result)
    ensures result.Ok?
    ensures forall g :: g in result.value.groups <==>
      g in t.groups && !(t.groups[g].state == Loading && t.groups[g].request.fence.pipelineId == f.pipelineId && t.groups[g].request.fence != f)
    ensures forall n :: n in result.value.relations <==>
      n in t.relations && !(n in t.managed && t.managed[n].state == ShadowTable && Interrupted(t, f, t.managed[n].groupId))
    ensures forall n :: n in result.value.managed <==>
      n in t.managed && !(t.managed[n].state == ShadowTable && Interrupted(t, f, t.managed[n].groupId))
    ensures forall g | g in result.value.groups :: result.value.groups[g] == t.groups[g]
    ensures forall n | n in result.value.relations :: result.value.relations[n] == t.relations[n]
    ensures forall n | n in result.value.managed :: result.value.managed[n] == t.managed[n]
    ensures result.value.meta == t.meta && result.value.log == t.log && result.value.current == t.current && result.value.now == t.now
  {
    hide Inv, LockFence, CleanupStale, StaleGroups;
    CleanupRemovesExactlyStale(t, f, order, result);
    forall g ensures g in StaleGroups(t, f) <==> Interrupted(t, f, g) { InterruptedIsStale(t, f, g); }
  }
}
