/** What every reachable state of the snapshot-group lifecycle keeps. */
module SnapshotInvariant {
  import opened Core
  import opened Checkpoint
  import opened Framing
  import opened Manifest
  import opened ManifestStore
  import opened Snapshot
  import opened SnapshotNames
  import opened SnapshotOps

  /** Relations and metadata rows correspond one to one, by name and by object identity; the only relations
      without a row carry ordinary names. */
  ghost predicate NamesMatch(t: Target) {
    && (forall n | n in t.managed :: n in t.relations && t.managed[n].oid == t.relations[n])
    && (forall n | n in t.relations :: t.relations[n] < t.nextOid && (n in t.managed || Plain(n)))
    && (forall m, n | m in t.relations && n in t.relations && t.relations[m] == t.relations[n] :: m == n)
  }

  /** The row a table of a group has in a given state. */
  function RowFor(q: ActivationRequest, x: ActivationTable, oid: nat, state: TableState): Record {
    Record(q.fence.pipelineId, q.groupId, oid, x.sourceRelationId, x.tableGeneration, x.fingerprint, state, q.fence.token)
  }

  ghost predicate HasShadow(q: ActivationRequest, n: QualifiedName, r: Record) {
    exists x | x in q.tables :: x.shadow == n && r == RowFor(q, x, r.oid, ShadowTable)
  }

  ghost predicate HasTarget(q: ActivationRequest, n: QualifiedName, r: Record) {
    exists x | x in q.tables :: x.target == n && r == RowFor(q, x, r.oid, ActiveTable)
  }

  /** Names an unpurged log entry under which `n` is quarantined. */
  ghost predicate LoggedAt(log: map<LogKey, LogEntry>, n: QualifiedName) {
    exists k | k in log :: log[k].quarantine == n && log[k].purgedBy.None?
  }

  /** Every row is accounted for: a shadow by a loading group's manifest, an active table by the manifest of
      the pipeline's current group, a quarantined table by the audit log. */
  ghost predicate RowOk(t: Target, n: QualifiedName)
    requires n in t.managed
  {
    var r := t.managed[n];
    match r.state
    case ShadowTable => r.groupId in t.groups && t.groups[r.groupId].state == Loading && HasShadow(t.groups[r.groupId].request, n, r)
    case ActiveTable =>
      r.pipelineId in t.current && t.current[r.pipelineId] == r.groupId && r.groupId in t.groups &&
      HasTarget(t.groups[r.groupId].request, n, r)
    case QuarantinedTable => LoggedAt(t.log, n)
    case BlockedTable => false
  }

  /** An active group is the current one or was overtaken in both fence components. */
  ghost predicate Overtaken(t: Target, g: GroupId)
    requires g in t.groups
  {
    var f := t.groups[g].request.fence;
    f.pipelineId in t.current && t.current[f.pipelineId] in t.groups &&
    (g == t.current[f.pipelineId] ||
     (var c := t.groups[t.current[f.pipelineId]].request.fence; f.generation < c.generation && f.token < c.token))
  }

  /** The group's first position is on record, and has not been lost since. */
  ghost predicate Reached(m: Meta, q: ActivationRequest) {
    |q.checkpoints| == 1 && q.checkpoints[0].key in m.checkpoints &&
    SameIdentity(m.checkpoints[q.checkpoints[0].key].checkpoint, q.checkpoints[0]) &&
    q.checkpoints[0].appliedLsn <= m.checkpoints[q.checkpoints[0].key].checkpoint.appliedLsn
  }

  ghost predicate GroupOk(t: Target, g: GroupId)
    requires g in t.groups
  {
    var q := t.groups[g].request;
    && PlannedRequest(q) && q.groupId == g
    && q.fence.pipelineId in t.meta.fences && AtMost(RowOfFence(q.fence), t.meta.fences[q.fence.pipelineId])
    && (t.groups[g].state == Active ==> Overtaken(t, g) && Reached(t.meta, q))
    && (t.groups[g].state == Loading && RowOfFence(q.fence) == t.meta.fences[q.fence.pipelineId] ==>
          NodeKey(q.fence) !in t.meta.checkpoints)
  }

  /** Every table of the current group is in place. */
  ghost predicate CurrentOk(t: Target, p: PipelineId)
    requires p in t.current
  {
    && t.current[p] in t.groups && t.groups[t.current[p]].state == Active && t.groups[t.current[p]].request.fence.pipelineId == p
    && (forall x | x in t.groups[t.current[p]].request.tables ::
          x.target in t.managed &&
          t.managed[x.target] == RowFor(t.groups[t.current[p]].request, x, t.managed[x.target].oid, ActiveTable))
  }

  /** No two groups of a pipeline share a lease token, and no two active ones a generation. */
  ghost predicate GroupsApart(t: Target) {
    forall g, h | g in t.groups && h in t.groups && g != h &&
        t.groups[g].request.fence.pipelineId == t.groups[h].request.fence.pipelineId ::
      t.groups[g].request.fence.token != t.groups[h].request.fence.token &&
      (t.groups[g].state == Active && t.groups[h].state == Active ==>
         t.groups[g].request.fence.generation != t.groups[h].request.fence.generation)
  }

  ghost predicate ActiveAt(t: Target, g: GroupId, key: CheckpointKey) {
    g in t.groups && t.groups[g].state == Active && NodeKey(t.groups[g].request.fence) == key
  }

  /** A position is on record only for a generation some group was activated in. */
  ghost predicate CheckpointOk(t: Target, key: CheckpointKey) {
    exists g :: ActiveAt(t, g, key)
  }

  /** The previous group's manifest lists the table that was quarantined. */
  ghost predicate Formerly(q: ActivationRequest, e: LogEntry) {
    exists x | x in q.tables :: x.target == e.original && LoggedRecord(e) == RowFor(q, x, e.oid, QuarantinedTable)
  }

  /** An audit entry names the group that pushed a table out and the group it belonged to; until purged, the
      quarantined row matches it field for field. */
  ghost predicate EntryOk(t: Target, k: LogKey)
    requires k in t.log
  {
    var e := t.log[k];
    && k == (e.groupId, e.original)
    && e.groupId in t.groups && t.groups[e.groupId].state == Active
    && t.groups[e.groupId].request.fence == Fence(e.pipelineId, e.generation, e.token)
    && e.previousGroupId in t.groups && t.groups[e.previousGroupId].state == Active
    && e.pipelineId in t.current && t.current[e.pipelineId] != e.previousGroupId
    && Formerly(t.groups[e.previousGroupId].request, e)
    && e.quarantine == QuarantineName(e.original, LoggedRecord(e))
    && (e.purgedBy.None? ==> e.quarantine in t.managed && t.managed[e.quarantine] == LoggedRecord(e).(token := e.token))
  }

  /** A table of a group is quarantined at most once. */
  ghost predicate LogApart(t: Target) {
    forall j, k | j in t.log && k in t.log && t.log[j].original == t.log[k].original &&
      t.log[j].previousGroupId == t.log[k].previousGroupId :: j == k
  }

  ghost predicate RowsOk(t: Target) {
    forall n | n in t.managed :: RowOk(t, n)
  }

  ghost predicate GroupsOk(t: Target) {
    forall g | g in t.groups :: GroupOk(t, g)
  }

  ghost predicate CurrentsOk(t: Target) {
    forall p | p in t.current :: CurrentOk(t, p)
  }

  ghost predicate CheckpointsOk(t: Target) {
    forall key | key in t.meta.checkpoints :: CheckpointOk(t, key)
  }

  ghost predicate LogOk(t: Target) {
    forall k | k in t.log :: EntryOk(t, k)
  }

  ghost predicate InvOk(t: Target) {
    NamesMatch(t) && RowsOk(t) && GroupsOk(t) && CurrentsOk(t) && GroupsApart(t) && CheckpointsOk(t) && LogOk(t) && LogApart(t)
  }

  /** The same, worded so that the solver takes it apart only where a proof names `InvOk`. */
  ghost predicate Inv(t: Target) {
    forall s | s == t :: InvOk(s)
  }

  // ---- What follows at once -------------------------------------------------------------------

  lemma NamesIn(t: Target)
    requires Inv(t)
    ensures NamesMatch(t)
  {
    assert InvOk(t);
  }

  lemma GroupIn(t: Target, g: GroupId)
    requires Inv(t) && g in t.groups
    ensures GroupOk(t, g) && PlannedRequest(t.groups[g].request) && t.groups[g].request.groupId == g
  {
    assert InvOk(t);
    hide NamesMatch, RowsOk, CurrentsOk, GroupsApart, CheckpointsOk, LogOk, LogApart, PlannedRequest;
  }

  lemma RowIn(t: Target, n: QualifiedName)
    requires Inv(t) && n in t.managed
    ensures RowOk(t, n)
  {
    assert InvOk(t);
    hide NamesMatch, GroupsOk, CurrentsOk, GroupsApart, CheckpointsOk, LogOk, LogApart, RowOk;
  }

  lemma CurrentIn(t: Target, p: PipelineId)
    requires Inv(t) && p in t.current
    ensures CurrentOk(t, p)
  {
    assert InvOk(t);
    hide NamesMatch, GroupsOk, RowsOk, GroupsApart, CheckpointsOk, LogOk, LogApart, CurrentOk;
  }

  lemma EntryIn(t: Target, k: LogKey)
    requires Inv(t) && k in t.log
    ensures EntryOk(t, k)
  {
    assert InvOk(t);
    hide NamesMatch, GroupsOk, RowsOk, GroupsApart, CheckpointsOk, CurrentsOk, LogApart, EntryOk;
  }

  lemma ApartIn(t: Target)
    requires Inv(t)
    ensures GroupsApart(t)
  {
    assert InvOk(t);
    hide NamesMatch, GroupsOk, RowsOk, LogOk, CheckpointsOk, CurrentsOk, LogApart, GroupsApart;
  }

  /** The group a row belongs to. */
  lemma RowGroup(t: Target, n: QualifiedName)
    requires Inv(t) && n in t.managed && t.managed[n].state != QuarantinedTable
    ensures var r := t.managed[n];
      && r.groupId in t.groups && r.pipelineId == t.groups[r.groupId].request.fence.pipelineId
      && r.token == t.groups[r.groupId].request.fence.token && r.tableGeneration == t.groups[r.groupId].request.fence.generation
      && (r.state == ShadowTable || r.state == ActiveTable)
      && (r.state == ShadowTable <==> ShadowLike(n)) && (r.state == ActiveTable <==> Plain(n)) && !QuarantineLike(n)
      && RecordFits(n, r)
  {
    hide Inv, PlannedRequest, Overtaken, Reached, Plain, ShadowLike, QuarantineLike, RecordFits;
    RowIn(t, n);
    var r := t.managed[n];
    GroupIn(t, r.groupId);
    var q := t.groups[r.groupId].request;
    if r.state == ShadowTable {
      var x :| x in q.tables && x.shadow == n && r == RowFor(q, x, r.oid, ShadowTable);
      RowNames(q, x);
    } else {
      var x :| x in q.tables && x.target == n && r == RowFor(q, x, r.oid, ActiveTable);
      RowNames(q, x);
    }
  }

  lemma RowNames(q: ActivationRequest, x: ActivationTable)
    requires PlannedRequest(q) && x in q.tables
    ensures Plain(x.target) && !QuarantineLike(x.target) && !ShadowLike(x.target) && x.tableGeneration == q.fence.generation
    ensures ShadowLike(x.shadow) && !Plain(x.shadow) && !QuarantineLike(x.shadow)
    ensures forall oid, state :: RecordFits(x.target, RowFor(q, x, oid, state)) && RecordFits(x.shadow, RowFor(q, x, oid, state))
    ensures x.shadow == ShadowName(x.target.schema, q.fence.pipelineId, x.sourceRelationId, q.fence.token)
    ensures x.shadow.schema == x.target.schema && 0 < q.fence.token && x.target != x.shadow
  {
    hide PlannedRequest;
    PlanBounds(q);
    TableWidths(q.fence, x);
    FamiliesApart(x.shadow);
    hide ShadowName, Range;
  }

  /** Shadows of different attempts never share a name. */
  lemma ShadowsOfGroupsApart(q: ActivationRequest, x: ActivationTable, r: ActivationRequest, y: ActivationTable)
    requires PlannedRequest(q) && PlannedRequest(r) && x in q.tables && y in r.tables && x.shadow == y.shadow
    ensures q.fence.pipelineId == r.fence.pipelineId && q.fence.token == r.fence.token && x.sourceRelationId == y.sourceRelationId
  {
    hide PlannedRequest, ShadowName, Range, Plain, ShadowLike, QuarantineLike, TableFits;
    PlanBounds(q);
    PlanBounds(r);
    TableWidths(q.fence, x);
    TableWidths(r.fence, y);
    ShadowNameTells(x.target.schema, q.fence.pipelineId, x.sourceRelationId, q.fence.token,
                    y.target.schema, r.fence.pipelineId, y.sourceRelationId, r.fence.token);
  }

  /** A quarantined row stands under a quarantine name, and its entry explains it. */
  lemma QuarantinedRow(t: Target, n: QualifiedName) returns (k: LogKey)
    requires Inv(t) && n in t.managed && t.managed[n].state == QuarantinedTable
    ensures k in t.log && t.log[k].quarantine == n && t.log[k].purgedBy.None? && EntryOk(t, k)
    ensures QuarantineLike(n) && !ShadowLike(n) && !Plain(n)
  {
    hide Inv, Formerly, QuarantineName, QuarantineLike, ShadowLike;
    RowIn(t, n);
    k :| k in t.log && t.log[k].quarantine == n && t.log[k].purgedBy.None?;
    EntryIn(t, k);
    FamiliesApart(n);
    QuarantineNameLike(t.log[k].original, LoggedRecord(t.log[k]));
  }

  /** Nothing unmanaged stands under a reserved name. */
  lemma ReservedIsManaged(t: Target, n: QualifiedName)
    requires Inv(t) && !Plain(n)
    ensures n in t.relations <==> n in t.managed
    ensures n in t.managed && ShadowLike(n) ==> t.managed[n].state == ShadowTable
    ensures n in t.managed && QuarantineLike(n) ==> t.managed[n].state == QuarantinedTable
  {
    assert InvOk(t);
    FamiliesApart(n);
    if n in t.managed {
      if t.managed[n].state == QuarantinedTable { var k := QuarantinedRow(t, n); } else { RowGroup(t, n); }
    }
    hide RowsOk, GroupsOk, CurrentsOk, GroupsApart, CheckpointsOk, LogOk, LogApart, Plain, ShadowLike, QuarantineLike;
  }

  /** A shadow of a group is there or it is not; if it is, its row is exactly the manifest's. */
  lemma ShadowOfGroup(t: Target, g: GroupId, x: ActivationTable)
    requires Inv(t) && g in t.groups && x in t.groups[g].request.tables
    ensures x.shadow in t.managed <==> x.shadow in t.relations
    ensures x.shadow in t.managed ==> t.groups[g].state == Loading
    ensures x.shadow in t.managed ==> t.managed[x.shadow] == RowFor(t.groups[g].request, x, t.relations[x.shadow], ShadowTable)
  {
    assert InvOk(t);
    assert GroupOk(t, g);
    var q := t.groups[g].request;
    RowNames(q, x);
    ReservedIsManaged(t, x.shadow);
    hide Plain, ShadowLike, QuarantineLike, RecordFits, PlannedRequest;
    if x.shadow in t.managed {
      var r := t.managed[x.shadow];
      assert RowOk(t, x.shadow);
      assert GroupOk(t, r.groupId);
      ShadowIsListed(t, g, x, r.groupId);
    }
  }

  lemma ShadowIsListed(t: Target, g: GroupId, x: ActivationTable, h: GroupId)
    requires NamesMatch(t) && GroupsApart(t) && g in t.groups && h in t.groups && x in t.groups[g].request.tables
    requires PlannedRequest(t.groups[g].request) && PlannedRequest(t.groups[h].request)
    requires t.groups[g].request.groupId == g && t.groups[h].request.groupId == h
    requires x.shadow in t.managed && HasShadow(t.groups[h].request, x.shadow, t.managed[x.shadow])
    ensures g == h && t.managed[x.shadow] == RowFor(t.groups[g].request, x, t.relations[x.shadow], ShadowTable)
  {
    hide PlannedRequest;
    var r := t.managed[x.shadow];
    var o := t.groups[h].request;
    var y :| y in o.tables && y.shadow == x.shadow && r == RowFor(o, y, r.oid, ShadowTable);
    ShadowsOfGroupsApart(t.groups[g].request, x, o, y);
    assert g == h;
    PlannedApart(o, x, y);
  }

  /** A row under an ordinary name is active. */
  lemma PlainRowIsActive(t: Target, n: QualifiedName)
    requires Inv(t) && n in t.managed && Plain(n)
    ensures t.managed[n].state == ActiveTable
  {
    if t.managed[n].state == QuarantinedTable { var k := QuarantinedRow(t, n); } else { RowGroup(t, n); }
  }

  lemma ActiveIsPlain(t: Target, n: QualifiedName)
    requires Inv(t) && n in t.managed && t.managed[n].state == ActiveTable
    ensures Plain(n)
  {
    hide Inv, Plain, ShadowLike, QuarantineLike, RecordFits;
    RowGroup(t, n);
  }

  /** The fence of a pipeline's stored row bounds every token written. */
  lemma TokensBounded(t: Target, n: QualifiedName)
    requires Inv(t) && n in t.managed
    ensures var r := t.managed[n]; r.pipelineId in t.meta.fences && 0 < r.token <= t.meta.fences[r.pipelineId].token
  {
    hide Inv, PlannedRequest, Overtaken, Reached, Plain, ShadowLike, QuarantineLike, RecordFits, Formerly, QuarantineName;
    if t.managed[n].state == QuarantinedTable {
      var k := QuarantinedRow(t, n);
      GroupIn(t, t.log[k].groupId);
      PlanBounds(t.groups[t.log[k].groupId].request);
    } else {
      RowGroup(t, n);
      GroupIn(t, t.managed[n].groupId);
      PlanBounds(t.groups[t.managed[n].groupId].request);
    }
    hide PlannedTable, Range;
  }

  // ---- Carrying parts over to the next state --------------------------------------------------

  /** A row that did not change stays accounted for while its group, the current group and its entry do. */
  lemma RowKept(t: Target, s: Target, n: QualifiedName)
    requires n in t.managed && RowOk(t, n) && n in s.managed && s.managed[n] == t.managed[n]
    requires t.managed[n].state != QuarantinedTable && t.managed[n].groupId in t.groups ==>
      t.managed[n].groupId in s.groups && s.groups[t.managed[n].groupId] == t.groups[t.managed[n].groupId]
    requires t.managed[n].state == ActiveTable && t.managed[n].pipelineId in t.current ==>
      t.managed[n].pipelineId in s.current && s.current[t.managed[n].pipelineId] == t.current[t.managed[n].pipelineId]
    requires t.managed[n].state == QuarantinedTable ==>
      forall k | k in t.log && t.log[k].quarantine == n && t.log[k].purgedBy.None? :: k in s.log && s.log[k] == t.log[k]
    ensures RowOk(s, n)
  {
    if t.managed[n].state == QuarantinedTable {
      var k :| k in t.log && t.log[k].quarantine == n && t.log[k].purgedBy.None?;
      assert s.log[k] == t.log[k];
    }
    hide HasShadow, HasTarget;
  }

  /** An entry that did not change stays good while both its groups do and its row is where it was. */
  lemma EntryKept(t: Target, s: Target, k: LogKey)
    requires k in t.log && EntryOk(t, k) && k in s.log && s.log[k] == t.log[k]
    requires forall g | g in t.groups && t.groups[g].state == Active :: g in s.groups && s.groups[g] == t.groups[g]
    requires t.log[k].pipelineId in s.current && s.current[t.log[k].pipelineId] != t.log[k].previousGroupId
    requires t.log[k].quarantine in t.managed ==> t.log[k].quarantine in s.managed && s.managed[t.log[k].quarantine] == t.managed[t.log[k].quarantine]
    ensures EntryOk(s, k)
  {
    hide Formerly, QuarantineName, LoggedRecord;
  }
}
