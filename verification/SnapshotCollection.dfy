/** Collecting quarantined tables: in a reachable state it never fails and purges exactly what is old enough. */
module SnapshotCollection {
  import opened Core
  import opened Checkpoint
  import opened Manifest
  import opened ManifestStore
  import opened Snapshot
  import opened SnapshotNames
  import opened SnapshotOps
  import opened SnapshotInvariant
  import opened SnapshotClassify

  function QuarantineNames(t: Target, keys: set<LogKey>): set<QualifiedName> {
    set k | k in keys && k in t.log :: t.log[k].quarantine
  }

  function MarkedPurged(log: map<LogKey, LogEntry>, keys: set<LogKey>, token: int): map<LogKey, LogEntry> {
    map k | k in log :: if k in keys then log[k].(purgedBy := Some(token)) else log[k]
  }

  /** The tables of these entries are dropped and each entry is marked; nothing else changes. */
  function Purged(t: Target, keys: set<LogKey>, token: int): Target {
    t.(relations := t.relations - QuarantineNames(t, keys), managed := t.managed - QuarantineNames(t, keys),
       log := MarkedPurged(t.log, keys, token))
  }

  // ---- Entries are told apart by their quarantine names ---------------------------------------

  lemma EntriesNamedApart(t: Target, j: LogKey, k: LogKey)
    requires Inv(t) && j in t.log && k in t.log && t.log[j].quarantine == t.log[k].quarantine
    ensures j == k
  {
    hide NamesMatch, RowsOk, GroupsOk, CurrentsOk, CheckpointsOk, LogOk, RecordFits, QuarantineName;
    assert InvOk(t);
    FormerGroup(t, j);
    FormerGroup(t, k);
    QuarantineNameTells(t.log[j].original, LoggedRecord(t.log[j]), t.log[k].original, LoggedRecord(t.log[k]));
  }

  lemma UnpurgedOnce(t: Target, k: LogKey)
    requires Inv(t) && k in t.log && t.log[k].purgedBy.None?
    ensures UnpurgedAt(t, t.log[k].quarantine) == {k}
  {
    hide Inv;
    forall j | j in UnpurgedAt(t, t.log[k].quarantine) ensures j == k { EntriesNamedApart(t, j, k); }
  }

  // ---- One entry ------------------------------------------------------------------------------

  lemma PurgedOne(t: Target, k: LogKey, token: int)
    requires k in t.log
    ensures Purged(t, {k}, token) == t.(relations := t.relations - {t.log[k].quarantine}, managed := t.managed - {t.log[k].quarantine},
                                       log := t.log[k := t.log[k].(purgedBy := Some(token))])
  {
    assert QuarantineNames(t, {k}) == {t.log[k].quarantine};
    assert MarkedPurged(t.log, {k}, token) == t.log[k := t.log[k].(purgedBy := Some(token))];
  }

  /** An unpurged entry of the pipeline collects: its row is there, matches it, and is the only one. */
  lemma EntryCollects(t: Target, f: Fence, k: LogKey)
    requires Inv(t) && LockFence(t.meta, f).None? && k in t.log && t.log[k].pipelineId == f.pipelineId && t.log[k].purgedBy.None?
    ensures CollectOne(t, f, k) == Ok(Purged(t, {k}, f.token))
  {
    hide Inv, Formerly, QuarantineName, PlannedRequest, Overtaken, Reached, UnpurgedAt, Purged;
    EntryIn(t, k);
    GroupIn(t, t.log[k].groupId);
    NamesIn(t);
    UnpurgedOnce(t, k);
    PurgedOne(t, k, f.token);
  }

  // ---- The state is still of the same kind ----------------------------------------------------

  lemma CollectionKeepsRow(t: Target, k: LogKey, token: int, n: QualifiedName)
    requires Inv(t) && k in t.log && n in t.managed && n != t.log[k].quarantine
    ensures n in Purged(t, {k}, token).managed && RowOk(Purged(t, {k}, token), n)
  {
    hide Inv, HasShadow, HasTarget, Purged;
    PurgedOne(t, k, token);
    RowIn(t, n);
    RowKept(t, Purged(t, {k}, token), n);
  }

  lemma CollectionKeepsCurrent(t: Target, k: LogKey, token: int, p: PipelineId)
    requires Inv(t) && k in t.log && p in t.current
    ensures CurrentOk(Purged(t, {k}, token), p)
  {
    hide Inv, Purged, QuarantineName, QuarantineLike, Plain, ShadowLike, RecordFits;
    PurgedOne(t, k, token);
    CurrentIn(t, p);
    FormerGroup(t, k);
    QuarantineNameLike(t.log[k].original, LoggedRecord(t.log[k]));
    var s, q := Purged(t, {k}, token), t.groups[t.current[p]].request;
    forall x | x in q.tables
      ensures x.target in s.managed && s.managed[x.target] == RowFor(q, x, s.managed[x.target].oid, ActiveTable)
    {
      RowGroup(t, x.target);
    }
  }

  lemma CollectionKeepsEntry(t: Target, k: LogKey, token: int, j: LogKey)
    requires Inv(t) && k in t.log && j in t.log
    ensures EntryOk(Purged(t, {k}, token), j)
  {
    hide Inv, Purged, QuarantineName, Formerly;
    PurgedOne(t, k, token);
    EntryIn(t, j);
    var s := Purged(t, {k}, token);
    if j != k {
      if t.log[j].quarantine == t.log[k].quarantine { EntriesNamedApart(t, j, k); }
      EntryKept(t, s, j);
    } else {
      PurgedEntryOk(t, s, k, token);
    }
  }

  lemma PurgedEntryOk(t: Target, s: Target, k: LogKey, token: int)
    requires k in t.log && EntryOk(t, k) && k in s.log && s.log[k] == t.log[k].(purgedBy := Some(token))
    requires s.groups == t.groups && s.current == t.current
    ensures EntryOk(s, k)
  {
    assert LoggedRecord(s.log[k]) == LoggedRecord(t.log[k]);
    hide QuarantineName, LoggedRecord;
    FormerlyPurged(t.groups[t.log[k].previousGroupId].request, t.log[k], s.log[k]);
    hide Formerly;
  }

  lemma FormerlyPurged(q: ActivationRequest, e: LogEntry, d: LogEntry)
    requires Formerly(q, e) && d == e.(purgedBy := d.purgedBy)
    ensures Formerly(q, d)
  {
    var x :| x in q.tables && x.target == e.original && LoggedRecord(e) == RowFor(q, x, e.oid, QuarantinedTable);
    assert LoggedRecord(d) == RowFor(q, x, d.oid, QuarantinedTable);
  }

  lemma CollectionKeepsRest(t: Target, k: LogKey, token: int)
    requires Inv(t) && k in t.log
    ensures var s := Purged(t, {k}, token); NamesMatch(s) && GroupsOk(s) && GroupsApart(s) && CheckpointsOk(s) && LogApart(s)
  {
    hide RowsOk, CurrentsOk, LogOk, Purged, Plain, PlannedRequest, Reached;
    assert InvOk(t);
    PurgedOne(t, k, token);
    var s := Purged(t, {k}, token);
    forall g | g in s.groups ensures GroupOk(s, g) { assert GroupOk(t, g); }
    hide GroupOk;
    forall key | key in s.meta.checkpoints ensures CheckpointOk(s, key) {
      assert CheckpointOk(t, key);
      var h :| ActiveAt(t, h, key);
      assert ActiveAt(s, h, key);
    }
  }

  lemma CollectionKeeps(t: Target, k: LogKey, token: int)
    requires Inv(t) && k in t.log
    ensures Inv(Purged(t, {k}, token))
  {
    hide NamesMatch, RowOk, CurrentOk, EntryOk, GroupsOk, GroupsApart, CheckpointsOk, LogApart, Purged;
    assert InvOk(t);
    var s := Purged(t, {k}, token);
    PurgedOne(t, k, token);
    CollectionKeepsRest(t, k, token);
    forall n | n in s.managed ensures RowOk(s, n) { CollectionKeepsRow(t, k, token, n); }
    forall p | p in s.current ensures CurrentOk(s, p) { CollectionKeepsCurrent(t, k, token, p); }
    forall j | j in s.log ensures EntryOk(s, j) { CollectionKeepsEntry(t, k, token, j); }
  }

  // ---- All of them ----------------------------------------------------------------------------

  lemma PurgedTwice(t: Target, k: LogKey, rest: set<LogKey>, token: int)
    requires k in t.log && k !in rest
    ensures Purged(Purged(t, {k}, token), rest, token) == Purged(t, {k} + rest, token)
  {
    PurgedOne(t, k, token);
    var s := Purged(t, {k}, token);
    assert s.log.Keys == t.log.Keys;
    assert forall j | j in rest && j in t.log :: s.log[j] == t.log[j];
    assert QuarantineNames(t, {k} + rest) == {t.log[k].quarantine} + QuarantineNames(s, rest);
    assert s.managed - QuarantineNames(s, rest) == t.managed - QuarantineNames(t, {k} + rest);
    assert s.relations - QuarantineNames(s, rest) == t.relations - QuarantineNames(t, {k} + rest);
    assert MarkedPurged(s.log, rest, token) == MarkedPurged(t.log, {k} + rest, token);
  }

  function KeySet(s: seq<LogKey>): set<LogKey> {
    set k | k in s
  }

  lemma NothingPurged(t: Target, token: int)
    ensures Purged(t, {}, token) == t
  {
    assert QuarantineNames(t, {}) == {};
    assert t.relations - {} == t.relations && t.managed - {} == t.managed && MarkedPurged(t.log, {}, token) == t.log;
  }

  lemma {:induction false} EntriesCollect(t: Target, f: Fence, keys: seq<LogKey>)
    requires Inv(t) && LockFence(t.meta, f).None? && Distinct(keys)
    requires forall k | k in keys :: k in t.log && t.log[k].pipelineId == f.pipelineId && t.log[k].purgedBy.None?
    ensures CollectAll(t, f, keys) == Ok(Purged(t, KeySet(keys), f.token)) && Inv(Purged(t, KeySet(keys), f.token))
    decreases |keys|
  {
    hide Inv, CollectOne, LockFence, Purged;
    if keys == [] {
      assert KeySet(keys) == {};
      NothingPurged(t, f.token);
    } else {
      var k, rest, s := keys[0], keys[1..], Purged(t, {keys[0]}, f.token);
      assert keys == [k] + rest && k !in rest;
      EntryCollects(t, f, k);
      CollectionKeeps(t, k, f.token);
      PurgedOne(t, k, f.token);
      forall j | j in rest ensures j in s.log && s.log[j].pipelineId == f.pipelineId && s.log[j].purgedBy.None? {
        assert j in keys && j != k;
      }
      EntriesCollect(s, f, rest);
      PurgedTwice(t, k, KeySet(rest), f.token);
      assert KeySet(keys) == {k} + KeySet(rest);
    }
  }

  /** In every reachable state a collection pass succeeds: the entries it selects are marked purged, exactly
      their quarantined tables are dropped, and none of them was active, a shadow or too young. */
  lemma CollectionPurgesExactlyTheOld(t: Target, f: Fence, retention: nat, limit: nat, keys: seq<LogKey>, result: Result<Target, SnapshotError>)
    requires Inv(t) && LockFence(t.meta, f).None? && Collected(t, f, retention, limit, keys, result)
    ensures result == Ok(Purged(t, KeySet(keys), f.token)) && Inv(result.value)
    ensures forall n | n in t.relations && n !in result.value.relations ::
      n in t.managed && t.managed[n].state == QuarantinedTable &&
      exists k | k in keys :: Collectable(t, f.pipelineId, retention, k) && t.log[k].quarantine == n
    ensures |keys| < limit ==> forall k :: !Collectable(result.value, f.pipelineId, retention, k)
  {
    hide Inv, LockFence, CollectAll;
    assert result == CollectAll(t, f, keys);
    EntriesCollect(t, f, keys);
    forall n | n in t.relations && n !in result.value.relations
      ensures n in t.managed && t.managed[n].state == QuarantinedTable
      ensures exists k | k in keys :: Collectable(t, f.pipelineId, retention, k) && t.log[k].quarantine == n
    {
      var k :| k in KeySet(keys) && k in t.log && t.log[k].quarantine == n;
      EntryIn(t, k);
    }
  }
}
