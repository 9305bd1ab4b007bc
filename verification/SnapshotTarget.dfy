/** The lifecycle operations as they run: loops of statements inside one transaction. */
module SnapshotTarget {
  import opened Core
  import opened Checkpoint
  import opened Manifest
  import opened ManifestStore
  import opened Snapshot
  import opened SnapshotOps

  // ---- Prefixes of a list of renames ----------------------------------------------------------

  lemma {:induction false} MovesThen(t: Target, request: ActivationRequest, a: seq<Move>, b: seq<Move>)
    ensures ApplyMoves(t, request, a).Err? ==> ApplyMoves(t, request, a + b) == ApplyMoves(t, request, a)
    ensures ApplyMoves(t, request, a).Ok? ==> ApplyMoves(t, request, a + b) == ApplyMoves(ApplyMoves(t, request, a).value, request, b)
    decreases |b|
  {
    hide ApplyMove;
    if b == [] {
      assert a + b == a;
    } else {
      var k := |b| - 1;
      MovesThen(t, request, a, b[..k]);
      assert (a + b)[..|a + b| - 1] == a + b[..k];
    }
  }

  lemma OneMove(t: Target, request: ActivationRequest, m: Move)
    ensures ApplyMoves(t, request, [m]) == ApplyMove(t, request, m)
  {
    hide ApplyMove;
    assert [m][..0] == [];
    assert ApplyMoves(t, request, []) == Ok(t);
  }

  lemma {:induction false} MovesPrefix(tables: seq<ActivationTable>, classified: seq<Classified>, token: int, k: nat) returns (rest: seq<Move>)
    requires |tables| == |classified| && k <= |tables| && forall i | 0 <= i < |classified| :: classified[i].Pending?
    ensures TableMoves(tables, classified, token) == TableMoves(tables[..k], classified[..k], token) + rest
    decreases |tables|
  {
    hide StepMoves;
    if k == |tables| {
      assert tables[..k] == tables && classified[..k] == classified;
      rest := [];
    } else {
      var n := |tables| - 1;
      rest := MovesPrefix(tables[..n], classified[..n], token, k);
      assert tables[..n][..k] == tables[..k] && classified[..n][..k] == classified[..k];
      rest := rest + StepMoves(tables[n], classified[n], token);
    }
  }

  // ---- Loops that only read -------------------------------------------------------------------

  function Prepended(done: seq<Classified>, rest: Result<seq<Classified>, SnapshotError>): Result<seq<Classified>, SnapshotError> {
    match rest case Err(e) => Err(e) case Ok(more) => Ok(done + more)
  }

  /** One state per table, in order, up to the first that cannot be classified. */
  method ClassifyTables(t: Target, r: ActivationRequest) returns (states: Result<seq<Classified>, SnapshotError>)
    ensures states == ClassifyAll(t, r.tables, r.fence, r.groupId)
  {
    hide Classify;
    var done: seq<Classified> := [];
    var i := 0;
    assert r.tables[0..] == r.tables;
    assert forall more: seq<Classified> :: [] + more == more;
    assert Prepended([], ClassifyAll(t, r.tables, r.fence, r.groupId)) == ClassifyAll(t, r.tables, r.fence, r.groupId);
    while i < |r.tables|
      invariant i <= |r.tables| && |done| == i
      invariant ClassifyAll(t, r.tables, r.fence, r.groupId) == Prepended(done, ClassifyAll(t, r.tables[i..], r.fence, r.groupId))
    {
      assert r.tables[i..][0] == r.tables[i] && r.tables[i..][1..] == r.tables[i + 1..];
      var state := Classify(t, r.tables[i], r.fence, r.groupId);
      if state.Err? { return Err(state.error); }
      assert forall more :: done + ([state.value] + more) == done + [state.value] + more;
      done := done + [state.value];
      i := i + 1;
    }
    assert r.tables[i..] == [] && done + [] == done;
    return Ok(done);
  }

  /** Every quarantine name must be new to the reserved set, which grows with each. */
  method PreflightNames(t: Target, wanted: seq<QualifiedName>, names: set<QualifiedName>) returns (error: Option<SnapshotError>)
    ensures error == Preflight(t, wanted, names)
  {
    hide StateOf;
    var reserved := names;
    var i := 0;
    assert wanted[0..] == wanted;
    while i < |wanted|
      invariant i <= |wanted|
      invariant Preflight(t, wanted, names) == Preflight(t, wanted[i..], reserved)
    {
      assert wanted[i..][0] == wanted[i] && wanted[i..][1..] == wanted[i + 1..];
      if wanted[i] in reserved || StateOf(t, wanted[i]) != Vacant { return Some(QuarantineConflict(wanted[i])); }
      reserved := reserved + {wanted[i]};
      i := i + 1;
    }
    return None;
  }

  // ---- The transaction ------------------------------------------------------------------------

  class TargetTransaction {
    var now: nat
    var meta: Meta
    var relations: map<QualifiedName, nat>
    var managed: map<QualifiedName, Record>
    var groups: map<GroupId, Group>
    var log: map<LogKey, LogEntry>
    var nextOid: nat
    var current: map<PipelineId, GroupId>

    function State(): Target
      reads this
    {
      Target(now, meta, relations, managed, groups, log, nextOid, current)
    }

    constructor (t: Target)
      ensures State() == t
    {
      now, meta, relations, managed, groups, log, nextOid, current := t.now, t.meta, t.relations, t.managed, t.groups, t.log, t.nextOid, t.current;
    }

    /** Dropping the transaction undoes everything since it began. */
    method Rollback(t: Target)
      modifies this
      ensures State() == t
    {
      now, meta, relations, managed, groups, log, nextOid, current := t.now, t.meta, t.relations, t.managed, t.groups, t.log, t.nextOid, t.current;
    }

    /** Renames, moves the metadata row, and records a quarantine. */
    method MoveTable(request: ActivationRequest, m: Move) returns (error: Option<SnapshotError>)
      modifies this
      ensures error.None? ==> ApplyMove(old(State()), request, m) == Ok(State())
      ensures error.Some? ==> ApplyMove(old(State()), request, m) == Err(error.value)
    {
      var t := State();
      if m.source !in relations || m.destination in relations { return Some(RenameFailed(m.source)); }
      relations := (relations - {m.source})[m.destination := relations[m.source]];
      if m.source !in managed || m.destination in managed { return Some(RenameFailed(m.source)); }
      var previous := managed[m.source];
      managed := (managed - {m.source})[m.destination := m.record];
      if m.reason.Some? {
        if (request.groupId, m.source) in log { return Some(DuplicateLogKey); }
        log := log[(request.groupId, m.source) := LogEntryFor(t, request, m, previous)];
      }
      return None;
    }

    method MoveTables(request: ActivationRequest, moves: seq<Move>) returns (error: Option<SnapshotError>)
      modifies this
      ensures error.None? ==> ApplyMoves(old(State()), request, moves) == Ok(State())
      ensures error.Some? ==> ApplyMoves(old(State()), request, moves) == Err(error.value)
    {
      hide ApplyMove, ApplyMoves;
      ghost var t := State();
      NoMoves(t, request);
      var i := 0;
      while i < |moves|
        invariant i <= |moves| && ApplyMoves(t, request, moves[..i]) == Ok(State())
      {
        MovesThen(t, request, moves[..i], [moves[i]]);
        OneMove(State(), request, moves[i]);
        assert moves[..i] + [moves[i]] == moves[..i + 1] && moves[..i + 1] + moves[i + 1..] == moves;
        MovesThen(t, request, moves[..i + 1], moves[i + 1..]);
        error := MoveTable(request, moves[i]);
        if error.Some? { return; }
        i := i + 1;
      }
      assert moves[..i] == moves;
      return None;
    }

    /** Table by table: the previous occupant goes to quarantine, then the shadow takes the name. */
    method PromoteTables(request: ActivationRequest, classified: seq<Classified>) returns (error: Option<SnapshotError>)
      requires |request.tables| == |classified| && forall i | 0 <= i < |classified| :: classified[i].Pending?
      modifies this
      ensures error.None? ==> ApplyMoves(old(State()), request, TableMoves(request.tables, classified, request.fence.token)) == Ok(State())
      ensures error.Some? ==> ApplyMoves(old(State()), request, TableMoves(request.tables, classified, request.fence.token)) == Err(error.value)
    {
      hide ApplyMove, ApplyMoves, StepMoves;
      ghost var t := State();
      NoMoves(t, request);
      var tables, token := request.tables, request.fence.token;
      assert TableMoves(tables[..0], classified[..0], token) == [];
      var i := 0;
      while i < |classified|
        invariant i <= |classified|
        invariant ApplyMoves(t, request, TableMoves(tables[..i], classified[..i], token)) == Ok(State())
      {
        var moves := StepMoves(tables[i], classified[i], token);
        ghost var before := TableMoves(tables[..i], classified[..i], token);
        assert TableMoves(tables[..i + 1], classified[..i + 1], token) == before + moves by {
          assert tables[..i + 1][..i] == tables[..i] && classified[..i + 1][..i] == classified[..i];
        }
        MovesThen(t, request, before, moves);
        ghost var rest := MovesPrefix(tables, classified, token, i + 1);
        MovesThen(t, request, before + moves, rest);
        error := MoveTables(request, moves);
        if error.Some? { return; }
        i := i + 1;
      }
      assert tables[..i] == tables && classified[..i] == classified;
      return None;
    }

    method AdvanceCheckpoints(fence: Fence, checkpoints: seq<NodeCheckpoint>) returns (error: Option<CheckpointError>)
      modifies this
      ensures error.None? ==> AdvanceAll(old(meta), fence, checkpoints) == Ok(meta)
      ensures error.Some? ==> AdvanceAll(old(meta), fence, checkpoints) == Err(error.value)
      ensures State() == old(State()).(meta := meta)
    {
      hide AdvanceCheckpoint;
      var i := 0;
      assert checkpoints[0..] == checkpoints;
      while i < |checkpoints|
        invariant i <= |checkpoints| && State() == old(State()).(meta := meta)
        invariant AdvanceAll(old(meta), fence, checkpoints) == AdvanceAll(meta, fence, checkpoints[i..])
      {
        assert checkpoints[i..][0] == checkpoints[i] && checkpoints[i..][1..] == checkpoints[i + 1..];
        var advanced := AdvanceCheckpoint(meta, fence, checkpoints[i]);
        if advanced.Err? { return Some(advanced.error); }
        meta := advanced.value.0;
        i := i + 1;
      }
      return None;
    }

    /** Everything after the tables were classified. On an error the caller drops the transaction. */
    method ActivateTables(r: ActivationRequest, classified: seq<Classified>, stale: seq<QualifiedName>) returns (d: Result<Disposition, SnapshotError>)
      requires |classified| == |r.tables| && r.groupId in groups && stale == InOrder(StaleNames(State(), r))
      modifies this
      ensures d.Ok? ==> ActivateClassified(old(State()), r, classified) == Ok((State(), d.value))
      ensures d.Err? ==> ActivateClassified(old(State()), r, classified) == Err(d.error)
    {
      hide Preflight, FirstStaleError, FirstCheckpointError, FirstUnreached, AdvanceAll, StaleNames, TableMoves, StaleMoves, ApplyMoves, ReplacedNames,
        StaleQuarantines, TargetsOf, ShadowsOf, InOrder;
      var t := State();
      assert forall x | x in stale :: x in managed by { StaleAreManaged(t, r); }
      var names := TargetsOf(r.tables) + ShadowsOf(r.tables) + StaleNames(t, r);
      var late := FirstStaleError(t, stale, r.fence.token);
      if late.Some? { return Err(late.value); }
      if forall i | 0 <= i < |classified| :: classified[i].InPlace? {
        if groups[r.groupId].state != Active { return Err(ManifestFailed(CorruptManifest)); }
        var unreached := FirstUnreached(meta, r.checkpoints);
        if unreached.Some? { return Err(unreached.value); }
        var conflict := PreflightNames(t, StaleQuarantines(t, stale), names);
        if conflict.Some? { return Err(conflict.value); }
        var failed := MoveTables(r, StaleMoves(t, stale, r.fence.token));
        if failed.Some? { return Err(failed.value); }
        return Ok(WasActive);
      }
      if exists i | 0 <= i < |classified| :: classified[i].InPlace? { return Err(MixedState); }
      if groups[r.groupId].state != Loading { return Err(ManifestFailed(CorruptManifest)); }
      var refused := FirstCheckpointError(meta, r.checkpoints);
      if refused.Some? { return Err(FenceFailed(refused.value)); }
      var conflict := PreflightNames(t, ReplacedNames(r.tables, classified) + StaleQuarantines(t, stale), names);
      if conflict.Some? { return Err(conflict.value); }
      MovesThen(t, r, TableMoves(r.tables, classified, r.fence.token), StaleMoves(t, stale, r.fence.token));
      var failed := PromoteTables(r, classified);
      if failed.Some? { return Err(failed.value); }
      failed := MoveTables(r, StaleMoves(t, stale, r.fence.token));
      if failed.Some? { return Err(failed.value); }
      var behind := AdvanceCheckpoints(r.fence, r.checkpoints);
      if behind.Some? { return Err(FenceFailed(behind.value)); }
      groups := groups[r.groupId := Group(Active, r)];
      current := current[r.fence.pipelineId := r.groupId];
      return Ok(Activated);
    }

    /** The whole activation; `stale` is what the ordered query for the pipeline's other active tables
        returns. A failure changes nothing. */
    method ActivateSnapshotGroup(request: ActivationRequest, stale: seq<QualifiedName>) returns (d: Result<Disposition, SnapshotError>)
      requires Canonical(request).Ok? ==> stale == InOrder(StaleNames(State(), Canonical(request).value))
      modifies this
      ensures d.Ok? ==> ActivateGroup(old(State()), request) == Ok((State(), d.value))
      ensures d.Err? ==> ActivateGroup(old(State()), request) == Err(d.error) && State() == old(State())
    {
      hide Canonical, ClassifyAll, ActivateClassified, InOrder, StaleNames, LockFence;
      var t := State();
      var canonical := CanonicalRequest(request);
      if canonical.Err? { return Err(ManifestFailed(canonical.error)); }
      var r := canonical.value;
      var locked := LockFence(meta, r.fence);
      if locked.Some? { return Err(FenceFailed(locked.value)); }
      if r.groupId !in groups { return Err(ManifestFailed(NotRegistered)); }
      if groups[r.groupId].request != r { return Err(ManifestFailed(ManifestMismatch)); }
      var states := ClassifyTables(t, r);
      if states.Err? { return Err(states.error); }
      d := ActivateTables(r, states.value, stale);
      if d.Err? { Rollback(t); }
    }

    /** Drops the shadows that were found and forgets the group. */
    method CleanupLoadingGroup(f: Fence, g: GroupId) returns (error: Option<SnapshotError>)
      requires g in groups
      modifies this
      ensures error.None? ==> CleanupGroup(old(State()), f, old(groups)[g].request.fence, g) == Ok(State())
      ensures error.Some? ==> CleanupGroup(old(State()), f, old(groups)[g].request.fence, g) == Err(error.value)
    {
      hide CleanupEntries, CleanupAuthority;
      var t := State();
      var q := groups[g].request;
      if g == 0 || !CleanupAuthority(f, q.fence) { return Some(InvalidCleanupFence); }
      if groups[g].state != Loading { return Some(GroupNotLoading); }
      var shadows := CleanupEntries(t, q, q.tables);
      if shadows.Err? { return Some(shadows.error); }
      var extra := ExtraShadows(t, f.pipelineId, q);
      if extra != {} {
        var least := LeastOf(extra);
        return Some(UnexpectedShadow(least));
      }
      hide ExtraShadows;
      var i := 0;
      assert Names(shadows.value[..0]) == {} && relations - {} == relations && managed - {} == managed;
      while i < |shadows.value|
        invariant i <= |shadows.value|
        invariant State() == t.(relations := t.relations - Names(shadows.value[..i]), managed := t.managed - Names(shadows.value[..i]))
      {
        assert Names(shadows.value[..i + 1]) == Names(shadows.value[..i]) + {shadows.value[i]} by {
          assert shadows.value[..i + 1] == shadows.value[..i] + [shadows.value[i]];
        }
        relations := relations - {shadows.value[i]};
        managed := managed - {shadows.value[i]};
        i := i + 1;
      }
      assert shadows.value[..i] == shadows.value;
      groups := groups - {g};
      return None;
    }

    /** Every stale group in the order the query returns them; a failure changes nothing. */
    method CleanupStaleGroups(f: Fence, order: seq<GroupId>) returns (r: Result<(), SnapshotError>)
      requires Distinct(order) && forall g :: g in order <==> g in StaleGroups(State(), f)
      modifies this
      ensures CleanupStale(old(State()), f, order, if r.Ok? then Ok(State()) else Err(r.error))
      ensures r.Err? ==> State() == old(State())
    {
      hide CleanupGroup, StaleGroups, LockFence;
      var t := State();
      var locked := LockFence(meta, f);
      if locked.Some? { return Err(FenceFailed(locked.value)); }
      var i := 0;
      assert order[0..] == order;
      while i < |order|
        invariant i <= |order| && CleanupAll(t, f, order) == CleanupAll(State(), f, order[i..])
      {
        assert order[i..][0] == order[i] && order[i..][1..] == order[i + 1..];
        if order[i] !in groups { Rollback(t); return Err(ManifestFailed(NotRegistered)); }
        var failed := CleanupLoadingGroup(f, order[i]);
        if failed.Some? { Rollback(t); return Err(failed.value); }
        i := i + 1;
      }
      return Ok(());
    }

    /** The selected entries one after another; a failure changes nothing. */
    method CollectQuarantined(f: Fence, keys: seq<LogKey>) returns (r: Result<(), SnapshotError>)
      modifies this
      ensures LockFence(old(meta), f).Some? ==> r == Err(FenceFailed(LockFence(old(meta), f).value))
      ensures LockFence(old(meta), f).None? ==> CollectAll(old(State()), f, keys) == if r.Ok? then Ok(State()) else Err(r.error)
      ensures r.Err? ==> State() == old(State())
    {
      hide CollectOne, LockFence;
      var t := State();
      var locked := LockFence(meta, f);
      if locked.Some? { return Err(FenceFailed(locked.value)); }
      var i := 0;
      assert keys[0..] == keys;
      while i < |keys|
        invariant i <= |keys| && CollectAll(t, f, keys) == CollectAll(State(), f, keys[i..])
      {
        assert keys[i..][0] == keys[i] && keys[i..][1..] == keys[i + 1..];
        if keys[i] !in log { Rollback(t); return Err(QuarantineRecordMismatch(keys[i].1)); }
        var failed := CollectEntry(f, keys[i]);
        if failed.Some? { Rollback(t); return Err(failed.value); }
        i := i + 1;
      }
      return Ok(());
    }

    /** All checks of one entry, then the drop, the row and the mark. */
    method CollectEntry(f: Fence, k: LogKey) returns (error: Option<SnapshotError>)
      requires k in log
      modifies this
      ensures error.None? ==> CollectOne(old(State()), f, k) == Ok(State())
      ensures error.Some? ==> CollectOne(old(State()), f, k) == Err(error.value)
    {
      hide QuarantineName, UnpurgedAt, LoggedRecord;
      var t, e := State(), log[k];
      if e.pipelineId != f.pipelineId || e.generation > f.generation || e.token > f.token { return Some(InvalidCleanupFence); }
      if QuarantineName(e.original, LoggedRecord(e)) != e.quarantine { return Some(QuarantineRecordMismatch(e.quarantine)); }
      if e.quarantine !in relations || e.quarantine !in managed { return Some(MissingQuarantineMetadata(e.quarantine)); }
      if managed[e.quarantine] != LoggedRecord(e).(token := e.token) { return Some(QuarantineMetadataMismatch(e.quarantine)); }
      if relations[e.quarantine] != managed[e.quarantine].oid { return Some(IdentityMismatch(e.quarantine)); }
      if |UnpurgedAt(t, e.quarantine)| != 1 { return Some(QuarantineRecordMismatch(e.quarantine)); }
      relations := relations - {e.quarantine};
      managed := managed - {e.quarantine};
      log := log[k := e.(purgedBy := Some(f.token))];
      return None;
    }
  }

  lemma NoMoves(t: Target, request: ActivationRequest)
    ensures forall none: seq<Move> | none == [] :: ApplyMoves(t, request, none) == Ok(t)
  {
  }

  lemma StaleAreManaged(t: Target, r: ActivationRequest)
    ensures forall x | x in InOrder(StaleNames(t, r)) :: x in t.managed
  {
  }

  /** The first of some names, as an ordered query would meet it. */
  method LeastOf(s: set<QualifiedName>) returns (m: QualifiedName)
    requires s != {}
    ensures m == Least(s)
  {
    hide NameLess;
    var rest := s;
    m :| m in rest;
    rest := rest - {m};
    while rest != {}
      invariant rest <= s && m in s && m !in rest
      invariant forall x | x in s && x !in rest :: x == m || NameLess(m, x)
      decreases |rest|
    {
      var y :| y in rest;
      rest := rest - {y};
      NameOrder(m, y, m);
      if NameLess(y, m) {
        forall x | x in s && x !in rest ensures x == y || NameLess(y, x) { NameOrder(y, m, x); }
        m := y;
      }
    }
    var least := Least(s);
    NameOrder(m, least, m);
  }
}
