/** What an activation comes to: which are accepted, and the state each leaves. */
module SnapshotOutcome {
  import opened Core
  import opened Checkpoint
  import opened Manifest
  import opened ManifestStore
  import opened Snapshot
  import opened SnapshotNames
  import opened SnapshotOps
  import opened SnapshotMoves
  import opened SnapshotInvariant
  import opened SnapshotClassify
  import opened SnapshotPlan

  // ---- Quarantine names pass the preflight ----------------------------------------------------

  /** Quarantine names pass if and only if they differ, are set aside for nothing else, and stand for nothing. */
  lemma {:induction false} PreflightExactly(t: Target, wanted: seq<QualifiedName>, reserved: set<QualifiedName>)
    ensures Preflight(t, wanted, reserved).None? <==>
      Distinct(wanted) && forall q | q in wanted :: q !in reserved && q !in t.relations && q !in t.managed
    decreases |wanted|
  {
    if wanted != [] {
      var q, rest := wanted[0], wanted[1..];
      assert wanted == [q] + rest;
      PreflightExactly(t, rest, reserved + {q});
      assert StateOf(t, q) == Vacant <==> q !in t.relations && q !in t.managed;
      FirstDistinct(q, rest);
      hide Distinct, StateOf;
    }
  }

  lemma FirstDistinct<T>(x: T, rest: seq<T>)
    ensures Distinct([x] + rest) <==> x !in rest && Distinct(rest)
  {
    var all := [x] + rest;
    if Distinct(all) {
      forall i | 0 <= i < |rest| ensures rest[i] != x { assert all[0] != all[i + 1]; }
      forall i, j | 0 <= i < j < |rest| ensures rest[i] != rest[j] { assert all[i + 1] != all[j + 1]; }
    }
  }

  /** Different names, each of a displaced table. */
  ghost predicate FreshNames(t: Target, p: PipelineId, names: seq<QualifiedName>, displaced: set<QualifiedName>) {
    && Distinct(names) && (forall q | q in names :: QuarantineOf(t, displaced, q))
    && (forall n | n in displaced :: Displaced(t, p, n))
  }

  lemma OneMoreName(t: Target, p: PipelineId, names: seq<QualifiedName>, displaced: set<QualifiedName>, n: QualifiedName)
    requires Inv(t) && FreshNames(t, p, names, displaced) && Displaced(t, p, n) && n !in displaced
    ensures FreshNames(t, p, names + [QuarantineName(n, t.managed[n])], displaced + {n})
  {
    hide Inv, QuarantineName;
    var q := QuarantineName(n, t.managed[n]);
    if q in names {
      var o :| o in displaced && o in t.managed && QuarantineName(o, t.managed[o]) == q;
      QuarantinesApart(t, o, n);
    }
    forall x | x in names + [q] ensures QuarantineOf(t, displaced + {n}, x) { MoreDisplaced(t, displaced, n, x); }
    hide QuarantineOf;
  }

  ghost predicate NamesUpTo(t: Target, r: ActivationRequest, k: nat) {
    Ready(t, r) && k <= |r.tables| &&
    FreshNames(t, r.fence.pipelineId, ReplacedNames(r.tables[..k], ClassifiedOf(t, r.tables[..k])), Taken(t, r.tables[..k]))
  }

  lemma {:induction false} ReplacedNamesFresh(t: Target, r: ActivationRequest, k: nat)
    requires Inv(t) && AtFence(t, r, Loading) && Ready(t, r) && k <= |r.tables|
    ensures NamesUpTo(t, r, k)
    decreases k
  {
    hide Inv, AtFence, FreshNames, TargetFree;
    if k == 0 {
      assert r.tables[..0] == [] && Taken(t, r.tables[..0]) == {};
      assert FreshNames(t, r.fence.pipelineId, [], {}) by { NoNamesFresh(t, r.fence.pipelineId); }
    } else {
      ReplacedNamesFresh(t, r, k - 1);
      ReplacedNameFresh(t, r, k - 1);
    }
  }

  lemma NoNamesFresh(t: Target, p: PipelineId)
    ensures FreshNames(t, p, [], {})
  {
  }

  lemma ReplacedNameFresh(t: Target, r: ActivationRequest, k: nat)
    requires Inv(t) && AtFence(t, r, Loading) && k < |r.tables| && NamesUpTo(t, r, k)
    ensures NamesUpTo(t, r, k + 1)
  {
    hide Inv, AtFence, FreshNames, TargetFree, Taken, QuarantineName;
    var ts, more, x := r.tables[..k], r.tables[..k + 1], r.tables[k];
    TableIsNew(t, r, k);
    SetsGrow(t, r, k);
    var names := ReplacedNames(ts, ClassifiedOf(t, ts));
    assert more[..k] == ts && more[k] == x && ClassifiedOf(t, more)[..k] == ClassifiedOf(t, ts);
    assert ClassifiedOf(t, more)[k] == Pending(t.managed[x.shadow], PreviousAt(t, x.target));
    if x.target in t.managed {
      OneMoreName(t, r.fence.pipelineId, names, Taken(t, ts), x.target);
      assert ReplacedNames(more, ClassifiedOf(t, more)) == names + [QuarantineName(x.target, t.managed[x.target])];
    } else {
      assert ReplacedNames(more, ClassifiedOf(t, more)) == names + [] == names;
    }
  }

  ghost predicate StaleNamed(t: Target, p: PipelineId, names: seq<QualifiedName>, stale: seq<QualifiedName>, taken: set<QualifiedName>) {
    (forall n | n in stale :: n in t.managed) && FreshNames(t, p, names + StaleQuarantines(t, stale), taken + Names(stale))
  }

  lemma {:induction false} StaleNamesFresh(t: Target, p: PipelineId, names: seq<QualifiedName>, stale: seq<QualifiedName>, taken: set<QualifiedName>)
    requires Inv(t) && FreshNames(t, p, names, taken) && Distinct(stale) && forall n | n in stale :: Displaced(t, p, n) && n !in taken
    ensures StaleNamed(t, p, names, stale, taken)
    decreases |stale|
  {
    hide Inv, FreshNames, QuarantineName;
    if stale == [] {
      assert names + StaleQuarantines(t, stale) == names && taken + Names(stale) == taken;
    } else {
      var init, n := stale[..|stale| - 1], stale[|stale| - 1];
      assert stale == init + [n];
      StaleNamesFresh(t, p, names, init, taken);
      OneMoreName(t, p, names + StaleQuarantines(t, init), taken + Names(init), n);
      StaleNameAdds(t, names, init, n, taken);
    }
  }

  lemma StaleNameAdds(t: Target, names: seq<QualifiedName>, init: seq<QualifiedName>, n: QualifiedName, taken: set<QualifiedName>)
    requires n in t.managed && forall x | x in init :: x in t.managed
    ensures forall x | x in init + [n] :: x in t.managed
    ensures names + StaleQuarantines(t, init + [n]) == names + StaleQuarantines(t, init) + [QuarantineName(n, t.managed[n])]
    ensures taken + Names(init + [n]) == taken + Names(init) + {n}
  {
    hide QuarantineName;
    assert StaleQuarantines(t, init + [n]) == StaleQuarantines(t, init) + [QuarantineName(n, t.managed[n])];
  }

  /** The names set aside for the request and for stale tables are not quarantine names. */
  lemma ReservedAreNot(t: Target, r: ActivationRequest, state: GroupState, q: QualifiedName)
    requires Inv(t) && AtFence(t, r, state) && q in TargetsOf(r.tables) + ShadowsOf(r.tables) + StaleNames(t, r)
    ensures !QuarantineLike(q)
  {
    hide Inv, AtFence, Plain, ShadowLike, QuarantineLike, RecordFits, PlannedRequest, GroupOk;
    GroupAtFence(t, r, state);
    if q in StaleNames(t, r) { RowGroup(t, q); }
    else if q in TargetsOf(r.tables) { var x :| x in r.tables && x.target == q; RowNames(r, x); }
    else { var x :| x in r.tables && x.shadow == q; RowNames(r, x); }
  }

  lemma FreshNamesPass(t: Target, r: ActivationRequest, names: seq<QualifiedName>, displaced: set<QualifiedName>)
    requires Inv(t) && AtFence(t, r, Loading) && FreshNames(t, r.fence.pipelineId, names, displaced)
    ensures Preflight(t, names, TargetsOf(r.tables) + ShadowsOf(r.tables) + StaleNames(t, r)).None?
  {
    hide Inv, AtFence, QuarantineName, QuarantineLike, TargetsOf, ShadowsOf, StaleNames;
    forall q | q in names
      ensures q !in TargetsOf(r.tables) + ShadowsOf(r.tables) + StaleNames(t, r) && q !in t.relations && q !in t.managed
    {
      var o :| o in displaced && o in t.managed && QuarantineName(o, t.managed[o]) == q;
      QuarantineIsVacant(t, o);
      if q in TargetsOf(r.tables) + ShadowsOf(r.tables) + StaleNames(t, r) { ReservedAreNot(t, r, Loading, q); }
    }
    PreflightExactly(t, names, TargetsOf(r.tables) + ShadowsOf(r.tables) + StaleNames(t, r));
  }

  lemma NamesAreFree(t: Target, r: ActivationRequest)
    requires Inv(t) && AtFence(t, r, Loading) && Ready(t, r)
    ensures Preflight(t, ReplacedNames(r.tables, ClassifiedOf(t, r.tables)) + StaleQuarantines(t, InOrder(StaleNames(t, r))),
                      TargetsOf(r.tables) + ShadowsOf(r.tables) + StaleNames(t, r)).None?
  {
    hide Inv, AtFence, InOrder, FreshNames, TargetFree, QuarantineName;
    ReplacedNamesFresh(t, r, |r.tables|);
    assert r.tables[..|r.tables|] == r.tables;
    var names, stale := ReplacedNames(r.tables, ClassifiedOf(t, r.tables)), InOrder(StaleNames(t, r));
    StaleNamesFresh(t, r.fence.pipelineId, names, stale, Taken(t, r.tables));
    FreshNamesPass(t, r, names + StaleQuarantines(t, stale), Taken(t, r.tables) + Names(stale));
  }

  // ---- The state an activation leaves ---------------------------------------------------------

  function QuarantineEntry(t: Target, r: ActivationRequest, n: QualifiedName): LogEntry
    requires n in t.managed
  {
    LogEntryFor(t, r, QuarantineMove(n, t.managed[n], r.fence.token, ReasonFor(r, n)), t.managed[n])
  }

  /** Each shadow is now the active table under its target's name. */
  ghost predicate Promoted(t: Target, r: ActivationRequest, s: Target) {
    forall x | x in r.tables ::
      && x.shadow in t.managed && x.shadow in t.relations && x.target in s.relations && x.target in s.managed
      && s.relations[x.target] == t.relations[x.shadow]
      && s.managed[x.target] == t.managed[x.shadow].(state := ActiveTable, token := r.fence.token)
  }

  /** Each table active before is in quarantine, under a log entry. */
  ghost predicate Quarantined(t: Target, r: ActivationRequest, s: Target) {
    forall n | Displaced(t, r.fence.pipelineId, n) ::
      var q := QuarantineName(n, t.managed[n]);
      && n in t.relations && q in s.relations && q in s.managed && s.relations[q] == t.relations[n]
      && s.managed[q] == t.managed[n].(state := QuarantinedTable, token := r.fence.token)
      && (r.groupId, n) in s.log && s.log[(r.groupId, n)] == QuarantineEntry(t, r, n)
  }

  ghost predicate Elsewhere(t: Target, r: ActivationRequest, n: QualifiedName) {
    n !in TargetsOf(r.tables) && !QuarantineOf(t, DisplacedNames(t, r.fence.pipelineId), n)
  }

  /** Under every other name: shadows and displaced tables are gone, all else is untouched. */
  ghost predicate OthersStay(t: Target, r: ActivationRequest, s: Target) {
    forall n | Elsewhere(t, r, n) ::
      && (n in s.relations <==> n in t.relations && n !in ShadowsOf(r.tables) && !Displaced(t, r.fence.pipelineId, n))
      && (n in s.managed <==> n in t.managed && n !in ShadowsOf(r.tables) && !Displaced(t, r.fence.pipelineId, n))
      && (n in s.relations ==> s.relations[n] == t.relations[n]) && (n in s.managed ==> s.managed[n] == t.managed[n])
  }

  ghost predicate LogGrows(t: Target, r: ActivationRequest, s: Target) {
    forall k: LogKey | k.0 != r.groupId || !Displaced(t, r.fence.pipelineId, k.1) ::
      (k in s.log <==> k in t.log) && (k in s.log ==> s.log[k] == t.log[k])
  }

  /** The group is active and current, and its position is on record. */
  ghost predicate MarkedActive(t: Target, r: ActivationRequest, s: Target) {
    && |r.checkpoints| == 1
    && s == t.(relations := s.relations, managed := s.managed, log := s.log, groups := t.groups[r.groupId := Group(Active, r)],
               current := t.current[r.fence.pipelineId := r.groupId],
               meta := t.meta.(checkpoints := t.meta.checkpoints[NodeKey(r.fence) := StoredCheckpoint(r.checkpoints[0], r.fence.token)]))
  }

  ghost predicate ActivatedTo(t: Target, r: ActivationRequest, s: Target) {
    Promoted(t, r, s) && Quarantined(t, r, s) && OthersStay(t, r, s) && LogGrows(t, r, s) && MarkedActive(t, r, s)
  }

  // ---- From the renames to the state ----------------------------------------------------------

  lemma MoveInto(t: Target, r: ActivationRequest, moves: seq<Move>, x: ActivationTable) returns (i: nat)
    requires Inv(t) && AtFence(t, r, Loading) && Plan(t, r, moves, TargetsOf(r.tables), ShadowsOf(r.tables), DisplacedNames(t, r.fence.pipelineId))
    requires x in r.tables && x.shadow in t.managed
    ensures i < |moves| && moves[i] == PromoteMove(x, t.managed[x.shadow], r.fence.token)
  {
    hide Inv, AtFence, Legal, Departures, QuarantineOf, Plain, ShadowLike, QuarantineLike, RecordFits, PlannedRequest, GroupOk, QuarantineName;
    GroupAtFence(t, r, Loading);
    assert Arrives(moves, x.target);
    i :| 0 <= i < |moves| && moves[i].destination == x.target;
    var m := moves[i];
    assert Promotes(t, r, m) || Quarantines(t, r, m);
    RowNames(r, x);
    if Promotes(t, r, m) {
      var y :| y in r.tables && y.shadow in t.managed && m == PromoteMove(y, t.managed[y.shadow], r.fence.token);
      PlannedApart(r, x, y);
    } else {
      QuarantineNameLike(m.source, t.managed[m.source]);
    }
  }

  lemma MoveOut(t: Target, r: ActivationRequest, moves: seq<Move>, n: QualifiedName) returns (i: nat)
    requires Inv(t) && AtFence(t, r, Loading) && Plan(t, r, moves, TargetsOf(r.tables), ShadowsOf(r.tables), DisplacedNames(t, r.fence.pipelineId))
    requires Displaced(t, r.fence.pipelineId, n)
    ensures i < |moves| && moves[i] == QuarantineMove(n, t.managed[n], r.fence.token, ReasonFor(r, n))
  {
    hide Inv, AtFence, Legal, Arrivals, QuarantineOf, Plain, ShadowLike, QuarantineLike, RecordFits, PlannedRequest, GroupOk, QuarantineName;
    GroupAtFence(t, r, Loading);
    assert Leaves(moves, n);
    i :| 0 <= i < |moves| && moves[i].source == n;
    ActiveIsPlain(t, n);
    PlainLeaverIsQuarantined(t, r, moves[i]);
  }

  lemma PlainLeaverIsQuarantined(t: Target, r: ActivationRequest, m: Move)
    requires PlannedRequest(r) && (Promotes(t, r, m) || Quarantines(t, r, m))
    ensures Plain(m.source) ==> Quarantines(t, r, m)
  {
    hide Plain, ShadowLike, QuarantineLike, RecordFits, PlannedRequest, Quarantines;
    if Promotes(t, r, m) {
      var y :| y in r.tables && y.shadow in t.managed && m == PromoteMove(y, t.managed[y.shadow], r.fence.token);
      RowNames(r, y);
    }
  }

  lemma MovedPromotes(t: Target, r: ActivationRequest, moves: seq<Move>, s: Target)
    requires Inv(t) && AtFence(t, r, Loading) && Ready(t, r)
    requires Plan(t, r, moves, TargetsOf(r.tables), ShadowsOf(r.tables), DisplacedNames(t, r.fence.pipelineId)) && Moved(t, r, moves, s)
    ensures Promoted(t, r, s)
  {
    hide Inv, AtFence, Plan, TargetFree, RestKept, MovedLog;
    forall x | x in r.tables
      ensures x.shadow in t.managed && x.shadow in t.relations && x.target in s.relations && x.target in s.managed
      ensures s.relations[x.target] == t.relations[x.shadow]
      ensures s.managed[x.target] == t.managed[x.shadow].(state := ActiveTable, token := r.fence.token)
    {
      var i := MoveInto(t, r, moves, x);
    }
  }

  lemma MovedQuarantines(t: Target, r: ActivationRequest, moves: seq<Move>, s: Target)
    requires Inv(t) && AtFence(t, r, Loading)
    requires Plan(t, r, moves, TargetsOf(r.tables), ShadowsOf(r.tables), DisplacedNames(t, r.fence.pipelineId)) && Moved(t, r, moves, s)
    ensures Quarantined(t, r, s)
  {
    hide Inv, AtFence, Plan, RestKept, QuarantineName;
    forall n | Displaced(t, r.fence.pipelineId, n)
      ensures var q := QuarantineName(n, t.managed[n]);
        && n in t.relations && q in s.relations && q in s.managed && s.relations[q] == t.relations[n]
        && s.managed[q] == t.managed[n].(state := QuarantinedTable, token := r.fence.token)
        && (r.groupId, n) in s.log && s.log[(r.groupId, n)] == QuarantineEntry(t, r, n)
    {
      var i := MoveOut(t, r, moves, n);
    }
  }

  lemma MovedKeeps(t: Target, r: ActivationRequest, moves: seq<Move>, s: Target)
    requires Plan(t, r, moves, TargetsOf(r.tables), ShadowsOf(r.tables), DisplacedNames(t, r.fence.pipelineId)) && Moved(t, r, moves, s)
    ensures OthersStay(t, r, s)
  {
    hide Legal, Leaves, Arrives, AllExplained, QuarantineOf, MovedLog, TargetsOf, ShadowsOf;
  }

  lemma MovedLogs(t: Target, r: ActivationRequest, moves: seq<Move>, s: Target)
    requires Plan(t, r, moves, TargetsOf(r.tables), ShadowsOf(r.tables), DisplacedNames(t, r.fence.pipelineId)) && Moved(t, r, moves, s)
    ensures LogGrows(t, r, s)
  {
    hide Legal, Leaves, Arrives, Logs, Departures, Arrivals, QuarantineOf, MovedRelations, MovedRows, TargetsOf, ShadowsOf, AllExplained;
    forall k: LogKey | k.0 != r.groupId || !Displaced(t, r.fence.pipelineId, k.1)
      ensures (k in s.log <==> k in t.log) && (k in s.log ==> s.log[k] == t.log[k])
    {
      LoggedIsDisplaced(t, r, moves, k);
    }
  }

  lemma LoggedIsDisplaced(t: Target, r: ActivationRequest, moves: seq<Move>, k: LogKey)
    requires AllExplained(t, r, moves)
    ensures Logs(moves, r, k) ==> k.0 == r.groupId && Displaced(t, r.fence.pipelineId, k.1)
  {
    if Logs(moves, r, k) {
      var i :| 0 <= i < |moves| && moves[i].reason.Some? && (r.groupId, moves[i].source) == k;
      assert Quarantines(t, r, moves[i]);
    }
  }

  // ---- Accepted activations -------------------------------------------------------------------

  lemma CheckpointAdvances(t: Target, r: ActivationRequest)
    requires Inv(t) && AtFence(t, r, Loading)
    ensures |r.checkpoints| == 1
    ensures AdvanceAll(t.meta, r.fence, r.checkpoints) ==
      Ok(t.meta.(checkpoints := t.meta.checkpoints[NodeKey(r.fence) := StoredCheckpoint(r.checkpoints[0], r.fence.token)]))
  {
    hide Inv, ValidateCheckpoint;
    FirstCheckpointIsFine(t, r);
    hide LockFence;
    assert r.checkpoints[1..] == [];
  }

  lemma ActivationComputes(t: Target, r: ActivationRequest, c: seq<Classified>, moved: Target, meta: Meta)
    requires |c| == |r.tables| > 0 && (forall i | 0 <= i < |c| :: c[i].Pending?) && r.groupId in t.groups && t.groups[r.groupId].state == Loading
    requires FirstStaleError(t, InOrder(StaleNames(t, r)), r.fence.token).None? && FirstCheckpointError(t.meta, r.checkpoints).None?
    requires Preflight(t, ReplacedNames(r.tables, c) + StaleQuarantines(t, InOrder(StaleNames(t, r))),
                       TargetsOf(r.tables) + ShadowsOf(r.tables) + StaleNames(t, r)).None?
    requires ApplyMoves(t, r, TableMoves(r.tables, c, r.fence.token) + StaleMoves(t, InOrder(StaleNames(t, r)), r.fence.token)) == Ok(moved)
    requires AdvanceAll(moved.meta, r.fence, r.checkpoints) == Ok(meta)
    ensures ActivateClassified(t, r, c) ==
      Ok((moved.(meta := meta, groups := moved.groups[r.groupId := Group(Active, r)], current := moved.current[r.fence.pipelineId := r.groupId]),
          Activated))
  {
    hide InOrder, Preflight, FirstStaleError, FirstCheckpointError, AdvanceAll, StaleNames, TableMoves, StaleMoves, ApplyMoves, ReplacedNames,
      StaleQuarantines, TargetsOf, ShadowsOf, ConfirmActive;
    assert !c[0].InPlace?;
  }

  ghost predicate Accepted(t: Target, r: ActivationRequest, result: Result<(Target, Disposition), SnapshotError>) {
    result.Ok? && result.value.1 == Activated && ActivatedTo(t, r, result.value.0)
  }

  /** A group at the present fence whose tables were all loaded and whose targets are free activates; no
      rename hits an occupied name. */
  lemma ReadyActivates(t: Target, r: ActivationRequest)
    requires Ready(t, r) && AtFence(t, r, Loading) && Inv(t)
    ensures Accepted(t, r, ActivateClassified(t, r, ClassifiedOf(t, r.tables)))
  {
    hide Inv, AtFence, InOrder, Plan, Moved, Preflight, FirstStaleError, FirstCheckpointError, AdvanceAll, TargetFree, ActivatedTo,
      StaleNames, TableMoves, ActivateClassified, StaleMoves, ReplacedNames, StaleQuarantines, TargetsOf, ShadowsOf, NodeKey, DisplacedNames;
    StaleIsFine(t, r, Loading);
    FirstCheckpointIsFine(t, r);
    NamesAreFree(t, r);
    ActivationPlanned(t, r);
    PlanIsLegal(t, r, AllMoves(t, r), TargetsOf(r.tables), ShadowsOf(r.tables), DisplacedNames(t, r.fence.pipelineId));
    LegalMovesSucceed(t, r, AllMoves(t, r));
    var moved := ApplyMoves(t, r, AllMoves(t, r)).value;
    CheckpointAdvances(t, r);
    MovedRest(t, r, AllMoves(t, r), moved);
    SomeTable(t, r);
    ActivatedFromMoves(t, r, moved);
    var meta := t.meta.(checkpoints := t.meta.checkpoints[NodeKey(r.fence) := StoredCheckpoint(r.checkpoints[0], r.fence.token)]);
    ActivationComputes(t, r, ClassifiedOf(t, r.tables), moved, meta);
  }

  lemma PlanIsLegal(t: Target, r: ActivationRequest, moves: seq<Move>, targets: set<QualifiedName>, shadows: set<QualifiedName>,
                    displaced: set<QualifiedName>)
    requires Plan(t, r, moves, targets, shadows, displaced)
    ensures Legal(t, r, moves)
  {
    hide Legal, Departures, Arrivals, AllExplained;
  }

  lemma MovedRest(t: Target, r: ActivationRequest, moves: seq<Move>, s: Target)
    requires Moved(t, r, moves, s)
    ensures s.meta == t.meta && s.groups == t.groups && s.current == t.current && s.now == t.now && s.nextOid == t.nextOid
  {
  }

  lemma SomeTable(t: Target, r: ActivationRequest)
    requires Inv(t) && AtFence(t, r, Loading)
    ensures r.tables != [] && r.groupId in t.groups && t.groups[r.groupId].state == Loading
  {
    hide Inv, GroupOk;
    GroupAtFence(t, r, Loading);
    CanonicalParts(r);
  }

  lemma ActivatedFromMoves(t: Target, r: ActivationRequest, moved: Target)
    requires Inv(t) && AtFence(t, r, Loading) && Ready(t, r) && Moved(t, r, AllMoves(t, r), moved)
    requires Plan(t, r, AllMoves(t, r), TargetsOf(r.tables), ShadowsOf(r.tables), DisplacedNames(t, r.fence.pipelineId))
    ensures |r.checkpoints| == 1 &&
      ActivatedTo(t, r, moved.(groups := moved.groups[r.groupId := Group(Active, r)], current := moved.current[r.fence.pipelineId := r.groupId],
        meta := t.meta.(checkpoints := t.meta.checkpoints[NodeKey(r.fence) := StoredCheckpoint(r.checkpoints[0], r.fence.token)])))
  {
    hide Inv, AtFence, Plan, TargetFree, AllMoves, DisplacedNames;
    FirstCheckpointIsFine(t, r);
    MovedPromotes(t, r, AllMoves(t, r), moved);
    MovedQuarantines(t, r, AllMoves(t, r), moved);
    MovedKeeps(t, r, AllMoves(t, r), moved);
    MovedLogs(t, r, AllMoves(t, r), moved);
    MovedRest(t, r, AllMoves(t, r), moved);
    hide Moved, QuarantineEntry, Elsewhere, Displaced, QuarantineName, NodeKey;
  }

  /** A confirmation asks for every position of the request, each reached on the stream it was recorded for. */
  lemma {:induction false} UnreachedExactly(m: Meta, cs: seq<NodeCheckpoint>)
    ensures FirstUnreached(m, cs).None? <==>
      forall i | 0 <= i < |cs| :: CheckpointReached(StoredAt(m, cs[i].key), cs[i]) == Ok(true)
  {
    hide CheckpointReached, StoredAt;
    if cs != [] {
      UnreachedExactly(m, cs[1..]);
      assert forall i | 1 <= i < |cs| :: cs[i] == cs[1..][i - 1];
    }
  }
}
