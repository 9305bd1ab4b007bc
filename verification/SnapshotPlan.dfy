/** The renames of one activation: in a reachable state none of them can fail. */
module SnapshotPlan {
  import opened Core
  import opened Checkpoint
  import opened Manifest
  import opened ManifestStore
  import opened Snapshot
  import opened SnapshotNames
  import opened SnapshotOps
  import opened SnapshotMoves
  import opened SnapshotInvariant
  import opened SnapshotClassify

  // ---- Growing a legal list -------------------------------------------------------------------

  ghost predicate NextLegal(t: Target, request: ActivationRequest, moves: seq<Move>, m: Move) {
    && m.source in t.managed && !Leaves(moves, m.source) && !Arrives(moves, m.source) && m.source != m.destination
    && !Arrives(moves, m.destination) && (m.destination in t.relations ==> Leaves(moves, m.destination))
    && (m.reason.Some? ==> (request.groupId, m.source) !in t.log)
  }

  lemma LegalGrows(t: Target, request: ActivationRequest, moves: seq<Move>, m: Move)
    requires Legal(t, request, moves) && NextLegal(t, request, moves, m)
    ensures Legal(t, request, moves + [m])
  {
    var all := moves + [m];
    forall i | 0 <= i < |all| && all[i].destination in t.relations ensures Leaves(all[..i], all[i].destination) {
      if i < |moves| { assert all[..i] == moves[..i] && all[i] == moves[i]; } else { assert all[..i] == moves; }
    }
    forall i, j | 0 <= i < j < |all| ensures all[i].source != all[j].source && all[i].destination != all[j].destination {
      assert all[i] == moves[i];
      if j == |moves| { assert all[j] == m; }
    }
    forall i, j | 0 <= i <= j < |all| ensures all[i].destination != all[j].source {
      if i < |moves| { assert all[i] == moves[i]; }
    }
  }

  lemma OneMore(moves: seq<Move>, m: Move, n: QualifiedName)
    ensures Leaves(moves + [m], n) <==> Leaves(moves, n) || m.source == n
    ensures Arrives(moves + [m], n) <==> Arrives(moves, n) || m.destination == n
  {
    var all := moves + [m];
    assert all[..|all| - 1] == moves && all[|all| - 1] == m;
    LeavesSplit(all, n);
  }

  // ---- What the renames of an activation come to ----------------------------------------------

  function ReasonFor(r: ActivationRequest, n: QualifiedName): Reason {
    if n in TargetsOf(r.tables) then Replaced else Stale
  }

  ghost predicate Promotes(t: Target, r: ActivationRequest, m: Move) {
    exists x | x in r.tables && x.shadow in t.managed :: m == PromoteMove(x, t.managed[x.shadow], r.fence.token)
  }

  ghost predicate Quarantines(t: Target, r: ActivationRequest, m: Move) {
    Displaced(t, r.fence.pipelineId, m.source) &&
    m == QuarantineMove(m.source, t.managed[m.source], r.fence.token, ReasonFor(r, m.source))
  }

  /** `q` is where one of the displaced tables goes. */
  ghost predicate QuarantineOf(t: Target, displaced: set<QualifiedName>, q: QualifiedName) {
    exists n | n in displaced && n in t.managed :: QuarantineName(n, t.managed[n]) == q
  }

  ghost predicate Departures(moves: seq<Move>, leaving: set<QualifiedName>) {
    forall n :: Leaves(moves, n) <==> n in leaving
  }

  ghost predicate Arrivals(t: Target, moves: seq<Move>, targets: set<QualifiedName>, displaced: set<QualifiedName>) {
    forall n :: Arrives(moves, n) <==> n in targets || QuarantineOf(t, displaced, n)
  }

  ghost predicate AllExplained(t: Target, r: ActivationRequest, moves: seq<Move>) {
    forall i | 0 <= i < |moves| :: Promotes(t, r, moves[i]) || Quarantines(t, r, moves[i])
  }

  lemma MoreDepartures(moves: seq<Move>, leaving: set<QualifiedName>, m: Move)
    requires Departures(moves, leaving)
    ensures Departures(moves + [m], leaving + {m.source})
  {
    hide Leaves;
    forall q ensures Leaves(moves + [m], q) <==> q in leaving + {m.source} { OneMore(moves, m, q); }
  }

  lemma MoreExplained(t: Target, r: ActivationRequest, moves: seq<Move>, m: Move)
    requires AllExplained(t, r, moves) && (Promotes(t, r, m) || Quarantines(t, r, m))
    ensures AllExplained(t, r, moves + [m])
  {
    hide Promotes, Quarantines;
    var all := moves + [m];
    forall i | 0 <= i < |all| ensures Promotes(t, r, all[i]) || Quarantines(t, r, all[i]) {
      if i < |moves| { assert all[i] == moves[i]; }
    }
  }

  /** Shadows and displaced tables leave; targets and quarantine names arrive. */
  ghost predicate Plan(t: Target, r: ActivationRequest, moves: seq<Move>, targets: set<QualifiedName>, shadows: set<QualifiedName>,
                       displaced: set<QualifiedName>) {
    && Legal(t, r, moves)
    && Departures(moves, shadows + displaced) && Arrivals(t, moves, targets, displaced)
    && AllExplained(t, r, moves)
    && (forall n | n in targets :: Plain(n)) && (forall n | n in shadows :: ShadowLike(n))
    && (forall n | n in displaced :: Displaced(t, r.fence.pipelineId, n))
  }

  lemma NothingPlanned(t: Target, r: ActivationRequest)
    requires Inv(t)
    ensures Plan(t, r, [], {}, {}, {})
  {
    NamesIn(t);
    hide Inv;
  }

  /** Quarantine names of different tables differ. */
  lemma QuarantinesApart(t: Target, a: QualifiedName, b: QualifiedName)
    requires Inv(t) && a in t.managed && b in t.managed && t.managed[a].state == ActiveTable && t.managed[b].state == ActiveTable
    requires QuarantineName(a, t.managed[a]) == QuarantineName(b, t.managed[b])
    ensures a == b
  {
    hide Inv;
    RowGroup(t, a);
    RowGroup(t, b);
    QuarantineNameTells(a, t.managed[a], b, t.managed[b]);
  }

  lemma NotLoggedYet(t: Target, g: GroupId, n: QualifiedName)
    requires Inv(t) && g in t.groups && t.groups[g].state == Loading
    ensures (g, n) !in t.log
  {
    if (g, n) in t.log {
      EntryIn(t, (g, n));
    }
    hide Inv;
  }

  lemma QuarantineIsLegal(t: Target, r: ActivationRequest, moves: seq<Move>, targets: set<QualifiedName>, shadows: set<QualifiedName>,
                          displaced: set<QualifiedName>, n: QualifiedName, m: Move)
    requires Inv(t) && AtFence(t, r, Loading) && Plan(t, r, moves, targets, shadows, displaced)
    requires Displaced(t, r.fence.pipelineId, n) && n !in displaced && n !in targets
    requires m == QuarantineMove(n, t.managed[n], r.fence.token, ReasonFor(r, n))
    ensures NextLegal(t, r, moves, m)
  {
    hide Inv, Legal, Leaves, Arrives, Promotes, Quarantines, Plain, ShadowLike, QuarantineLike, QuarantineName;
    ActiveIsPlain(t, n);
    NotPlain(n);
    QuarantineIsVacant(t, n);
    NotPlain(m.destination);
    NotLoggedYet(t, r.groupId, n);
    if QuarantineOf(t, displaced, m.destination) {
      var o :| o in displaced && o in t.managed && QuarantineName(o, t.managed[o]) == m.destination;
      QuarantinesApart(t, o, n);
    }
    if QuarantineOf(t, displaced, n) {
      var o :| o in displaced && o in t.managed && QuarantineName(o, t.managed[o]) == n;
      QuarantineNameLike(o, t.managed[o]);
    }
  }

  lemma PlanQuarantine(t: Target, r: ActivationRequest, moves: seq<Move>, targets: set<QualifiedName>, shadows: set<QualifiedName>,
                       displaced: set<QualifiedName>, n: QualifiedName)
    requires Inv(t) && AtFence(t, r, Loading) && Plan(t, r, moves, targets, shadows, displaced)
    requires Displaced(t, r.fence.pipelineId, n) && n !in displaced && n !in targets
    ensures Plan(t, r, moves + [QuarantineMove(n, t.managed[n], r.fence.token, ReasonFor(r, n))], targets, shadows, displaced + {n})
  {
    hide Inv, Legal, NextLegal, Promotes, Plain, ShadowLike, AtFence, QuarantineName, Departures, Arrivals, AllExplained;
    var m := QuarantineMove(n, t.managed[n], r.fence.token, ReasonFor(r, n));
    QuarantineIsLegal(t, r, moves, targets, shadows, displaced, n, m);
    LegalGrows(t, r, moves, m);
    MoreDepartures(moves, shadows + displaced, m);
    assert shadows + displaced + {n} == shadows + (displaced + {n});
    QuarantineArrives(t, moves, targets, displaced, n, m);
    MoreExplained(t, r, moves, m);
  }

  lemma QuarantineArrives(t: Target, moves: seq<Move>, targets: set<QualifiedName>, displaced: set<QualifiedName>, n: QualifiedName, m: Move)
    requires Arrivals(t, moves, targets, displaced) && n in t.managed && m.destination == QuarantineName(n, t.managed[n])
    ensures Arrivals(t, moves + [m], targets, displaced + {n})
  {
    hide Arrives, QuarantineOf, QuarantineName;
    forall q ensures Arrives(moves + [m], q) <==> q in targets || QuarantineOf(t, displaced + {n}, q) {
      OneMore(moves, m, q);
      MoreDisplaced(t, displaced, n, q);
    }
  }

  lemma MoreDisplaced(t: Target, displaced: set<QualifiedName>, n: QualifiedName, q: QualifiedName)
    requires n in t.managed
    ensures QuarantineOf(t, displaced + {n}, q) <==> QuarantineOf(t, displaced, q) || QuarantineName(n, t.managed[n]) == q
  {
    hide QuarantineName;
    if QuarantineName(n, t.managed[n]) == q { assert n in displaced + {n}; }
    if QuarantineOf(t, displaced, q) {
      var o :| o in displaced && o in t.managed && QuarantineName(o, t.managed[o]) == q;
      assert o in displaced + {n};
    }
  }

  lemma PromotionIsLegal(t: Target, r: ActivationRequest, moves: seq<Move>, targets: set<QualifiedName>, shadows: set<QualifiedName>,
                         displaced: set<QualifiedName>, x: ActivationTable, m: Move)
    requires Inv(t) && AtFence(t, r, Loading) && Plan(t, r, moves, targets, shadows, displaced)
    requires x in r.tables && x.shadow in t.managed && x.shadow !in shadows && x.target !in targets
    requires x.target in t.relations ==> x.target in displaced
    requires m == PromoteMove(x, t.managed[x.shadow], r.fence.token)
    ensures NextLegal(t, r, moves, m)
  {
    hide Inv, Legal, Leaves, Arrives, Promotes, Quarantines, Plain, ShadowLike, QuarantineLike, QuarantineName, PlannedRequest, RecordFits, GroupOk;
    GroupAtFence(t, r, Loading);
    RowNames(r, x);
    if x.shadow in displaced { ActiveIsPlain(t, x.shadow); }
    if QuarantineOf(t, displaced, x.shadow) {
      var o :| o in displaced && o in t.managed && QuarantineName(o, t.managed[o]) == x.shadow;
      QuarantineNameLike(o, t.managed[o]);
    }
    if QuarantineOf(t, displaced, x.target) {
      var o :| o in displaced && o in t.managed && QuarantineName(o, t.managed[o]) == x.target;
      QuarantineNameLike(o, t.managed[o]);
    }
  }

  lemma PlanPromotion(t: Target, r: ActivationRequest, moves: seq<Move>, targets: set<QualifiedName>, shadows: set<QualifiedName>,
                      displaced: set<QualifiedName>, x: ActivationTable)
    requires Inv(t) && AtFence(t, r, Loading) && Plan(t, r, moves, targets, shadows, displaced)
    requires x in r.tables && x.shadow in t.managed && x.shadow !in shadows && x.target !in targets
    requires x.target in t.relations ==> x.target in displaced
    ensures Plan(t, r, moves + [PromoteMove(x, t.managed[x.shadow], r.fence.token)], targets + {x.target}, shadows + {x.shadow}, displaced)
  {
    hide Inv, Legal, NextLegal, Plain, ShadowLike, AtFence, Departures, Arrivals, AllExplained;
    var m := PromoteMove(x, t.managed[x.shadow], r.fence.token);
    PromotionIsLegal(t, r, moves, targets, shadows, displaced, x, m);
    LegalGrows(t, r, moves, m);
    PromotedNames(t, r, x);
    MoreDepartures(moves, shadows + displaced, m);
    assert shadows + displaced + {x.shadow} == (shadows + {x.shadow}) + displaced;
    PromotionArrives(t, moves, targets, displaced, m);
    MoreExplained(t, r, moves, m);
  }

  lemma PromotedNames(t: Target, r: ActivationRequest, x: ActivationTable)
    requires Inv(t) && AtFence(t, r, Loading) && x in r.tables
    ensures Plain(x.target) && ShadowLike(x.shadow)
  {
    hide Inv, AtFence, Plain, ShadowLike, QuarantineLike, RecordFits, PlannedRequest, GroupOk;
    GroupAtFence(t, r, Loading);
    RowNames(r, x);
  }

  lemma PromotionArrives(t: Target, moves: seq<Move>, targets: set<QualifiedName>, displaced: set<QualifiedName>, m: Move)
    requires Arrivals(t, moves, targets, displaced)
    ensures Arrivals(t, moves + [m], targets + {m.destination}, displaced)
  {
    hide Arrives, QuarantineOf;
    forall q ensures Arrives(moves + [m], q) <==> q in targets + {m.destination} || QuarantineOf(t, displaced, q) { OneMore(moves, m, q); }
  }

  // ---- The whole list -------------------------------------------------------------------------

  /** Every table of the group was loaded, and no foreign relation is in the way. */
  ghost predicate Ready(t: Target, r: ActivationRequest) {
    forall x | x in r.tables :: x.shadow in t.managed && TargetFree(t, r, x)
  }

  ghost function ClassifiedOf(t: Target, tables: seq<ActivationTable>): (r: seq<Classified>)
    requires forall x | x in tables :: x.shadow in t.managed
    ensures |r| == |tables|
    ensures forall i | 0 <= i < |r| :: r[i] == Pending(t.managed[tables[i].shadow], PreviousAt(t, tables[i].target))
  {
    seq(|tables|, i requires 0 <= i < |tables| => Pending(t.managed[tables[i].shadow], PreviousAt(t, tables[i].target)))
  }

  lemma ClassifiesWhenReady(t: Target, r: ActivationRequest)
    requires Inv(t) && AtFence(t, r, Loading)
    ensures ClassifyAll(t, r.tables, r.fence, r.groupId).Ok? <==> Ready(t, r)
    ensures Ready(t, r) ==> ClassifyAll(t, r.tables, r.fence, r.groupId) == Ok(ClassifiedOf(t, r.tables))
  {
    hide Inv, AtFence, Classify, TargetFree, ClassifyAll;
    forall i | 0 <= i < |r.tables|
      ensures Classify(t, r.tables[i], r.fence, r.groupId).Ok? <==> r.tables[i].shadow in t.managed && TargetFree(t, r, r.tables[i])
      ensures Ready(t, r) ==>
        Classify(t, r.tables[i], r.fence, r.groupId) == Ok(Pending(t.managed[r.tables[i].shadow], PreviousAt(t, r.tables[i].target)))
    {
      ClassifyLoading(t, r, r.tables[i]);
    }
    if ClassifyAll(t, r.tables, r.fence, r.groupId).Ok? {
      forall x | x in r.tables ensures x.shadow in t.managed && TargetFree(t, r, x) {
        var i :| 0 <= i < |r.tables| && r.tables[i] == x;
        assert Classify(t, r.tables[i], r.fence, r.groupId).Ok?;
      }
      assert ClassifyAll(t, r.tables, r.fence, r.groupId).value == ClassifiedOf(t, r.tables);
    }
  }

  /** Names under which something of the pipeline will be displaced, out of the first `k` targets. */
  function Taken(t: Target, tables: seq<ActivationTable>): set<QualifiedName> {
    set x | x in tables && x.target in t.managed :: x.target
  }

  ghost predicate PlannedUpTo(t: Target, r: ActivationRequest, k: nat) {
    Ready(t, r) && k <= |r.tables| && Plan(t, r, MovesUpTo(t, r, k), TargetsOf(r.tables[..k]), ShadowsOf(r.tables[..k]), Taken(t, r.tables[..k]))
  }

  ghost function MovesUpTo(t: Target, r: ActivationRequest, k: nat): seq<Move>
    requires Ready(t, r) && k <= |r.tables|
  {
    TableMoves(r.tables[..k], ClassifiedOf(t, r.tables[..k]), r.fence.token)
  }

  lemma {:induction false} TablesPlanned(t: Target, r: ActivationRequest, k: nat)
    requires Inv(t) && AtFence(t, r, Loading) && Ready(t, r) && k <= |r.tables|
    ensures PlannedUpTo(t, r, k)
    decreases k
  {
    hide Inv, AtFence, Plan, TargetFree;
    if k == 0 {
      NothingPlanned(t, r);
      assert MovesUpTo(t, r, 0) == [] && r.tables[..0] == [];
      assert TargetsOf(r.tables[..0]) == {} && ShadowsOf(r.tables[..0]) == {} && Taken(t, r.tables[..0]) == {};
    } else {
      TablesPlanned(t, r, k - 1);
      TablePlanned(t, r, k - 1);
    }
  }

  lemma TablePlanned(t: Target, r: ActivationRequest, k: nat)
    requires Inv(t) && AtFence(t, r, Loading) && k < |r.tables| && PlannedUpTo(t, r, k)
    ensures PlannedUpTo(t, r, k + 1)
  {
    hide Inv, AtFence, Plan, TargetFree, MovesUpTo, TargetsOf, ShadowsOf, Taken, QuarantineMove, PromoteMove, ReasonFor;
    var ts, x, moves := r.tables[..k], r.tables[k], MovesUpTo(t, r, k);
    TableIsNew(t, r, k);
    MovesSplit(t, r, k);
    SetsGrow(t, r, k);
    assert x.shadow in t.managed;
    if x.target in t.managed {
      PlanQuarantine(t, r, moves, TargetsOf(ts), ShadowsOf(ts), Taken(t, ts), x.target);
      var first := QuarantineMove(x.target, t.managed[x.target], r.fence.token, Replaced);
      PlanPromotion(t, r, moves + [first], TargetsOf(ts), ShadowsOf(ts), Taken(t, ts) + {x.target}, x);
      assert moves + [first] + [PromoteMove(x, t.managed[x.shadow], r.fence.token)] == MovesUpTo(t, r, k + 1);
    } else {
      PlanPromotion(t, r, moves, TargetsOf(ts), ShadowsOf(ts), Taken(t, ts), x);
      assert moves + [PromoteMove(x, t.managed[x.shadow], r.fence.token)] == MovesUpTo(t, r, k + 1);
    }
  }

  lemma TableIsNew(t: Target, r: ActivationRequest, k: nat)
    requires Inv(t) && AtFence(t, r, Loading) && Ready(t, r) && k < |r.tables|
    ensures var x := r.tables[k];
      && x in r.tables && x.target !in TargetsOf(r.tables[..k]) && x.shadow !in ShadowsOf(r.tables[..k]) && x.target !in Taken(t, r.tables[..k])
      && (x.target in t.managed ==> Displaced(t, r.fence.pipelineId, x.target)) && ReasonFor(r, x.target) == Replaced
      && (x.target in t.relations ==> x.target in t.managed)
  {
    hide Inv, PlannedRequest, GroupOk;
    var x := r.tables[k];
    GroupAtFence(t, r, Loading);
    forall y | y in r.tables[..k] ensures y.target != x.target && y.shadow != x.shadow {
      var i :| 0 <= i < k && r.tables[i] == y;
      if r.tables[i].target == x.target || r.tables[i].shadow == x.shadow {
        PlannedApart(r, y, x);
        TablesDiffer(r, i, k);
      }
    }
    PreviousTable(t, r, x);
    hide AtFence;
    assert TargetFree(t, r, x);
  }

  lemma TablesDiffer(r: ActivationRequest, i: nat, j: nat)
    requires PlannedRequest(r) && i < j < |r.tables|
    ensures r.tables[i] != r.tables[j]
  {
    hide PlannedRequest, Canonical, CanonicalTables, CanonicalNodes;
    PlanIsCanonical(r);
    if r.tables[i] == r.tables[j] { CanonicalTargetsApart(r.tables, i, j); }
  }

  lemma MovesSplit(t: Target, r: ActivationRequest, k: nat)
    requires Ready(t, r) && k < |r.tables|
    ensures var x := r.tables[k];
      && x.shadow in t.managed
      && MovesUpTo(t, r, k + 1) == MovesUpTo(t, r, k) +
           ((if x.target in t.managed then [QuarantineMove(x.target, t.managed[x.target], r.fence.token, Replaced)] else []) +
            [PromoteMove(x, t.managed[x.shadow], r.fence.token)])
  {
    hide TargetFree;
    var ts, more := r.tables[..k], r.tables[..k + 1];
    assert more[..k] == ts && more[k] == r.tables[k];
    assert ClassifiedOf(t, more)[..k] == ClassifiedOf(t, ts);
    hide QuarantineMove, PromoteMove;
  }

  lemma SetsGrow(t: Target, r: ActivationRequest, k: nat)
    requires k < |r.tables|
    ensures var ts, more, x := r.tables[..k], r.tables[..k + 1], r.tables[k];
      && TargetsOf(more) == TargetsOf(ts) + {x.target} && ShadowsOf(more) == ShadowsOf(ts) + {x.shadow}
      && Taken(t, more) == if x.target in t.managed then Taken(t, ts) + {x.target} else Taken(t, ts)
  {
    var ts, more, x := r.tables[..k], r.tables[..k + 1], r.tables[k];
    assert more == ts + [x];
    assert forall y :: y in more <==> y in ts || y == x;
  }

  ghost predicate StaleAdded(t: Target, r: ActivationRequest, moves: seq<Move>, stale: seq<QualifiedName>, taken: set<QualifiedName>) {
    (forall n | n in stale :: n in t.managed) &&
    Plan(t, r, moves + StaleMoves(t, stale, r.fence.token), TargetsOf(r.tables), ShadowsOf(r.tables), taken + Names(stale))
  }

  lemma {:induction false} StalePlanned(t: Target, r: ActivationRequest, moves: seq<Move>, stale: seq<QualifiedName>, taken: set<QualifiedName>)
    requires Inv(t) && AtFence(t, r, Loading) && Distinct(stale)
    requires forall n | n in stale :: Displaced(t, r.fence.pipelineId, n) && n !in TargetsOf(r.tables) && n !in taken
    requires Plan(t, r, moves, TargetsOf(r.tables), ShadowsOf(r.tables), taken)
    ensures StaleAdded(t, r, moves, stale, taken)
    decreases |stale|
  {
    hide Inv, AtFence, Plan;
    if stale == [] {
      assert moves + StaleMoves(t, stale, r.fence.token) == moves;
      assert taken + Names(stale) == taken;
    } else {
      var init, n := stale[..|stale| - 1], stale[|stale| - 1];
      assert stale == init + [n];
      StalePlanned(t, r, moves, init, taken);
      assert Names(stale) == Names(init) + {n};
      assert taken + Names(stale) == taken + Names(init) + {n};
      StaleSplit(t, moves, init, n, r.fence.token);
      PlanQuarantine(t, r, moves + StaleMoves(t, init, r.fence.token), TargetsOf(r.tables), ShadowsOf(r.tables), taken + Names(init), n);
    }
  }

  lemma StaleSplit(t: Target, moves: seq<Move>, init: seq<QualifiedName>, n: QualifiedName, token: int)
    requires n in t.managed && forall x | x in init :: x in t.managed
    ensures forall x | x in init + [n] :: x in t.managed
    ensures moves + StaleMoves(t, init + [n], token) == moves + StaleMoves(t, init, token) + [QuarantineMove(n, t.managed[n], token, Stale)]
  {
    hide QuarantineMove;
    assert StaleMoves(t, init + [n], token) == StaleMoves(t, init, token) + [QuarantineMove(n, t.managed[n], token, Stale)];
  }

  /** Everything an activation displaces. */
  ghost function DisplacedNames(t: Target, p: PipelineId): set<QualifiedName> {
    set n | n in t.managed && Displaced(t, p, n)
  }

  ghost function AllMoves(t: Target, r: ActivationRequest): seq<Move>
    requires Ready(t, r)
  {
    TableMoves(r.tables, ClassifiedOf(t, r.tables), r.fence.token) + StaleMoves(t, InOrder(StaleNames(t, r)), r.fence.token)
  }

  lemma ActivationPlanned(t: Target, r: ActivationRequest)
    requires Inv(t) && AtFence(t, r, Loading) && Ready(t, r)
    ensures Plan(t, r, AllMoves(t, r), TargetsOf(r.tables), ShadowsOf(r.tables), DisplacedNames(t, r.fence.pipelineId))
  {
    hide Inv, AtFence, Plan, InOrder;
    var stale := InOrder(StaleNames(t, r));
    TablesPlanned(t, r, |r.tables|);
    assert r.tables[..|r.tables|] == r.tables;
    assert MovesUpTo(t, r, |r.tables|) == TableMoves(r.tables, ClassifiedOf(t, r.tables), r.fence.token);
    StalePlanned(t, r, TableMoves(r.tables, ClassifiedOf(t, r.tables), r.fence.token), stale, Taken(t, r.tables));
    TakenAndStale(t, r);
  }

  lemma TakenAndStale(t: Target, r: ActivationRequest)
    requires Inv(t) && AtFence(t, r, Loading) && Ready(t, r)
    ensures Taken(t, r.tables) + Names(InOrder(StaleNames(t, r))) == DisplacedNames(t, r.fence.pipelineId)
  {
    hide Inv, AtFence, InOrder;
    forall n ensures n in Taken(t, r.tables) + Names(InOrder(StaleNames(t, r))) <==> n in DisplacedNames(t, r.fence.pipelineId) {
      if n in Taken(t, r.tables) {
        var x :| x in r.tables && x.target == n;
        assert TargetFree(t, r, x);
        PreviousTable(t, r, x);
      }
    }
  }
}
