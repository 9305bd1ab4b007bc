/** A small run in which a later owner is refused: one pipeline, one table, one change of owner. */
module SnapshotExample {
  import opened Core
  import opened Checkpoint
  import opened Framing
  import opened PrintedNames
  import opened Sorting
  import opened Manifest
  import opened ManifestStore
  import opened Snapshot
  import opened SnapshotNames
  import opened SnapshotOps
  import opened SnapshotInvariant
  import opened SnapshotSteps
  import opened SnapshotClassify
  import opened SnapshotPlan
  import opened SnapshotOutcome
  import opened SnapshotRuns
  import opened SnapshotResume

  const FIRST: Fence := Fence(7, 0, 1)
  const LATER: Fence := Fence(7, 0, 2)
  const ORDERS: QualifiedName := QualifiedName([112], [111])

  const TABLE: ActivationTable := ActivationTable(ORDERS, ShadowName([112], 7, 1, 1), 1, 0, [1])

  const NODE: NodeCheckpoint := NodeCheckpoint(CheckpointKey(7, 0, 1), 1, 1, [115], 16)

  const REQUEST: ActivationRequest := ActivationRequest(FIRST, 1, [TABLE], [NODE])

  const EMPTY: Target := Target(0, Meta(map[], map[]), map[], map[], map[], map[], 0, map[])

  const RUN: seq<Action> := [TakesFence(FIRST), Registers(REQUEST), Loads(FIRST, 1, TABLE), Activates(REQUEST), TakesFence(LATER)]

  lemma TablesCanonical()
    ensures CanonicalTables([TABLE]) == Ok([TABLE])
  {
    hide ShadowName, ShadowText, Decimal, Hexadecimal, Shortened;
    assert ORDERS != TABLE.shadow by { assert ShadowLike(TABLE.shadow); assert |ORDERS.name| == 1; }
    assert Sort(TableLess, [TABLE]) == [TABLE] by { SortOne(TableLess, TABLE); }
    assert RelationNames([TABLE]) == [ORDERS, TABLE.shadow] by { assert [TABLE][..0] == []; assert RelationNames([]) == []; }
    assert ValidateTable(TABLE).None?;
    assert forall x | x in [TABLE] :: x == TABLE;
    hide Sort, RelationNames, ValidateTable;
  }

  lemma SortOne<T(!new)>(less: (T, T) -> bool, x: T)
    ensures Sort(less, [x]) == [x]
  {
    SameMembers(Sort(less, [x]), [x]);
    assert |Sort(less, [x])| == |multiset([x])| == 1;
  }

  lemma NodesCanonical()
    ensures CanonicalNodes(FIRST, [NODE]) == Ok([NODE])
  {
    assert Sort(NodeLess, [NODE]) == [NODE] by { SortOne(NodeLess, NODE); }
    assert ValidateNode(FIRST, NODE).None?;
    assert forall x | x in [NODE] :: x == NODE;
    hide Sort, ValidateNode;
  }

  lemma SmallRanges()
    ensures 7 < Range(16)
  {
    RangeOf8();
    assert Range(9) >= Range(8) && Range(10) >= Range(9) && Range(11) >= Range(10) && Range(12) >= Range(11);
    assert Range(13) >= Range(12) && Range(14) >= Range(13) && Range(15) >= Range(14) && Range(16) >= Range(15);
  }

  lemma ShadowLength()
    ensures |TABLE.shadow.name| == 49
  {
    var text := ShadowText(7, 1, 1);
    assert |Decimal(1)| == 1 && |Hexadecimal(BigEndian(7, 16))| == 32;
    assert |text| == 49;
    assert Shortened(text) == text;
  }

  lemma RequestIsPlanned()
    ensures PlannedRequest(REQUEST)
  {
    hide ShadowName, ShadowText, Decimal, Hexadecimal, Shortened;
    TablesCanonical();
    NodesCanonical();
    SmallRanges();
    hide CanonicalTables, CanonicalNodes, Range;
    assert Canonical(REQUEST) == Ok(REQUEST);
    assert PlannedTable(FIRST, TABLE) by {
      assert ORDERS.name[0] != SHADOW_PREFIX[0] && ORDERS.name[0] != QUARANTINE_PREFIX[0];
      ShadowLength();
    }
    hide PlannedTable, Canonical;
    assert TableFits(TABLE) by { ShadowLength(); }
    assert forall x | x in REQUEST.tables :: x == TABLE;
    assert PlanOk(REQUEST);
  }

  /** After one complete initial snapshot, the next owner of the lease is refused although nothing changed. */
  lemma LaterOwnerRefused()
    ensures Untouched(EMPTY) && ValidRun(EMPTY, RUN)
    ensures var s := AfterAll(EMPTY, RUN);
      LockFence(s.meta, LATER).None? && NodeKey(LATER) in s.meta.checkpoints && ValidateActive(s, LATER, Replanned([TABLE], LATER)).Err?
  {
    hide ShadowName, ShadowText, Decimal, Hexadecimal, Shortened;
    RequestIsPlanned();
    hide PlannedRequest, ValidateActive, Replanned, Inv;
    UntouchedIsFine(EMPTY);
    var t1 := After(EMPTY, RUN[0]);
    var t2 := Registered(t1);
    var t3 := LoadedOnce(t1, t2);
    var t4 := ActivatedOnce(t3);
    var t5 := Refused(t4);
    RunUnfolds(t1, t2, t3, t4, t5);
  }

  lemma Registered(t: Target) returns (s: Target)
    requires t == TakeFence(EMPTY, FIRST) && PlannedRequest(REQUEST) && Inv(EMPTY)
    ensures Inv(t) && s == Register(t, REQUEST) && s == t.(groups := map[1 := Group(Loading, REQUEST)]) && Inv(s) && MayRegister(t, REQUEST)
    ensures LockFence(s.meta, FIRST).None? && t.groups == map[] && t.relations == map[] && t.managed == map[]
  {
    hide ShadowName, ShadowText, Decimal, Hexadecimal, Shortened;
    hide PlannedRequest, Inv;
    TakingAFenceKeeps(EMPTY, FIRST);
    assert Canonical(REQUEST) == Ok(REQUEST) by { PlanIsCanonical(REQUEST); }
    hide Canonical;
    s := Register(t, REQUEST);
    assert t.groups[1 := Group(Loading, REQUEST)] == map[1 := Group(Loading, REQUEST)];
    RegisteringKeeps(t, REQUEST);
  }

  lemma LoadedOnce(t: Target, u: Target) returns (s: Target)
    requires t.groups == map[] && t.relations == map[] && t.managed == map[] && u == t.(groups := map[1 := Group(Loading, REQUEST)])
    requires Inv(u) && LockFence(u.meta, FIRST).None?
    ensures s == Settled(u, LoadShadow(u, FIRST, 1, TABLE)) && Inv(s) && s.meta == u.meta && s.groups == u.groups
    ensures TABLE.shadow in s.managed && ORDERS !in s.relations
  {
    hide ShadowName, ShadowText, Decimal, Hexadecimal, Shortened;
    hide Inv, LockFence;
    assert AtFence(u, REQUEST, Loading);
    assert TABLE in REQUEST.tables;
    assert TargetFree(u, REQUEST, TABLE);
    LoadAcceptedExactly(u, REQUEST, TABLE);
    LoadingKeeps(u, FIRST, 1, TABLE);
    LoadFinds(u, FIRST, 1, TABLE);
    s := Settled(u, LoadShadow(u, FIRST, 1, TABLE));
    assert ORDERS != TABLE.shadow by { assert ShadowLike(TABLE.shadow); assert |ORDERS.name| == 1; }
    hide LoadShadow;
  }

  lemma ActivatedOnce(t: Target) returns (s: Target)
    requires Inv(t) && t.groups == map[1 := Group(Loading, REQUEST)] && LockFence(t.meta, FIRST).None?
    requires TABLE.shadow in t.managed && ORDERS !in t.relations && PlannedRequest(REQUEST)
    ensures s == Settled(t, First(ActivateGroup(t, REQUEST))) && Inv(s)
    ensures s.groups == map[1 := Group(Active, REQUEST)] && s.current == t.current[7 := 1] && NodeKey(FIRST) in s.meta.checkpoints
    ensures s.meta.fences == t.meta.fences
  {
    hide ShadowName, ShadowText, Decimal, Hexadecimal, Shortened;
    hide Inv, LockFence, Canonical, ActivateGroup, Promoted, Quarantined, OthersStay, LogGrows, PlannedRequest;
    PlanIsCanonical(REQUEST);
    assert Ready(t, REQUEST) by { assert forall x | x in REQUEST.tables :: x == TABLE; }
    hide Ready;
    ActivationAcceptedExactly(t, REQUEST);
    s := Settled(t, First(ActivateGroup(t, REQUEST)));
    assert t.groups[1 := Group(Active, REQUEST)] == map[1 := Group(Active, REQUEST)];
  }

  lemma Refused(t: Target) returns (s: Target)
    requires Inv(t) && t.groups == map[1 := Group(Active, REQUEST)] && 7 in t.current && t.current[7] == 1 && NodeKey(FIRST) in t.meta.checkpoints
    requires 7 in t.meta.fences && t.meta.fences[7] == RowOfFence(FIRST)
    ensures s == TakeFence(t, LATER) && LockFence(s.meta, LATER).None? && NodeKey(LATER) in s.meta.checkpoints
    ensures ValidateActive(s, LATER, Replanned([TABLE], LATER)).Err?
  {
    hide ShadowName, ShadowText, Decimal, Hexadecimal, Shortened;
    hide Inv, ValidateActive;
    TakingAFenceKeeps(t, LATER);
    s := TakeFence(t, LATER);
    ResumeNeedsTheSameToken(s, LATER);
    assert RegisteredTables(s, 7) == [TABLE];
    hide Replanned;
  }

  lemma RunUnfolds(t1: Target, t2: Target, t3: Target, t4: Target, t5: Target)
    requires t1 == TakeFence(EMPTY, FIRST) && t2 == Register(t1, REQUEST) && MayRegister(t1, REQUEST)
    requires t3 == Settled(t2, LoadShadow(t2, FIRST, 1, TABLE)) && t4 == Settled(t3, First(ActivateGroup(t3, REQUEST))) && t5 == TakeFence(t4, LATER)
    ensures ValidRun(EMPTY, RUN) && AfterAll(EMPTY, RUN) == t5
  {
    hide ShadowName, ShadowText, Decimal, Hexadecimal, Shortened;
    hide TakeFence, Register, MayRegister, LoadShadow, ActivateGroup, Settled, First;
    var r1, r2, r3, r4 := RUN[1..], RUN[2..], RUN[3..], RUN[4..];
    assert r1[1..] == r2 && r2[1..] == r3 && r3[1..] == r4 && r4[1..] == [];
    assert AfterAll(t5, []) == t5 && ValidRun(t5, []);
    assert r4[0] == TakesFence(LATER) && AfterAll(t4, r4) == t5 && ValidRun(t4, r4);
    assert r3[0] == Activates(REQUEST) && AfterAll(t3, r3) == t5 && ValidRun(t3, r3);
    assert r2[0] == Loads(FIRST, 1, TABLE) && AfterAll(t2, r2) == t5 && ValidRun(t2, r2);
    assert r1[0] == Registers(REQUEST) && AfterAll(t1, r1) == t5 && ValidRun(t1, r1);
  }
}
