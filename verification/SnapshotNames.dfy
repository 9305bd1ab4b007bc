/** The names a run gives to shadows and quarantined tables, and what they tell apart. */
module SnapshotNames {
  import opened Core
  import opened Checkpoint
  import opened Framing
  import opened PrintedNames
  import opened Manifest
  import opened ManifestStore
  import opened Snapshot

  predicate QuarantineLike(n: QualifiedName) {
    QUARANTINE_PREFIX <= n.name
  }

  predicate ShadowLike(n: QualifiedName) {
    SHADOW_PREFIX <= n.name
  }

  /** A name outside the two reserved families. */
  predicate Plain(n: QualifiedName) {
    !QuarantineLike(n) && !ShadowLike(n)
  }

  lemma FamiliesApart(n: QualifiedName)
    ensures !(QuarantineLike(n) && ShadowLike(n))
  {
    assert QUARANTINE_PREFIX[6] != SHADOW_PREFIX[6];
  }

  /** A shadow is named after its pipeline, source relation and the lease token of the attempt. */
  function ShadowText(pipelineId: PipelineId, sourceRelationId: nat, token: nat): (r: Bytes)
    ensures SHADOW_PREFIX <= r
  {
    SHADOW_PREFIX + (Hexadecimal(BigEndian(pipelineId, 16)) +
      ([UNDERSCORE] + (Decimal(sourceRelationId) + ([UNDERSCORE] + Decimal(token)))))
  }

  function ShadowName(schema: Bytes, pipelineId: PipelineId, sourceRelationId: nat, token: nat): (r: QualifiedName)
    ensures ShadowLike(r) && r.schema == schema
  {
    QualifiedName(schema, Shortened(ShadowText(pipelineId, sourceRelationId, token)))
  }

  lemma ShadowNameTells(s1: Bytes, p1: PipelineId, r1: nat, k1: nat, s2: Bytes, p2: PipelineId, r2: nat, k2: nat)
    requires p1 < Range(16) && p2 < Range(16)
    requires ShadowName(s1, p1, r1, k1) == ShadowName(s2, p2, r2, k2)
    ensures s1 == s2 && p1 == p2 && r1 == r2 && k1 == k2
  {
    hide BigEndian, Range, Decimal, Hexadecimal, Shortened, ShadowText;
    ShortenedInjective(ShadowText(p1, r1, k1), ShadowText(p2, r2, k2));
    ShadowTextTells(p1, r1, k1, p2, r2, k2);
  }

  lemma ShadowTextTells(p1: PipelineId, r1: nat, k1: nat, p2: PipelineId, r2: nat, k2: nat)
    requires p1 < Range(16) && p2 < Range(16) && ShadowText(p1, r1, k1) == ShadowText(p2, r2, k2)
    ensures p1 == p2 && r1 == r2 && k1 == k2
  {
    hide BigEndian, Range, Decimal, Hexadecimal;
    var h1, h2 := Hexadecimal(BigEndian(p1, 16)), Hexadecimal(BigEndian(p2, 16));
    var x1, x2 := Decimal(r1) + ([UNDERSCORE] + Decimal(k1)), Decimal(r2) + ([UNDERSCORE] + Decimal(k2));
    SamePrefix(SHADOW_PREFIX, SHADOW_PREFIX, h1 + ([UNDERSCORE] + x1), h2 + ([UNDERSCORE] + x2));
    SamePrefix(h1, h2, [UNDERSCORE] + x1, [UNDERSCORE] + x2);
    SamePrefix([UNDERSCORE], [UNDERSCORE], x1, x2);
    SplitAtUnderscore(Decimal(r1), Decimal(r2), Decimal(k1), Decimal(k2));
    HexadecimalInjective(BigEndian(p1, 16), BigEndian(p2, 16));
    BigEndianInjective(p1, p2, 16);
    DecimalInjective(r1, r2);
    DecimalInjective(k1, k2);
  }

  /** Field widths of a row and the name it stands under. */
  ghost predicate RecordFits(n: QualifiedName, r: Record) {
    && |n.schema| <= USIZE_MAX && |n.name| <= USIZE_MAX && |r.fingerprint| <= USIZE_MAX && r.pipelineId < Range(16)
    && r.sourceRelationId < Range(4) && r.tableGeneration < Range(8) && 0 <= r.token < Range(8)
  }

  lemma QuarantineNameLike(n: QualifiedName, r: Record)
    ensures QuarantineLike(QuarantineName(n, r)) && QuarantineName(n, r).schema == n.schema
  {
  }

  /** A quarantine name tells which table it came from and which row described it. */
  lemma QuarantineNameTells(a: QualifiedName, q: Record, b: QualifiedName, r: Record)
    requires RecordFits(a, q) && RecordFits(b, r) && QuarantineName(a, q) == QuarantineName(b, r)
    ensures a == b && q.pipelineId == r.pipelineId && q.token == r.token && q.sourceRelationId == r.sourceRelationId
    ensures q.tableGeneration == r.tableGeneration && q.fingerprint == r.fingerprint
  {
    SamePrefix(QUARANTINE_PREFIX, QUARANTINE_PREFIX, QuarantineBytes(a, q), QuarantineBytes(b, r));
    QuarantineBytesTell(a, q, b, r);
  }

  lemma QuarantineBytesTell(a: QualifiedName, q: Record, b: QualifiedName, r: Record)
    requires RecordFits(a, q) && RecordFits(b, r) && QuarantineBytes(a, q) == QuarantineBytes(b, r)
    ensures a == b && q.pipelineId == r.pipelineId && q.token == r.token && q.sourceRelationId == r.sourceRelationId
    ensures q.tableGeneration == r.tableGeneration && q.fingerprint == r.fingerprint
  {
    hide Field, BigEndian, Range;
    var a7, b7 := Field(BigEndian(q.token, 8)), Field(BigEndian(r.token, 8));
    var a6, b6 := Field(q.fingerprint) + a7, Field(r.fingerprint) + b7;
    var a5, b5 := Field(BigEndian(q.tableGeneration, 8)) + a6, Field(BigEndian(r.tableGeneration, 8)) + b6;
    var a4, b4 := Field(BigEndian(q.sourceRelationId, 4)) + a5, Field(BigEndian(r.sourceRelationId, 4)) + b5;
    var a3, b3 := Field(BigEndian(q.pipelineId, 16)) + a4, Field(BigEndian(r.pipelineId, 16)) + b4;
    var a2, b2 := Field(a.name) + a3, Field(b.name) + b3;
    FieldPrefix(a.schema, b.schema, a2, b2);
    FieldPrefix(a.name, b.name, a3, b3);
    NumberPrefix(q.pipelineId, r.pipelineId, 16, a4, b4);
    NumberPrefix(q.sourceRelationId, r.sourceRelationId, 4, a5, b5);
    NumberPrefix(q.tableGeneration, r.tableGeneration, 8, a6, b6);
    FieldPrefix(q.fingerprint, r.fingerprint, a7, b7);
    assert a7 + [] == a7 && b7 + [] == b7;
    NumberPrefix(q.token, r.token, 8, [], []);
  }

  // ---- What a run registers -------------------------------------------------------------------

  const STANDALONE_NODE: int := 1

  function NodeKey(f: Fence): CheckpointKey {
    CheckpointKey(f.pipelineId, f.generation, STANDALONE_NODE)
  }

  /** A table as a run plans it: ordinary target, shadow named after the attempt, the run's generation. */
  ghost predicate PlannedTable(f: Fence, x: ActivationTable) {
    && Plain(x.target) && f.token >= 0
    && x.shadow == ShadowName(x.target.schema, f.pipelineId, x.sourceRelationId, f.token)
    && x.tableGeneration == f.generation && TableFits(x)
  }

  /** A canonical request as a run of one source node makes it. */
  ghost predicate PlanOk(r: ActivationRequest) {
    && Canonical(r) == Ok(r) && RequestFits(r) && 0 < r.fence.token <= I64_MAX && r.fence.generation <= I64_MAX && r.fence.pipelineId < Range(16)
    && |r.checkpoints| == 1 && r.checkpoints[0].key == NodeKey(r.fence)
    && (forall x | x in r.tables :: PlannedTable(r.fence, x))
  }

  /** The same, worded so that the solver takes it apart only where a proof names `PlanOk`. */
  ghost predicate PlannedRequest(r: ActivationRequest) {
    forall q | q == r :: PlanOk(q)
  }

  lemma PlanIsCanonical(q: ActivationRequest)
    requires PlannedRequest(q)
    ensures Canonical(q) == Ok(q) && CanonicalTables(q.tables) == Ok(q.tables) && CanonicalNodes(q.fence, q.checkpoints) == Ok(q.checkpoints)
    ensures q.groupId != 0 && q.tables != []
  {
    hide Canonical, CanonicalTables, CanonicalNodes, RequestFits, PlannedTable, Range;
    assert PlanOk(q);
    CanonicalParts(q);
  }

  lemma PlanBounds(q: ActivationRequest)
    requires PlannedRequest(q)
    ensures 0 < q.fence.token <= I64_MAX && q.fence.generation <= I64_MAX && q.fence.pipelineId < Range(16)
    ensures |q.checkpoints| == 1 && q.checkpoints[0].key == NodeKey(q.fence)
    ensures forall x | x in q.tables :: PlannedTable(q.fence, x)
  {
    hide Canonical, RequestFits, PlannedTable, Range;
    assert PlanOk(q);
  }

  lemma PlannedApart(r: ActivationRequest, x: ActivationTable, y: ActivationTable)
    requires PlannedRequest(r) && x in r.tables && y in r.tables
    ensures x.target == y.target || x.sourceRelationId == y.sourceRelationId || x.shadow == y.shadow ==> x == y
    ensures x.target != y.shadow
  {
    hide PlannedRequest, Canonical, CanonicalTables, CanonicalNodes, ShadowName, RequestFits, TableFits, Range;
    PlanIsCanonical(r);
    PlanBounds(r);
    var i :| 0 <= i < |r.tables| && r.tables[i] == x;
    var j :| 0 <= j < |r.tables| && r.tables[j] == y;
    if x.shadow == y.shadow { ShadowsApart(r.fence, x, y); }
    if x.target == y.target || x.sourceRelationId == y.sourceRelationId { CanonicalTargetsApart(r.tables, i, j); }
  }

  lemma ShadowsApart(f: Fence, x: ActivationTable, y: ActivationTable)
    requires PlannedTable(f, x) && PlannedTable(f, y) && f.token <= I64_MAX && f.pipelineId < Range(16) && x.shadow == y.shadow
    ensures x.sourceRelationId == y.sourceRelationId
  {
    TableWidths(f, x);
    TableWidths(f, y);
    ShadowNameTells(x.target.schema, f.pipelineId, x.sourceRelationId, f.token,
                    y.target.schema, f.pipelineId, y.sourceRelationId, f.token);
  }

  lemma TableWidths(f: Fence, x: ActivationTable)
    requires PlannedTable(f, x) && f.token <= I64_MAX
    ensures x.sourceRelationId < Range(4) && x.tableGeneration < Range(8) && f.token < Range(8)
  {
    RangeOf8();
  }

  lemma CanonicalTargetsApart(ts: seq<ActivationTable>, i: nat, j: nat)
    requires CanonicalTables(ts) == Ok(ts) && i < |ts| && j < |ts|
    requires ts[i].target == ts[j].target || ts[i].sourceRelationId == ts[j].sourceRelationId
    ensures i == j
  {
    TablesRearranged(ts, ts);
    assert forall k | 0 <= k < |ts| :: SourceRelations(ts)[k] == ts[k].sourceRelationId;
    if i < j { assert TableLess(ts[i], ts[j]); NameOrder(ts[i].target, ts[j].target, ts[i].target); }
    if j < i { assert TableLess(ts[j], ts[i]); NameOrder(ts[j].target, ts[i].target, ts[j].target); }
    hide RelationNames, NameLess;
  }
}
