/** Snapshot-group manifests: canonical form, hashed bytes, and storing and loading them. */
module Manifest {
  import opened Core
  import opened Checkpoint
  import opened Sorting
  import opened Framing

  datatype QualifiedName = QualifiedName(schema: Bytes, name: Bytes)

  type GroupId = nat

  datatype ActivationTable = ActivationTable(target: QualifiedName, shadow: QualifiedName, sourceRelationId: nat,
                                             tableGeneration: nat, fingerprint: Bytes)

  datatype ActivationRequest = ActivationRequest(fence: Fence, groupId: GroupId, tables: seq<ActivationTable>,
                                                 checkpoints: seq<NodeCheckpoint>)

  datatype ManifestError =
    | InvalidGroupId | EmptyGroup | DuplicateIdentity
    | TargetIsShadow | CrossSchemaShadow | InvalidSourceRelation | EmptyFingerprint
    | ZeroCheckpoint(nodeId: int)
    | CheckpointRejected(checkpoint: CheckpointError)
    | CorruptManifest | NotRegistered | ManifestMismatch

  // ---- Canonical form -------------------------------------------------------------------------

  predicate NameLess(a: QualifiedName, b: QualifiedName) {
    BytesLess(a.schema, b.schema) || (a.schema == b.schema && BytesLess(a.name, b.name))
  }

  predicate TableLess(a: ActivationTable, b: ActivationTable) {
    NameLess(a.target, b.target)
  }

  predicate NodeLess(a: NodeCheckpoint, b: NodeCheckpoint) {
    a.key.nodeId < b.key.nodeId
  }

  function ValidateTable(t: ActivationTable): Option<ManifestError> {
    if t.target == t.shadow then Some(TargetIsShadow)
    else if t.target.schema != t.shadow.schema then Some(CrossSchemaShadow)
    else if t.sourceRelationId == 0 then Some(InvalidSourceRelation)
    else if t.tableGeneration > I64_MAX then Some(CheckpointRejected(GenerationOutOfRange(t.tableGeneration)))
    else if t.fingerprint == [] then Some(EmptyFingerprint)
    else None
  }

  function ValidateNode(fence: Fence, c: NodeCheckpoint): Option<ManifestError> {
    if c.key.pipelineId != fence.pipelineId || c.key.generation != fence.generation then Some(CheckpointRejected(FenceKeyMismatch))
    else if c.appliedLsn == 0 then Some(ZeroCheckpoint(c.key.nodeId))
    else match ValidateCheckpoint(c)
      case Some(e) => Some(CheckpointRejected(e))
      case None => None
  }

  function FirstBadTable(ts: seq<ActivationTable>): (r: Option<ManifestError>)
    ensures r.None? <==> forall t | t in ts :: ValidateTable(t).None?
  {
    if ts == [] then None
    else if ValidateTable(ts[0]).Some? then ValidateTable(ts[0])
    else
      assert ts == [ts[0]] + ts[1..];
      FirstBadTable(ts[1..])
  }

  function FirstBadNode(fence: Fence, cs: seq<NodeCheckpoint>): (r: Option<ManifestError>)
    ensures r.None? <==> forall c | c in cs :: ValidateNode(fence, c).None?
  {
    if cs == [] then None
    else if ValidateNode(fence, cs[0]).Some? then ValidateNode(fence, cs[0])
    else
      assert cs == [cs[0]] + cs[1..];
      FirstBadNode(fence, cs[1..])
  }

  /** Target and shadow names, table by table. */
  function RelationNames(ts: seq<ActivationTable>): seq<QualifiedName> {
    if ts == [] then [] else RelationNames(ts[..|ts| - 1]) + [ts[|ts| - 1].target, ts[|ts| - 1].shadow]
  }

  function SourceRelations(ts: seq<ActivationTable>): (r: seq<nat>)
    ensures |r| == |ts|
  {
    seq(|ts|, i requires 0 <= i < |ts| => ts[i].sourceRelationId)
  }

  predicate AdjacentTargetsDiffer(ts: seq<ActivationTable>) {
    forall i | 0 <= i < |ts| - 1 :: ts[i].target != ts[i + 1].target
  }

  predicate AdjacentNodesDiffer(cs: seq<NodeCheckpoint>) {
    forall i | 0 <= i < |cs| - 1 :: cs[i].key.nodeId != cs[i + 1].key.nodeId
  }

  ghost function CanonicalTables(tables: seq<ActivationTable>): Result<seq<ActivationTable>, ManifestError> {
    var sorted := Sort(TableLess, tables);
    if FirstBadTable(tables).Some? then Err(FirstBadTable(tables).value)
    else if !AdjacentTargetsDiffer(sorted) then Err(DuplicateIdentity)
    else if !Distinct(RelationNames(sorted)) || !Distinct(SourceRelations(sorted)) then Err(DuplicateIdentity)
    else Ok(sorted)
  }

  ghost function CanonicalNodes(fence: Fence, cs: seq<NodeCheckpoint>): Result<seq<NodeCheckpoint>, ManifestError> {
    var sorted := Sort(NodeLess, cs);
    if FirstBadNode(fence, cs).Some? then Err(FirstBadNode(fence, cs).value)
    else if !AdjacentNodesDiffer(sorted) then Err(DuplicateIdentity)
    else Ok(sorted)
  }

  ghost function Canonical(r: ActivationRequest): Result<ActivationRequest, ManifestError> {
    if r.groupId == 0 then Err(InvalidGroupId)
    else if r.tables == [] || r.checkpoints == [] then Err(EmptyGroup)
    else if r.fence.token <= 0 then Err(CheckpointRejected(InvalidFencingToken))
    else if r.fence.generation > I64_MAX then Err(CheckpointRejected(GenerationOutOfRange(r.fence.generation)))
    else match CanonicalTables(r.tables)
      case Err(e) => Err(e)
      case Ok(tables) =>
        match CanonicalNodes(r.fence, r.checkpoints)
        case Err(e) => Err(e)
        case Ok(checkpoints) => Ok(r.(tables := tables, checkpoints := checkpoints))
  }

  /** Sorts copies, compares neighbours, and fills sets of names and relations in a loop. */
  method CanonicalRequest(r: ActivationRequest) returns (canonical: Result<ActivationRequest, ManifestError>)
    ensures canonical == Canonical(r)
  {
    if r.groupId == 0 { return Err(InvalidGroupId); }
    if r.tables == [] || r.checkpoints == [] { return Err(EmptyGroup); }
    if r.fence.token <= 0 { return Err(CheckpointRejected(InvalidFencingToken)); }
    if r.fence.generation > I64_MAX { return Err(CheckpointRejected(GenerationOutOfRange(r.fence.generation))); }
    hide Sort, RelationNames, FirstBadTable, FirstBadNode;
    if FirstBadTable(r.tables).Some? { return Err(FirstBadTable(r.tables).value); }
    var tables := Sort(TableLess, r.tables);
    if !AdjacentTargetsDiffer(tables) { return Err(DuplicateIdentity); }
    var unique := UniqueIdentities(tables);
    if !unique { return Err(DuplicateIdentity); }
    if FirstBadNode(r.fence, r.checkpoints).Some? { return Err(FirstBadNode(r.fence, r.checkpoints).value); }
    var checkpoints := Sort(NodeLess, r.checkpoints);
    if !AdjacentNodesDiffer(checkpoints) { return Err(DuplicateIdentity); }
    return Ok(r.(tables := tables, checkpoints := checkpoints));
  }

  method UniqueIdentities(ts: seq<ActivationTable>) returns (unique: bool)
    ensures unique <==> Distinct(RelationNames(ts)) && Distinct(SourceRelations(ts))
  {
    hide RelationNames;
    var names: set<QualifiedName> := {};
    var relations: set<nat> := {};
    NoNames();
    assert ts[..0] == [];
    var i := 0;
    while i < |ts|
      invariant i <= |ts|
      invariant Distinct(RelationNames(ts[..i])) && Distinct(SourceRelations(ts[..i]))
      invariant names == Elements(RelationNames(ts[..i])) && relations == Elements(SourceRelations(ts[..i]))
    {
      MoreNames(ts, i);
      MoreRelations(ts, i);
      if ts[i].target in names { return false; }
      names := names + {ts[i].target};
      if ts[i].shadow in names { return false; }
      names := names + {ts[i].shadow};
      if ts[i].sourceRelationId in relations { return false; }
      relations := relations + {ts[i].sourceRelationId};
      i := i + 1;
    }
    assert ts[..i] == ts;
    return true;
  }

  lemma NoNames()
    ensures RelationNames([]) == [] && SourceRelations([]) == []
  {
  }

  function Elements<T>(s: seq<T>): set<T> {
    set x | x in s
  }

  lemma AppendDistinct<T>(s: seq<T>, x: T)
    ensures Distinct(s + [x]) <==> Distinct(s) && x !in s
    ensures Elements(s + [x]) == Elements(s) + {x}
  {
    if Distinct(s + [x]) {
      forall i, j | 0 <= i < j < |s| ensures s[i] != s[j] { assert (s + [x])[i] != (s + [x])[j]; }
      forall i | 0 <= i < |s| ensures s[i] != x { assert (s + [x])[i] != (s + [x])[|s|]; }
    }
  }

  lemma PrefixDistinct<T>(s: seq<T>, t: seq<T>)
    requires s <= t && Distinct(t)
    ensures Distinct(s)
  {
    forall i, j | 0 <= i < j < |s| ensures s[i] != s[j] { assert t[i] != t[j]; }
  }

  lemma AppendTwo<T>(s: seq<T>, x: T, y: T)
    ensures Distinct(s + [x] + [y]) <==> Distinct(s) && x !in s && y !in s && x != y
    ensures Elements(s + [x] + [y]) == Elements(s) + {x} + {y}
  {
    AppendDistinct(s, x);
    AppendDistinct(s + [x], y);
    assert y !in s + [x] <==> y !in s && y != x;
    hide Distinct, Elements;
  }

  lemma NamesStep(ts: seq<ActivationTable>, i: nat)
    requires i < |ts|
    ensures RelationNames(ts[..i + 1]) == RelationNames(ts[..i]) + [ts[i].target] + [ts[i].shadow]
  {
    assert ts[..i + 1][..i] == ts[..i];
  }

  /** What the loop learns from the names of table `i`, about its prefix and about the whole list. */
  lemma MoreNames(ts: seq<ActivationTable>, i: nat)
    requires i < |ts| && Distinct(RelationNames(ts[..i]))
    ensures var names, more, t := RelationNames(ts[..i]), RelationNames(ts[..i + 1]), ts[i];
      && (Distinct(more) <==> t.target !in names && t.shadow !in names && t.shadow != t.target)
      && Elements(more) == Elements(names) + {t.target} + {t.shadow}
      && (Distinct(RelationNames(ts)) ==> Distinct(more))
  {
    hide Distinct, Elements, RelationNames;
    NamesStep(ts, i);
    NamesPrefix(ts, i + 1);
    AppendTwo(RelationNames(ts[..i]), ts[i].target, ts[i].shadow);
    if Distinct(RelationNames(ts)) { PrefixDistinct(RelationNames(ts[..i + 1]), RelationNames(ts)); }
  }

  lemma MoreRelations(ts: seq<ActivationTable>, i: nat)
    requires i < |ts| && Distinct(SourceRelations(ts[..i]))
    ensures var ids, more, t := SourceRelations(ts[..i]), SourceRelations(ts[..i + 1]), ts[i];
      && (Distinct(more) <==> t.sourceRelationId !in ids)
      && Elements(more) == Elements(ids) + {t.sourceRelationId}
      && (Distinct(SourceRelations(ts)) ==> Distinct(more))
  {
    var ids, more, t := SourceRelations(ts[..i]), SourceRelations(ts[..i + 1]), ts[i];
    assert more == ids + [t.sourceRelationId];
    assert more == SourceRelations(ts)[..i + 1];
    AppendDistinct(ids, t.sourceRelationId);
    if Distinct(SourceRelations(ts)) { PrefixDistinct(more, SourceRelations(ts)); }
  }

  lemma {:induction false} NamesPrefix(ts: seq<ActivationTable>, n: nat)
    requires n <= |ts|
    ensures RelationNames(ts[..n]) <= RelationNames(ts)
    decreases |ts| - n
  {
    if n < |ts| {
      NamesPrefix(ts, n + 1);
      assert ts[..n + 1][..n] == ts[..n];
    } else {
      assert ts[..n] == ts;
    }
  }

  // ---- Canonicalising twice, and in another order ---------------------------------------------

  lemma NameOrder(a: QualifiedName, b: QualifiedName, c: QualifiedName)
    ensures !(NameLess(a, b) && NameLess(b, a)) && (NameLess(a, b) || NameLess(b, a) || a == b)
    ensures NameLess(a, b) && NameLess(b, c) ==> NameLess(a, c)
  {
    BytesOrder(a.schema, b.schema, c.schema);
    BytesOrder(b.schema, a.schema, c.schema);
    BytesOrder(b.schema, c.schema, a.schema);
    BytesOrder(a.name, b.name, c.name);
    hide BytesLess;
  }

  lemma TableOrder()
    ensures Transitive(TableLess) && forall a, b | TableLess(a, b) :: !TableLess(b, a)
  {
    hide NameLess;
    forall a, b, c | TableLess(a, b) && TableLess(b, c) ensures TableLess(a, c) { NameOrder(a.target, b.target, c.target); }
    forall a, b | TableLess(a, b) ensures !TableLess(b, a) { NameOrder(a.target, b.target, a.target); }
  }

  lemma NodeOrder()
    ensures Transitive(NodeLess) && forall a, b | NodeLess(a, b) :: !NodeLess(b, a)
  {
  }

  lemma {:induction false} TablesStrict(ts: seq<ActivationTable>, i: nat, j: nat)
    requires Sorted(TableLess, ts) && AdjacentTargetsDiffer(ts) && i < j < |ts|
    ensures TableLess(ts[i], ts[j])
    decreases j - i
  {
    hide NameLess;
    assert !TableLess(ts[j], ts[j - 1]);
    NameOrder(ts[j - 1].target, ts[j].target, ts[j].target);
    if i < j - 1 {
      TablesStrict(ts, i, j - 1);
      NameOrder(ts[i].target, ts[j - 1].target, ts[j].target);
    }
  }

  lemma {:induction false} NodesStrict(cs: seq<NodeCheckpoint>, i: nat, j: nat)
    requires Sorted(NodeLess, cs) && AdjacentNodesDiffer(cs) && i < j < |cs|
    ensures NodeLess(cs[i], cs[j])
    decreases j - i
  {
    assert !NodeLess(cs[j], cs[j - 1]);
    if i < j - 1 { NodesStrict(cs, i, j - 1); }
  }

  /** Sorting any rearrangement of canonical tables gives them back. */
  lemma TablesRearranged(a: seq<ActivationTable>, b: seq<ActivationTable>)
    requires CanonicalTables(a).Ok? && multiset(a) == multiset(b)
    ensures StrictlySorted(TableLess, CanonicalTables(a).value)
    ensures CanonicalTables(b) == CanonicalTables(a)
  {
    var sorted := CanonicalTables(a).value;
    TableOrder();
    SortSorts(TableLess, a);
    SortSorts(TableLess, b);
    forall i, j | 0 <= i < j < |sorted| ensures TableLess(sorted[i], sorted[j]) { TablesStrict(sorted, i, j); }
    StrictIsUnique(TableLess, sorted, Sort(TableLess, b));
    SameMembers(a, b);
    hide Sort, RelationNames, SourceRelations, ValidateTable;
  }

  lemma NodesRearranged(fence: Fence, a: seq<NodeCheckpoint>, b: seq<NodeCheckpoint>)
    requires CanonicalNodes(fence, a).Ok? && multiset(a) == multiset(b)
    ensures StrictlySorted(NodeLess, CanonicalNodes(fence, a).value)
    ensures CanonicalNodes(fence, b) == CanonicalNodes(fence, a)
  {
    var sorted := CanonicalNodes(fence, a).value;
    NodeOrder();
    SortSorts(NodeLess, a);
    SortSorts(NodeLess, b);
    forall i, j | 0 <= i < j < |sorted| ensures NodeLess(sorted[i], sorted[j]) { NodesStrict(sorted, i, j); }
    StrictIsUnique(NodeLess, sorted, Sort(NodeLess, b));
    SameMembers(a, b);
    hide Sort, ValidateNode;
  }

  /** The canonical form does not depend on the order in which tables and nodes are given. */
  lemma CanonicalIgnoresOrder(a: ActivationRequest, b: ActivationRequest)
    requires a.fence == b.fence && a.groupId == b.groupId
    requires multiset(a.tables) == multiset(b.tables) && multiset(a.checkpoints) == multiset(b.checkpoints)
    ensures Canonical(a).Ok? ==> Canonical(b) == Canonical(a)
  {
    hide CanonicalTables, CanonicalNodes;
    if Canonical(a).Ok? {
      assert |a.tables| == |multiset(a.tables)| == |b.tables|;
      assert |a.checkpoints| == |multiset(a.checkpoints)| == |b.checkpoints|;
      TablesRearranged(a.tables, b.tables);
      NodesRearranged(a.fence, a.checkpoints, b.checkpoints);
    }
  }

  /** Canonicalising is idempotent and keeps exactly the tables and nodes it was given. */
  lemma CanonicalIsIdempotent(r: ActivationRequest)
    requires Canonical(r).Ok?
    ensures var c := Canonical(r).value;
      && Canonical(c) == Ok(c) && c.fence == r.fence && c.groupId == r.groupId
      && multiset(c.tables) == multiset(r.tables) && multiset(c.checkpoints) == multiset(r.checkpoints)
  {
    var c := Canonical(r).value;
    CanonicalKeeps(r);
    CanonicalIgnoresOrder(r, c);
    hide Canonical;
  }

  lemma CanonicalKeeps(r: ActivationRequest)
    requires Canonical(r).Ok?
    ensures var c := Canonical(r).value;
      && c.fence == r.fence && c.groupId == r.groupId
      && multiset(c.tables) == multiset(r.tables) && multiset(c.checkpoints) == multiset(r.checkpoints)
  {
    hide Distinct, RelationNames, FirstBadTable, FirstBadNode;
  }

  // ---- The bytes hashed -----------------------------------------------------------------------

  const MANIFEST_TAG: Bytes := [112, 103, 50, 99, 98, 45, 115, 110, 97, 112, 115, 104, 111, 116, 45, 109, 97, 110, 105, 102, 101,
                                115, 116, 45, 118, 49]

  /** A signed 32-bit number as its two's complement. */
  function Unsigned32(n: int): nat {
    n % 0x1_0000_0000
  }

  function TableBytes(t: ActivationTable): Bytes {
    Field(t.target.schema) + (Field(t.target.name) + (Field(t.shadow.schema) + (Field(t.shadow.name) +
    (Field(BigEndian(t.sourceRelationId, 4)) + (Field(BigEndian(t.tableGeneration, 8)) + Field(t.fingerprint))))))
  }

  function NodeBytes(c: NodeCheckpoint): Bytes {
    Field(BigEndian(Unsigned32(c.key.nodeId), 4)) + (Field(BigEndian(c.systemIdentifier, 8)) +
    (Field(BigEndian(c.timeline, 4)) + (Field(c.slotName) + Field(BigEndian(c.appliedLsn, 8)))))
  }

  function NodesBytes(cs: seq<NodeCheckpoint>): Bytes {
    if cs == [] then [] else NodeBytes(cs[0]) + NodesBytes(cs[1..])
  }

  /** Tables and then nodes, with nothing between them and no counts. */
  function ListBytes(ts: seq<ActivationTable>, cs: seq<NodeCheckpoint>): Bytes {
    if ts == [] then NodesBytes(cs) else TableBytes(ts[0]) + ListBytes(ts[1..], cs)
  }

  function ManifestBytes(r: ActivationRequest): Bytes {
    Field(MANIFEST_TAG) + (Field(BigEndian(r.groupId, 16)) + (Field(BigEndian(r.fence.pipelineId, 16)) +
    (Field(BigEndian(r.fence.generation, 8)) + ListBytes(r.tables, r.checkpoints))))
  }

  /** The field widths of the program's own types. */
  predicate TableFits(t: ActivationTable) {
    && |t.target.schema| <= USIZE_MAX && |t.target.name| <= USIZE_MAX && |t.shadow.schema| <= USIZE_MAX
    && |t.shadow.name| <= USIZE_MAX && |t.fingerprint| <= USIZE_MAX
    && t.sourceRelationId < 0x1_0000_0000 && t.tableGeneration <= USIZE_MAX
  }

  predicate NodeFits(c: NodeCheckpoint) {
    && -0x8000_0000 <= c.key.nodeId < 0x8000_0000 && c.systemIdentifier <= USIZE_MAX && c.timeline < 0x1_0000_0000
    && |c.slotName| <= USIZE_MAX && c.appliedLsn <= USIZE_MAX
  }

  ghost predicate RequestFits(r: ActivationRequest) {
    && r.groupId < Range(16) && r.fence.pipelineId < Range(16) && r.fence.generation <= USIZE_MAX
    && (forall i | 0 <= i < |r.tables| :: TableFits(r.tables[i]))
    && (forall i | 0 <= i < |r.checkpoints| :: NodeFits(r.checkpoints[i]))
  }

  lemma NumberPrefix(a: nat, b: nat, width: nat, x: Bytes, y: Bytes)
    requires width <= 16 && a < Range(width) && b < Range(width)
    requires Field(BigEndian(a, width)) + x == Field(BigEndian(b, width)) + y
    ensures a == b && x == y
  {
    FieldPrefix(BigEndian(a, width), BigEndian(b, width), x, y);
    BigEndianInjective(a, b, width);
  }

  /** Moving brackets: a framed value in front of the rest of a row in front of what follows it. */
  lemma Regroup(a: Bytes, b: Bytes, c: Bytes)
    ensures a + b + c == a + (b + c)
  {
  }

  lemma TablePrefix(a: ActivationTable, b: ActivationTable, x: Bytes, y: Bytes)
    requires TableFits(a) && TableFits(b) && TableBytes(a) + x == TableBytes(b) + y
    ensures a == b && x == y
  {
    hide Field, BigEndian;
    RangeOf8();
    var a7, b7 := Field(a.fingerprint), Field(b.fingerprint);
    var a6, b6 := Field(BigEndian(a.tableGeneration, 8)) + a7, Field(BigEndian(b.tableGeneration, 8)) + b7;
    var a5, b5 := Field(BigEndian(a.sourceRelationId, 4)) + a6, Field(BigEndian(b.sourceRelationId, 4)) + b6;
    var a4, b4 := Field(a.shadow.name) + a5, Field(b.shadow.name) + b5;
    var a3, b3 := Field(a.shadow.schema) + a4, Field(b.shadow.schema) + b4;
    var a2, b2 := Field(a.target.name) + a3, Field(b.target.name) + b3;
    Regroup(Field(a.target.schema), a2, x);
    Regroup(Field(b.target.schema), b2, y);
    FieldPrefix(a.target.schema, b.target.schema, a2 + x, b2 + y);
    Regroup(Field(a.target.name), a3, x);
    Regroup(Field(b.target.name), b3, y);
    FieldPrefix(a.target.name, b.target.name, a3 + x, b3 + y);
    Regroup(Field(a.shadow.schema), a4, x);
    Regroup(Field(b.shadow.schema), b4, y);
    FieldPrefix(a.shadow.schema, b.shadow.schema, a4 + x, b4 + y);
    Regroup(Field(a.shadow.name), a5, x);
    Regroup(Field(b.shadow.name), b5, y);
    FieldPrefix(a.shadow.name, b.shadow.name, a5 + x, b5 + y);
    Regroup(Field(BigEndian(a.sourceRelationId, 4)), a6, x);
    Regroup(Field(BigEndian(b.sourceRelationId, 4)), b6, y);
    NumberPrefix(a.sourceRelationId, b.sourceRelationId, 4, a6 + x, b6 + y);
    Regroup(Field(BigEndian(a.tableGeneration, 8)), a7, x);
    Regroup(Field(BigEndian(b.tableGeneration, 8)), b7, y);
    NumberPrefix(a.tableGeneration, b.tableGeneration, 8, a7 + x, b7 + y);
    FieldPrefix(a.fingerprint, b.fingerprint, x, y);
  }

  /** Everything of a checkpoint but the key it shares with the fence. */
  predicate SameNode(a: NodeCheckpoint, b: NodeCheckpoint) {
    a.key.nodeId == b.key.nodeId && a.systemIdentifier == b.systemIdentifier && a.timeline == b.timeline &&
    a.slotName == b.slotName && a.appliedLsn == b.appliedLsn
  }

  lemma NodePrefix(a: NodeCheckpoint, b: NodeCheckpoint, x: Bytes, y: Bytes)
    requires NodeFits(a) && NodeFits(b) && NodeBytes(a) + x == NodeBytes(b) + y
    ensures SameNode(a, b) && x == y
  {
    hide Field, BigEndian;
    RangeOf8();
    var a5, b5 := Field(BigEndian(a.appliedLsn, 8)), Field(BigEndian(b.appliedLsn, 8));
    var a4, b4 := Field(a.slotName) + a5, Field(b.slotName) + b5;
    var a3, b3 := Field(BigEndian(a.timeline, 4)) + a4, Field(BigEndian(b.timeline, 4)) + b4;
    var a2, b2 := Field(BigEndian(a.systemIdentifier, 8)) + a3, Field(BigEndian(b.systemIdentifier, 8)) + b3;
    Regroup(Field(BigEndian(Unsigned32(a.key.nodeId), 4)), a2, x);
    Regroup(Field(BigEndian(Unsigned32(b.key.nodeId), 4)), b2, y);
    NumberPrefix(Unsigned32(a.key.nodeId), Unsigned32(b.key.nodeId), 4, a2 + x, b2 + y);
    Regroup(Field(BigEndian(a.systemIdentifier, 8)), a3, x);
    Regroup(Field(BigEndian(b.systemIdentifier, 8)), b3, y);
    NumberPrefix(a.systemIdentifier, b.systemIdentifier, 8, a3 + x, b3 + y);
    Regroup(Field(BigEndian(a.timeline, 4)), a4, x);
    Regroup(Field(BigEndian(b.timeline, 4)), b4, y);
    NumberPrefix(a.timeline, b.timeline, 4, a4 + x, b4 + y);
    Regroup(Field(a.slotName), a5, x);
    Regroup(Field(b.slotName), b5, y);
    FieldPrefix(a.slotName, b.slotName, a5 + x, b5 + y);
    NumberPrefix(a.appliedLsn, b.appliedLsn, 8, x, y);
  }

  ghost predicate SameNodes(a: seq<NodeCheckpoint>, b: seq<NodeCheckpoint>) {
    |a| == |b| && forall i | 0 <= i < |a| :: SameNode(a[i], b[i])
  }

  ghost predicate AllNodesFit(cs: seq<NodeCheckpoint>) {
    forall i | 0 <= i < |cs| :: NodeFits(cs[i])
  }

  ghost predicate AllTablesFit(ts: seq<ActivationTable>) {
    forall i | 0 <= i < |ts| :: TableFits(ts[i])
  }

  lemma NodeBytesNonempty(c: NodeCheckpoint, rest: Bytes)
    ensures NodeBytes(c) + rest != []
  {
  }

  lemma TableBytesNonempty(t: ActivationTable, rest: Bytes)
    ensures TableBytes(t) + rest != []
  {
  }

  lemma {:induction false} NodesDetermined(a: seq<NodeCheckpoint>, b: seq<NodeCheckpoint>)
    requires AllNodesFit(a) && AllNodesFit(b) && NodesBytes(a) == NodesBytes(b)
    ensures SameNodes(a, b)
    decreases |a|
  {
    hide NodeBytes, NodeFits, SameNode;
    if a == [] {
      if b != [] { NodeBytesNonempty(b[0], NodesBytes(b[1..])); }
    } else {
      NodeBytesNonempty(a[0], NodesBytes(a[1..]));
      assert b != [];
      NodePrefix(a[0], b[0], NodesBytes(a[1..]), NodesBytes(b[1..]));
      NodesDetermined(a[1..], b[1..]);
    }
  }

  /** No table can be mistaken for nodes: where a table has its four-byte relation, the first node has
      its eight-byte position. */
  lemma TableIsNotNodes(t: ActivationTable, x: Bytes, cs: seq<NodeCheckpoint>)
    requires TableFits(t) && AllNodesFit(cs)
    ensures TableBytes(t) + x != NodesBytes(cs)
  {
    if cs == [] {
      TableBytesNonempty(t, x);
    } else if TableBytes(t) + x == NodesBytes(cs) {
      NodeStartsOtherwise(t, x, cs[0], NodesBytes(cs[1..]));
    }
  }

  lemma NodeStartsOtherwise(t: ActivationTable, x: Bytes, c: NodeCheckpoint, y: Bytes)
    requires TableFits(t) && NodeFits(c)
    ensures TableBytes(t) + x != NodeBytes(c) + y
  {
    hide Field, BigEndian;
    var a7 := Field(t.fingerprint);
    var a6 := Field(BigEndian(t.tableGeneration, 8)) + a7;
    var a5 := Field(BigEndian(t.sourceRelationId, 4)) + a6;
    var a4 := Field(t.shadow.name) + a5;
    var a3 := Field(t.shadow.schema) + a4;
    var a2 := Field(t.target.name) + a3;
    var b5 := Field(BigEndian(c.appliedLsn, 8));
    var b4 := Field(c.slotName) + b5;
    var b3 := Field(BigEndian(c.timeline, 4)) + b4;
    var b2 := Field(BigEndian(c.systemIdentifier, 8)) + b3;
    Regroup(Field(t.target.schema), a2, x);
    Regroup(Field(BigEndian(Unsigned32(c.key.nodeId), 4)), b2, y);
    Regroup(Field(t.target.name), a3, x);
    Regroup(Field(BigEndian(c.systemIdentifier, 8)), b3, y);
    Regroup(Field(t.shadow.schema), a4, x);
    Regroup(Field(BigEndian(c.timeline, 4)), b4, y);
    Regroup(Field(t.shadow.name), a5, x);
    Regroup(Field(c.slotName), b5, y);
    Regroup(Field(BigEndian(t.sourceRelationId, 4)), a6, x);
    if TableBytes(t) + x == NodeBytes(c) + y {
      FieldPrefix(t.target.schema, BigEndian(Unsigned32(c.key.nodeId), 4), a2 + x, b2 + y);
      FieldPrefix(t.target.name, BigEndian(c.systemIdentifier, 8), a3 + x, b3 + y);
      FieldPrefix(t.shadow.schema, BigEndian(c.timeline, 4), a4 + x, b4 + y);
      FieldPrefix(t.shadow.name, c.slotName, a5 + x, b5 + y);
      FieldPrefix(BigEndian(t.sourceRelationId, 4), BigEndian(c.appliedLsn, 8), a6 + x, y);
    }
  }

  lemma {:induction false} ListsDetermined(ts: seq<ActivationTable>, cs: seq<NodeCheckpoint>,
                                           us: seq<ActivationTable>, ds: seq<NodeCheckpoint>)
    requires AllTablesFit(ts) && AllTablesFit(us) && AllNodesFit(cs) && AllNodesFit(ds)
    requires ListBytes(ts, cs) == ListBytes(us, ds)
    ensures ts == us && SameNodes(cs, ds)
    decreases |ts|
  {
    hide TableBytes, NodesBytes, TableFits, AllNodesFit, SameNodes;
    if ts == [] && us == [] {
      NodesDetermined(cs, ds);
    } else if ts == [] {
      TableIsNotNodes(us[0], ListBytes(us[1..], ds), cs);
    } else if us == [] {
      TableIsNotNodes(ts[0], ListBytes(ts[1..], cs), ds);
    } else {
      TablePrefix(ts[0], us[0], ListBytes(ts[1..], cs), ListBytes(us[1..], ds));
      ListsDetermined(ts[1..], cs, us[1..], ds);
    }
  }

  /** The bytes hashed for a manifest determine its group, pipeline, generation, tables and nodes, with
      no count among them: only the fencing token is free. */
  lemma ManifestBytesDetermine(a: ActivationRequest, b: ActivationRequest)
    requires RequestFits(a) && RequestFits(b) && ManifestBytes(a) == ManifestBytes(b)
    ensures a.groupId == b.groupId && a.fence.pipelineId == b.fence.pipelineId && a.fence.generation == b.fence.generation
    ensures a.tables == b.tables && SameNodes(a.checkpoints, b.checkpoints)
  {
    RangeOf8();
    hide Field, BigEndian, ListBytes, TableFits, NodeFits, Range, SameNodes;
    var la, lb := ListBytes(a.tables, a.checkpoints), ListBytes(b.tables, b.checkpoints);
    var a3, b3 := Field(BigEndian(a.fence.generation, 8)) + la, Field(BigEndian(b.fence.generation, 8)) + lb;
    var a2, b2 := Field(BigEndian(a.fence.pipelineId, 16)) + a3, Field(BigEndian(b.fence.pipelineId, 16)) + b3;
    FieldPrefix(MANIFEST_TAG, MANIFEST_TAG, Field(BigEndian(a.groupId, 16)) + a2, Field(BigEndian(b.groupId, 16)) + b2);
    NumberPrefix(a.groupId, b.groupId, 16, a2, b2);
    NumberPrefix(a.fence.pipelineId, b.fence.pipelineId, 16, a3, b3);
    NumberPrefix(a.fence.generation, b.fence.generation, 8, la, lb);
    ListsDetermined(a.tables, a.checkpoints, b.tables, b.checkpoints);
  }

  // ---- Which requests have a canonical form ---------------------------------------------------

  /** A table that may be registered: a shadow beside its target, of a known source table. */
  predicate TableStands(t: ActivationTable) {
    t.target != t.shadow && t.target.schema == t.shadow.schema && t.sourceRelationId > 0 && t.tableGeneration <= I64_MAX && t.fingerprint != []
  }

  /** A first position: of the pipeline's own generation, beyond zero, and well formed. */
  predicate NodeStands(f: Fence, c: NodeCheckpoint) {
    c.key.pipelineId == f.pipelineId && c.key.generation == f.generation && c.appliedLsn > 0 && c.timeline != 0 && c.slotName != [] &&
    0 !in c.slotName
  }

  /** Different targets, different shadows, no target that is another's shadow, different source tables. */
  predicate Unlike(a: ActivationTable, b: ActivationTable) {
    a.target != b.target && a.shadow != b.shadow && a.target != b.shadow && a.shadow != b.target && a.sourceRelationId != b.sourceRelationId
  }

  ghost predicate AllUnlike(ts: seq<ActivationTable>) {
    forall i, j | 0 <= i < j < |ts| :: Unlike(ts[i], ts[j])
  }

  lemma {:induction false} NamesAt(ts: seq<ActivationTable>)
    ensures |RelationNames(ts)| == 2 * |ts|
    ensures forall i | 0 <= i < |ts| :: RelationNames(ts)[2 * i] == ts[i].target && RelationNames(ts)[2 * i + 1] == ts[i].shadow
  {
    if ts != [] {
      var init := ts[..|ts| - 1];
      NamesAt(init);
      assert forall i | 0 <= i < |init| :: init[i] == ts[i];
    }
  }

  lemma NamesOf(ts: seq<ActivationTable>, i: nat) returns (a: nat)
    requires i < |ts|
    ensures a == 2 * i && a + 1 < |RelationNames(ts)|
    ensures RelationNames(ts)[a] == ts[i].target && RelationNames(ts)[a + 1] == ts[i].shadow
  {
    hide RelationNames;
    NamesAt(ts);
    a := 2 * i;
  }

  lemma NamesTell(ts: seq<ActivationTable>, i: nat, j: nat)
    requires Distinct(RelationNames(ts)) && Distinct(SourceRelations(ts)) && i < j < |ts|
    ensures Unlike(ts[i], ts[j])
  {
    hide RelationNames;
    var a := NamesOf(ts, i);
    var b := NamesOf(ts, j);
    assert a + 1 < b;
    assert SourceRelations(ts)[i] != SourceRelations(ts)[j];
  }

  lemma NamesDiffer(ts: seq<ActivationTable>, a: nat, b: nat)
    requires AllUnlike(ts) && (forall i | 0 <= i < |ts| :: ts[i].target != ts[i].shadow) && a < b < |RelationNames(ts)|
    ensures RelationNames(ts)[a] != RelationNames(ts)[b]
  {
    hide RelationNames;
    NamesAt(ts);
    var i, j := a / 2, b / 2;
    assert i < |ts| && j < |ts| && (a == 2 * i || a == 2 * i + 1) && (b == 2 * j || b == 2 * j + 1);
    if i < j { assert Unlike(ts[i], ts[j]); }
  }

  lemma DistinctNames(ts: seq<ActivationTable>)
    requires forall i | 0 <= i < |ts| :: ts[i].target != ts[i].shadow
    ensures Distinct(RelationNames(ts)) && Distinct(SourceRelations(ts)) <==> AllUnlike(ts)
  {
    hide RelationNames, Unlike;
    if Distinct(RelationNames(ts)) && Distinct(SourceRelations(ts)) {
      forall i, j | 0 <= i < j < |ts| ensures Unlike(ts[i], ts[j]) { NamesTell(ts, i, j); }
    }
    if AllUnlike(ts) {
      forall a, b | 0 <= a < b < |RelationNames(ts)| ensures RelationNames(ts)[a] != RelationNames(ts)[b] { NamesDiffer(ts, a, b); }
      forall i, j | 0 <= i < j < |ts| ensures SourceRelations(ts)[i] != SourceRelations(ts)[j] { RelationsDiffer(ts, i, j); }
    }
  }

  lemma RelationsDiffer(ts: seq<ActivationTable>, i: nat, j: nat)
    requires AllUnlike(ts) && i < j < |ts|
    ensures SourceRelations(ts)[i] != SourceRelations(ts)[j]
  {
    assert Unlike(ts[i], ts[j]);
  }

  lemma UnlikePermutes(a: seq<ActivationTable>, b: seq<ActivationTable>)
    requires multiset(a) == multiset(b) && AllUnlike(a)
    ensures AllUnlike(b)
  {
    assert Distinct(a) by { UnlikeDistinct(a); }
    DistinctPermutes(b, a);
    forall i, j | 0 <= i < j < |b| ensures Unlike(b[i], b[j]) {
      assert b[i] in a && b[j] in a;
      var k :| 0 <= k < |a| && a[k] == b[i];
      var m :| 0 <= m < |a| && a[m] == b[j];
      assert b[i] != b[j];
      if k < m { assert Unlike(a[k], a[m]); } else { assert Unlike(a[m], a[k]); }
    }
  }

  lemma UnlikeDistinct(a: seq<ActivationTable>)
    requires AllUnlike(a)
    ensures Distinct(a)
  {
    forall i, j | 0 <= i < j < |a| ensures a[i] != a[j] { assert Unlike(a[i], a[j]); }
  }

  lemma TablesStandExactly(ts: seq<ActivationTable>)
    ensures CanonicalTables(ts).Ok? <==> (forall t | t in ts :: TableStands(t)) && AllUnlike(ts)
  {
    TableOrder();
    SortSorts(TableLess, ts);
    var sorted := Sort(TableLess, ts);
    SameMembers(ts, sorted);
    assert forall t :: ValidateTable(t).None? <==> TableStands(t);
    hide Sort, RelationNames, SourceRelations, ValidateTable, FirstBadTable, AllUnlike, Distinct, Sorted;
    if forall t | t in ts :: TableStands(t) {
      assert forall i | 0 <= i < |sorted| :: sorted[i] in ts;
      DistinctNames(sorted);
      if AllUnlike(sorted) { UnlikePermutes(sorted, ts); NeighboursUnlike(sorted); }
      if AllUnlike(ts) { UnlikePermutes(ts, sorted); NeighboursUnlike(sorted); }
    }
  }

  lemma NeighboursUnlike(ts: seq<ActivationTable>)
    requires AllUnlike(ts)
    ensures AdjacentTargetsDiffer(ts)
  {
    forall i | 0 <= i < |ts| - 1 ensures ts[i].target != ts[i + 1].target { assert Unlike(ts[i], ts[i + 1]); }
  }

  /** One position per node. */
  ghost predicate NodesApart(cs: seq<NodeCheckpoint>) {
    forall i, j | 0 <= i < j < |cs| :: cs[i].key.nodeId != cs[j].key.nodeId
  }

  lemma ApartPermutes(a: seq<NodeCheckpoint>, b: seq<NodeCheckpoint>)
    requires multiset(a) == multiset(b) && NodesApart(a)
    ensures NodesApart(b)
  {
    assert Distinct(a);
    DistinctPermutes(b, a);
    forall i, j | 0 <= i < j < |b| ensures b[i].key.nodeId != b[j].key.nodeId {
      assert b[i] in a && b[j] in a;
      var k :| 0 <= k < |a| && a[k] == b[i];
      var m :| 0 <= m < |a| && a[m] == b[j];
      assert b[i] != b[j];
    }
  }

  lemma NodesStandExactly(f: Fence, cs: seq<NodeCheckpoint>)
    requires f.generation <= I64_MAX
    ensures CanonicalNodes(f, cs).Ok? <==> (forall c | c in cs :: NodeStands(f, c)) && NodesApart(cs)
  {
    NodeOrder();
    SortSorts(NodeLess, cs);
    var sorted := Sort(NodeLess, cs);
    assert forall c :: ValidateNode(f, c).None? <==> NodeStands(f, c);
    hide Sort, ValidateNode, FirstBadNode;
    if NodesApart(cs) { ApartPermutes(cs, sorted); }
    if AdjacentNodesDiffer(sorted) {
      forall i, j | 0 <= i < j < |sorted| ensures sorted[i].key.nodeId != sorted[j].key.nodeId { NodesStrict(sorted, i, j); }
      ApartPermutes(sorted, cs);
    }
  }

  /** A request has a canonical form if and only if its group is named and holds something, its fence is well
      formed, every table and every position stands on its own, and no two of them clash, in whatever order they
      are given. */
  lemma CanonicalExactly(r: ActivationRequest)
    ensures Canonical(r).Ok? <==>
      && r.groupId != 0 && r.tables != [] && r.checkpoints != [] && r.fence.token > 0 && r.fence.generation <= I64_MAX
      && (forall t | t in r.tables :: TableStands(t)) && AllUnlike(r.tables)
      && (forall c | c in r.checkpoints :: NodeStands(r.fence, c)) && NodesApart(r.checkpoints)
  {
    hide CanonicalTables, CanonicalNodes, TableStands, AllUnlike, NodeStands, NodesApart;
    TablesStandExactly(r.tables);
    if r.fence.generation <= I64_MAX { NodesStandExactly(r.fence, r.checkpoints); }
  }
}
