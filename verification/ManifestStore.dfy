/** Manifests as rows: registering one and loading it back, with its checksum compared. */
module ManifestStore {
  import opened Core
  import opened Checkpoint
  import opened Sorting
  import opened Framing
  import opened Manifest
  import Lsn

  datatype GroupState = Loading | Active

  datatype TableRow = TableRow(target: QualifiedName, shadow: QualifiedName, sourceRelationId: int, tableGeneration: int,
                               fingerprint: Bytes)

  datatype NodeRow = NodeRow(nodeId: int, systemIdentifier: nat, timeline: int, slotName: Bytes, consistentLsn: nat)

  /** The rows of one group. The checksum column stands for the bytes that were hashed. */
  datatype GroupRows = GroupRows(pipelineId: PipelineId, generation: int, token: int, state: GroupState, tableCount: int,
                                 nodeCount: int, checksum: Bytes, tableRows: seq<TableRow>, nodeRows: seq<NodeRow>)

  function RowOfTable(t: ActivationTable): TableRow {
    TableRow(t.target, t.shadow, t.sourceRelationId, t.tableGeneration, t.fingerprint)
  }

  /** Positions are written as printed text, which the database parses. */
  function RowOfNode(c: NodeCheckpoint): NodeRow {
    var lsn := Lsn.Parse(Lsn.Print(c.appliedLsn));
    NodeRow(c.key.nodeId, c.systemIdentifier, c.timeline, c.slotName, if lsn.Some? then lsn.value else 0)
  }

  function TableRowsOf(ts: seq<ActivationTable>): (r: seq<TableRow>)
    ensures |r| == |ts| && forall i | 0 <= i < |r| :: r[i] == RowOfTable(ts[i])
  {
    seq(|ts|, i requires 0 <= i < |ts| => RowOfTable(ts[i]))
  }

  function NodeRowsOf(cs: seq<NodeCheckpoint>): (r: seq<NodeRow>)
    ensures |r| == |cs| && forall i | 0 <= i < |r| :: r[i] == RowOfNode(cs[i])
  {
    seq(|cs|, i requires 0 <= i < |cs| => RowOfNode(cs[i]))
  }

  function RowsOf(r: ActivationRequest): GroupRows {
    GroupRows(r.fence.pipelineId, r.fence.generation, r.fence.token, Loading, |r.tables|, |r.checkpoints|, ManifestBytes(r),
              TableRowsOf(r.tables), NodeRowsOf(r.checkpoints))
  }

  // ---- Loading --------------------------------------------------------------------------------

  predicate TableRowLess(a: TableRow, b: TableRow) {
    NameLess(a.target, b.target)
  }

  predicate NodeRowLess(a: NodeRow, b: NodeRow) {
    a.nodeId < b.nodeId
  }

  function TableOfRow(row: TableRow): Option<ActivationTable> {
    if row.sourceRelationId < 0 || row.sourceRelationId > 0xFFFF_FFFF || row.tableGeneration < 0 then None
    else Some(ActivationTable(row.target, row.shadow, row.sourceRelationId, row.tableGeneration, row.fingerprint))
  }

  /** The database prints positions unpadded. */
  function NodeOfRow(row: NodeRow, pipelineId: PipelineId, generation: nat): Option<NodeCheckpoint> {
    var lsn := Lsn.Parse(Lsn.PrintUnpadded(row.consistentLsn));
    if row.timeline < 0 || row.timeline > 0xFFFF_FFFF || lsn.None? then None
    else Some(NodeCheckpoint(CheckpointKey(pipelineId, generation, row.nodeId), row.systemIdentifier, row.timeline, row.slotName, lsn.value))
  }

  function TablesOfRows(rows: seq<TableRow>): Option<seq<ActivationTable>> {
    if rows == [] then Some([])
    else match TableOfRow(rows[0])
      case None => None
      case Some(t) => match TablesOfRows(rows[1..]) case None => None case Some(rest) => Some([t] + rest)
  }

  function NodesOfRows(rows: seq<NodeRow>, pipelineId: PipelineId, generation: nat): Option<seq<NodeCheckpoint>> {
    if rows == [] then Some([])
    else match NodeOfRow(rows[0], pipelineId, generation)
      case None => None
      case Some(c) => match NodesOfRows(rows[1..], pipelineId, generation) case None => None case Some(rest) => Some([c] + rest)
  }

  /** Rows come back ordered by name and node; the rebuilt request must be canonical and match its checksum. */
  ghost function LoadGroup(groupId: GroupId, s: GroupRows): Result<(GroupState, ActivationRequest), ManifestError> {
    if groupId == 0 then Err(InvalidGroupId)
    else if s.generation < 0 || s.tableCount <= 0 || s.nodeCount <= 0 || s.token <= 0 then Err(CorruptManifest)
    else if |s.tableRows| != s.tableCount || |s.nodeRows| != s.nodeCount then Err(CorruptManifest)
    else
      var tables := TablesOfRows(Sort(TableRowLess, s.tableRows));
      var nodes := NodesOfRows(Sort(NodeRowLess, s.nodeRows), s.pipelineId, s.generation);
      if tables.None? || nodes.None? then Err(CorruptManifest)
      else
        var rebuilt := ActivationRequest(Fence(s.pipelineId, s.generation, s.token), groupId, tables.value, nodes.value);
        if Canonical(rebuilt) != Ok(rebuilt) || ManifestBytes(rebuilt) != s.checksum then Err(CorruptManifest)
        else Ok((s.state, rebuilt))
  }

  // ---- Registering and loading ----------------------------------------------------------------

  lemma {:induction false} TablesReadBack(ts: seq<ActivationTable>)
    requires AllTablesFit(ts)
    ensures TablesOfRows(TableRowsOf(ts)) == Some(ts)
  {
    if ts != [] {
      assert TableRowsOf(ts)[1..] == TableRowsOf(ts[1..]);
      TablesReadBack(ts[1..]);
      assert [ts[0]] + ts[1..] == ts;
    }
  }

  lemma NodeReadsBack(c: NodeCheckpoint)
    requires NodeFits(c)
    ensures NodeOfRow(RowOfNode(c), c.key.pipelineId, c.key.generation) == Some(c)
  {
    Lsn.PrintedReadsBack(c.appliedLsn);
    hide Lsn.Parse, Lsn.Print, Lsn.PrintUnpadded;
  }

  lemma {:induction false} NodesReadBack(cs: seq<NodeCheckpoint>, pipelineId: PipelineId, generation: nat)
    requires AllNodesFit(cs) && forall i | 0 <= i < |cs| :: cs[i].key.pipelineId == pipelineId && cs[i].key.generation == generation
    ensures NodesOfRows(NodeRowsOf(cs), pipelineId, generation) == Some(cs)
  {
    hide NodeOfRow, RowOfNode, NodeFits;
    if cs != [] {
      assert NodeRowsOf(cs)[1..] == NodeRowsOf(cs[1..]);
      NodeReadsBack(cs[0]);
      NodesReadBack(cs[1..], pipelineId, generation);
      assert [cs[0]] + cs[1..] == cs;
    }
  }

  lemma RowsSorted(r: ActivationRequest)
    requires Canonical(r) == Ok(r)
    ensures StrictlySorted(TableRowLess, TableRowsOf(r.tables)) && StrictlySorted(NodeRowLess, NodeRowsOf(r.checkpoints))
  {
    TablesRearranged(r.tables, r.tables);
    NodesRearranged(r.fence, r.checkpoints, r.checkpoints);
    hide Canonical, CanonicalTables, CanonicalNodes, NameLess;
    CanonicalParts(r);
    forall i, j | 0 <= i < j < |r.tables| ensures TableRowLess(TableRowsOf(r.tables)[i], TableRowsOf(r.tables)[j]) {
      assert TableLess(r.tables[i], r.tables[j]);
    }
    forall i, j | 0 <= i < j < |r.checkpoints| ensures NodeRowLess(NodeRowsOf(r.checkpoints)[i], NodeRowsOf(r.checkpoints)[j]) {
      assert NodeLess(r.checkpoints[i], r.checkpoints[j]);
    }
  }

  lemma CanonicalParts(r: ActivationRequest)
    requires Canonical(r) == Ok(r)
    ensures CanonicalTables(r.tables) == Ok(r.tables) && CanonicalNodes(r.fence, r.checkpoints) == Ok(r.checkpoints)
    ensures r.groupId != 0 && r.fence.token > 0 && r.tables != [] && r.checkpoints != []
  {
    hide CanonicalTables, CanonicalNodes;
  }

  lemma RowOrders()
    ensures Transitive(TableRowLess) && (forall a, b | TableRowLess(a, b) :: !TableRowLess(b, a))
    ensures Transitive(NodeRowLess) && (forall a, b | NodeRowLess(a, b) :: !NodeRowLess(b, a))
  {
    hide NameLess;
    forall a, b, c | TableRowLess(a, b) && TableRowLess(b, c) ensures TableRowLess(a, c) { NameOrder(a.target, b.target, c.target); }
    forall a, b | TableRowLess(a, b) ensures !TableRowLess(b, a) { NameOrder(a.target, b.target, a.target); }
  }

  lemma NodesCarryFence(r: ActivationRequest)
    requires Canonical(r) == Ok(r)
    ensures forall i | 0 <= i < |r.checkpoints| ::
      r.checkpoints[i].key.pipelineId == r.fence.pipelineId && r.checkpoints[i].key.generation == r.fence.generation
  {
    CanonicalParts(r);
    forall i | 0 <= i < |r.checkpoints| ensures ValidateNode(r.fence, r.checkpoints[i]).None? {
      assert r.checkpoints[i] in r.checkpoints;
    }
  }

  /** Registering a canonical manifest and loading it rebuilds the same request, in whatever physical
      order its rows come to lie. */
  lemma RegisteredLoadsBack(r: ActivationRequest, s: GroupRows)
    requires Canonical(r) == Ok(r) && RequestFits(r)
    requires s == RowsOf(r).(tableRows := s.tableRows, nodeRows := s.nodeRows)
    requires multiset(s.tableRows) == multiset(RowsOf(r).tableRows) && multiset(s.nodeRows) == multiset(RowsOf(r).nodeRows)
    ensures LoadGroup(r.groupId, s) == Ok((Loading, r))
  {
    RowsSorted(r);
    RowOrders();
    SortSorts(TableRowLess, s.tableRows);
    SortSorts(NodeRowLess, s.nodeRows);
    StrictIsUnique(TableRowLess, TableRowsOf(r.tables), Sort(TableRowLess, s.tableRows));
    StrictIsUnique(NodeRowLess, NodeRowsOf(r.checkpoints), Sort(NodeRowLess, s.nodeRows));
    SameMembers(s.tableRows, TableRowsOf(r.tables));
    SameMembers(s.nodeRows, NodeRowsOf(r.checkpoints));
    TablesReadBack(r.tables);
    NodesCarryFence(r);
    NodesReadBack(r.checkpoints, r.fence.pipelineId, r.fence.generation);
    CanonicalParts(r);
    hide Canonical, CanonicalTables, CanonicalNodes, ManifestBytes, Sort, TablesOfRows, NodesOfRows, Transitive, Sorted, StrictlySorted;
  }

  /** Whatever has become of the rows, if a group loads under the checksum that was registered then it is
      the registered request, up to the fencing token, which the checksum does not cover. */
  lemma LoadedIsRegistered(r: ActivationRequest, s: GroupRows, groupId: GroupId)
    requires Canonical(r) == Ok(r) && RequestFits(r) && s.checksum == ManifestBytes(r)
    requires LoadGroup(groupId, s).Ok? && RequestFits(LoadGroup(groupId, s).value.1)
    ensures LoadGroup(groupId, s).value.1 == r.(fence := r.fence.(token := s.token))
  {
    var q := LoadGroup(groupId, s).value.1;
    LoadedFacts(groupId, s);
    hide LoadGroup;
    ManifestBytesDetermine(q, r);
    NodesCarryFence(q);
    NodesCarryFence(r);
    forall i | 0 <= i < |r.checkpoints| ensures q.checkpoints[i] == r.checkpoints[i] {
      assert SameNode(q.checkpoints[i], r.checkpoints[i]);
    }
    hide Canonical, ManifestBytes, RequestFits;
  }

  lemma LoadedFacts(groupId: GroupId, s: GroupRows)
    requires LoadGroup(groupId, s).Ok?
    ensures var q := LoadGroup(groupId, s).value.1;
      Canonical(q) == Ok(q) && ManifestBytes(q) == s.checksum && q.groupId == groupId && q.fence == Fence(s.pipelineId, s.generation, s.token)
  {
    hide Canonical, ManifestBytes, Sort, TablesOfRows, NodesOfRows;
  }
}
