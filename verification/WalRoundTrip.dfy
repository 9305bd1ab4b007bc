/** Transactions written as pgoutput messages come back as they were: a writer, and what the decoder and the
    assembler make of what it writes. */
module WalRoundTrip {
  import opened Core
  import opened PrimaryKey
  import opened RowChanges
  import opened Transactions
  import opened Wal

  // ---- The writer -----------------------------------------------------------------------------

  /** How the server sends the old key of a row: as the key alone, as the whole old row, or both. */
  datatype OldForm = AsKey | AsOldRow | AsBoth(oldRow: Tuple)

  function KeyPart(form: OldForm, key: Tuple): Option<Tuple> {
    if form.AsOldRow? then None else Some(key)
  }

  function OldPart(form: OldForm, key: Tuple): Option<Tuple> {
    match form
    case AsKey => None
    case AsOldRow => Some(key)
    case AsBoth(oldRow) => Some(oldRow)
  }

  /** Bit 0 for CASCADE, bit 1 for RESTART IDENTITY. */
  function TruncateOptions(cascade: bool, restartIdentity: bool): bv8 {
    if cascade && restartIdentity then 3 else if cascade then 1 else if restartIdentity then 2 else 0
  }

  function Written(change: TransactionChange, form: OldForm): WireMessage {
    match change
    case Row(TableChange(id, _, Insert(row))) => WireInsert(id, row)
    case Row(TableChange(id, _, Update(None, row))) => WireUpdate(id, None, None, row)
    case Row(TableChange(id, _, Update(Some(key), row))) => WireUpdate(id, KeyPart(form, key), OldPart(form, key), row)
    case Row(TableChange(id, _, Delete(key))) => WireDelete(id, KeyPart(form, key), OldPart(form, key))
    case Truncate(ids, cascade, restartIdentity) => WireTruncate(ids, TruncateOptions(cascade, restartIdentity))
    case Ddl(message) => WireLogical("pg2cloudberry_ddl_v1", Some(message))
  }

  /** Between BEGIN and COMMIT the server sends changes, and in between whatever else it likes. */
  datatype Item = Sends(change: TransactionChange, form: OldForm) | Between(message: WireMessage)

  function WrittenItem(item: Item): WireMessage {
    match item
    case Sends(change, form) => Written(change, form)
    case Between(message) => message
  }

  function WrittenAll(items: seq<Item>): seq<WireMessage> {
    if items == [] then [] else WrittenAll(items[..|items| - 1]) + [WrittenItem(items[|items| - 1])]
  }

  function ChangesOf(items: seq<Item>): seq<TransactionChange> {
    if items == [] then []
    else ChangesOf(items[..|items| - 1]) + (match items[|items| - 1] case Sends(change, _) => [change] case Between(_) => [])
  }

  // ---- What relation messages say -------------------------------------------------------------

  datatype Shape = Shape(namespace: string, name: string, identity: ReplicaIdentity, columns: seq<WireColumn>)

  /** The shape the last relation message for `id` gave. */
  function LastShape(messages: seq<WireMessage>, id: nat): Option<Shape> {
    if messages == [] then None
    else match messages[|messages| - 1]
      case WireRelation(r, namespace, name, identity, columns) =>
        if r == id then Some(Shape(namespace, name, identity, columns)) else LastShape(messages[..|messages| - 1], id)
      case _ => LastShape(messages[..|messages| - 1], id)
  }

  /** One for the first relation message, one more for each that changed the shape. */
  function ShapesSeen(messages: seq<WireMessage>, id: nat): nat {
    if messages == [] then 0
    else
      var before := messages[..|messages| - 1];
      ShapesSeen(before, id) + (if LastShape(messages, id) != LastShape(before, id) then 1 else 0)
  }

  ghost predicate SameColumns(columns: seq<RelationColumn>, wire: seq<WireColumn>) {
    && |columns| == |wire|
    && (forall i | 0 <= i < |wire| ::
          wire[i].typeId >= 0 && columns[i] == RelationColumn(wire[i].flags, wire[i].name, wire[i].typeId, wire[i].typeModifier))
  }

  /** The decoder knows of a relation what its messages said, under the number of shapes they gave it. */
  ghost predicate RelationKnown(d: Decoder, messages: seq<WireMessage>, id: nat) {
    && (id in d.relations <==> LastShape(messages, id).Some?)
    && (id in d.relations ==>
          var event, shape := d.relations[id], LastShape(messages, id).value;
          && event.relationId == id && event.namespace == shape.namespace && event.name == shape.name
          && event.replicaIdentity == shape.identity && SameColumns(event.columns, shape.columns)
          && event.generation == ShapesSeen(messages, id))
  }

  lemma {:induction false} ColumnsConvert(wire: seq<WireColumn>)
    ensures Columns(wire).Ok? <==> forall i | 0 <= i < |wire| :: wire[i].typeId >= 0
    ensures Columns(wire).Ok? ==> SameColumns(Columns(wire).value, wire)
  {
    if wire != [] {
      ColumnsConvert(wire[1..]);
      assert forall i | 1 <= i < |wire| :: wire[i] == wire[1..][i - 1];
    }
  }

  lemma SameColumnsTell(columns: seq<RelationColumn>, a: seq<WireColumn>, b: seq<WireColumn>)
    requires SameColumns(columns, a) && SameColumns(columns, b)
    ensures a == b
  {
    assert forall i | 0 <= i < |a| :: a[i] == b[i];
  }

  lemma SameColumnsGive(a: seq<RelationColumn>, b: seq<RelationColumn>, wire: seq<WireColumn>)
    requires SameColumns(a, wire) && SameColumns(b, wire)
    ensures a == b
  {
  }

  lemma OneMore(messages: seq<WireMessage>, m: WireMessage, id: nat)
    ensures LastShape(messages + [m], id) ==
      if m.WireRelation? && m.relationId == id then Some(Shape(m.namespace, m.name, m.identity, m.columns)) else LastShape(messages, id)
    ensures ShapesSeen(messages + [m], id) ==
      ShapesSeen(messages, id) + if LastShape(messages + [m], id) != LastShape(messages, id) then 1 else 0
  {
    assert (messages + [m])[..|messages|] == messages && (messages + [m])[|messages|] == m;
  }

  lemma RelationMessageKnown(d: Decoder, messages: seq<WireMessage>, m: WireMessage, id: nat)
    requires RelationKnown(d, messages, id) && m.WireRelation? && Decode(d, m).result.Ok?
    ensures RelationKnown(Decode(d, m).decoder, messages + [m], id)
  {
    OneMore(messages, m, id);
    ColumnsConvert(m.columns);
    if m.relationId == id && id in d.relations {
      var shape := LastShape(messages, id).value;
      if d.relations[id].columns == Columns(m.columns).value { SameColumnsTell(d.relations[id].columns, shape.columns, m.columns); }
      if shape.columns == m.columns { SameColumnsGive(d.relations[id].columns, Columns(m.columns).value, m.columns); }
    }
    NoneSeen(messages, id);
    hide SameColumns, LastShape, ShapesSeen, Columns;
  }

  lemma {:induction false} NoneSeen(messages: seq<WireMessage>, id: nat)
    ensures LastShape(messages, id).None? ==> ShapesSeen(messages, id) == 0
  {
    if messages != [] {
      NoneSeen(messages[..|messages| - 1], id);
    }
  }

  lemma OtherMessageKnown(d: Decoder, messages: seq<WireMessage>, m: WireMessage, id: nat)
    requires RelationKnown(d, messages, id) && !m.WireRelation?
    ensures RelationKnown(Decode(d, m).decoder, messages + [m], id)
  {
    OneMore(messages, m, id);
    hide SameColumns, LastShape, ShapesSeen, RequireRelation, RequireRelations;
  }

  lemma FedAll(identity: NodeIdentity, limits: TransactionLimits, messages: seq<WireMessage>, m: WireMessage)
    ensures FeedAll(identity, limits, messages + [m]) == Feed(identity, limits, FeedAll(identity, limits, messages), m)
  {
    assert (messages + [m])[..|messages|] == messages;
  }

  /** On every stream without an error: the decoder knows each relation as last described, and its generation is
      one plus the number of times the description changed. */
  lemma {:induction false} GenerationsCountShapes(identity: NodeIdentity, limits: TransactionLimits, messages: seq<WireMessage>, id: nat)
    requires FeedAll(identity, limits, messages).error.None?
    ensures RelationKnown(FeedAll(identity, limits, messages).decoder, messages, id)
  {
    hide RelationKnown, Decode, Assemble;
    if messages == [] {
      NothingKnown(id);
    } else {
      var before, m := messages[..|messages| - 1], messages[|messages| - 1];
      assert messages == before + [m];
      GenerationsCountShapes(identity, limits, before, id);
      var d := FeedAll(identity, limits, before).decoder;
      if m.WireRelation? { RelationMessageKnown(d, before, m, id); } else { OtherMessageKnown(d, before, m, id); }
    }
  }

  lemma NothingKnown(id: nat)
    ensures RelationKnown(Decoder(false, map[]), [], id)
  {
  }

  // ---- One change -----------------------------------------------------------------------------

  /** The relations a change names are described, with the default identity, and a row carries the generation. */
  ghost predicate Describes(messages: seq<WireMessage>, change: TransactionChange) {
    match change
    case Row(row) => Default(messages, row.relationId) && ShapesSeen(messages, row.relationId) == row.generation
    case Truncate(ids, _, _) => forall i | 0 <= i < |ids| :: Default(messages, ids[i])
    case Ddl(_) => true
  }

  ghost predicate Default(messages: seq<WireMessage>, id: nat) {
    LastShape(messages, id).Some? && LastShape(messages, id).value.identity == DefaultIdentity
  }

  ghost predicate AllKnown(d: Decoder, messages: seq<WireMessage>) {
    forall id :: RelationKnown(d, messages, id)
  }

  lemma DefaultIsFound(d: Decoder, messages: seq<WireMessage>, id: nat)
    requires AllKnown(d, messages) && Default(messages, id)
    ensures RequireRelation(d, id).None? && id in d.relations && d.relations[id].generation == ShapesSeen(messages, id)
  {
    assert RelationKnown(d, messages, id);
    hide LastShape, ShapesSeen, SameColumns;
  }

  lemma {:induction false} DefaultsAreFound(d: Decoder, messages: seq<WireMessage>, ids: seq<nat>)
    requires AllKnown(d, messages) && forall i | 0 <= i < |ids| :: Default(messages, ids[i])
    ensures RequireRelations(d, ids).None?
  {
    hide AllKnown, Default, RequireRelation;
    if ids != [] {
      DefaultIsFound(d, messages, ids[0]);
      assert forall i | 0 <= i < |ids[1..]| :: ids[1..][i] == ids[i + 1];
      DefaultsAreFound(d, messages, ids[1..]);
    }
  }

  /** A written change decodes to itself, whichever way its old key was sent. */
  lemma ReadsBack(d: Decoder, messages: seq<WireMessage>, change: TransactionChange, form: OldForm)
    requires d.inTransaction && AllKnown(d, messages) && Describes(messages, change)
    ensures Decode(d, Written(change, form)) == Decoding(d, Ok(Change(change)))
  {
    match change
    case Row(row) => DefaultIsFound(d, messages, row.relationId); hide AllKnown, RequireRelation, LastShape, ShapesSeen;
    case Truncate(ids, cascade, restartIdentity) =>
      DefaultsAreFound(d, messages, ids);
      OptionsReadBack(cascade, restartIdentity);
      hide AllKnown, RequireRelations, TruncateOptions;
    case Ddl(_) =>
  }

  lemma OptionsReadBack(cascade: bool, restartIdentity: bool)
    ensures var options := TruncateOptions(cascade, restartIdentity); (options & 1 != 0 <==> cascade) && (options & 2 != 0 <==> restartIdentity)
  {
  }

  // ---- Whole transactions ---------------------------------------------------------------------

  /** Relation messages that convert, type messages and keepalives. */
  ghost predicate Harmless(messages: seq<WireMessage>, m: WireMessage) {
    match m
    case WireType => true
    case WireKeepalive(_, _) => true
    case WireRelation(id, _, _, _, columns) => (forall i | 0 <= i < |columns| :: columns[i].typeId >= 0) && ShapesSeen(messages, id) < USIZE_MAX
    case _ => false
  }

  ghost predicate ItemOk(messages: seq<WireMessage>, item: Item) {
    match item
    case Sends(change, _) => Describes(messages, change)
    case Between(message) => Harmless(messages, message)
  }

  /** Each item fits what was sent before it. */
  ghost predicate Sendable(messages: seq<WireMessage>, items: seq<Item>) {
    items == [] ||
    (Sendable(messages, items[..|items| - 1]) && ItemOk(messages + WrittenAll(items[..|items| - 1]), items[|items| - 1]))
  }

  /** The transaction is open with the changes sent so far; nothing was emitted since `s`. */
  ghost predicate Open(s: Stream, e: Stream, begin: WireMessage, changes: seq<TransactionChange>)
    requires begin.WireBegin? && begin.timestamp.Some?
  {
    && e.error.None? && e.emitted == s.emitted && e.decoder.inTransaction && e.assembler.lastCommitLsn == s.assembler.lastCommitLsn
    && e.assembler.pending == Some(Pending(begin.xid, begin.finalLsn, begin.timestamp.value, WithoutRepeats(changes),
                                           TotalBytes(WithoutRepeats(changes))))
  }

  lemma {:induction false} BytesBounded(changes: seq<TransactionChange>)
    ensures TotalBytes(changes) <= USIZE_MAX
  {
  }

  /** Fewer changes keep the limits too. */
  lemma FewerFit(limits: TransactionLimits, changes: seq<TransactionChange>, change: TransactionChange)
    requires WithinLimits(limits, WithoutRepeats(changes + [change]))
    ensures WithinLimits(limits, WithoutRepeats(changes))
  {
    hide WithoutRepeats, TotalBytes, ChangeBytes;
    RepeatsExtend(changes, change);
    BytesExtend(WithoutRepeats(changes), change);
    BytesBounded(WithoutRepeats(changes));
  }

  lemma SendKeepsOpen(identity: NodeIdentity, limits: TransactionLimits, s: Stream, e: Stream, begin: WireMessage,
                      messages: seq<WireMessage>, changes: seq<TransactionChange>, change: TransactionChange, form: OldForm)
    requires begin.WireBegin? && begin.timestamp.Some? && Open(s, e, begin, changes)
    requires AllKnown(e.decoder, messages) && LockStep(e.decoder, e.assembler) && Describes(messages, change)
    requires WithinLimits(limits, WithoutRepeats(changes + [change]))
    ensures Open(s, Feed(identity, limits, e, Written(change, form)), begin, changes + [change])
  {
    hide WithoutRepeats, TotalBytes, ChangeBytes, Decode, Written, AllKnown, Describes;
    ReadsBack(e.decoder, messages, change, form);
    RepeatsExtend(changes, change);
    BytesExtend(WithoutRepeats(changes), change);
    if change.Row? { GenerationIsCurrent(e, messages, change); }
    hide LockStep;
  }

  lemma GenerationIsCurrent(e: Stream, messages: seq<WireMessage>, change: TransactionChange)
    requires AllKnown(e.decoder, messages) && LockStep(e.decoder, e.assembler) && Describes(messages, change) && change.Row?
    ensures change.row.relationId in e.assembler.generations && e.assembler.generations[change.row.relationId] == change.row.generation
  {
    DefaultIsFound(e.decoder, messages, change.row.relationId);
    hide AllKnown, LastShape, ShapesSeen;
  }

  lemma BetweenKeepsOpen(identity: NodeIdentity, limits: TransactionLimits, s: Stream, e: Stream, begin: WireMessage,
                         messages: seq<WireMessage>, changes: seq<TransactionChange>, m: WireMessage)
    requires begin.WireBegin? && begin.timestamp.Some? && Open(s, e, begin, changes)
    requires AllKnown(e.decoder, messages) && LockStep(e.decoder, e.assembler) && Harmless(messages, m)
    ensures Open(s, Feed(identity, limits, e, m), begin, changes)
  {
    hide WithoutRepeats, TotalBytes;
    assert e.emitted + [] == e.emitted;
    if m.WireRelation? { HarmlessDecodes(e.decoder, messages, m); }
    StepKeepsLockStep(identity, limits, e.decoder, e.assembler, m);
    hide AllKnown, Harmless, NextGeneration, Columns;
  }

  lemma HarmlessDecodes(d: Decoder, messages: seq<WireMessage>, m: WireMessage)
    requires AllKnown(d, messages) && Harmless(messages, m) && m.WireRelation?
    ensures Decode(d, m).result.Ok?
  {
    ColumnsConvert(m.columns);
    assert RelationKnown(d, messages, m.relationId);
    hide LastShape, ShapesSeen, Columns, SameColumns;
  }

  lemma StreamFacts(identity: NodeIdentity, limits: TransactionLimits, messages: seq<WireMessage>)
    requires FeedAll(identity, limits, messages).error.None?
    ensures var s := FeedAll(identity, limits, messages);
      && AllKnown(s.decoder, messages) && LockStep(s.decoder, s.assembler)
      && s.assembler.lastCommitLsn == (if s.emitted == [] then None else Some(s.emitted[|s.emitted| - 1].finalPosition.lsn))
  {
    EmittedAreBrackets(identity, limits, messages);
    hide FeedAll, RelationKnown, Bracketed, PendingOk;
    forall id ensures RelationKnown(FeedAll(identity, limits, messages).decoder, messages, id) {
      GenerationsCountShapes(identity, limits, messages, id);
    }
  }

  lemma {:induction false} ItemsKeepOpen(identity: NodeIdentity, limits: TransactionLimits, s: Stream, begin: WireMessage,
                                         messages: seq<WireMessage>, items: seq<Item>)
    requires begin.WireBegin? && begin.timestamp.Some? && Open(s, FeedAll(identity, limits, messages), begin, [])
    requires Sendable(messages, items) && WithinLimits(limits, WithoutRepeats(ChangesOf(items)))
    ensures Open(s, FeedAll(identity, limits, messages + WrittenAll(items)), begin, ChangesOf(items))
    decreases |items|
  {
    hide Open, Feed, WithoutRepeats, WithinLimits, AllKnown, LockStep, Describes, Harmless, Written;
    if items == [] {
      assert messages + WrittenAll(items) == messages;
    } else {
      var init, item := items[..|items| - 1], items[|items| - 1];
      var so, e := messages + WrittenAll(init), FeedAll(identity, limits, messages + WrittenAll(init));
      if item.Sends? { FewerFit(limits, ChangesOf(init), item.change); } else { assert ChangesOf(init) + [] == ChangesOf(init); }
      ItemsKeepOpen(identity, limits, s, begin, messages, init);
      OpenHasNoError(s, e, begin, ChangesOf(init));
      StreamFacts(identity, limits, so);
      assert messages + WrittenAll(items) == so + [WrittenItem(item)];
      FedAll(identity, limits, so, WrittenItem(item));
      match item
      case Sends(change, form) => SendKeepsOpen(identity, limits, s, e, begin, so, ChangesOf(init), change, form);
      case Between(message) => BetweenKeepsOpen(identity, limits, s, e, begin, so, ChangesOf(init), message);
    }
  }

  lemma OpenHasNoError(s: Stream, e: Stream, begin: WireMessage, changes: seq<TransactionChange>)
    requires begin.WireBegin? && begin.timestamp.Some? && Open(s, e, begin, changes)
    ensures e.error.None?
  {
  }

  lemma BeginOpensTransaction(identity: NodeIdentity, limits: TransactionLimits, messages: seq<WireMessage>, begin: WireMessage)
    requires var s := FeedAll(identity, limits, messages);
      && s.error.None? && !s.decoder.inTransaction && begin.WireBegin? && begin.timestamp.Some?
      && (s.emitted != [] ==> s.emitted[|s.emitted| - 1].finalPosition.lsn <= begin.finalLsn)
    ensures Open(FeedAll(identity, limits, messages), FeedAll(identity, limits, messages + [begin]), begin, [])
  {
    StreamFacts(identity, limits, messages);
    FedAll(identity, limits, messages, begin);
    hide FeedAll, AllKnown;
    var s := FeedAll(identity, limits, messages);
    assert s.emitted + [] == s.emitted;
  }

  lemma CommitCloses(identity: NodeIdentity, limits: TransactionLimits, s: Stream, e: Stream, begin: WireMessage,
                     changes: seq<TransactionChange>, commit: WireMessage)
    requires begin.WireBegin? && begin.timestamp.Some? && Open(s, e, begin, changes)
    requires commit.WireCommit? && commit.timestamp.Some? && commit.flags == 0 && commit.commitLsn <= commit.endLsn
    requires begin.finalLsn <= commit.endLsn && begin.timestamp.value <= commit.timestamp.value
    requires s.assembler.lastCommitLsn.Some? ==> s.assembler.lastCommitLsn.value <= begin.finalLsn
    ensures var end := Feed(identity, limits, e, commit);
      && end.error.None? && !end.decoder.inTransaction && end.decoder.relations == e.decoder.relations
      && end.emitted == s.emitted + [SourceTransaction(begin.xid, identity.Position(commit.endLsn), WithoutRepeats(changes))]
  {
    hide WithoutRepeats, TotalBytes;
  }

  /** After any stream that ended between transactions: BEGIN, changes in any of their written forms with
      relation, type and keepalive messages anywhere among them, COMMIT. Exactly one transaction is emitted for
      it, with those changes in that order, less repeated DDL messages; and the next may follow. */
  lemma TransactionReadsBack(identity: NodeIdentity, limits: TransactionLimits, messages: seq<WireMessage>, begin: WireMessage,
                             items: seq<Item>, commit: WireMessage)
    requires var s := FeedAll(identity, limits, messages);
      && s.error.None? && !s.decoder.inTransaction && begin.WireBegin? && begin.timestamp.Some?
      && (s.emitted != [] ==> s.emitted[|s.emitted| - 1].finalPosition.lsn <= begin.finalLsn)
    requires Sendable(messages + [begin], items) && WithinLimits(limits, WithoutRepeats(ChangesOf(items)))
    requires commit.WireCommit? && commit.timestamp.Some? && commit.flags == 0 && commit.commitLsn <= commit.endLsn
    requires begin.finalLsn <= commit.endLsn && begin.timestamp.value <= commit.timestamp.value
    ensures var s, e := FeedAll(identity, limits, messages),
                        FeedAll(identity, limits, messages + [begin] + WrittenAll(items) + [commit]);
      && e.error.None? && !e.decoder.inTransaction
      && e.emitted == s.emitted + [SourceTransaction(begin.xid, identity.Position(commit.endLsn), WithoutRepeats(ChangesOf(items)))]
  {
    hide FeedAll, Feed, Open, WithoutRepeats, WithinLimits, Sendable, AllKnown, LockStep;
    var s := FeedAll(identity, limits, messages);
    StreamFacts(identity, limits, messages);
    BeginOpensTransaction(identity, limits, messages, begin);
    ItemsKeepOpen(identity, limits, s, begin, messages + [begin], items);
    var sent := messages + [begin] + WrittenAll(items);
    FedAll(identity, limits, sent, commit);
    CommitCloses(identity, limits, s, FeedAll(identity, limits, sent), begin, ChangesOf(items), commit);
  }

  lemma {:induction false} NothingRepeated(changes: seq<TransactionChange>)
    requires forall i, j | 0 <= i < j < |changes| && changes[j].Ddl? :: changes[i] != changes[j]
    ensures WithoutRepeats(changes) == changes
  {
    if changes != [] {
      var init := changes[..|changes| - 1];
      NothingRepeated(init);
      assert changes == init + [changes[|changes| - 1]];
    }
  }

  /** Every source transaction of the node, within the limits and without a repeated DDL message, comes back
      as itself, change for change, whichever way the old keys were sent. */
  lemma EveryTransactionReadsBack(identity: NodeIdentity, limits: TransactionLimits, messages: seq<WireMessage>, t: SourceTransaction,
                                  items: seq<Item>, beginLsn: nat, beginTime: int, commitLsn: nat, commitTime: int)
    requires var s := FeedAll(identity, limits, messages);
      && s.error.None? && !s.decoder.inTransaction
      && (s.emitted != [] ==> s.emitted[|s.emitted| - 1].finalPosition.lsn <= beginLsn)
    requires t.finalPosition == identity.Position(t.finalPosition.lsn) && ChangesOf(items) == t.changes
    requires forall i, j | 0 <= i < j < |t.changes| && t.changes[j].Ddl? :: t.changes[i] != t.changes[j]
    requires Sendable(messages + [WireBegin(beginLsn, Some(beginTime), t.xid)], items) && WithinLimits(limits, t.changes)
    requires beginLsn <= t.finalPosition.lsn && commitLsn <= t.finalPosition.lsn && beginTime <= commitTime
    ensures var s, e := FeedAll(identity, limits, messages),
                        FeedAll(identity, limits, messages + [WireBegin(beginLsn, Some(beginTime), t.xid)] + WrittenAll(items) +
                                                  [WireCommit(commitLsn, t.finalPosition.lsn, Some(commitTime), 0)]);
      e.error.None? && !e.decoder.inTransaction && e.emitted == s.emitted + [t]
  {
    hide FeedAll, WithoutRepeats, WithinLimits, Sendable;
    NothingRepeated(t.changes);
    TransactionReadsBack(identity, limits, messages, WireBegin(beginLsn, Some(beginTime), t.xid), items,
                         WireCommit(commitLsn, t.finalPosition.lsn, Some(commitTime), 0));
  }

  // ---- And nothing else is taken --------------------------------------------------------------

  /** The message is a writing of the change. */
  ghost predicate WritingOf(m: WireMessage, change: TransactionChange) {
    match change
    case Truncate(ids, cascade, restartIdentity) =>
      m.WireTruncate? && m.relationIds == ids && (m.options & 1 != 0 <==> cascade) && (m.options & 2 != 0 <==> restartIdentity)
    case _ => exists form :: m == Written(change, form)
  }

  lemma FoundIsDefault(d: Decoder, messages: seq<WireMessage>, id: nat)
    requires AllKnown(d, messages) && RequireRelation(d, id).None?
    ensures id in d.relations && Default(messages, id) && d.relations[id].generation == ShapesSeen(messages, id)
  {
    assert RelationKnown(d, messages, id);
    hide LastShape, ShapesSeen, SameColumns;
  }

  lemma {:induction false} FoundAreDefault(d: Decoder, messages: seq<WireMessage>, ids: seq<nat>)
    requires AllKnown(d, messages) && RequireRelations(d, ids).None?
    ensures forall i | 0 <= i < |ids| :: Default(messages, ids[i])
  {
    hide AllKnown, Default, RequireRelation;
    if ids != [] {
      FoundIsDefault(d, messages, ids[0]);
      FoundAreDefault(d, messages, ids[1..]);
      assert forall i | 1 <= i < |ids| :: ids[i] == ids[1..][i - 1];
    }
  }

  lemma OldKeyWritten(id: nat, generation: nat, key: Option<Tuple>, oldRow: Option<Tuple>, row: Tuple)
    ensures var change := Row(TableChange(id, generation, Update(if key.Some? then key else oldRow, row)));
      WritingOf(WireUpdate(id, key, oldRow, row), change)
    ensures key.Some? || oldRow.Some? ==>
      var change := Row(TableChange(id, generation, Delete(if key.Some? then key.value else oldRow.value)));
      WritingOf(WireDelete(id, key, oldRow), change)
  {
    var form := if key.None? then AsOldRow else if oldRow.None? then AsKey else AsBoth(oldRow.value);
    var sent := if key.Some? then key else oldRow;
    var updates := Row(TableChange(id, generation, Update(sent, row)));
    assert WireUpdate(id, key, oldRow, row) == Written(updates, form);
    if sent.Some? {
      assert WireDelete(id, key, oldRow) == Written(Row(TableChange(id, generation, Delete(sent.value))), form);
    }
  }

  lemma DecodedFromWriting(d: Decoder, messages: seq<WireMessage>, m: WireMessage, change: TransactionChange)
    requires AllKnown(d, messages) && Decode(d, m).result == Ok(Change(change))
    ensures d.inTransaction && Describes(messages, change) && WritingOf(m, change)
  {
    hide AllKnown, Default, RequireRelation, RequireRelations, ShapesSeen, Columns, NextGeneration;
    match m
    case WireInsert(id, row) => FoundIsDefault(d, messages, id); assert m == Written(change, AsKey);
    case WireUpdate(id, key, oldRow, row) => FoundIsDefault(d, messages, id); OldKeyWritten(id, change.row.generation, key, oldRow, row);
    case WireDelete(id, key, oldRow) => FoundIsDefault(d, messages, id); OldKeyWritten(id, change.row.generation, key, oldRow, []);
    case WireTruncate(ids, _) => FoundAreDefault(d, messages, ids);
    case WireLogical(_, _) => assert m == Written(change, AsKey);
    case _ =>
  }

  /** A change that is decoded, at any point of any stream, was written by the message, inside a transaction, and
      is of relations described by then with the default identity, under their present generation. */
  lemma DecodedWasWritten(identity: NodeIdentity, limits: TransactionLimits, messages: seq<WireMessage>, m: WireMessage, change: TransactionChange)
    requires FeedAll(identity, limits, messages).error.None?
    requires Decode(FeedAll(identity, limits, messages).decoder, m).result == Ok(Change(change))
    ensures FeedAll(identity, limits, messages).decoder.inTransaction && Describes(messages, change) && WritingOf(m, change)
  {
    hide FeedAll, AllKnown, Decode, Describes, WritingOf;
    StreamFacts(identity, limits, messages);
    DecodedFromWriting(FeedAll(identity, limits, messages).decoder, messages, m, change);
  }

  /** A described change is taken if and only if the transaction stays within the limits with it. */
  lemma ChangeTakenExactly(identity: NodeIdentity, limits: TransactionLimits, s: Stream, e: Stream, begin: WireMessage,
                           messages: seq<WireMessage>, changes: seq<TransactionChange>, change: TransactionChange, form: OldForm)
    requires begin.WireBegin? && begin.timestamp.Some? && Open(s, e, begin, changes) && WithinLimits(limits, WithoutRepeats(changes))
    requires AllKnown(e.decoder, messages) && LockStep(e.decoder, e.assembler) && Describes(messages, change)
    ensures Feed(identity, limits, e, Written(change, form)).error.None? <==> WithinLimits(limits, WithoutRepeats(changes + [change]))
  {
    hide WithoutRepeats, TotalBytes, ChangeBytes, Decode, Written, AllKnown, Describes;
    ReadsBack(e.decoder, messages, change, form);
    RepeatsExtend(changes, change);
    BytesExtend(WithoutRepeats(changes), change);
    if change.Row? { GenerationIsCurrent(e, messages, change); }
    hide LockStep;
  }

  /** A BEGIN is taken if and only if no transaction is open, its time is one, and it is not behind the last commit. */
  lemma BeginTakenExactly(identity: NodeIdentity, limits: TransactionLimits, messages: seq<WireMessage>, begin: WireMessage)
    requires FeedAll(identity, limits, messages).error.None? && begin.WireBegin?
    ensures var s := FeedAll(identity, limits, messages);
      FeedAll(identity, limits, messages + [begin]).error.None? <==>
        && !s.decoder.inTransaction && begin.timestamp.Some?
        && (s.emitted != [] ==> s.emitted[|s.emitted| - 1].finalPosition.lsn <= begin.finalLsn)
  {
    StreamFacts(identity, limits, messages);
    FedAll(identity, limits, messages, begin);
    hide FeedAll, AllKnown;
  }

  /** A COMMIT of an open transaction is taken if and only if its positions and times are in order and its flags
      are clear. */
  lemma CommitTakenExactly(identity: NodeIdentity, limits: TransactionLimits, s: Stream, e: Stream, begin: WireMessage,
                           changes: seq<TransactionChange>, commit: WireMessage)
    requires begin.WireBegin? && begin.timestamp.Some? && Open(s, e, begin, changes) && commit.WireCommit?
    ensures Feed(identity, limits, e, commit).error.None? <==>
      && commit.timestamp.Some? && commit.flags == 0 && commit.commitLsn <= commit.endLsn
      && (s.assembler.lastCommitLsn.Some? ==> s.assembler.lastCommitLsn.value <= commit.endLsn)
      && begin.finalLsn <= commit.endLsn && begin.timestamp.value <= commit.timestamp.value
  {
    hide WithoutRepeats, TotalBytes;
  }

  /** What a buffered change counts against the limit: a row its cells, a TRUNCATE four bytes for each relation, a
      DDL message its texts, schema names included, and four bytes for each relation. */
  lemma BufferedBytes(change: TransactionChange)
    ensures TotalBytes([change]) == SaturatingAdd(0, ChangeBytes(change))
    ensures change.Row? ==> ChangeBytes(change) == TupleBytes(CarriedCells(change.row.change))
    ensures change.Truncate? ==> ChangeBytes(change) == 4 * |change.relationIds|
    ensures change.Ddl? ==>
      var m := change.message;
      ChangeBytes(change) == |m.commandTag| + |m.schemaFingerprint| + 4 * |m.relationIds| + SchemaBytes(m.affectedSchemas)
  {
    assert [change][..0] == [];
    if change.Row? { RowNeedsItsCells(change.row.change); }
  }

  lemma {:induction false} SchemaBytesAdd(a: seq<string>, b: seq<string>)
    ensures SchemaBytes(a + b) == SchemaBytes(a) + SchemaBytes(b)
    ensures forall name :: SchemaBytes([name]) == |name|
  {
    forall name: string ensures SchemaBytes([name]) == |name| { assert [name][1..] == []; }
    if a == [] {
      assert a + b == b;
    } else {
      assert (a + b)[1..] == a[1..] + b;
      SchemaBytesAdd(a[1..], b);
    }
  }
}
