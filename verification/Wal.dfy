/** Decoding pgoutput messages and assembling them into committed transactions. */
module Wal {
  import opened Core
  import opened PrimaryKey
  import opened RowChanges
  import opened Transactions

  datatype ReplicaIdentity = DefaultIdentity | IndexIdentity | FullIdentity | NothingIdentity

  datatype RelationColumn = RelationColumn(flags: int, name: string, typeOid: nat, typeModifier: int)

  datatype RelationEvent = RelationEvent(relationId: nat, namespace: string, name: string, generation: nat,
                                         replicaIdentity: ReplicaIdentity, columns: seq<RelationColumn>)

  datatype WireColumn = WireColumn(flags: int, name: string, typeId: int, typeModifier: int)

  /** A parsed pgoutput message. A timestamp that the calendar cannot represent, and a DDL payload that
      does not parse, are `None`. */
  datatype WireMessage =
    | WireBegin(finalLsn: nat, timestamp: Option<int>, xid: nat)
    | WireCommit(commitLsn: nat, endLsn: nat, timestamp: Option<int>, flags: int)
    | WireRelation(relationId: nat, namespace: string, name: string, identity: ReplicaIdentity, columns: seq<WireColumn>)
    | WireType
    | WireInsert(relationId: nat, inserted: Tuple)
    | WireUpdate(relationId: nat, keyTuple: Option<Tuple>, oldTuple: Option<Tuple>, updated: Tuple)
    | WireDelete(relationId: nat, keyTuple: Option<Tuple>, oldTuple: Option<Tuple>)
    | WireTruncate(relationIds: seq<nat>, options: bv8)
    | WireLogical(prefix: string, content: Option<DdlMessage>)
    | WireOrigin
    | WireUnsupported
    | WireKeepalive(walEnd: nat, replyRequested: bool)

  datatype DecodedMessage =
    | Begin(finalLsn: nat, timestamp: int, xid: nat)
    | Commit(commitLsn: nat, endLsn: nat, timestamp: int, flags: int)
    | Relation(relation: RelationEvent)
    | TypeInfo
    | Change(change: TransactionChange)
    | Keepalive(walEnd: nat, replyRequested: bool)

  datatype SourceError =
    | NestedBegin | CommitWithoutBegin | OutsideTransaction | BadTimestamp | NegativeTypeOid | GenerationOverflow(relationId: nat)
    | UnknownRelation(relationId: nat) | UnsupportedReplicaIdentity(relationId: nat) | DeleteWithoutOldKey(relationId: nat)
    | UnknownPrefix | MalformedDdl | OriginUnsupported | UnsupportedMessage
    | BeginBeforeCommit | BeginMovedBehind(finalLsn: nat, previous: nat)
    | EventWithoutBegin | GenerationNotCurrent(relationId: nat, generation: nat)
    | TooManyChanges(xid: nat) | TooManyBytes(xid: nat)
    | ZeroGeneration(relationId: nat) | GenerationMovedBack(relationId: nat)
    | CommitFlags(flags: int) | CommitEndPrecedes(endLsn: nat, commitLsn: nat) | CommitMovedBack(endLsn: nat, previous: nat)
    | CommitNotOpen | BeginsAfterCommit(xid: nat) | CommitTimePrecedesBegin(xid: nat)
    | StreamEndedOpen(xid: nat)

  const DDL_MESSAGE_PREFIX: string := "pg2cloudberry_ddl_v1"

  // ---- The decoder ----------------------------------------------------------------------------

  datatype Decoder = Decoder(inTransaction: bool, relations: map<nat, RelationEvent>)

  datatype Decoding = Decoding(decoder: Decoder, result: Result<DecodedMessage, SourceError>)

  predicate SameShape(a: RelationEvent, b: RelationEvent) {
    a.relationId == b.relationId && a.namespace == b.namespace && a.name == b.name &&
    a.replicaIdentity == b.replicaIdentity && a.columns == b.columns
  }

  function Columns(columns: seq<WireColumn>): Result<seq<RelationColumn>, SourceError> {
    if columns == [] then Ok([])
    else if columns[0].typeId < 0 then Err(NegativeTypeOid)
    else match Columns(columns[1..])
      case Err(e) => Err(e)
      case Ok(rest) => Ok([RelationColumn(columns[0].flags, columns[0].name, columns[0].typeId, columns[0].typeModifier)] + rest)
  }

  function RequireRelation(d: Decoder, relationId: nat): Option<SourceError> {
    if relationId !in d.relations then Some(UnknownRelation(relationId))
    else if d.relations[relationId].replicaIdentity != DefaultIdentity then Some(UnsupportedReplicaIdentity(relationId))
    else None
  }

  function RequireRelations(d: Decoder, relationIds: seq<nat>): Option<SourceError> {
    if relationIds == [] then None
    else if RequireRelation(d, relationIds[0]).Some? then RequireRelation(d, relationIds[0])
    else RequireRelations(d, relationIds[1..])
  }

  /** The generation a relation message gets: 1 at first, one more whenever the shape changed. */
  function NextGeneration(d: Decoder, event: RelationEvent): Result<nat, SourceError> {
    if event.relationId !in d.relations then Ok(1)
    else
      var previous := d.relations[event.relationId];
      if SameShape(previous, event) then Ok(previous.generation)
      else if previous.generation >= USIZE_MAX then Err(GenerationOverflow(event.relationId))
      else Ok(previous.generation + 1)
  }

  function DecodeRow(d: Decoder, relationId: nat, change: Result<RowChange, SourceError>): Result<DecodedMessage, SourceError> {
    if !d.inTransaction then Err(OutsideTransaction)
    else if RequireRelation(d, relationId).Some? then Err(RequireRelation(d, relationId).value)
    else match change
      case Err(e) => Err(e)
      case Ok(row) => Ok(Change(Row(TableChange(relationId, d.relations[relationId].generation, row))))
  }

  function Either(first: Option<Tuple>, second: Option<Tuple>): Option<Tuple> {
    if first.Some? then first else second
  }

  function Decode(d: Decoder, m: WireMessage): Decoding {
    match m
    case WireBegin(finalLsn, timestamp, xid) =>
      if d.inTransaction then Decoding(d, Err(NestedBegin))
      else Decoding(d.(inTransaction := true), if timestamp.None? then Err(BadTimestamp) else Ok(Begin(finalLsn, timestamp.value, xid)))
    case WireCommit(commitLsn, endLsn, timestamp, flags) =>
      if !d.inTransaction then Decoding(d, Err(CommitWithoutBegin))
      else Decoding(d.(inTransaction := false),
                    if timestamp.None? then Err(BadTimestamp) else Ok(Commit(commitLsn, endLsn, timestamp.value, flags)))
    case WireRelation(relationId, namespace, name, identity, columns) =>
      (match Columns(columns)
       case Err(e) => Decoding(d, Err(e))
       case Ok(converted) =>
         var event := RelationEvent(relationId, namespace, name, 1, identity, converted);
         match NextGeneration(d, event)
         case Err(e) => Decoding(d, Err(e))
         case Ok(generation) =>
           Decoding(d.(relations := d.relations[relationId := event.(generation := generation)]),
                    Ok(Relation(event.(generation := generation)))))
    case WireType => Decoding(d, Ok(TypeInfo))
    case WireInsert(relationId, inserted) => Decoding(d, DecodeRow(d, relationId, Ok(Insert(inserted))))
    case WireUpdate(relationId, keyTuple, oldTuple, updated) =>
      Decoding(d, DecodeRow(d, relationId, Ok(Update(Either(keyTuple, oldTuple), updated))))
    case WireDelete(relationId, keyTuple, oldTuple) =>
      Decoding(d, DecodeRow(d, relationId,
        if Either(keyTuple, oldTuple).None? then Err(DeleteWithoutOldKey(relationId))
        else Ok(Delete(Either(keyTuple, oldTuple).value))))
    case WireTruncate(relationIds, options) =>
      Decoding(d, if !d.inTransaction then Err(OutsideTransaction)
                  else if RequireRelations(d, relationIds).Some? then Err(RequireRelations(d, relationIds).value)
                  else Ok(Change(Truncate(relationIds, options & 1 != 0, options & 2 != 0))))
    case WireLogical(prefix, content) =>
      Decoding(d, if !d.inTransaction then Err(OutsideTransaction)
                  else if prefix != DDL_MESSAGE_PREFIX then Err(UnknownPrefix)
                  else if content.None? then Err(MalformedDdl)
                  else Ok(Change(Ddl(content.value))))
    case WireOrigin => Decoding(d, Err(OriginUnsupported))
    case WireUnsupported => Decoding(d, Err(UnsupportedMessage))
    case WireKeepalive(walEnd, replyRequested) => Decoding(d, Ok(Keepalive(walEnd, replyRequested)))
  }

  class TransactionDecoder {
    var inTransaction: bool
    var relations: map<nat, RelationEvent>

    ghost function Contents(): Decoder
      reads this
    {
      Decoder(inTransaction, relations)
    }

    constructor ()
      ensures Contents() == Decoder(false, map[])
    {
      inTransaction, relations := false, map[];
    }

    method DecodeMessage(m: WireMessage) returns (result: Result<DecodedMessage, SourceError>)
      modifies this
      ensures Decoding(Contents(), result) == Decode(old(Contents()), m)
    {
      match m
      case WireBegin(finalLsn, timestamp, xid) =>
        if inTransaction { return Err(NestedBegin); }
        inTransaction := true;
        if timestamp.None? { return Err(BadTimestamp); }
        return Ok(Begin(finalLsn, timestamp.value, xid));
      case WireCommit(commitLsn, endLsn, timestamp, flags) =>
        if !inTransaction { return Err(CommitWithoutBegin); }
        inTransaction := false;
        if timestamp.None? { return Err(BadTimestamp); }
        return Ok(Commit(commitLsn, endLsn, timestamp.value, flags));
      case WireRelation(relationId, namespace, name, identity, columns) =>
        var converted := Columns(columns);
        if converted.Err? { return Err(converted.error); }
        var event := RelationEvent(relationId, namespace, name, 1, identity, converted.value);
        if relationId in relations {
          var previous := relations[relationId];
          if SameShape(previous, event) {
            event := event.(generation := previous.generation);
          } else {
            if previous.generation >= USIZE_MAX { return Err(GenerationOverflow(relationId)); }
            event := event.(generation := previous.generation + 1);
          }
        }
        relations := relations[relationId := event];
        return Ok(Relation(event));
      case WireTruncate(relationIds, options) =>
        if !inTransaction { return Err(OutsideTransaction); }
        var i := 0;
        while i < |relationIds|
          invariant i <= |relationIds|
          invariant RequireRelations(Contents(), relationIds) == RequireRelations(Contents(), relationIds[i..])
        {
          var missing := RequireRelation(Decoder(inTransaction, relations), relationIds[i]);
          if missing.Some? { return Err(missing.value); }
          i := i + 1;
        }
        return Ok(Change(Truncate(relationIds, options & 1 != 0, options & 2 != 0)));
      case WireType =>
        return Ok(TypeInfo);
      case WireInsert(relationId, inserted) =>
        if !inTransaction { return Err(OutsideTransaction); }
        var missing := RequireRelation(Decoder(inTransaction, relations), relationId);
        if missing.Some? { return Err(missing.value); }
        return Ok(Change(Row(TableChange(relationId, relations[relationId].generation, Insert(inserted)))));
      case WireUpdate(relationId, keyTuple, oldTuple, updated) =>
        if !inTransaction { return Err(OutsideTransaction); }
        var missing := RequireRelation(Decoder(inTransaction, relations), relationId);
        if missing.Some? { return Err(missing.value); }
        var sent := if keyTuple.Some? then keyTuple else oldTuple;
        return Ok(Change(Row(TableChange(relationId, relations[relationId].generation, Update(sent, updated)))));
      case WireDelete(relationId, keyTuple, oldTuple) =>
        if !inTransaction { return Err(OutsideTransaction); }
        var missing := RequireRelation(Decoder(inTransaction, relations), relationId);
        if missing.Some? { return Err(missing.value); }
        var sent := if keyTuple.Some? then keyTuple else oldTuple;
        if sent.None? { return Err(DeleteWithoutOldKey(relationId)); }
        return Ok(Change(Row(TableChange(relationId, relations[relationId].generation, Delete(sent.value)))));
      case WireLogical(prefix, content) =>
        if !inTransaction { return Err(OutsideTransaction); }
        if prefix != DDL_MESSAGE_PREFIX { return Err(UnknownPrefix); }
        if content.None? { return Err(MalformedDdl); }
        return Ok(Change(Ddl(content.value)));
      case WireOrigin =>
        return Err(OriginUnsupported);
      case WireUnsupported =>
        return Err(UnsupportedMessage);
      case WireKeepalive(walEnd, replyRequested) =>
        return Ok(Keepalive(walEnd, replyRequested));
    }
  }

  // ---- The assembler --------------------------------------------------------------------------

  datatype NodeIdentity = NodeIdentity(nodeId: int, systemIdentifier: nat, timeline: nat)
  {
    function Position(lsn: nat): SourcePosition {
      SourcePosition(nodeId, systemIdentifier, timeline, lsn)
    }
  }

  datatype TransactionLimits = TransactionLimits(maxChanges: nat, maxBytes: nat)

  datatype Pending = Pending(xid: nat, beginLsn: nat, beginTime: int, changes: seq<TransactionChange>, bufferedBytes: nat)

  datatype Assembler = Assembler(pending: Option<Pending>, lastCommitLsn: Option<nat>, generations: map<nat, nat>)

  datatype AssembledEvent = CommittedTransaction(transaction: SourceTransaction, commitLsn: nat)
    | KeepaliveEvent(walEnd: nat, replyRequested: bool)

  datatype Assembling = Assembling(assembler: Assembler, result: Result<Option<AssembledEvent>, SourceError>)

  function SchemaBytes(schemas: seq<string>): nat {
    if schemas == [] then 0 else |schemas[0]| + SchemaBytes(schemas[1..])
  }

  function ChangeBytes(change: TransactionChange): nat {
    match change
    case Row(row) => RowBytes(row.change)
    case Truncate(relationIds, _, _) => |relationIds| * 4
    case Ddl(message) =>
      |message.commandTag| + |message.schemaFingerprint| + |message.relationIds| * 4 + SchemaBytes(message.affectedSchemas)
  }

  function AcceptRelation(a: Assembler, r: RelationEvent): Assembling {
    if r.generation == 0 then Assembling(a, Err(ZeroGeneration(r.relationId)))
    else if r.relationId in a.generations && r.generation < a.generations[r.relationId] then
      Assembling(a, Err(GenerationMovedBack(r.relationId)))
    else Assembling(a.(generations := a.generations[r.relationId := r.generation]), Ok(None))
  }

  function CommitPending(identity: NodeIdentity, a: Assembler, commitLsn: nat, endLsn: nat, timestamp: int, flags: int): Assembling {
    if flags != 0 then Assembling(a, Err(CommitFlags(flags)))
    else if endLsn < commitLsn then Assembling(a, Err(CommitEndPrecedes(endLsn, commitLsn)))
    else if a.lastCommitLsn.Some? && endLsn < a.lastCommitLsn.value then Assembling(a, Err(CommitMovedBack(endLsn, a.lastCommitLsn.value)))
    else if a.pending.None? then Assembling(a, Err(CommitNotOpen))
    else
      var p, taken := a.pending.value, a.(pending := None);
      if p.beginLsn > endLsn then Assembling(taken, Err(BeginsAfterCommit(p.xid)))
      else if timestamp < p.beginTime then Assembling(taken, Err(CommitTimePrecedesBegin(p.xid)))
      else Assembling(taken.(lastCommitLsn := Some(endLsn)),
                      Ok(Some(CommittedTransaction(SourceTransaction(p.xid, identity.Position(endLsn), p.changes), commitLsn))))
  }

  function AcceptChange(limits: TransactionLimits, a: Assembler, change: TransactionChange): Assembling {
    if a.pending.None? then Assembling(a, Err(EventWithoutBegin))
    else if change.Row? && !(change.row.relationId in a.generations && a.generations[change.row.relationId] == change.row.generation) then
      Assembling(a, Err(GenerationNotCurrent(change.row.relationId, change.row.generation)))
    else
      var p := a.pending.value;
      if change.Ddl? && change in p.changes then Assembling(a, Ok(None))
      else if |p.changes| >= limits.maxChanges then Assembling(a, Err(TooManyChanges(p.xid)))
      else if SaturatingAdd(p.bufferedBytes, ChangeBytes(change)) > limits.maxBytes then Assembling(a, Err(TooManyBytes(p.xid)))
      else Assembling(a.(pending := Some(p.(changes := p.changes + [change],
                                            bufferedBytes := SaturatingAdd(p.bufferedBytes, ChangeBytes(change))))), Ok(None))
  }

  function Assemble(identity: NodeIdentity, limits: TransactionLimits, a: Assembler, e: DecodedMessage): Assembling {
    match e
    case Keepalive(walEnd, replyRequested) => Assembling(a, Ok(Some(KeepaliveEvent(walEnd, replyRequested))))
    case Relation(relation) => AcceptRelation(a, relation)
    case TypeInfo => Assembling(a, Ok(None))
    case Begin(finalLsn, timestamp, xid) =>
      if a.pending.Some? then Assembling(a, Err(BeginBeforeCommit))
      else if a.lastCommitLsn.Some? && finalLsn < a.lastCommitLsn.value then
        Assembling(a, Err(BeginMovedBehind(finalLsn, a.lastCommitLsn.value)))
      else Assembling(a.(pending := Some(Pending(xid, finalLsn, timestamp, [], 0))), Ok(None))
    case Commit(commitLsn, endLsn, timestamp, flags) => CommitPending(identity, a, commitLsn, endLsn, timestamp, flags)
    case Change(change) => AcceptChange(limits, a, change)
  }

  class TransactionAssembler {
    const identity: NodeIdentity
    const limits: TransactionLimits
    var pending: Option<Pending>
    var lastCommitLsn: Option<nat>
    var relationGenerations: map<nat, nat>

    ghost function Contents(): Assembler
      reads this
    {
      Assembler(pending, lastCommitLsn, relationGenerations)
    }

    constructor (identity: NodeIdentity, limits: TransactionLimits)
      ensures this.identity == identity && this.limits == limits && Contents() == Assembler(None, None, map[])
    {
      this.identity, this.limits := identity, limits;
      pending, lastCommitLsn, relationGenerations := None, None, map[];
    }

    method Push(e: DecodedMessage) returns (result: Result<Option<AssembledEvent>, SourceError>)
      modifies this
      ensures Assembling(Contents(), result) == Assemble(identity, limits, old(Contents()), e)
    {
      match e
      case Keepalive(walEnd, replyRequested) => return Ok(Some(KeepaliveEvent(walEnd, replyRequested)));
      case Relation(relation) =>
        if relation.generation == 0 { return Err(ZeroGeneration(relation.relationId)); }
        if relation.relationId in relationGenerations && relation.generation < relationGenerations[relation.relationId] {
          return Err(GenerationMovedBack(relation.relationId));
        }
        relationGenerations := relationGenerations[relation.relationId := relation.generation];
        return Ok(None);
      case TypeInfo => return Ok(None);
      case Begin(finalLsn, timestamp, xid) =>
        if pending.Some? { return Err(BeginBeforeCommit); }
        if lastCommitLsn.Some? && finalLsn < lastCommitLsn.value { return Err(BeginMovedBehind(finalLsn, lastCommitLsn.value)); }
        pending := Some(Pending(xid, finalLsn, timestamp, [], 0));
        return Ok(None);
      case Commit(commitLsn, endLsn, timestamp, flags) => result := PushCommit(commitLsn, endLsn, timestamp, flags);
      case Change(change) => result := PushChange(change);
    }

    method PushChange(change: TransactionChange) returns (result: Result<Option<AssembledEvent>, SourceError>)
      modifies this
      ensures Assembling(Contents(), result) == AcceptChange(limits, old(Contents()), change)
    {
      if pending.None? { return Err(EventWithoutBegin); }
      if change.Row? && (change.row.relationId !in relationGenerations || relationGenerations[change.row.relationId] != change.row.generation) {
        return Err(GenerationNotCurrent(change.row.relationId, change.row.generation));
      }
      if change.Ddl? && change in pending.value.changes { return Ok(None); }
      if |pending.value.changes| >= limits.maxChanges { return Err(TooManyChanges(pending.value.xid)); }
      var bytes := ChangeBytes(change);
      if SaturatingAdd(pending.value.bufferedBytes, bytes) > limits.maxBytes { return Err(TooManyBytes(pending.value.xid)); }
      pending := Some(pending.value.(bufferedBytes := SaturatingAdd(pending.value.bufferedBytes, bytes)));
      pending := Some(pending.value.(changes := pending.value.changes + [change]));
      return Ok(None);
    }

    method PushCommit(commitLsn: nat, endLsn: nat, timestamp: int, flags: int) returns (result: Result<Option<AssembledEvent>, SourceError>)
      modifies this
      ensures Assembling(Contents(), result) == CommitPending(identity, old(Contents()), commitLsn, endLsn, timestamp, flags)
    {
      if flags != 0 { return Err(CommitFlags(flags)); }
      if endLsn < commitLsn { return Err(CommitEndPrecedes(endLsn, commitLsn)); }
      if lastCommitLsn.Some? && endLsn < lastCommitLsn.value { return Err(CommitMovedBack(endLsn, lastCommitLsn.value)); }
      if pending.None? { return Err(CommitNotOpen); }
      var taken := pending.value;
      pending := None;
      if taken.beginLsn > endLsn { return Err(BeginsAfterCommit(taken.xid)); }
      if timestamp < taken.beginTime { return Err(CommitTimePrecedesBegin(taken.xid)); }
      lastCommitLsn := Some(endLsn);
      return Ok(Some(CommittedTransaction(SourceTransaction(taken.xid, identity.Position(endLsn), taken.changes), commitLsn)));
    }
  }

  // ---- Decoder and assembler together ---------------------------------------------------------

  /** The open-transaction flag and the relation generations agree. */
  ghost predicate LockStep(d: Decoder, a: Assembler) {
    && (d.inTransaction <==> a.pending.Some?)
    && a.generations.Keys == d.relations.Keys
    && (forall r | r in d.relations :: d.relations[r].relationId == r && a.generations[r] == d.relations[r].generation >= 1)
  }

  /** The assembler's own errors about brackets and generations, all covered by the decoder. */
  predicate Shadowed(e: SourceError) {
    e.BeginBeforeCommit? || e.EventWithoutBegin? || e.GenerationNotCurrent? || e.ZeroGeneration? ||
    e.GenerationMovedBack? || e.CommitNotOpen?
  }

  lemma StepKeepsLockStep(identity: NodeIdentity, limits: TransactionLimits, d: Decoder, a: Assembler, m: WireMessage)
    requires LockStep(d, a) && Decode(d, m).result.Ok?
    ensures var s := Assemble(identity, limits, a, Decode(d, m).result.value);
      && (s.result.Ok? ==> LockStep(Decode(d, m).decoder, s.assembler))
      && (s.result.Err? ==> !Shadowed(s.result.error))
  {
  }

  // ---- Whole streams --------------------------------------------------------------------------

  datatype Stream = Stream(decoder: Decoder, assembler: Assembler, decoded: seq<DecodedMessage>,
                           emitted: seq<SourceTransaction>, error: Option<SourceError>)

  const Start := Stream(Decoder(false, map[]), Assembler(None, None, map[]), [], [], None)

  /** One message through decoder and assembler; the stream stops at its first error. */
  function Feed(identity: NodeIdentity, limits: TransactionLimits, s: Stream, m: WireMessage): Stream {
    if s.error.Some? then s
    else
      var d := Decode(s.decoder, m);
      if d.result.Err? then s.(error := Some(d.result.error))
      else
        var a := Assemble(identity, limits, s.assembler, d.result.value);
        match a.result
        case Err(e) => s.(error := Some(e))
        case Ok(event) =>
          Stream(d.decoder, a.assembler, s.decoded + [d.result.value], s.emitted + EmittedBy(event), None)
  }

  function FeedAll(identity: NodeIdentity, limits: TransactionLimits, messages: seq<WireMessage>): Stream {
    if messages == [] then Start
    else Feed(identity, limits, FeedAll(identity, limits, messages[..|messages| - 1]), messages[|messages| - 1])
  }

  // ---- What the emitted transactions must be, read off the decoded messages -------------------

  /** Where the transaction open at the end of `events` began. */
  function OpenedAt(events: seq<DecodedMessage>): (b: Option<nat>)
    ensures b.Some? ==> b.value < |events| && events[b.value].Begin?
  {
    if events == [] then None
    else
      var last := |events| - 1;
      if events[last].Begin? then Some(last) else if events[last].Commit? then None else OpenedAt(events[..last])
  }

  function ChangesIn(events: seq<DecodedMessage>): seq<TransactionChange> {
    if events == [] then []
    else ChangesIn(events[..|events| - 1]) + (if events[|events| - 1].Change? then [events[|events| - 1].change] else [])
  }

  /** Drops every DDL message that repeats an earlier one. */
  function WithoutRepeats(changes: seq<TransactionChange>): seq<TransactionChange> {
    if changes == [] then []
    else
      var last := |changes| - 1;
      WithoutRepeats(changes[..last]) +
      (if changes[last].Ddl? && changes[last] in changes[..last] then [] else [changes[last]])
  }

  /** One transaction per commit: what lies between it and its BEGIN. */
  function Bracketed(identity: NodeIdentity, events: seq<DecodedMessage>): seq<SourceTransaction> {
    if events == [] then []
    else
      var last := |events| - 1;
      var begun := OpenedAt(events[..last]);
      Bracketed(identity, events[..last]) +
      (if events[last].Commit? && begun.Some? then
         [SourceTransaction(events[begun.value].xid, identity.Position(events[last].endLsn),
                            WithoutRepeats(ChangesIn(events[begun.value + 1..last])))]
       else [])
  }

  lemma {:induction false} RepeatsKeepMembers(changes: seq<TransactionChange>, x: TransactionChange)
    ensures x in WithoutRepeats(changes) <==> x in changes
  {
    if changes != [] {
      RepeatsKeepMembers(changes[..|changes| - 1], x);
      assert changes == changes[..|changes| - 1] + [changes[|changes| - 1]];
    }
  }

  function TotalBytes(changes: seq<TransactionChange>): nat {
    if changes == [] then 0 else SaturatingAdd(TotalBytes(changes[..|changes| - 1]), ChangeBytes(changes[|changes| - 1]))
  }

  predicate WithinLimits(limits: TransactionLimits, changes: seq<TransactionChange>) {
    |changes| <= limits.maxChanges && TotalBytes(changes) <= limits.maxBytes
  }

  /** The open transaction is the tail of the decoded messages since its BEGIN. */
  ghost predicate PendingOk(limits: TransactionLimits, pending: Option<Pending>, events: seq<DecodedMessage>) {
    && (pending.Some? <==> OpenedAt(events).Some?)
    && (pending.Some? ==>
          var p, b := pending.value, OpenedAt(events).value;
          && p.xid == events[b].xid && p.changes == WithoutRepeats(ChangesIn(events[b + 1..]))
          && p.bufferedBytes == TotalBytes(p.changes) && WithinLimits(limits, p.changes))
  }

  /** Emitted transactions keep the limits and never move back; the last commit is remembered. */
  ghost predicate EmittedOk(limits: TransactionLimits, lastCommitLsn: Option<nat>, emitted: seq<SourceTransaction>) {
    && (forall i | 0 <= i < |emitted| :: WithinLimits(limits, emitted[i].changes))
    && (forall i, j | 0 <= i < j < |emitted| :: emitted[i].finalPosition.lsn <= emitted[j].finalPosition.lsn)
    && lastCommitLsn == (if emitted == [] then None else Some(emitted[|emitted| - 1].finalPosition.lsn))
  }

  /** What holds of a stream at every moment. */
  ghost predicate StreamOk(identity: NodeIdentity, limits: TransactionLimits, s: Stream) {
    && LockStep(s.decoder, s.assembler)
    && s.emitted == Bracketed(identity, s.decoded)
    && PendingOk(limits, s.assembler.pending, s.decoded)
    && EmittedOk(limits, s.assembler.lastCommitLsn, s.emitted)
  }

  lemma OpenedStays(events: seq<DecodedMessage>, e: DecodedMessage)
    ensures OpenedAt(events + [e]) == if e.Begin? then Some(|events|) else if e.Commit? then None else OpenedAt(events)
  {
    assert (events + [e])[..|events|] == events;
  }

  lemma ChangesExtend(events: seq<DecodedMessage>, b: nat, e: DecodedMessage)
    requires b < |events|
    ensures (events + [e])[b + 1..] == events[b + 1..] + [e]
    ensures ChangesIn((events + [e])[b + 1..]) == if e.Change? then ChangesIn(events[b + 1..]) + [e.change] else ChangesIn(events[b + 1..])
  {
    assert (events[b + 1..] + [e])[..|events[b + 1..]|] == events[b + 1..];
  }

  lemma QuietKeepsPending(limits: TransactionLimits, pending: Option<Pending>, events: seq<DecodedMessage>, e: DecodedMessage)
    requires PendingOk(limits, pending, events) && !e.Begin? && !e.Commit? && !e.Change?
    ensures PendingOk(limits, pending, events + [e])
  {
    hide WithoutRepeats, ChangesIn, TotalBytes, WithinLimits;
    OpenedStays(events, e);
    if pending.Some? { ChangesExtend(events, OpenedAt(events).value, e); }
  }

  lemma RepeatsExtend(seen: seq<TransactionChange>, change: TransactionChange)
    ensures WithoutRepeats(seen + [change]) ==
      if change.Ddl? && change in WithoutRepeats(seen) then WithoutRepeats(seen) else WithoutRepeats(seen) + [change]
  {
    assert (seen + [change])[..|seen|] == seen;
    RepeatsKeepMembers(seen, change);
  }

  lemma BytesExtend(changes: seq<TransactionChange>, change: TransactionChange)
    ensures TotalBytes(changes + [change]) == SaturatingAdd(TotalBytes(changes), ChangeBytes(change))
  {
    assert (changes + [change])[..|changes|] == changes;
  }

  lemma ChangeKeepsPending(limits: TransactionLimits, a: Assembler, events: seq<DecodedMessage>, change: TransactionChange)
    requires PendingOk(limits, a.pending, events) && AcceptChange(limits, a, change).result.Ok?
    ensures PendingOk(limits, AcceptChange(limits, a, change).assembler.pending, events + [Change(change)])
  {
    hide WithoutRepeats, ChangesIn, TotalBytes, ChangeBytes, OpenedAt;
    OpenedStays(events, Change(change));
    var b, p := OpenedAt(events).value, a.pending.value;
    ChangesExtend(events, b, Change(change));
    RepeatsExtend(ChangesIn(events[b + 1..]), change);
    BytesExtend(p.changes, change);
    assert (events + [Change(change)])[b] == events[b];
  }

  lemma BeginOpens(limits: TransactionLimits, events: seq<DecodedMessage>, finalLsn: nat, timestamp: int, xid: nat)
    ensures PendingOk(limits, Some(Pending(xid, finalLsn, timestamp, [], 0)), events + [Begin(finalLsn, timestamp, xid)])
  {
    var next := events + [Begin(finalLsn, timestamp, xid)];
    OpenedStays(events, next[|events|]);
    assert next[|events| + 1..] == [];
  }

  lemma CommitEmits(identity: NodeIdentity, limits: TransactionLimits, a: Assembler, events: seq<DecodedMessage>,
                    emitted: seq<SourceTransaction>, e: DecodedMessage)
    requires PendingOk(limits, a.pending, events) && EmittedOk(limits, a.lastCommitLsn, emitted)
    requires emitted == Bracketed(identity, events) && e.Commit?
    requires CommitPending(identity, a, e.commitLsn, e.endLsn, e.timestamp, e.flags).result.Ok?
    ensures var s := CommitPending(identity, a, e.commitLsn, e.endLsn, e.timestamp, e.flags);
      && s.result.value.Some? && s.result.value.value.CommittedTransaction?
      && var next := emitted + [s.result.value.value.transaction];
         && next == Bracketed(identity, events + [e]) && EmittedOk(limits, s.assembler.lastCommitLsn, next)
         && PendingOk(limits, s.assembler.pending, events + [e])
  {
    OpenedStays(events, e);
    var b := OpenedAt(events).value;
    assert (events + [e])[..|events|] == events;
    assert (events + [e])[b + 1..|events|] == events[b + 1..];
    hide WithoutRepeats, ChangesIn, TotalBytes, WithinLimits, OpenedAt;
  }

  lemma QuietEmitsNothing(identity: NodeIdentity, events: seq<DecodedMessage>, e: DecodedMessage)
    requires !e.Commit?
    ensures Bracketed(identity, events + [e]) == Bracketed(identity, events)
  {
    assert (events + [e])[..|events|] == events;
  }

  lemma FeedKeepsOk(identity: NodeIdentity, limits: TransactionLimits, s: Stream, m: WireMessage)
    requires StreamOk(identity, limits, s)
    ensures StreamOk(identity, limits, Feed(identity, limits, s, m))
    ensures s.error.None? && Feed(identity, limits, s, m).error.Some? ==> !Shadowed(Feed(identity, limits, s, m).error.value) || Decode(s.decoder, m).result.Err?
  {
    if s.error.None? && Decode(s.decoder, m).result.Ok? {
      var e := Decode(s.decoder, m).result.value;
      var a := Assemble(identity, limits, s.assembler, e);
      StepKeepsLockStep(identity, limits, s.decoder, s.assembler, m);
      hide LockStep, Decode;
      if a.result.Ok? {
        AssembleKeeps(identity, limits, s.assembler, s.decoded, s.emitted, e);
        hide PendingOk, EmittedOk, Bracketed, Assemble;
      }
    }
  }

  function EmittedBy(r: Option<AssembledEvent>): seq<SourceTransaction> {
    if r.Some? && r.value.CommittedTransaction? then [r.value.transaction] else []
  }

  lemma AssembleKeeps(identity: NodeIdentity, limits: TransactionLimits, a: Assembler, events: seq<DecodedMessage>,
                      emitted: seq<SourceTransaction>, e: DecodedMessage)
    requires PendingOk(limits, a.pending, events) && EmittedOk(limits, a.lastCommitLsn, emitted) && emitted == Bracketed(identity, events)
    requires Assemble(identity, limits, a, e).result.Ok?
    ensures var s := Assemble(identity, limits, a, e); var next := emitted + EmittedBy(s.result.value);
      && PendingOk(limits, s.assembler.pending, events + [e]) && EmittedOk(limits, s.assembler.lastCommitLsn, next)
      && next == Bracketed(identity, events + [e])
  {
    hide PendingOk, EmittedOk, Bracketed;
    assert emitted + [] == emitted;
    match e
    case Commit(_, _, _, _) =>
      hide CommitPending;
      CommitEmits(identity, limits, a, events, emitted, e);
    case Change(change) =>
      QuietEmitsNothing(identity, events, e);
      ChangeKeepsPending(limits, a, events, change);
    case Begin(finalLsn, timestamp, xid) =>
      QuietEmitsNothing(identity, events, e);
      BeginOpens(limits, events, finalLsn, timestamp, xid);
    case _ =>
      QuietEmitsNothing(identity, events, e);
      QuietKeepsPending(limits, a.pending, events, e);
  }

  /** On every message stream, up to its first error: decoder and assembler stay in lock step; the
      emitted transactions are exactly the brackets of the decoded messages, in order, each with the
      changes of its bracket minus repeated DDL; every one is within the limits and commit positions
      never move back. The assembler's bracket and generation checks never fire. */
  lemma {:induction false} EmittedAreBrackets(identity: NodeIdentity, limits: TransactionLimits, messages: seq<WireMessage>)
    ensures StreamOk(identity, limits, FeedAll(identity, limits, messages))
    ensures FeedAll(identity, limits, messages).error.Some? ==> !Shadowed(FeedAll(identity, limits, messages).error.value)
  {
    hide StreamOk, Feed;
    if messages == [] {
      StreamStarts(identity, limits);
    } else {
      EmittedAreBrackets(identity, limits, messages[..|messages| - 1]);
      FeedNeverShadowed(identity, limits, FeedAll(identity, limits, messages[..|messages| - 1]), messages[|messages| - 1]);
    }
  }

  lemma FeedNeverShadowed(identity: NodeIdentity, limits: TransactionLimits, s: Stream, m: WireMessage)
    requires StreamOk(identity, limits, s) && (s.error.Some? ==> !Shadowed(s.error.value))
    ensures StreamOk(identity, limits, Feed(identity, limits, s, m))
    ensures Feed(identity, limits, s, m).error.Some? ==> !Shadowed(Feed(identity, limits, s, m).error.value)
  {
    FeedKeepsOk(identity, limits, s, m);
    DecoderErrors(s.decoder, m);
    hide StreamOk, Decode, Assemble;
  }

  lemma DecoderErrors(d: Decoder, m: WireMessage)
    ensures Decode(d, m).result.Err? ==> !Shadowed(Decode(d, m).result.error)
  {
    match m
    case WireRelation(_, _, _, _, columns) => ColumnErrors(columns);
    case WireTruncate(relationIds, _) => RelationErrors(d, relationIds);
    case _ =>
  }

  lemma {:induction false} ColumnErrors(columns: seq<WireColumn>)
    ensures Columns(columns).Err? ==> Columns(columns).error == NegativeTypeOid
  {
    if columns != [] { ColumnErrors(columns[1..]); }
  }

  lemma {:induction false} RelationErrors(d: Decoder, relationIds: seq<nat>)
    ensures RequireRelations(d, relationIds).Some? ==> !Shadowed(RequireRelations(d, relationIds).value)
  {
    if relationIds != [] { RelationErrors(d, relationIds[1..]); }
  }

  lemma StreamStarts(identity: NodeIdentity, limits: TransactionLimits)
    ensures StreamOk(identity, limits, Start)
  {
  }
}
