/** The whole replication machine of one topology generation: a growing source log, any number of
    workers (the owner and those that do not yet know they lost ownership), and the target. */
module Replication {
  import opened Core
  import opened Transactions
  import opened Checkpoint
  import opened Batch
  import opened Bindings
  import opened Apply
  import opened Execute
  import opened ApplyTheorems
  import opened Wal
  import PgOutput

  /** What one topology generation is configured with. `snapshot` is the target as the initial snapshot
      left it, which is the source at `snapshotLsn`. */
  datatype Config = Config(identity: NodeIdentity, pipelineId: PipelineId, generation: nat, slotName: Bytes,
                           registry: Registry, scope: DdlScope, limits: BatchLimits, snapshotLsn: nat, snapshot: Tables)
  {
    ghost predicate Valid() {
      RegistryOk(registry) && TablesOk(registry, snapshot) && limits.Accepted()
    }

    function Key(): CheckpointKey {
      CheckpointKey(pipelineId, generation, identity.nodeId)
    }
  }

  type Log = seq<SourceTransaction>

  /** The position at which exactly the first `i` transactions are behind. */
  function Boundary(c: Config, log: Log, i: nat): nat
    requires i <= |log|
  {
    if i == 0 then c.snapshotLsn else log[i - 1].finalPosition.lsn
  }

  function Lsns(ts: seq<SourceTransaction>): (r: seq<nat>)
    ensures |r| == |ts| && forall i | 0 <= i < |r| :: r[i] == ts[i].finalPosition.lsn
  {
    seq(|ts|, i requires 0 <= i < |ts| => ts[i].finalPosition.lsn)
  }

  ghost predicate Increasing(c: Config, log: Log) {
    && (forall i, j | 0 <= i < j < |log| :: log[i].finalPosition.lsn < log[j].finalPosition.lsn)
    && (forall i | 0 <= i < |log| :: log[i].finalPosition.lsn > c.snapshotLsn
                                   && log[i].finalPosition == c.identity.Position(log[i].finalPosition.lsn))
  }

  /** The environment: commit positions strictly increase, and up to the first schema barrier every
      change is valid on the tables as the changes before it left them. */
  ghost predicate SourceOk(c: Config, log: Log) {
    && Increasing(c, log)
    && (forall m | 0 <= m <= |log| :: !c.scope.RejectsBatch(log[..m]) ==> Replay(c.registry, c.snapshot, AllRows(log[..m])).Some?)
  }

  /** Streaming from `lsn` starts behind every transaction at or below it. */
  function Behind(log: Log, lsn: nat): (n: nat)
    ensures n <= |log|
  {
    if log == [] then 0
    else if log[|log| - 1].finalPosition.lsn <= lsn then |log|
    else Behind(log[..|log| - 1], lsn)
  }

  /** A running replication job. `base` counts the transactions it takes to be applied; `acking` is the
      batch applied last while its acknowledgement is outstanding, `inflight` the batch being applied,
      `pending` what the batcher holds, and `next` the transaction the stream delivers next. */
  datatype Worker = Worker(fence: Fence, base: nat, acking: seq<SourceTransaction>, inflight: seq<SourceTransaction>,
                           pending: seq<SourceTransaction>, next: nat, source: PgOutput.Source)
  {
    predicate Idle() {
      acking == [] && inflight == []
    }
  }

  /** `confirmed` is the position up to which the source may discard its log. */
  datatype System = System(log: Log, target: TargetState, workers: map<nat, Worker>, confirmed: nat)

  datatype Action =
    | SourceCommits(transaction: SourceTransaction)
    | ActivateOwner(fence: Fence)
    | Resume(worker: nat, fence: Fence)
    | Deliver(worker: nat)
    | TimerFires(worker: nat)
    | CommitBatch(worker: nat)
    | AcknowledgeBatch(worker: nat)
    | KeepaliveReply(worker: nat)
    | Stop(worker: nat)

  function WithoutFence(workers: map<nat, Worker>, fence: Fence): map<nat, Worker> {
    map i | i in workers && workers[i].fence != fence :: workers[i]
  }

  function RequestOf(c: Config, w: Worker): Result<ApplyRequest, PipelineError>
    requires w.inflight != []
  {
    BuildRequest(w.fence, c.slotName, c.registry, c.scope, w.inflight)
  }

  /** A job that resumes at the stored checkpoint. */
  function Resumed(log: Log, fence: Fence, lsn: nat): Worker {
    Worker(fence, Behind(log, lsn), [], [], [], Behind(log, lsn), PgOutput.Source([], lsn, []))
  }

  /** The batcher takes a delivered transaction, handing over the pending batch when it must. */
  function Received(c: Config, w: Worker, t: SourceTransaction): Worker {
    var received := w.(next := w.next + 1, source := PgOutput.Deliver(w.source, t.finalPosition.lsn));
    if MustFlush(c.limits, w.pending, t) then received.(inflight := w.pending, pending := [t])
    else received.(pending := w.pending + [t])
  }

  function Flushed(w: Worker): Worker {
    w.(inflight := w.pending, pending := [])
  }

  function Committed(w: Worker): Worker {
    w.(base := w.base + |w.inflight|, acking := w.inflight, inflight := [])
  }

  function AcknowledgeLast(c: Config, w: Worker): Result<Worker, PgOutput.AckError>
    requires w.acking != []
  {
    match PgOutput.Acknowledge(c.identity, w.source, w.acking[|w.acking| - 1].finalPosition)
    case Err(e) => Err(e)
    case Ok(source) => Ok(w.(acking := [], source := source))
  }

  function Replaced(s: System, i: nat, w: Worker, confirmed: nat): System {
    s.(workers := s.workers[i := w], confirmed := confirmed)
  }

  function ActivateOwnerStep(s: System, fence: Fence): Option<System> {
    match Checkpoint.ActivateFence(s.target.meta, fence)
    case Err(_) => None
    case Ok(meta) => Some(s.(target := s.target.(meta := meta), workers := WithoutFence(s.workers, fence)))
  }

  function ResumeStep(c: Config, s: System, i: nat, fence: Fence): Option<System> {
    if i in s.workers || fence.pipelineId != c.pipelineId || fence.generation != c.generation then None
    else if c.Key() !in s.target.meta.checkpoints || exists j | j in s.workers :: s.workers[j].fence == fence then None
    else Some(Replaced(s, i, Resumed(s.log, fence, s.target.meta.checkpoints[c.Key()].checkpoint.appliedLsn), s.confirmed))
  }

  function DeliverStep(c: Config, s: System, i: nat): Option<System> {
    if i !in s.workers || !s.workers[i].Idle() || s.workers[i].next >= |s.log| then None
    else if ValidateOrder(s.workers[i].pending, s.log[s.workers[i].next]).Some? then None
    else Some(Replaced(s, i, Received(c, s.workers[i], s.log[s.workers[i].next]), s.confirmed))
  }

  function CommitStep(c: Config, s: System, i: nat): Option<System> {
    if i !in s.workers || s.workers[i].inflight == [] then None
    else match RequestOf(c, s.workers[i])
      case Err(_) => None
      case Ok(request) =>
        match ExecuteApply(s.target, request)
        case Err(_) => None
        case Ok((target, _)) => Some(Replaced(s.(target := target), i, Committed(s.workers[i]), s.confirmed))
  }

  function AcknowledgeStep(c: Config, s: System, i: nat): Option<System> {
    if i !in s.workers || s.workers[i].acking == [] then None
    else match AcknowledgeLast(c, s.workers[i])
      case Err(_) => None
      case Ok(w) => Some(Replaced(s, i, w, Max(s.confirmed, w.source.durable)))
  }

  function TimerStep(s: System, i: nat): Option<System> {
    if i !in s.workers || !s.workers[i].Idle() || s.workers[i].pending == [] then None
    else Some(Replaced(s, i, Flushed(s.workers[i]), s.confirmed))
  }

  function KeepaliveStep(s: System, i: nat): Option<System> {
    if i !in s.workers then None
    else
      var w := s.workers[i].(source := PgOutput.Report(s.workers[i].source));
      Some(Replaced(s, i, w, Max(s.confirmed, w.source.durable)))
  }

  /** One atomic step, or `None` when the action is not possible in this state. A database transaction
      is one step. Stopping covers cancellation, a crash, a lost lease and every error, in any phase. */
  function Act(c: Config, s: System, a: Action): Option<System> {
    match a
    case SourceCommits(t) => Some(s.(log := s.log + [t]))
    case ActivateOwner(fence) => ActivateOwnerStep(s, fence)
    case Resume(i, fence) => ResumeStep(c, s, i, fence)
    case Deliver(i) => DeliverStep(c, s, i)
    case TimerFires(i) => TimerStep(s, i)
    case CommitBatch(i) => CommitStep(c, s, i)
    case AcknowledgeBatch(i) => AcknowledgeStep(c, s, i)
    case KeepaliveReply(i) => KeepaliveStep(s, i)
    case Stop(i) => Some(s.(workers := s.workers - {i}))
  }

  function Max(a: nat, b: nat): nat {
    if a < b then b else a
  }

  // ---- The invariant --------------------------------------------------------------------------

  /** The target holds the snapshot plus exactly the first `n` transactions, replayed in order. */
  ghost predicate TargetOk(c: Config, log: Log, target: TargetState, n: nat) {
    && n <= |log| && !c.scope.RejectsBatch(log[..n])
    && Replay(c.registry, c.snapshot, AllRows(log[..n])) == Some(target.tables)
    && c.Key() in target.meta.checkpoints
    && target.meta.checkpoints[c.Key()].checkpoint ==
       NodeCheckpoint(c.Key(), c.identity.systemIdentifier, c.identity.timeline, c.slotName, Boundary(c, log, n))
  }

  predicate Owns(c: Config, target: TargetState, w: Worker) {
    c.pipelineId in target.meta.fences && target.meta.fences[c.pipelineId] == RowOfFence(w.fence)
  }

  /** Where a worker stands: the owner is right about what is applied, nobody believes in more. */
  ghost predicate PlaceOk(c: Config, log: Log, n: nat, owner: bool, w: Worker) {
    && w.fence.pipelineId == c.pipelineId && w.fence.generation == c.generation
    && |w.acking| <= w.base <= n && w.base <= w.next <= |log|
    && (owner ==> w.base == n) && (w.acking != [] ==> w.inflight == [])
  }

  /** What a worker holds is one contiguous stretch of the log. */
  ghost predicate StretchOk(log: Log, w: Worker)
    requires |w.acking| <= w.base <= w.next <= |log|
  {
    w.acking == log[w.base - |w.acking|..w.base] && w.inflight + w.pending == log[w.base..w.next]
  }

  ghost predicate BatchesOk(c: Config, w: Worker) {
    BatchOk(c.limits, w.inflight) && BatchOk(c.limits, w.pending)
  }

  /** The source still queues what is not acknowledged, and reports what is. */
  ghost predicate QueueOk(c: Config, log: Log, w: Worker)
    requires |w.acking| <= w.base <= w.next <= |log|
  {
    && w.source.delivered == Lsns(log[w.base - |w.acking|..w.next])
    && w.source.durable == Boundary(c, log, w.base - |w.acking|)
    && PgOutput.ReportsOk(w.source)
  }

  ghost predicate WorkerOk(c: Config, log: Log, n: nat, owner: bool, w: Worker) {
    PlaceOk(c, log, n, owner, w) && StretchOk(log, w) && BatchesOk(c, w) && QueueOk(c, log, w)
  }

  ghost predicate WorkersOk(c: Config, s: System, n: nat) {
    && (forall i | i in s.workers :: WorkerOk(c, s.log, n, Owns(c, s.target, s.workers[i]), s.workers[i]))
    && (forall i, j | i in s.workers && j in s.workers && i != j :: s.workers[i].fence != s.workers[j].fence)
  }

  ghost predicate InvAt(c: Config, s: System, n: nat) {
    && c.Valid() && SourceOk(c, s.log)
    && TargetOk(c, s.log, s.target, n) && WorkersOk(c, s, n)
    && s.confirmed <= Boundary(c, s.log, n)
  }

  /** How many transactions the target has, read off its own checkpoint. */
  function Applied(c: Config, s: System): nat
    requires c.Key() in s.target.meta.checkpoints
  {
    Behind(s.log, s.target.meta.checkpoints[c.Key()].checkpoint.appliedLsn)
  }

  ghost predicate Inv(c: Config, s: System) {
    c.Key() in s.target.meta.checkpoints && InvAt(c, s, Applied(c, s))
  }

  lemma {:induction false} BehindBoundary(c: Config, log: Log, n: nat)
    requires Increasing(c, log) && n <= |log|
    ensures Behind(log, Boundary(c, log, n)) == n
    decreases |log|
  {
    if log != [] && n < |log| {
      var init := log[..|log| - 1];
      assert Increasing(c, init);
      assert Boundary(c, init, n) == Boundary(c, log, n);
      BehindBoundary(c, init, n);
    }
  }

  lemma InvFromAt(c: Config, s: System, n: nat)
    requires InvAt(c, s, n)
    ensures Inv(c, s) && Applied(c, s) == n
  {
    BehindBoundary(c, s.log, n);
  }

  lemma BoundaryMonotone(c: Config, log: Log, i: nat, j: nat)
    requires Increasing(c, log) && i <= j <= |log|
    ensures Boundary(c, log, i) <= Boundary(c, log, j)
  {
  }

  // ---- Each action keeps it -------------------------------------------------------------------

  /** Growing the log disturbs nobody. */
  lemma WorkerSurvivesGrowth(c: Config, log: Log, n: nat, owner: bool, w: Worker, t: SourceTransaction)
    requires WorkerOk(c, log, n, owner, w)
    ensures WorkerOk(c, log + [t], n, owner, w)
  {
    hide BatchesOk, PgOutput.ReportsOk;
    var grown := log + [t];
    assert grown[w.base - |w.acking|..w.base] == log[w.base - |w.acking|..w.base];
    assert grown[w.base..w.next] == log[w.base..w.next];
    assert grown[w.base - |w.acking|..w.next] == log[w.base - |w.acking|..w.next];
  }

  lemma SourceCommitsKeeps(c: Config, s: System, n: nat, t: SourceTransaction)
    requires InvAt(c, s, n) && SourceOk(c, s.log + [t])
    ensures InvAt(c, s.(log := s.log + [t]), n)
  {
    hide WorkerOk, SourceOk, TablesOk, RegistryOk, Replay;
    assert (s.log + [t])[..n] == s.log[..n];
    forall i | i in s.workers ensures WorkerOk(c, s.log + [t], n, Owns(c, s.target, s.workers[i]), s.workers[i]) {
      WorkerSurvivesGrowth(c, s.log, n, Owns(c, s.target, s.workers[i]), s.workers[i], t);
    }
  }

  lemma Disowned(c: Config, log: Log, n: nat, owner: bool, still: bool, w: Worker)
    requires WorkerOk(c, log, n, owner, w) && (still ==> owner)
    ensures WorkerOk(c, log, n, still, w)
  {
    hide StretchOk, BatchesOk, QueueOk;
  }

  /** Whoever still owns the pipeline after a fence is activated owned it before. */
  lemma OwnersOnlyShrink(c: Config, meta: Meta, fence: Fence, target: TargetState, w: Worker)
    requires Checkpoint.ActivateFence(target.meta, fence) == Ok(meta) && w.fence != fence
    requires w.fence.pipelineId == c.pipelineId
    ensures Owns(c, target.(meta := meta), w) ==> Owns(c, target, w)
  {
  }

  lemma ActivateKeeps(c: Config, s: System, n: nat, fence: Fence)
    requires InvAt(c, s, n) && ActivateOwnerStep(s, fence).Some?
    ensures InvAt(c, ActivateOwnerStep(s, fence).value, n)
  {
    hide WorkerOk, SourceOk, TablesOk, RegistryOk, Replay, Owns;
    var next := ActivateOwnerStep(s, fence).value;
    assert next.target.meta.checkpoints == s.target.meta.checkpoints;
    forall i | i in next.workers ensures WorkerOk(c, s.log, n, Owns(c, next.target, next.workers[i]), next.workers[i]) {
      var w := s.workers[i];
      WorkerPipeline(c, s.log, n, Owns(c, s.target, w), w);
      OwnersOnlyShrink(c, next.target.meta, fence, s.target, w);
      Disowned(c, s.log, n, Owns(c, s.target, w), Owns(c, next.target, w), w);
    }
  }

  lemma WorkerPipeline(c: Config, log: Log, n: nat, owner: bool, w: Worker)
    requires WorkerOk(c, log, n, owner, w)
    ensures w.fence.pipelineId == c.pipelineId && w.fence.generation == c.generation
    ensures |w.acking| <= w.base <= n && w.base <= w.next <= |log|
  {
  }

  lemma ResumedOk(c: Config, log: Log, n: nat, owner: bool, fence: Fence)
    requires Increasing(c, log) && n <= |log| && fence.pipelineId == c.pipelineId && fence.generation == c.generation
    ensures WorkerOk(c, log, n, owner, Resumed(log, fence, Boundary(c, log, n)))
  {
    BehindBoundary(c, log, n);
    assert log[n..n] == [] && Lsns(log[n..n]) == [];
  }

  lemma SourceIncreasing(c: Config, log: Log)
    requires SourceOk(c, log)
    ensures Increasing(c, log)
  {
  }

  lemma ResumeKeeps(c: Config, s: System, n: nat, i: nat, fence: Fence)
    requires InvAt(c, s, n) && ResumeStep(c, s, i, fence).Some?
    ensures InvAt(c, ResumeStep(c, s, i, fence).value, n)
  {
    hide SourceOk, TablesOk, RegistryOk, Replay, WorkerOk, Resumed, Owns;
    SourceIncreasing(c, s.log);
    var w := Resumed(s.log, fence, Boundary(c, s.log, n));
    ResumedOk(c, s.log, n, Owns(c, s.target, w), fence);
    ResumedFence(s.log, fence, Boundary(c, s.log, n));
  }

  lemma ResumedFence(log: Log, fence: Fence, lsn: nat)
    ensures Resumed(log, fence, lsn).fence == fence
  {
  }

  /** Replacing one worker by its successor, everything else unchanged. */
  lemma WorkerReplaced(c: Config, s: System, n: nat, i: nat, w: Worker, confirmed: nat)
    requires InvAt(c, s, n) && i in s.workers && w.fence == s.workers[i].fence
    requires WorkerOk(c, s.log, n, Owns(c, s.target, s.workers[i]), w) && confirmed <= Boundary(c, s.log, n)
    ensures InvAt(c, Replaced(s, i, w, confirmed), n)
  {
    hide WorkerOk, SourceOk, TargetOk, TablesOk, RegistryOk, Replay;
  }

  /** In log order a transaction always follows what the batcher holds. */
  lemma OrderAccepted(c: Config, log: Log, pending: seq<SourceTransaction>, from: nat, next: nat)
    requires Increasing(c, log) && from <= next < |log| && pending == log[from..next]
    ensures ValidateOrder(pending, log[next]).None?
  {
    if pending != [] { assert pending[|pending| - 1] == log[next - 1]; }
  }

  lemma ReceivedBatches(c: Config, w: Worker, t: SourceTransaction)
    requires c.limits.Accepted() && BatchesOk(c, w) && w.Idle() && ValidateOrder(w.pending, t).None?
    ensures BatchesOk(c, Received(c, w, t))
  {
    if !MustFlush(c.limits, w.pending, t) { BatchOkExtends(c.limits, w.pending, t); }
    hide MustFlush, ValidateOrder;
  }

  lemma ReceivedStretch(c: Config, log: Log, w: Worker)
    requires |w.acking| <= w.base <= w.next < |log| && StretchOk(log, w) && QueueOk(c, log, w) && w.Idle()
    ensures StretchOk(log, Received(c, w, log[w.next])) && QueueOk(c, log, Received(c, w, log[w.next]))
  {
    hide MustFlush, PgOutput.ReportsOk, Boundary;
    var t := log[w.next];
    assert [] + w.pending == w.pending && [] + (w.pending + [t]) == w.pending + [t];
    assert log[w.base..w.next + 1] == log[w.base..w.next] + [t];
    LsnsExtend(log[w.base..w.next], t);
    hide Lsns;
    ReportsUnchanged(w.source, t.finalPosition.lsn);
  }

  lemma LsnsExtend(ts: seq<SourceTransaction>, t: SourceTransaction)
    ensures Lsns(ts + [t]) == Lsns(ts) + [t.finalPosition.lsn]
  {
  }

  lemma ReportsUnchanged(source: PgOutput.Source, lsn: nat)
    requires PgOutput.ReportsOk(source)
    ensures PgOutput.ReportsOk(PgOutput.Deliver(source, lsn)) && PgOutput.ReportsOk(PgOutput.Report(source))
  {
  }

  lemma NextInOrder(c: Config, log: Log, w: Worker)
    requires Increasing(c, log) && |w.acking| <= w.base <= w.next < |log| && StretchOk(log, w) && w.Idle()
    ensures ValidateOrder(w.pending, log[w.next]).None?
  {
    hide Increasing, ValidateOrder;
    assert [] + w.pending == w.pending;
    OrderAccepted(c, log, w.pending, w.base, w.next);
  }

  lemma DeliverWorker(c: Config, log: Log, n: nat, owner: bool, w: Worker)
    requires c.limits.Accepted() && Increasing(c, log) && WorkerOk(c, log, n, owner, w) && w.Idle() && w.next < |log|
    ensures ValidateOrder(w.pending, log[w.next]).None? && WorkerOk(c, log, n, owner, Received(c, w, log[w.next]))
  {
    hide Increasing, ValidateOrder, MustFlush, BatchesOk, StretchOk, QueueOk;
    NextInOrder(c, log, w);
    ReceivedBatches(c, w, log[w.next]);
    ReceivedStretch(c, log, w);
  }

  lemma DeliverKeeps(c: Config, s: System, n: nat, i: nat)
    requires InvAt(c, s, n) && DeliverStep(c, s, i).Some?
    ensures InvAt(c, DeliverStep(c, s, i).value, n)
  {
    hide WorkerOk, TargetOk, SourceOk, MustFlush, ValidateOrder, Owns;
    SourceIncreasing(c, s.log);
    var w := s.workers[i];
    DeliverWorker(c, s.log, n, Owns(c, s.target, w), w);
    WorkerReplaced(c, s, n, i, Received(c, w, s.log[w.next]), s.confirmed);
  }

  lemma FlushWorker(c: Config, log: Log, n: nat, owner: bool, w: Worker)
    requires WorkerOk(c, log, n, owner, w) && w.Idle()
    ensures WorkerOk(c, log, n, owner, Flushed(w))
  {
    EmptyBatchOk(c.limits);
    hide PgOutput.ReportsOk, BatchOk, Lsns, Boundary;
    assert [] + w.pending == w.pending && w.pending + [] == w.pending;
  }

  lemma TimerKeeps(c: Config, s: System, n: nat, i: nat)
    requires InvAt(c, s, n) && TimerStep(s, i).Some?
    ensures InvAt(c, TimerStep(s, i).value, n)
  {
    hide WorkerOk, TargetOk, SourceOk, Owns;
    FlushWorker(c, s.log, n, Owns(c, s.target, s.workers[i]), s.workers[i]);
    WorkerReplaced(c, s, n, i, Flushed(s.workers[i]), s.confirmed);
  }

  lemma OutstandingIncreasing(c: Config, log: Log, first: nat, next: nat)
    requires Increasing(c, log) && first <= next <= |log|
    ensures var unacked := Lsns(log[first..next]);
      && (forall i, j | 0 <= i < j < |unacked| :: unacked[i] < unacked[j])
      && (forall i | 0 <= i < |unacked| :: unacked[i] > Boundary(c, log, first))
  {
    var unacked := Lsns(log[first..next]);
    forall i, j | 0 <= i < j < |unacked| ensures unacked[i] < unacked[j] {
      assert log[first + i].finalPosition.lsn < log[first + j].finalPosition.lsn;
    }
    forall i | 0 <= i < |unacked| ensures unacked[i] > Boundary(c, log, first) {
      assert unacked[i] == log[first + i].finalPosition.lsn;
    }
  }

  /** The position acknowledged is the one of the last transaction before `base`. */
  lemma AckPosition(c: Config, log: Log, w: Worker)
    requires Increasing(c, log) && |w.acking| <= w.base <= w.next <= |log| && w.acking != []
    requires w.acking == log[w.base - |w.acking|..w.base]
    ensures var k, unacked := |w.acking|, Lsns(log[w.base - |w.acking|..w.next]);
      && k <= |unacked| && unacked[k - 1] == Boundary(c, log, w.base)
      && w.acking[k - 1].finalPosition == c.identity.Position(unacked[k - 1])
      && unacked[k..] == Lsns(log[w.base..w.next])
  {
    var first, k := w.base - |w.acking|, |w.acking|;
    var last := log[w.base - 1];
    assert w.acking[k - 1] == last && log[first..w.next][k - 1] == last;
    assert log[first..w.next][k..] == log[w.base..w.next];
    assert last.finalPosition.lsn > c.snapshotLsn;
  }

  /** Acknowledging the batch applied last is never refused. */
  lemma AcknowledgeWorker(c: Config, log: Log, n: nat, owner: bool, w: Worker)
    requires Increasing(c, log) && WorkerOk(c, log, n, owner, w) && w.acking != []
    ensures AcknowledgeLast(c, w).Ok?
    ensures WorkerOk(c, log, n, owner, AcknowledgeLast(c, w).value)
    ensures AcknowledgeLast(c, w).value.source.durable == Boundary(c, log, w.base)
  {
    hide BatchesOk, AcknowledgeLast;
    var first, k := w.base - |w.acking|, |w.acking|;
    var unacked := Lsns(log[first..w.next]);
    AckPosition(c, log, w);
    OutstandingIncreasing(c, log, first, w.next);
    AcknowledgeReports(c, w, unacked, k);
    hide Increasing, PgOutput.ReportsOk;
    AckedOk(c, log, n, owner, w, AcknowledgeLast(c, w).value.source);
  }

  lemma AckedOk(c: Config, log: Log, n: nat, owner: bool, w: Worker, source: PgOutput.Source)
    requires WorkerOk(c, log, n, owner, w) && PgOutput.ReportsOk(source)
    requires source.delivered == Lsns(log[w.base..w.next]) && source.durable == Boundary(c, log, w.base)
    ensures WorkerOk(c, log, n, owner, w.(acking := [], source := source))
  {
    hide BatchesOk, PgOutput.ReportsOk, Lsns, Boundary;
    var next := w.(acking := [], source := source);
    assert |next.acking| == 0 && next.base - |next.acking| == w.base;
    assert log[next.base..next.base] == [];
    assert BatchesOk(c, next) by { SameBatches(c, w, next); }
  }

  lemma SameBatches(c: Config, a: Worker, b: Worker)
    requires BatchesOk(c, a) && a.inflight == b.inflight && a.pending == b.pending
    ensures BatchesOk(c, b)
  {
  }

  lemma AcknowledgeReports(c: Config, w: Worker, unacked: seq<nat>, k: nat)
    requires w.source.delivered == unacked && 0 < k <= |unacked| && |w.acking| == k && PgOutput.ReportsOk(w.source)
    requires w.acking[k - 1].finalPosition == c.identity.Position(unacked[k - 1])
    requires forall i, j | 0 <= i < j < |unacked| :: unacked[i] < unacked[j]
    requires forall i | 0 <= i < |unacked| :: unacked[i] > w.source.durable
    ensures AcknowledgeLast(c, w).Ok?
    ensures var next := AcknowledgeLast(c, w).value;
      && next == w.(acking := [], source := PgOutput.Source(unacked[k..], unacked[k - 1], w.source.reported + [unacked[k - 1]]))
      && PgOutput.ReportsOk(next.source)
  {
    PgOutput.StrictAckAccepted(c.identity, w.source, unacked, k);
  }

  lemma AcknowledgeKeeps(c: Config, s: System, n: nat, i: nat)
    requires InvAt(c, s, n) && AcknowledgeStep(c, s, i).Some?
    ensures InvAt(c, AcknowledgeStep(c, s, i).value, n)
  {
    hide TargetOk, SourceOk, WorkerOk, Owns, AcknowledgeLast;
    SourceIncreasing(c, s.log);
    var w := s.workers[i];
    BaseApplied(c, s, n, i);
    AcknowledgeWorker(c, s.log, n, Owns(c, s.target, w), w);
    BoundaryMonotone(c, s.log, w.base, n);
    var next := AcknowledgeLast(c, w).value;
    assert next.fence == w.fence by { AcknowledgeFence(c, w); }
    WorkerReplaced(c, s, n, i, next, Max(s.confirmed, next.source.durable));
  }

  lemma AcknowledgeFence(c: Config, w: Worker)
    requires w.acking != [] && AcknowledgeLast(c, w).Ok?
    ensures AcknowledgeLast(c, w).value.fence == w.fence
  {
  }

  lemma BaseApplied(c: Config, s: System, n: nat, i: nat)
    requires InvAt(c, s, n) && i in s.workers
    ensures |s.workers[i].acking| <= s.workers[i].base <= n <= |s.log|
    ensures s.workers[i].source.durable == Boundary(c, s.log, s.workers[i].base - |s.workers[i].acking|)
  {
    hide Owns, SourceOk, BatchesOk, PgOutput.ReportsOk, Replay;
    assert WorkerOk(c, s.log, n, Owns(c, s.target, s.workers[i]), s.workers[i]);
  }

  lemma ReportingWorker(c: Config, log: Log, n: nat, owner: bool, w: Worker)
    requires WorkerOk(c, log, n, owner, w)
    ensures WorkerOk(c, log, n, owner, w.(source := PgOutput.Report(w.source)))
  {
    ReportsUnchanged(w.source, 0);
    hide PgOutput.ReportsOk, BatchesOk;
  }

  lemma KeepaliveKeeps(c: Config, s: System, n: nat, i: nat)
    requires InvAt(c, s, n) && KeepaliveStep(s, i).Some?
    ensures InvAt(c, KeepaliveStep(s, i).value, n)
  {
    hide TargetOk, SourceOk, WorkerOk, Owns;
    SourceIncreasing(c, s.log);
    var w := s.workers[i];
    BaseApplied(c, s, n, i);
    BoundaryMonotone(c, s.log, w.base - |w.acking|, n);
    ReportingWorker(c, s.log, n, Owns(c, s.target, w), w);
    WorkerReplaced(c, s, n, i, w.(source := PgOutput.Report(w.source)), Max(s.confirmed, w.source.durable));
  }

  lemma StopKeeps(c: Config, s: System, n: nat, i: nat)
    requires InvAt(c, s, n)
    ensures InvAt(c, s.(workers := s.workers - {i}), n)
  {
    hide WorkerOk, TargetOk, SourceOk, Owns;
  }

  // ---- Committing a batch ---------------------------------------------------------------------

  lemma RejectsSplit(scope: DdlScope, a: seq<SourceTransaction>, b: seq<SourceTransaction>)
    ensures scope.RejectsBatch(a + b) <==> scope.RejectsBatch(a) || scope.RejectsBatch(b)
  {
    var all := a + b;
    if scope.RejectsBatch(a) {
      var i, j :| 0 <= i < |a| && 0 <= j < |a[i].changes| && scope.Rejects(a[i].changes[j]);
      assert all[i] == a[i];
    }
    if scope.RejectsBatch(b) {
      var i, j :| 0 <= i < |b| && 0 <= j < |b[i].changes| && scope.Rejects(b[i].changes[j]);
      assert all[|a| + i] == b[i];
    }
  }

  /** Only the holder of the stored fence can commit. */
  lemma ExecuteNeedsFence(s: TargetState, request: ApplyRequest)
    requires ExecuteApply(s, request).Ok?
    ensures LockFence(s.meta, request.fence).None?
  {
    hide ApplyTables, AdvanceCheckpoint, RepeatedStagingName;
  }

  lemma LockedIsOwner(c: Config, target: TargetState, w: Worker)
    requires LockFence(target.meta, w.fence).None? && w.fence.pipelineId == c.pipelineId
    ensures Owns(c, target, w)
  {
  }

  /** The batch of the owner is the next stretch of the log, so applying it replays that stretch. */
  lemma BatchReplays(c: Config, log: Log, target: TargetState, n: nat, batch: seq<SourceTransaction>)
    requires SourceOk(c, log) && TargetOk(c, log, target, n) && n + |batch| <= |log| && batch == log[n..n + |batch|]
    requires !c.scope.RejectsBatch(batch)
    ensures !c.scope.RejectsBatch(log[..n + |batch|])
    ensures Replay(c.registry, target.tables, AllRows(batch)).Some?
    ensures Replay(c.registry, c.snapshot, AllRows(log[..n + |batch|])) == Replay(c.registry, target.tables, AllRows(batch))
  {
    hide Replay, AllRows, SourceOk, TargetOk, DdlScope.RejectsBatch;
    var a, both := log[..n], log[..n + |batch|];
    TargetReplays(c, log, target, n);
    assert both == a + batch by { assert log[..n + |batch|] == log[..n] + log[n..n + |batch|]; }
    RejectsSplit(c.scope, a, batch);
    SourceReplays(c, log, n + |batch|);
    AllRowsConcat(a, batch);
    ReplayConcat(c.registry, c.snapshot, AllRows(a), AllRows(batch));
  }

  lemma TargetReplays(c: Config, log: Log, target: TargetState, n: nat)
    requires TargetOk(c, log, target, n)
    ensures n <= |log| && !c.scope.RejectsBatch(log[..n])
    ensures Replay(c.registry, c.snapshot, AllRows(log[..n])) == Some(target.tables)
  {
    hide Replay, AllRows;
  }

  lemma SourceReplays(c: Config, log: Log, m: nat)
    requires SourceOk(c, log) && m <= |log|
    ensures !c.scope.RejectsBatch(log[..m]) ==> Replay(c.registry, c.snapshot, AllRows(log[..m])).Some?
  {
    hide Replay, AllRows, Increasing;
  }

  lemma AdvancedRecord(m: Meta, f: Fence, proposed: NodeCheckpoint)
    requires AdvanceCheckpoint(m, f, proposed).Ok?
    ensures var next := AdvanceCheckpoint(m, f, proposed).value.0;
      && next.fences == m.fences && proposed.key in next.checkpoints && next.checkpoints[proposed.key].checkpoint == proposed
  {
    AdvanceIffCurrent(m, f, proposed);
    hide AdvanceCheckpoint;
  }

  /** What the target is after the owner's batch has committed. */
  lemma CommitMovesTarget(c: Config, log: Log, target: TargetState, n: nat, fence: Fence, batch: seq<SourceTransaction>)
    requires c.Valid() && SourceOk(c, log) && TargetOk(c, log, target, n) && TablesOk(c.registry, target.tables)
    requires fence.pipelineId == c.pipelineId && fence.generation == c.generation
    requires batch != [] && n + |batch| <= |log| && batch == log[n..n + |batch|]
    requires BuildRequest(fence, c.slotName, c.registry, c.scope, batch).Ok?
    requires ExecuteApply(target, BuildRequest(fence, c.slotName, c.registry, c.scope, batch).value).Ok?
    ensures var next := ExecuteApply(target, BuildRequest(fence, c.slotName, c.registry, c.scope, batch).value).value.0;
      TargetOk(c, log, next, n + |batch|) && next.meta.fences == target.meta.fences
  {
    hide Replay, TablesOk, RegistryOk, BuildTables, GroupKeys, ApplyTables, AllRows, ExecuteApply, AdvanceCheckpoint, BuildRequest;
    BuiltNotRejected(fence, c.slotName, c.registry, c.scope, batch);
    BatchReplays(c, log, target, n, batch);
    AppliedBatchIsReplay(target, fence, c.slotName, c.registry, c.scope, batch);
    var last := batch[|batch| - 1];
    assert last == log[n + |batch| - 1];
    assert last.finalPosition == c.identity.Position(Boundary(c, log, n + |batch|));
    AdvancedRecord(target.meta, fence, CheckpointOf(fence, c.slotName, last.finalPosition));
  }

  lemma BuiltNotRejected(fence: Fence, slotName: Bytes, registry: Registry, scope: DdlScope, batch: seq<SourceTransaction>)
    requires batch != [] && BuildRequest(fence, slotName, registry, scope, batch).Ok?
    ensures !scope.RejectsBatch(batch) && BuildRequest(fence, slotName, registry, scope, batch).value.fence == fence
  {
    hide BuildTables, GroupKeys, AllRows;
  }

  lemma SplitStretch(log: Log, n: nat, next: nat, a: seq<SourceTransaction>, b: seq<SourceTransaction>)
    requires n <= next <= |log| && a + b == log[n..next]
    ensures n + |a| <= next && a == log[n..n + |a|] && b == log[n + |a|..next]
  {
    assert |a| + |b| == next - n;
    assert a == (a + b)[..|a|] && b == (a + b)[|a|..];
  }

  lemma CommittedWorker(c: Config, log: Log, n: nat, w: Worker)
    requires WorkerOk(c, log, n, true, w) && w.inflight != []
    ensures n + |w.inflight| <= |log| && w.inflight == log[n..n + |w.inflight|]
    ensures WorkerOk(c, log, n + |w.inflight|, true, Committed(w))
  {
    hide BatchOk, PgOutput.ReportsOk, Lsns, Boundary;
    SplitStretch(log, n, w.next, w.inflight, w.pending);
    assert [] + w.pending == w.pending;
    EmptyBatchOk(c.limits);
    assert Committed(w).base - |Committed(w).acking| == w.base;
  }

  lemma EmptyBatchOk(limits: BatchLimits)
    ensures BatchOk(limits, [])
  {
  }

  /** A worker that does not own the pipeline is not disturbed when more is applied. */
  lemma OthersSurvive(c: Config, log: Log, n: nat, m: nat, w: Worker)
    requires WorkerOk(c, log, n, false, w) && n <= m <= |log|
    ensures WorkerOk(c, log, m, false, w)
  {
    hide StretchOk, BatchesOk, QueueOk;
  }

  lemma TwoOwnersAreOne(c: Config, target: TargetState, a: Worker, b: Worker)
    requires Owns(c, target, a) && Owns(c, target, b) && a.fence.pipelineId == b.fence.pipelineId
    ensures a.fence == b.fence
  {
  }

  lemma CommitStepIs(c: Config, s: System, i: nat)
    requires CommitStep(c, s, i).Some?
    ensures i in s.workers && s.workers[i].inflight != [] && RequestOf(c, s.workers[i]).Ok?
    ensures ExecuteApply(s.target, RequestOf(c, s.workers[i]).value).Ok?
    ensures CommitStep(c, s, i) ==
      Some(Replaced(s.(target := ExecuteApply(s.target, RequestOf(c, s.workers[i]).value).value.0), i, Committed(s.workers[i]), s.confirmed))
  {
    hide ExecuteApply, RequestOf;
  }

  /** A batch that commits was built and committed by the owner. */
  lemma CommitterOwns(c: Config, s: System, n: nat, i: nat)
    requires InvAt(c, s, n) && CommitStep(c, s, i).Some?
    ensures i in s.workers && s.workers[i].inflight != [] && Owns(c, s.target, s.workers[i])
    ensures WorkerOk(c, s.log, n, true, s.workers[i])
  {
    hide WorkerOk, TargetOk, SourceOk, Owns, TablesOk, RegistryOk, ExecuteApply, BuildRequest, LockFence, CommitStep;
    CommitStepIs(c, s, i);
    var w := s.workers[i];
    WorkerPipeline(c, s.log, n, Owns(c, s.target, w), w);
    BuiltNotRejected(w.fence, c.slotName, c.registry, c.scope, w.inflight);
    ExecuteNeedsFence(s.target, RequestOf(c, w).value);
    LockedIsOwner(c, s.target, w);
  }

  lemma CommitTarget(c: Config, s: System, n: nat, i: nat)
    requires InvAt(c, s, n) && CommitStep(c, s, i).Some?
    ensures i in s.workers && n + |s.workers[i].inflight| <= |s.log|
    ensures var next := CommitStep(c, s, i).value;
      && TargetOk(c, s.log, next.target, n + |s.workers[i].inflight|) && next.target.meta.fences == s.target.meta.fences
      && next == Replaced(s.(target := next.target), i, Committed(s.workers[i]), s.confirmed)
  {
    hide WorkerOk, TargetOk, SourceOk, Owns, TablesOk, RegistryOk, ExecuteApply, BuildRequest, CommitStep;
    CommitStepIs(c, s, i);
    CommitterOwns(c, s, n, i);
    var w := s.workers[i];
    WorkerPipeline(c, s.log, n, true, w);
    CommittedWorker(c, s.log, n, w);
    TargetTablesOk(c, s.log, s.target, n);
    CommitMovesTarget(c, s.log, s.target, n, w.fence, w.inflight);
  }

  lemma CommitKeeps(c: Config, s: System, n: nat, i: nat)
    requires InvAt(c, s, n) && CommitStep(c, s, i).Some?
    ensures i in s.workers && InvAt(c, CommitStep(c, s, i).value, n + |s.workers[i].inflight|)
  {
    hide WorkerOk, TargetOk, SourceOk, Owns, TablesOk, RegistryOk, CommitStep, Committed;
    CommitTarget(c, s, n, i);
    CommitterOwns(c, s, n, i);
    var w, m, next := s.workers[i], n + |s.workers[i].inflight|, CommitStep(c, s, i).value;
    CommittedWorker(c, s.log, n, w);
    CommittedFence(w);
    SourceIncreasing(c, s.log);
    BoundaryMonotone(c, s.log, n, m);
    Disowned(c, s.log, m, true, Owns(c, next.target, Committed(w)), Committed(w));
    forall j | j in next.workers ensures WorkerOk(c, s.log, m, Owns(c, next.target, next.workers[j]), next.workers[j]) {
      if j != i { OtherAfterCommit(c, s, n, i, j, next.target, m); }
    }
  }

  lemma CommittedFence(w: Worker)
    ensures Committed(w).fence == w.fence
  {
  }

  lemma OtherAfterCommit(c: Config, s: System, n: nat, i: nat, j: nat, target: TargetState, m: nat)
    requires InvAt(c, s, n) && i in s.workers && j in s.workers && i != j && Owns(c, s.target, s.workers[i])
    requires target.meta.fences == s.target.meta.fences && n <= m <= |s.log|
    ensures WorkerOk(c, s.log, m, Owns(c, target, s.workers[j]), s.workers[j])
  {
    hide WorkerOk, TargetOk, SourceOk;
    var w, o := s.workers[j], s.workers[i];
    WorkerPipeline(c, s.log, n, Owns(c, s.target, w), w);
    WorkerPipeline(c, s.log, n, Owns(c, s.target, o), o);
    if Owns(c, s.target, w) { TwoOwnersAreOne(c, s.target, o, w); assert false; }
    OthersSurvive(c, s.log, n, m, w);
  }

  lemma TargetTablesOk(c: Config, log: Log, target: TargetState, n: nat)
    requires c.Valid() && TargetOk(c, log, target, n)
    ensures TablesOk(c.registry, target.tables)
  {
    ReplayKeepsTablesOk(c.registry, c.snapshot, AllRows(log[..n]));
    hide TablesOk, RegistryOk, Replay, AllRows;
  }

  // ---- Every run ------------------------------------------------------------------------------

  /** What the environment promises of an action. */
  ghost predicate Allowed(c: Config, s: System, a: Action) {
    a.SourceCommits? ==> SourceOk(c, s.log + [a.transaction])
  }

  /** How many transactions an action makes the target apply. */
  function AppliedBy(s: System, a: Action): nat {
    if a.CommitBatch? && a.worker in s.workers then |s.workers[a.worker].inflight| else 0
  }

  lemma ActKeepsAt(c: Config, s: System, n: nat, a: Action)
    requires InvAt(c, s, n) && Allowed(c, s, a) && Act(c, s, a).Some?
    ensures InvAt(c, Act(c, s, a).value, n + AppliedBy(s, a))
  {
    hide InvAt, SourceOk, ActivateOwnerStep, ResumeStep, DeliverStep, TimerStep, CommitStep, AcknowledgeStep, KeepaliveStep;
    match a {
      case SourceCommits(t) => SourceCommitsKeeps(c, s, n, t);
      case ActivateOwner(fence) => ActivateKeeps(c, s, n, fence);
      case Resume(i, fence) => ResumeKeeps(c, s, n, i, fence);
      case Deliver(i) => DeliverKeeps(c, s, n, i);
      case TimerFires(i) => TimerKeeps(c, s, n, i);
      case CommitBatch(i) => CommitKeeps(c, s, n, i);
      case AcknowledgeBatch(i) => AcknowledgeKeeps(c, s, n, i);
      case KeepaliveReply(i) => KeepaliveKeeps(c, s, n, i);
      case Stop(i) => StopKeeps(c, s, n, i);
    }
  }

  /** Each action keeps the invariant, and only a committed batch changes how much is applied. */
  lemma ActKeepsInv(c: Config, s: System, a: Action)
    requires Inv(c, s) && Allowed(c, s, a) && Act(c, s, a).Some?
    ensures Inv(c, Act(c, s, a).value)
    ensures Applied(c, Act(c, s, a).value) == Applied(c, s) + AppliedBy(s, a)
  {
    hide InvAt, Act, Allowed, Applied;
    ActKeepsAt(c, s, Applied(c, s), a);
    InvFromAt(c, Act(c, s, a).value, Applied(c, s) + AppliedBy(s, a));
  }

  function Run(c: Config, s: System, actions: seq<Action>): Option<System>
    decreases |actions|
  {
    if actions == [] then Some(s)
    else match Act(c, s, actions[0])
      case None => None
      case Some(next) => Run(c, next, actions[1..])
  }

  ghost predicate AllAllowed(c: Config, s: System, actions: seq<Action>)
    decreases |actions|
  {
    actions == [] ||
    (Allowed(c, s, actions[0]) && (Act(c, s, actions[0]).Some? ==> AllAllowed(c, Act(c, s, actions[0]).value, actions[1..])))
  }

  /** Exactly-once effect. In every state any run reaches, whatever is cancelled, crashes or loses its
      lease at any point and whoever resumes, the target tables are the snapshot with exactly the
      transactions up to the stored checkpoint applied one change at a time in order, and the source may
      discard nothing the target does not have. */
  lemma {:induction false} EveryRunAppliesOnce(c: Config, s: System, actions: seq<Action>)
    requires Inv(c, s) && AllAllowed(c, s, actions)
    ensures Run(c, s, actions).Some? ==>
      var e := Run(c, s, actions).value;
      && Inv(c, e)
      && Replay(c.registry, c.snapshot, AllRows(e.log[..Applied(c, e)])) == Some(e.target.tables)
      && e.target.meta.checkpoints[c.Key()].checkpoint.appliedLsn == Boundary(c, e.log, Applied(c, e))
      && e.confirmed <= e.target.meta.checkpoints[c.Key()].checkpoint.appliedLsn
      && Applied(c, s) <= Applied(c, e)
    decreases |actions|
  {
    hide InvAt, Act, Allowed, Applied, Replay;
    InvMeans(c, s);
    if actions != [] && Act(c, s, actions[0]).Some? {
      ActKeepsInv(c, s, actions[0]);
      EveryRunAppliesOnce(c, Act(c, s, actions[0]).value, actions[1..]);
    }
  }

  lemma InvMeans(c: Config, s: System)
    requires Inv(c, s)
    ensures Applied(c, s) <= |s.log|
    ensures Replay(c.registry, c.snapshot, AllRows(s.log[..Applied(c, s)])) == Some(s.target.tables)
    ensures s.target.meta.checkpoints[c.Key()].checkpoint.appliedLsn == Boundary(c, s.log, Applied(c, s))
    ensures s.confirmed <= s.target.meta.checkpoints[c.Key()].checkpoint.appliedLsn
  {
    hide WorkersOk, SourceOk, Replay, Behind;
  }

  /** The state the snapshot leaves behind, with any fence in force and no job running. */
  lemma SnapshotIsStart(c: Config, s: System)
    requires c.Valid() && SourceOk(c, s.log) && s.workers == map[] && s.confirmed <= c.snapshotLsn
    requires s.target.tables == c.snapshot && c.Key() in s.target.meta.checkpoints
    requires s.target.meta.checkpoints[c.Key()].checkpoint ==
      NodeCheckpoint(c.Key(), c.identity.systemIdentifier, c.identity.timeline, c.slotName, c.snapshotLsn)
    ensures Inv(c, s) && Applied(c, s) == 0
  {
    assert s.log[..0] == [] && AllRows([]) == [];
    assert InvAt(c, s, 0);
    hide InvAt;
    InvFromAt(c, s, 0);
  }

  /** In every reachable state the acknowledgement of an applied batch is accepted, an idle worker takes the
      next transaction, and a resuming owner never finds the source ahead of the target. Whether a batch can
      be committed is another matter: see `CommitPossibleExactly`. */
  lemma AcknowledgementNeverRefused(c: Config, s: System, i: nat)
    requires Inv(c, s) && i in s.workers
    ensures s.workers[i].acking != [] ==> Act(c, s, AcknowledgeBatch(i)).Some?
    ensures s.workers[i].Idle() && s.workers[i].next < |s.log| ==> Act(c, s, Deliver(i)).Some?
    ensures s.confirmed <= s.target.meta.checkpoints[c.Key()].checkpoint.appliedLsn
  {
    hide InvAt, AcknowledgeStep, DeliverStep, ResumeStep, CommitStep, ActivateOwnerStep, TimerStep, KeepaliveStep, Applied;
    InvMeans(c, s);
    if s.workers[i].acking != [] { AckPossible(c, s, Applied(c, s), i); }
    if s.workers[i].Idle() && s.workers[i].next < |s.log| { DeliverPossible(c, s, Applied(c, s), i); }
  }

  lemma AckPossible(c: Config, s: System, n: nat, i: nat)
    requires InvAt(c, s, n) && i in s.workers && s.workers[i].acking != []
    ensures AcknowledgeStep(c, s, i).Some?
  {
    hide WorkerOk, TargetOk, SourceOk, AcknowledgeLast, Owns;
    SourceIncreasing(c, s.log);
    AcknowledgeWorker(c, s.log, n, Owns(c, s.target, s.workers[i]), s.workers[i]);
  }

  lemma DeliverPossible(c: Config, s: System, n: nat, i: nat)
    requires InvAt(c, s, n) && i in s.workers && s.workers[i].Idle() && s.workers[i].next < |s.log|
    ensures DeliverStep(c, s, i).Some?
  {
    hide WorkerOk, TargetOk, SourceOk, MustFlush, ValidateOrder, Received, Owns;
    SourceIncreasing(c, s.log);
    DeliverWorker(c, s.log, n, Owns(c, s.target, s.workers[i]), s.workers[i]);
  }

  /** A schema barrier stops the owner with the checkpoint exactly at the last transaction before the
      barrier's batch, whose first transaction is the barrier. */
  lemma BarrierStopsBeforeItsBatch(c: Config, s: System, i: nat)
    requires Inv(c, s) && i in s.workers && s.workers[i].inflight != [] && Owns(c, s.target, s.workers[i])
    ensures c.scope.RejectsBatch(s.workers[i].inflight) ==>
      && RequestOf(c, s.workers[i]) == Err(SchemaBarrier) && Act(c, s, CommitBatch(i)).None?
      && Applied(c, s) < |s.log| && s.log[Applied(c, s)] == s.workers[i].inflight[0]
      && s.workers[i].inflight[0].HasBarrier()
      && s.target.meta.checkpoints[c.Key()].checkpoint.appliedLsn == Boundary(c, s.log, Applied(c, s))
  {
    hide InvAt, Applied, Boundary, BuildRequest, BatchOk, Owns;
    OwnerBatch(c, s, i);
    InvMeans(c, s);
    if c.scope.RejectsBatch(s.workers[i].inflight) {
      BarrierFirst(c.limits, c.scope, s.workers[i].inflight);
      Rejected(s.workers[i].fence, c, s.workers[i].inflight);
    }
  }

  lemma OwnerBatch(c: Config, s: System, i: nat)
    requires Inv(c, s) && i in s.workers && s.workers[i].inflight != [] && Owns(c, s.target, s.workers[i])
    ensures var n, batch := Applied(c, s), s.workers[i].inflight;
      n < |s.log| && batch[0] == s.log[n] && BatchOk(c.limits, batch)
  {
    hide TargetOk, SourceOk, Applied, BatchOk, StretchOk, QueueOk, PlaceOk;
    var n, w := Applied(c, s), s.workers[i];
    assert WorkerOk(c, s.log, n, true, w);
    CommittedWorker(c, s.log, n, w);
    assert s.log[n..n + |w.inflight|][0] == s.log[n];
  }

  /** The batch an owner is applying is the next stretch of the log, and replays on the target. */
  lemma OwnerBatchReplays(c: Config, s: System, n: nat, i: nat)
    requires InvAt(c, s, n) && i in s.workers && s.workers[i].inflight != [] && Owns(c, s.target, s.workers[i])
    ensures var batch := s.workers[i].inflight;
      && n + |batch| <= |s.log| && batch == s.log[n..n + |batch|]
      && s.workers[i].fence.pipelineId == c.pipelineId && s.workers[i].fence.generation == c.generation
      && (!c.scope.RejectsBatch(batch) ==> Replay(c.registry, s.target.tables, AllRows(batch)).Some?)
      && TablesOk(c.registry, s.target.tables)
  {
    hide WorkerOk, TargetOk, SourceOk, Owns, TablesOk, RegistryOk, Replay, AllRows;
    var w := s.workers[i];
    assert WorkerOk(c, s.log, n, true, w);
    WorkerPipeline(c, s.log, n, true, w);
    CommittedWorker(c, s.log, n, w);
    TargetTablesOk(c, s.log, s.target, n);
    if !c.scope.RejectsBatch(w.inflight) { BatchReplays(c, s.log, s.target, n, w.inflight); }
  }

  /** What activating the fence and validating the source identity have established. */
  predicate WellFormed(c: Config, w: Worker) {
    ValidateFence(w.fence).None? && c.identity.timeline != 0 && c.slotName != [] && 0 !in c.slotName
  }

  /** The owner's next position is accepted. */
  lemma OwnerAdvances(c: Config, s: System, n: nat, w: Worker)
    requires c.Valid() && SourceOk(c, s.log) && TargetOk(c, s.log, s.target, n) && Owns(c, s.target, w)
    requires w.inflight != [] && n + |w.inflight| <= |s.log| && w.inflight == s.log[n..n + |w.inflight|]
    requires w.fence.pipelineId == c.pipelineId && w.fence.generation == c.generation
    ensures AdvanceCheckpoint(s.target.meta, w.fence, CheckpointOf(w.fence, c.slotName, w.inflight[|w.inflight| - 1].finalPosition)).Ok? <==>
      WellFormed(c, w)
  {
    hide Replay, AllRows, TablesOk, RegistryOk, AdvanceCheckpoint;
    var last := w.inflight[|w.inflight| - 1];
    assert last == s.log[n + |w.inflight| - 1];
    SourceIncreasing(c, s.log);
    BoundaryMonotone(c, s.log, n, n + |w.inflight|);
    AdvanceIffCurrent(s.target.meta, w.fence, CheckpointOf(w.fence, c.slotName, last.finalPosition));
  }

  lemma CommitStepExactly(c: Config, s: System, i: nat)
    requires i in s.workers && s.workers[i].inflight != []
    ensures CommitStep(c, s, i).Some? <==> RequestOf(c, s.workers[i]).Ok? && ExecuteApply(s.target, RequestOf(c, s.workers[i]).value).Ok?
  {
    hide ExecuteApply, RequestOf;
  }

  lemma CommitPossibleAt(c: Config, s: System, n: nat, i: nat)
    requires InvAt(c, s, n) && i in s.workers && s.workers[i].inflight != [] && Owns(c, s.target, s.workers[i])
    ensures var w := s.workers[i];
      CommitStep(c, s, i).Some? <==>
        && WellFormed(c, w) && !c.scope.RejectsBatch(w.inflight)
        && forall k | k in GroupKeys(AllRows(w.inflight)) :: Foldable(c.registry, s.target.tables, AllRows(w.inflight), k)
  {
    hide WorkersOk, TargetOk, SourceOk, Owns, TablesOk, RegistryOk, Replay, AllRows, GroupKeys, Foldable, CommitStep, BuildRequest, ExecuteApply,
      AdvanceCheckpoint, WellFormed;
    var w := s.workers[i];
    CommitStepExactly(c, s, i);
    OwnerBatchReplays(c, s, n, i);
    if c.scope.RejectsBatch(w.inflight) {
      Rejected(w.fence, c, w.inflight);
    } else {
      OwnerAdvances(c, s, n, w);
      ReplayableBuildsExactly(w.fence, c.slotName, c.registry, c.scope, s.target.tables, w.inflight);
      AppliedBatchIsReplay(s.target, w.fence, c.slotName, c.registry, c.scope, w.inflight);
    }
  }

  /** In every reachable state the owner's batch commits if and only if its fence and the configuration are
      well formed, it holds no barrier in scope, and no update in it lands on the batch-start key of another
      row (in tables that are bound and supported). Nothing else can stop the owner. */
  lemma CommitPossibleExactly(c: Config, s: System, i: nat)
    requires Inv(c, s) && i in s.workers && s.workers[i].inflight != [] && Owns(c, s.target, s.workers[i])
    ensures var w := s.workers[i];
      Act(c, s, CommitBatch(i)).Some? <==>
        && WellFormed(c, w) && !c.scope.RejectsBatch(w.inflight)
        && forall k | k in GroupKeys(AllRows(w.inflight)) :: Foldable(c.registry, s.target.tables, AllRows(w.inflight), k)
  {
    hide InvAt, Applied, CommitStep, Foldable, GroupKeys, AllRows, WellFormed, Owns;
    CommitPossibleAt(c, s, Applied(c, s), i);
  }

  lemma BarrierFirst(limits: BatchLimits, scope: DdlScope, batch: seq<SourceTransaction>)
    requires BatchOk(limits, batch) && scope.RejectsBatch(batch)
    ensures batch[0].HasBarrier()
  {
    RejectedIsBarrier(scope, batch);
  }

  lemma Rejected(fence: Fence, c: Config, batch: seq<SourceTransaction>)
    requires batch != [] && c.scope.RejectsBatch(batch)
    ensures BuildRequest(fence, c.slotName, c.registry, c.scope, batch) == Err(SchemaBarrier)
  {
  }
}
