# PostgreSQL to Cloudberry replication, modelled and proved

This project models the core of a change-replication engine and proves what its design rests on. A
database transaction is one atomic step. Tables are maps from key to row, relations are maps from name
to object identity, and the SQL statements are what they do to those maps. Code that works by changing
things in place is a class or a loop, proved against a specification function; the properties are then
lemmas about those functions and about every run of the machines built from them.

The files follow the program:

- **Row changes and staged apply.** `PrimaryKey`, `RowChanges` (one change at a time: the reference
  meaning), `Normalize` and `Normalizer` (the fold of a change list into staging rows), `Staging` (the
  six set-oriented statements), `Apply`, `Bindings`, `Execute` (grouping by relation, the request and its
  transaction), `Copy`, `StagingCopy` (the lines sent by COPY). `NormalizeTracking`, `NormalizeTheorems`
  and `ApplyTheorems` prove that folding, grouping and merging preserve the sequential meaning,
  `StagingValidation` what validation refuses and what becomes of each row it passes, and `ApplyCounts`
  when a request commits and what it reports; `NormalizeExample` is a valid transaction that is refused
  all the same.
- **Exactly-once effect.** `Wal` (decoder and assembler), `WalRoundTrip` (a writer of the same messages, and
  that what it writes is read back), `PgOutput` (delivery queue and acknowledgement), `PgOutputReading` (what
  one call for the next transaction takes, answers and queues), `Transactions`, `Batch`, `Pipeline` (the
  loop), `Checkpoint` (fence and position) and `Replication`, the machine of all of them with any number of
  owners and former owners.
  `PipelineInReplication` shows the loop to be what one job of that machine does, `ReplicationBlocked` where
  replication stops for good, and `Superseded` that a replaced fence is refused in every later state of both
  machines, this one and the lifecycle below.
- **Leases.** `Leases` (store, local deadline, and the machine of concurrent reconcilers whose requests
  are answered late or never), `LeaseProgress` (who gets, keeps and frees a lease) and `Supervisor` (task
  ownership).
- **Snapshot groups.** `Sorting`, `Manifest`, `ManifestStore` (canonical form, rows, checksum),
  `Snapshot` and `SnapshotOps` (register, load, activate, clean up, collect), `SnapshotTarget` (the same
  as statements in a transaction), and the proofs: `SnapshotNames`, `SnapshotInvariant`, `SnapshotSteps`,
  `SnapshotClassify`, `SnapshotMoves`, `SnapshotPlan`, `SnapshotOutcome`, `SnapshotActivated`,
  `SnapshotCleanup`, `SnapshotCollection`, `SnapshotRuns`, `SnapshotRetention` (how long displaced tables are
  kept), `SnapshotOwnership` (what no operation touches, in any state at all), `SnapshotResume`, `SnapshotExample`.
- **Codecs and planners.** `Lsn`, `Framing`, `PrintedNames` (numbers in identifiers, long identifiers cut),
  `EnumEvolution`, and `Core` for shared values.

## What the environment is taken to do

- Commit end positions of the source strictly increase beyond the snapshot. The assembler itself only
  enforces that they do not decrease; `PgOutput.EqualPositionsRefused` shows what equal ones lead to.
- Streaming from a position delivers, in order, exactly the transactions that end after it, and the
  exported snapshot is the source at the slot's consistent point. Up to the first schema barrier every
  row change is valid on the tables as the changes before it left them.
- Two keys are equal when their text bytes are equal, and the database orders names bytewise.
- SHA-256 is injective, also cut to its first bytes: a digest stands for all the bytes it was given, in
  checksums, in quarantine names and at the end of a shortened identifier
  (`crates/core/src/mapping.rs` lines 78-94).
- Reconcilers and the store share one clock.
- One job runs per fence, since every start acquires a lease and every acquisition raises the token. So no two
  workers of the replication machine share a fence, and activating a fence ends a job that holds that same one.
- Each run registers one snapshot group, under the token of its own lease (every start acquires a lease,
  and every acquisition raises the token). It plans ordinary target names and the shadow names of
  `crates/engine/src/runtime/planning.rs`. Users keep away from managed tables and from the two reserved name prefixes.

## Where the code does not do what is said of it

- **A later owner cannot resume.** The comment at `crates/target-cloudberry/src/snapshot/activation.rs`
  lines 389-393 says that a run under a newer lease resumes from the stored position. A resuming run plans
  its shadow names from its own token (`crates/engine/src/runtime/job.rs` lines 710-718), while the resume
  check compares whole tables, shadow names included, with the manifest of the run that took the snapshot
  (`crates/target-cloudberry/src/snapshot/activation.rs` lines 436-446).
  `SnapshotResume.ResumeNeedsTheSameToken` proves that the comparison passes if and only if the tokens are
  equal, and `SnapshotExample.LaterOwnerRefused` is a small run in which it fails. The error is not one of
  those that request a rebuild (`crates/engine/src/runtime/job.rs` lines 415-429). The replication machine
  lets a new owner resume; it shows that doing so is safe.
- **Update onto a batch-start key.** A valid change list is refused when an update lands on the key some
  other row had when the batch started, and only then (`NormalizeTheorems.RejectsExactlyReusedStartKeys`).
  `NormalizeExample.ValidListRefused` is such a list, delete one row and move another onto its key, and
  `NormalizeExample.ValidTransactionRefused` the transaction that holds it. In every reachable state this and
  a barrier in scope are all that can stop a well-formed owner's batch over supported relations
  (`Replication.CommitPossibleExactly`), and a transaction that cannot be applied alone is never passed, by
  any restart, owner or batching (`ReplicationBlocked.BlockedForGood`); `ReplicationBlocked.ValidSourceBlocks`
  is a source in order to which this happens. Of the errors of replication only a schema barrier requests a
  rebuild, which starts the next generation (`crates/engine/src/runtime/job.rs` lines 523-528).
- **Saturating totals.** Row and byte totals of a batch saturate at 64 bits; `Batch.TotalsAreTrue` says
  when they are the true sums.

## Model

| member | source | states |
|---|---|---|
| PrimaryKey.LayoutFollowsKeyIndex | crates/engine/src/normalize.rs:125-155 | the layout of a schema lists exactly the primary-key columns, each once, in strictly increasing key ordinal |
| PrimaryKey.KeyOnlyTupleHasRowKey | crates/engine/src/normalize.rs:420-490 | a composite key read from a key-only tuple (schema order) is the key read from the full row (key order) |
| NormalizerObject.Normalizer.Push | crates/engine/src/normalize.rs:188-210 | one pushed change leaves exactly the specified lineages, key indexes and sequence, also when it is refused midway |
| NormalizerObject.Normalizer.Insert | crates/engine/src/normalize.rs:212-248 | inserting appends or revives a lineage as specified, with each refusal of the code |
| NormalizerObject.Normalizer.Update | crates/engine/src/normalize.rs:250-310 | updating finds or registers the row, merges in place and moves it, as specified |
| NormalizerObject.Normalizer.Absorb | crates/engine/src/normalize.rs:276-283 | the cell loop overwrites exactly the cells that carry a value |
| NormalizerObject.Normalizer.Relocate | crates/engine/src/normalize.rs:284-308 | moving a lineage re-keys it, or refuses a key that another batch-start row had |
| NormalizerObject.Normalizer.Delete | crates/engine/src/normalize.rs:312-327 | deleting kills the lineage and frees its key, as specified |
| NormalizerObject.Normalizer.AddBaseline | crates/engine/src/normalize.rs:329-344 | an untouched batch-start row is registered once, under its own key, with unknown cells |
| NormalizerObject.Normalizer.Finish | crates/engine/src/normalize.rs:346-393 | staging rows come out in order of last touch, one per lineage that has an effect |
| NormalizerObject.NormalizeWith | crates/engine/src/normalize.rs:62-72 | the object's loop over a change list computes the specified batch or error |
| NormalizeTracking.ChangesTraced | crates/engine/src/normalize.rs:188-327 | after any valid change list the lineages describe exactly the sequential table and the batch-start row of each of its rows |
| NormalizeTracking.InsertTraced | crates/engine/src/normalize.rs:212-248 | a valid insert is never refused and keeps that description true |
| NormalizeTracking.DeleteTraced | crates/engine/src/normalize.rs:312-327 | a valid delete is never refused and keeps that description true |
| NormalizeTracking.UpdateTraced | crates/engine/src/normalize.rs:250-310 | a valid update keeps that description true, and is refused exactly when it lands on another row's batch-start key |
| Normalize.SecondInsertRefused | crates/engine/src/normalize.rs:212-248 | a key that was just inserted cannot be inserted again |
| Normalize.DeletedRowIsGone | crates/engine/src/normalize.rs:250-327 | a batch-start row that was deleted can be neither deleted nor updated before something is inserted there |
| NormalizeTheorems.AcceptedIsCollapsed | crates/engine/src/normalize.rs:346-393 | whatever list is accepted, keys are pairwise distinct, so are old keys, and no old key is another row's new or deleted key |
| NormalizeTheorems.RejectsExactlyReusedStartKeys | crates/engine/src/normalize.rs:290-308 | a valid list is refused if and only if an update lands on another row's batch-start key; no other error can occur |
| NormalizeExample.ValidListRefused | crates/engine/src/normalize.rs:290-308 | deleting one row and moving another onto its key is valid one change at a time and refused as a list |
| NormalizeExample.ValidTransactionRefused | crates/engine/src/adapters/cloudberry.rs:186-239 | one transaction of those two changes replays on its table, yet under no fence, slot or scope becomes a request |
| NormalizeTheorems.NormalizationPreservesMeaning | crates/target-cloudberry/src/apply.rs:511-585 | an accepted batch passes the validation query, and delete, move, delete-moved, update, insert give exactly the table of the sequential changes |
| Staging.StagedApplyAt | crates/target-cloudberry/src/apply.rs:511-585 | the statements one after another come, at every key, to one look at the starting table |
| Staging.RowOrderIrrelevant | crates/target-cloudberry/src/apply.rs:511-585 | however the rows of a collapsed batch are ordered, validation and the statements agree |
| Staging.CollapsedValidity | crates/target-cloudberry/src/apply.rs:511-530 | on a collapsed batch only the row-wise part of the validation query can fail |
| StagingValidation.RefusedExactly | crates/target-cloudberry/src/apply.rs:511-530 | a collapsed batch is refused if and only if a row would be lost: a move whose row is in neither place or in both, or an insert without every cell |
| StagingValidation.PassedIsWellFormed | crates/target-cloudberry/src/apply.rs:511-530 | whatever the rows, a batch that passes has whole keys, old keys on moves only, and no key or old key twice |
| StagingValidation.UpsertStored | crates/target-cloudberry/src/apply.rs:560-588 | an upserted row that passed is stored with each cell it carries and the stored value of each other; no unchanged cell is stored as NULL |
| StagingValidation.MoveStored | crates/target-cloudberry/src/apply.rs:549-559 | a move that passed takes its row along, merged, or finds it moved; its old key is free unless another row takes it |
| StagingValidation.RemoveStored | crates/target-cloudberry/src/apply.rs:531-536 | a removed row is gone |
| StagingValidation.OthersStored | crates/target-cloudberry/src/apply.rs:531-600 | a row no staged row names stays as it is |
| Staging.ReplayIsHarmless | crates/target-cloudberry/src/apply.rs:511-585 | a batch applied again is refused by validation or changes nothing |
| Copy.EncodeTextBytes | crates/target-cloudberry/src/copy.rs:52-66 | the escaping loop appends exactly the specified escaped bytes of a field |
| Copy.EncodeRow | crates/target-cloudberry/src/copy.rs:27-40 | the row loop writes all fields with tabs and one newline, or the first error |
| Copy.RowReadsBack | crates/target-cloudberry/src/copy.rs:20-66 | read by the COPY text rules, an encoded row gives back its cells for all bytes, and stops exactly at its end |
| StagingCopy.Encode | crates/target-cloudberry/src/apply.rs:213-281 | the encoder checks in loops and extends the field list to the specified line or error |
| StagingCopy.StagingRowReadsBack | crates/target-cloudberry/src/apply.rs:213-281 | a staging row encodes if and only if it is well shaped, and its line reads back as that row: operation, unchanged and NULL cells apart, old key |
| Bindings.NewRegistry | crates/engine/src/adapters/cloudberry.rs:130-157 | the registry holds exactly the bindings, or reports the first clash of generation, target or staging name |
| Bindings.RegistryBuiltExactly | crates/engine/src/adapters/cloudberry.rs:130-157 | a registry is built if and only if no two bindings share a relation generation, a target or a staging name |
| Apply.RejectedIsBarrier | crates/engine/src/adapters/cloudberry.rs:70-92 | only a transaction the batcher treats as a barrier can be rejected as a schema barrier |
| Apply.RejectSchemaBarriers | crates/engine/src/adapters/cloudberry.rs:241-275 | the loop finds a barrier in scope exactly when the batch has one |
| Apply.GroupRows | crates/engine/src/adapters/cloudberry.rs:195-208 | nested loops group the row changes by relation generation, each group in commit order |
| Apply.NormalizeGroups | crates/engine/src/adapters/cloudberry.rs:209-221 | groups are normalized in ascending relation order up to the first that is unbound or refused |
| Apply.BuildApplyRequest | crates/engine/src/adapters/cloudberry.rs:186-239 | the built request carries the table batches and the position of the last transaction, or the first error |
| Execute.TargetDatabase.ActivateFence | crates/target-cloudberry/src/checkpoint.rs:128-157 | the stored fence becomes the new one exactly when neither component shrinks |
| Execute.TargetDatabase.Execute | crates/target-cloudberry/src/apply.rs:144-211 | tables, counters and checkpoint change together as specified, or nothing changes and the first error is returned |
| Execute.TargetDatabase.ApplyOne | crates/target-cloudberry/src/apply.rs:160-200 | one table's batch is validated and merged, counters added with saturation |
| Execute.TargetDatabase.MergeStaged | crates/target-cloudberry/src/apply.rs:531-585 | the statements run in order and count what each affected |
| ApplyTheorems.RowCountsConserved | crates/target-cloudberry/src/apply.rs:165-200 | rows after plus deleted equal rows before plus moved plus inserted, by the reported counters |
| ApplyCounts.CountersAreSums | crates/target-cloudberry/src/apply.rs:160-200 | over any tables of a request the counters are the true sums, each stopping at the top of its range, and rows are conserved over the database |
| ApplyCounts.ReportedCounts | crates/target-cloudberry/src/apply.rs:144-211 | the outcome counts every staged row, and the rows removed, moved, updated and inserted as read off the tables before the transaction |
| ApplyCounts.BuiltRequestCounts | crates/engine/src/adapters/cloudberry.rs:186-239 | every request that is built has each table once, with a collapsed batch, so the counts above hold of it |
| ApplyCounts.CommitsExactly | crates/target-cloudberry/src/apply.rs:144-211 | a request with each table once commits if and only if staging names differ, the fence is the present one, every table can be merged as it stands, and the position may be advanced to |
| ApplyTheorems.TableApplied | crates/target-cloudberry/src/apply.rs:144-211 | one relation's changes, normalized, encoded and merged, give its changes applied in order |
| ApplyTheorems.ReplayPerTable | crates/engine/src/adapters/cloudberry.rs:195-221 | interleaving does not matter: each table sees only its own changes in their order |
| ApplyTheorems.BatchAppliesInOrder | crates/engine/src/adapters/cloudberry.rs:186-239 | over the whole database, grouping and merging give the row changes applied one at a time, whatever relations interleave |
| ApplyTheorems.AppliedBatchIsReplay | crates/target-cloudberry/src/apply.rs:144-211 | a built request fails only on its fence or checkpoint; when it commits, tables hold the replay of the whole batch and the checkpoint its last position |
| ApplyTheorems.BuildRejectsExactlyReusedStartKeys | crates/engine/src/adapters/cloudberry.rs:209-221 | a replayable, bound batch is refused if and only if some update lands on another row's batch-start key |
| ApplyTheorems.ReplayableBuildsExactly | crates/engine/src/adapters/cloudberry.rs:186-239 | a batch that replays becomes a request if and only if it has no barrier in scope and each relation it touches is supported, keyed, and free of updates landing on another row's batch-start key |
| ApplyTheorems.BarrierExactly | crates/engine/src/adapters/cloudberry.rs:67-92 | a batch is stopped as a schema barrier if and only if it holds a TRUNCATE, or DDL that names no schema or one in scope |
| Wal.TransactionDecoder.DecodeMessage | crates/source-postgres/src/wal.rs:552-704 | the decoder's flag, relations and generations change as specified for every message |
| Wal.TransactionAssembler.Push | crates/source-postgres/src/wal.rs:351-449 | the assembler's pending transaction and generations change as specified for every event |
| Wal.TransactionAssembler.PushChange | crates/source-postgres/src/wal.rs:400-447 | a change is appended within the change and byte limits; an identical DDL message is dropped |
| Wal.TransactionAssembler.PushCommit | crates/source-postgres/src/wal.rs:481-533 | a commit emits the pending changes in order unless its position or identity is wrong |
| Wal.StepKeepsLockStep | crates/source-postgres/src/wal.rs:552-740 | open-transaction flag and relation generations of decoder and assembler agree after every message |
| Wal.EmittedAreBrackets | crates/source-postgres/src/wal.rs:351-533 | on every stream, up to its first error, the emitted transactions are exactly the brackets minus repeated DDL, within limits, with nondecreasing positions, and the assembler's generation errors cannot occur |
| WalRoundTrip.EveryTransactionReadsBack | crates/source-postgres/src/wal.rs:552-704 | after any stream, every transaction within the limits, written as messages with its old keys sent as key, old row or both, and relation, type and keepalive messages anywhere, comes back as itself |
| WalRoundTrip.GenerationsCountShapes | crates/source-postgres/src/wal.rs:583-622 | a relation is known as last described, under one plus the number of times its description changed |
| WalRoundTrip.DecodedWasWritten | crates/source-postgres/src/wal.rs:627-740 | a change that is decoded was written by its message, in a transaction, of relations described with the default identity, at their present generation |
| WalRoundTrip.ChangeTakenExactly | crates/source-postgres/src/wal.rs:400-450 | a described change is taken if and only if the transaction keeps its limits with it |
| WalRoundTrip.BeginTakenExactly | crates/source-postgres/src/wal.rs:351-400 | a begin is taken if and only if no transaction is open, its time is one, and it is not behind the last commit |
| WalRoundTrip.CommitTakenExactly | crates/source-postgres/src/wal.rs:481-535 | a commit is taken if and only if positions and times are in order and the flags are clear |
| WalRoundTrip.BufferedBytes | crates/source-postgres/src/wal.rs:742-777 | what a change counts against the limit: its cells, its texts with schema names, four bytes for each relation |
| PgOutput.PgOutputTransactionSource.SendDurableStatus | crates/engine/src/adapters/pgoutput.rs:101-112 | a status carries the durable position for all of written, flushed and applied |
| PgOutput.PgOutputTransactionSource.NextTransaction | crates/engine/src/adapters/pgoutput.rs:143-179 | the loop reads to the next transaction, answering keepalives, and queues its position |
| PgOutputReading.FirstTransaction | crates/engine/src/adapters/pgoutput.rs:143-179 | the transaction returned is the first the assembler emits; just the messages up to it are taken, each keepalive that asked was answered, and its final position is queued last |
| PgOutputReading.ReturnedCanBeAcknowledged | crates/engine/src/adapters/pgoutput.rs:143-200 | the transaction returned can be acknowledged at its final position if and only if that is not behind the last acknowledgement |
| PgOutputReading.NoTransaction | crates/engine/src/adapters/pgoutput.rs:143-179 | without a transaction only answers were sent, and the end of the stream leaves no transaction open |
| PgOutput.PgOutputTransactionSource.AcknowledgePosition | crates/engine/src/adapters/pgoutput.rs:114-193 | an acknowledgement pops everything up to it and reports it, or is refused and changes nothing |
| PgOutput.ReportsNeverDecrease | crates/engine/src/adapters/pgoutput.rs:101-193 | over every run reported positions never decrease and never pass the last acknowledged one |
| PgOutput.BatchAck | crates/engine/src/adapters/pgoutput.rs:114-193 | acknowledging a batch is refused exactly when its position left the queue with an equal one and is no longer queued |
| PgOutput.StrictAckAccepted | crates/engine/src/adapters/pgoutput.rs:114-193 | with strictly increasing positions no batch is ever refused and the queue is exactly what is outstanding |
| PgOutput.AckAcceptedExactly | crates/engine/src/adapters/pgoutput.rs:114-200 | an acknowledgement is accepted if and only if it is of the node, not behind, and queued; exactly the positions beyond it stay queued |
| PgOutput.EqualPositionsRefused | crates/engine/src/adapters/pgoutput.rs:114-141 | two commits with one position, acknowledged as two batches: the second is refused |
| Batch.Batcher.Push | crates/engine/src/batch.rs:97-126 | an ordered transaction joins the pending list or first flushes it; an unordered one changes nothing |
| Batch.Batcher.Flush | crates/engine/src/batch.rs:128-131 | the pending list comes out as one batch with its totals and barrier flag |
| Batch.Batcher.TakePending | crates/engine/src/batch.rs:165-181 | counters and identity are reset with the list |
| Batch.RunsKeepOrderAndLimits | crates/engine/src/batch.rs:97-181 | over any run, batches followed by the pending list are what was pushed, in order; batches of more than one keep the limits; a barrier is only ever first |
| Batch.StepKeepsOrderAndLimits | crates/engine/src/batch.rs:97-163 | the same for one event, and a barrier just pushed is alone |
| Batch.TotalsAreTrue | crates/engine/src/batch.rs:185-230 | saturating totals are the true sums as long as these fit 64 bits |
| Batch.HandedOverExactly | crates/engine/src/batch.rs:97-126 | the pending batch is handed over if and only if it is full, or the transaction is a barrier or does not fit by true row and byte sums |
| Batch.FittingBatchGrows | crates/engine/src/batch.rs:97-126 | as long as everything fits and is in order, nothing is handed over |
| Batch.OutOfOrderExactly | crates/engine/src/batch.rs:142-163 | a transaction is out of order if and only if it is of another node or system, or behind; an equal position is in order |
| Batch.EstimateAdds | crates/engine/src/batch.rs:193-228 | a batch is taken to need what its changes need together, each by its cells, texts and relations |
| Pipeline.ApplyAndAcknowledge | crates/engine/src/pipeline.rs:184-214 | the batch is committed first and acknowledged after, and each failure or cancellation cuts that sequence where it strikes |
| Pipeline.Replicate | crates/engine/src/pipeline.rs:105-182 | the loop, driving the batcher object, does turn by turn what the specification does |
| Pipeline.NothingIsAcknowledgedEarly | crates/engine/src/pipeline.rs:105-214 | however it is woken: committed is a prefix of delivered, nothing is lost while it runs, each acknowledgement directly follows the commit of the batch ending there, at most the last commit is unacknowledged |
| PipelineInReplication.JobFollowsLoop | crates/engine/src/pipeline.rs:105-214 | in any run, whoever else acts in between, a job whose actions are the turns of the loop commits, acknowledges, holds and ends exactly as the loop does |
| PipelineInReplication.JobCommitsInOrder | crates/engine/src/pipeline.rs:105-214 | what such a job commits is the log from where it resumed, in order, and each acknowledgement directly follows the commit it belongs to |
| Checkpoint.RunsOnlyGrow | crates/target-cloudberry/src/checkpoint.rs:128-292 | over any run the fence grows componentwise and positions never move back or change identity |
| Checkpoint.RunsKeepRecordsOk | crates/target-cloudberry/src/checkpoint.rs:226-292 | every position is filed under its key by a token no later than the stored fence |
| Checkpoint.ReplacedFenceNeverCommits | crates/target-cloudberry/src/checkpoint.rs:193-292 | once a different fence is activated, the old one can never again be locked, activated, or advance a position |
| Superseded.ReplacedFenceRefusedForGood | crates/target-cloudberry/src/checkpoint.rs:193-224 | in every later state of any lifecycle run a replaced fence registers, loads, activates, cleans up, collects, advances and resumes nothing, and cannot be taken back |
| Superseded.ReplacedFenceNeverApplies | crates/target-cloudberry/src/apply.rs:144-211 | in every later state of any replication run no apply request under a replaced fence is accepted |
| Checkpoint.AdvanceIffCurrent | crates/target-cloudberry/src/checkpoint.rs:226-317 | an advance is accepted if and only if the fence is the stored one and identity and position do not regress; it writes one row |
| Checkpoint.TakenExactly | crates/target-cloudberry/src/checkpoint.rs:128-157 | a fence is taken if and only if it is well formed and neither component shrinks; then it alone locks the pipeline |
| Checkpoint.AdvancedIsReached | crates/target-cloudberry/src/checkpoint.rs:226-317 | a position once advanced to counts as reached after every run |
| Replication.EveryRunAppliesOnce | crates/engine/src/pipeline.rs:105-214 | in every reachable state, whatever is cancelled, crashes or changes owner, the tables are the snapshot plus exactly the transactions up to the stored checkpoint, each once, and no report passes it |
| Replication.ActKeepsInv | crates/target-cloudberry/src/apply.rs:144-211 | each action keeps the invariant, and only a committed batch changes how much is applied |
| Replication.SnapshotIsStart | crates/engine/src/runtime/job.rs:453-477 | the state the snapshot leaves behind satisfies the invariant with nothing applied |
| Replication.AcknowledgementNeverRefused | crates/engine/src/adapters/pgoutput.rs:114-193 | an applied batch is always acknowledged, an idle worker always accepts the next transaction, and the source is never ahead of the target |
| Replication.CommitPossibleExactly | crates/target-cloudberry/src/apply.rs:144-211 | in reachable states the owner's batch commits if and only if fence and configuration are well formed, no barrier is in scope, and no relation in it is unsupported or has an update landing on another row's batch-start key |
| ReplicationBlocked.BlockedForGood | crates/engine/src/pipeline.rs:105-214 | once the next transaction cannot be applied alone, no run gets past it: tables and position stay |
| ReplicationBlocked.ValidSourceBlocks | crates/engine/src/adapters/cloudberry.rs:209-221 | a source in order, with valid changes only, whose first transaction blocks |
| Replication.BarrierStopsBeforeItsBatch | crates/engine/src/adapters/cloudberry.rs:186-275 | a schema barrier stops the owner with the checkpoint exactly at the last transaction before the barrier's batch |
| Leases.LeaseStore.TryAcquireLease | crates/metadata/src/store.rs:449-473 | the row is inserted or taken over with the next token exactly when it is free, expired or one's own |
| Leases.LeaseStore.RenewLease | crates/metadata/src/store.rs:475-499 | only an unexpired lease of the same holder and token is extended, and the token stays |
| Leases.LeaseStore.ReleaseLease | crates/metadata/src/store.rs:501-517 | only the same holder and token expires the row; the row and its token stay |
| Leases.LeaseDeadlineGuard.Rearm | crates/engine/src/runtime/reconciler.rs:177-183 | an expired guard is never revived, and a late answer is reported |
| Leases.NeverTwoAtWork | crates/engine/src/runtime/reconciler.rs:147-228 | in every run, with requests answered late or never, two holders never both have an unexpired deadline and a job, and the deadline precedes the store's expiry |
| Leases.TokensStrictlyIncrease | crates/metadata/src/store.rs:449-517 | tokens issued strictly increase over acquire, renew, expire, release and take-over |
| LeaseProgress.FreeLeaseIsTaken | crates/metadata/src/store.rs:449-473 | whatever others do meanwhile, a request gets the lease if and only if the row is missing, expired or its own when executed, with a token above all issued, and holds it if answered in time; a late grant is given back |
| LeaseProgress.LeaseStartsJob | crates/engine/src/runtime/reconciler.rs:428-560 | with a lease and time left the job starts, under that token and deadline |
| LeaseProgress.LeaseIsRenewed | crates/metadata/src/store.rs:475-499 | a renewal executed and answered before the deadline moves the deadline and the job goes on, unless a later token of the holder itself came first |
| LeaseProgress.ReleaseFrees | crates/metadata/src/store.rs:501-517 | a matching release frees the lease for everyone at once and keeps its token |
| Leases.RunsKeepInv | crates/engine/src/runtime/reconciler.rs:340-427 | every run of the lease machine keeps its invariant |
| Supervisor.PipelineSupervisor.Start | crates/engine/src/supervisor.rs:67-108 | a start is refused exactly while an unfinished task is registered; a finished one is reaped first |
| Supervisor.PipelineSupervisor.StopWithTimeout | crates/engine/src/supervisor.rs:158-189 | on return the task has ended, by itself, with its own result, or aborted, with a timeout, and is no longer registered |
| Supervisor.PipelineSupervisor.ReapFinished | crates/engine/src/supervisor.rs:219-242 | exactly the ended tasks are taken out |
| Supervisor.OneUnfinishedTask | crates/engine/src/supervisor.rs:46-108 | in every run a pipeline has at most one unfinished task, and a finished task stays finished |
| Supervisor.StartLeavesOneRunning | crates/engine/src/supervisor.rs:67-108 | after a start, at any point of any run, the pipeline has a registered task that runs |
| Supervisor.StopLeavesNothingRunning | crates/engine/src/supervisor.rs:155-189 | after a stop, at any point of any run, nothing of the pipeline runs |
| Lsn.PrintedReadsBack | crates/core/src/lsn.rs:29-51 | every 64-bit position reads back from its printed forms |
| Lsn.PrintedOrder | crates/core/src/lsn.rs:29-51 | comparing the printed words as numbers compares the positions |
| Lsn.ParsedExactly | crates/core/src/lsn.rs:35-51 | a text is a position if and only if it is two 32-bit hexadecimal words around its first slash, the second of at most eight characters |
| Framing.DigestRows | crates/engine/src/reconcile.rs:67-94 | the nested loops feed exactly the specified bytes |
| Framing.ChunkBytesDetermineRows | crates/engine/src/reconcile.rs:67-94 | the bytes hashed for a chunk determine its rows: number, boundaries, keys and values |
| EnumEvolution.Plan | crates/target-cloudberry/src/snapshot.rs:978-1035 | the search and insertion loops compute the specified plan |
| EnumEvolution.PlanReachesDesired | crates/target-cloudberry/src/snapshot.rs:978-1035 | for duplicate-free lists a plan exists if and only if the existing labels are a subsequence of the desired or a renaming to fresh labels; each step is legal and all reach the desired list |
| Sorting.SortSorts | crates/target-cloudberry/src/snapshot/manifest.rs:165-205 | sorting gives an ordered rearrangement |
| Manifest.CanonicalRequest | crates/target-cloudberry/src/snapshot/manifest.rs:160-215 | sorting copies, comparing neighbours and filling sets computes the canonical request or the first error |
| Manifest.UniqueIdentities | crates/target-cloudberry/src/snapshot/manifest.rs:175-195 | the set-filling loop accepts exactly duplicate-free names and source relations |
| Manifest.CanonicalIgnoresOrder | crates/target-cloudberry/src/snapshot/manifest.rs:160-215 | the canonical form does not depend on the order of tables and nodes |
| Manifest.CanonicalIsIdempotent | crates/target-cloudberry/src/snapshot/manifest.rs:160-215 | canonicalising again changes nothing, and keeps exactly the given tables and nodes |
| Manifest.CanonicalExactly | crates/target-cloudberry/src/snapshot/manifest.rs:160-256 | a request has a canonical form if and only if each table and position stands on its own and no two names, shadows, source tables or nodes clash, in whatever order |
| Manifest.ManifestBytesDetermine | crates/target-cloudberry/src/snapshot/manifest.rs:563-594 | the hashed bytes determine group, pipeline, generation, tables and nodes, though no count is hashed; only the token is free |
| ManifestStore.RegisteredLoadsBack | crates/target-cloudberry/src/snapshot/manifest.rs:257-478 | a registered manifest loads back as the same request, in whatever order its rows lie |
| ManifestStore.LoadedIsRegistered | crates/target-cloudberry/src/snapshot/manifest.rs:396-478 | whatever became of the rows, what loads under the registered checksum is the registered request up to the token |
| Snapshot.ClassifyAll | crates/target-cloudberry/src/snapshot/activation.rs:95-101 | classification succeeds exactly when every table classifies, and gives each table's state |
| SnapshotNames.ShadowNameTells | crates/engine/src/runtime/planning.rs:84-96 | a shadow name tells schema, pipeline, source relation and attempt |
| PrintedNames.ShortenedInjective | crates/core/src/mapping.rs:78-94 | short or shortened, two identifiers are equal only when the texts they were made from are |
| SnapshotNames.QuarantineNameTells | crates/target-cloudberry/src/snapshot/activation.rs:612-631 | a quarantine name tells the table and every hashed field of its row |
| SnapshotMoves.LegalMovesSucceed | crates/target-cloudberry/src/snapshot/activation.rs:638-701 | renames whose destinations are free or freed earlier all succeed and come to moving everything at once |
| SnapshotTarget.ClassifyTables | crates/target-cloudberry/src/snapshot/activation.rs:95-101 | the classification loop computes the specified states |
| SnapshotTarget.PreflightNames | crates/target-cloudberry/src/snapshot/activation.rs:149-182 | the preflight loop over a growing reserved set finds the specified conflict |
| SnapshotTarget.TargetTransaction.MoveTable | crates/target-cloudberry/src/snapshot/activation.rs:650-701 | one rename moves relation and metadata row together and records a quarantine, or fails as specified |
| SnapshotTarget.TargetTransaction.PromoteTables | crates/target-cloudberry/src/snapshot/activation.rs:184-232 | table by table the occupant goes to quarantine before the shadow takes its name |
| SnapshotTarget.TargetTransaction.ActivateSnapshotGroup | crates/target-cloudberry/src/snapshot/activation.rs:83-252 | the whole activation ends in the specified state, or in the specified error with nothing changed |
| SnapshotTarget.TargetTransaction.CleanupLoadingGroup | crates/target-cloudberry/src/snapshot/cleanup.rs:183-318 | all checks precede the drops; shadows and group are removed as specified |
| SnapshotTarget.TargetTransaction.CleanupStaleGroups | crates/target-cloudberry/src/snapshot/cleanup.rs:138-181 | every stale group in turn, or nothing |
| SnapshotTarget.TargetTransaction.CollectEntry | crates/target-cloudberry/src/snapshot/cleanup.rs:356-463 | one entry passes the specified checks, its table and row go and it is marked |
| SnapshotTarget.TargetTransaction.CollectQuarantined | crates/target-cloudberry/src/snapshot/cleanup.rs:327-474 | every selected entry in turn, or nothing |
| SnapshotSteps.RegisteringKeeps | crates/target-cloudberry/src/snapshot/manifest.rs:58-85 | registering, as runs do it, keeps the lifecycle invariant |
| SnapshotSteps.RegisteredExactly | crates/target-cloudberry/src/snapshot/manifest.rs:58-85 | a request is registered if and only if it is canonical, under the present fence, and not at odds with its group; a new group is loading and nothing else changes |
| SnapshotSteps.RegisteringAgain | crates/target-cloudberry/src/snapshot/manifest.rs:58-85 | registering the same group again, in any order, changes nothing |
| SnapshotSteps.LoadingKeeps | crates/target-cloudberry/src/snapshot.rs:334-370 | loading a shadow, under any fence and for any table, keeps the invariant |
| SnapshotSteps.TakingAFenceKeeps | crates/target-cloudberry/src/checkpoint.rs:128-157 | activating any fence keeps the invariant |
| SnapshotSteps.ProgressKeeps | crates/target-cloudberry/src/checkpoint.rs:226-292 | advancing a recorded position keeps the invariant |
| SnapshotRuns.LoadAcceptedExactly | crates/target-cloudberry/src/snapshot.rs:657-757 | in reachable states a load is refused if and only if something foreign stands under the target's name; a shadow left behind never blocks it |
| SnapshotClassify.ClassifyLoading | crates/target-cloudberry/src/snapshot/activation.rs:470-577 | in reachable states a table of a loading group classifies if and only if its shadow was loaded and its target is free |
| SnapshotPlan.ActivationPlanned | crates/target-cloudberry/src/snapshot/activation.rs:184-234 | in reachable states the renames of an activation are legal: no step hits an occupied name |
| SnapshotOutcome.NamesAreFree | crates/target-cloudberry/src/snapshot/activation.rs:149-182 | in reachable states no quarantine name conflicts |
| SnapshotOutcome.PreflightExactly | crates/target-cloudberry/src/snapshot/activation.rs:149-182 | quarantine names pass if and only if they differ, are not set aside, and stand for nothing |
| SnapshotOutcome.ReadyActivates | crates/target-cloudberry/src/snapshot/activation.rs:83-252 | a complete loading group at the present fence activates, into exactly the described state of relations, rows, log, group and position |
| SnapshotActivated.ActivationKeeps | crates/target-cloudberry/src/snapshot/activation.rs:83-252 | an accepted activation keeps the invariant |
| SnapshotRuns.ActivationAcceptedExactly | crates/target-cloudberry/src/snapshot/activation.rs:83-252 | in reachable states an activation is accepted if and only if it repeats what is registered under the present fence and the group is active, or fully loaded with free targets; mixed, corrupt, conflict and rename errors cannot occur |
| SnapshotRuns.ActivationOutcome | crates/target-cloudberry/src/snapshot/activation.rs:184-345 | the pipeline's active tables become exactly the group's, no relation disappears, generations under a target grow, new log entries are exactly for displaced tables |
| SnapshotRuns.RetryChangesNothing | crates/target-cloudberry/src/snapshot/activation.rs:113-133 | repeating an activation under its fence returns already-active and changes nothing |
| SnapshotCleanup.CleanupRemovesExactlyStale | crates/target-cloudberry/src/snapshot/cleanup.rs:138-318 | in reachable states cleanup succeeds and removes precisely the dominated loading groups and their shadows, in whatever order |
| SnapshotCleanup.CleanupOutcome | crates/target-cloudberry/src/snapshot/cleanup.rs:138-181 | in reachable states every loading group of the pipeline registered under another fence goes, with each of its shadows, and nothing else; what is under the fence itself stays |
| SnapshotCleanup.GroupCleansUp | crates/target-cloudberry/src/snapshot/cleanup.rs:183-318 | none of the ownership, identity and manifest checks of a dominated group can fail |
| SnapshotCollection.CollectionPurgesExactlyTheOld | crates/target-cloudberry/src/snapshot/cleanup.rs:327-474 | in reachable states collection succeeds, drops precisely the old-enough quarantined tables selected, and marks each entry once; nothing active is touched |
| SnapshotRetention.NewEntry | crates/target-cloudberry/src/snapshot/activation.rs:347-386 | every displaced table gets one entry, field for field: its row, the displacing group, the present time, and replaced exactly when its name is a target of the request |
| SnapshotRetention.DisplacedIsKept | crates/target-cloudberry/src/snapshot/cleanup.rs:327-356 | in every later state a displaced table is there with its identity until the asked time has passed since the activation |
| SnapshotRetention.PurgedExactlyWhenDue | crates/target-cloudberry/src/snapshot/cleanup.rs:327-474 | a pass with room purges an entry of its pipeline if and only if the time since it was written has reached what was asked |
| SnapshotRetention.OldestFirst | crates/target-cloudberry/src/snapshot/cleanup.rs:345-356 | a pass purges no more than it may, and nothing younger than what it leaves due |
| SnapshotOwnership.ActivationLeavesForeign | crates/target-cloudberry/src/snapshot/activation.rs:470-577 | in any state, reachable or not, an activation leaves unmanaged tables, those of other pipelines and those of newer owners as they are |
| SnapshotOwnership.ActivationLosesNothing | crates/target-cloudberry/src/snapshot/activation.rs:638-701 | in any state every relation survives an activation under some name with its identity |
| SnapshotOwnership.LoadLeavesForeign | crates/target-cloudberry/src/snapshot.rs:657-757 | in any state a load leaves all those as they are, and replaces only a shadow of its own group or of an older token |
| SnapshotOwnership.CleanupLeavesForeign | crates/target-cloudberry/src/snapshot/cleanup.rs:183-318 | in any state a cleanup leaves all those as they are |
| SnapshotOwnership.CleanedLeavesNoShadow | crates/target-cloudberry/src/snapshot/cleanup.rs:183-318 | in any state a group that is cleaned up was loading under a dominated fence and leaves no shadow behind |
| SnapshotOwnership.CollectionLeavesForeign | crates/target-cloudberry/src/snapshot/cleanup.rs:356-463 | in any state a collection leaves all those as they are |
| SnapshotCollection.EntryCollects | crates/target-cloudberry/src/snapshot/cleanup.rs:356-463 | the name-recomputation, row, identity and uniqueness checks of an unpurged entry cannot fail |
| SnapshotRuns.EveryRunKeepsTheBooks | crates/engine/src/runtime/job.rs:360-414 | after any run: rows and relations one-to-one by name and identity, every token and group fence at most the stored fence, each quarantined table exactly one unpurged entry matching field for field, at most one active group per generation |
| SnapshotRuns.StepKeeps | crates/engine/src/runtime/job.rs:360-414 | every single operation, accepted or refused, keeps the invariant |
| SnapshotResume.ResumeAcceptedExactly | crates/target-cloudberry/src/snapshot/activation.rs:394-468 | in reachable states a run that finds a position passes the resume check if and only if its tables are those of the manifest; missing, multiple, corrupt, mixed and unreached errors cannot occur |
| SnapshotResume.ResumeNeedsTheSameToken | crates/engine/src/runtime/job.rs:700-735 | a run that plans the same tables passes the resume check if and only if it holds the token of the run that registered them |
| SnapshotExample.LaterOwnerRefused | crates/engine/src/runtime/job.rs:935-1036 | one table, one complete snapshot, one change of owner: the next run is refused |

## Left out

- Replication.EveryRunAppliesOnce: one pipeline and one topology generation; a rebuild starts the next generation from a new snapshot. It lets every new owner resume, although the resume check refuses owners with another token.
- Wal.EmittedAreBrackets: starts from parsed messages; the wire parser and the conversion of timestamps are not part of this model (a timestamp outside the calendar is a parsed value that fails).
- Leases.NeverTwoAtWork: one pipeline; renewal order and back-off of several pipelines in one reconciler are not part of it.
- Pipeline.Replicate: the select loop takes its turns from a list, so scheduling, the timer's clock and telemetry are not part of it.
- Supervisor.PipelineSupervisor.StopWithTimeout: whether the task ends in time, and with which result, is a parameter; telemetry and `stop_all` are left out.
- SnapshotTarget.TargetTransaction.ActivateSnapshotGroup: the ordered query for the pipeline's other active tables is a parameter, tied to the state by a precondition.
- SnapshotRuns.EveryRunKeepsTheBooks: row locks, legacy metadata rows without an object identity, prerequisite types and the data inside shadows are left out; a load is one step.
- Bindings.NewRegistry: plans are the table layout; SQL text, quoting and staging-table DDL are left out.
- Requesting and completing a rebuild (`crates/metadata/src/store.rs` lines 342-431): one counter that grows by one; its effect here is the next generation.
- HTTP API, authentication, web interface, command line, configuration, tracing and credential encryption: plumbing around libraries.
- Catalog and Citus discovery, publication and slot inspection, WAL-retention thresholds, `PipelineMachine` and `SnapshotSlotGuard`: short branch-by-branch claims.
- Physical standby and Citus topologies: rejected at start-up; there is one source node.
