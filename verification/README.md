# Verification of the ingestion and billing core

This project models, in Dafny 4.11, the parts of the service whose correctness depends on
several functions at once, and proves what they promise over whole runs:

- the **ingestion protocol**: claim and lease of a job (`JobStore.dfy`, `Lease.dfy`), the rows
  of the database and the external vector index (`Tables.dfy`), the resumable source pipeline
  statement by statement (`Pipeline.dfy`) and over whole histories of attempts
  (`ResumedRuns.dfy`), deduplication across such histories (`BatchDedup.dfy`), the run loop with its metering (`ProcessIngestion.dfy`, `SourceRows.dfy`),
  the queue consumer and the life of a job's messages (`Delivery.dfy`), the usage roll-up
  (`Usage.dfy`) and what it amounts to over many runs (`MeteredRuns.dfy`);
- **billing** under late, replayed and reordered provider events (`Billing.dfy`) and the claim
  on a webhook id (`WebhookClaim.dfy`);
- **facts to graph**: normalisation in two phases (`Normalize.dfy`), what survives
  it in terms of the raw answers (`Survivors.dfy`), the string keys of
  deduplication and relation names (`Keys.dfy`), entity resolution and edges (`Edges.dfy`);
- **record and replay** of provider calls (`Fixtures.dfy`);
- **batched lookups** that must equal single ones (`Batching.dfy`) and exact nearest neighbours
  (`MemoryVectors.dfy`), over one port (`VectorPort.dfy`);
- **refresh-token rotation** together with the cleanup sweep (`RefreshTokens.dfy`, sections 4.1.4
  of RFC 7519 and 10.4 of RFC 6749);
- **calendar arithmetic** of relative dates (`Calendar.dfy`, section 21.4.1 of ECMA-262).

Code that updates state in place is a class whose methods are proved against functions of the
old state; what the source promises is then proved about those functions, or about a state
machine with one action per awaited effect. A database statement or transaction is one atomic
step guarded by its `WHERE`. A crash may happen between any two effects: methods choose
nondeterministically to stop, and the state machines have crash actions. Providers, clocks and
text tables (white space, case, regular expressions, similarity scores) are parameters, so the
results hold for every choice of them.

## Where the code does less than it says

Each of these is proved as an exact condition, with the failing case named:

- Deduplication reaches no further than a batch, so resuming is not quite the same as one attempt.
  The record of keys is made anew for every attempt; a key is stored once in every batch in which
  it survives. A resumed history stores what one attempt would have stored if and only if no key
  survives in two of its batches (`BatchDedup.ResumableRefinesOneShot`,
  `BatchDedup.SameCountsIffNoKeyTwice`). Two chunks with the same fact are the failing input: one
  batch of two stores it once, two batches of one store it twice (`BatchDedup.SplitStoresRepeat`).
- Metering is at most once, not exactly once. A completion or failure is counted if and only if the
  run that settled the source got to its recording call and that transaction committed; later runs
  skip the source and never make up for it (`MeteredRuns.MeteredIffItsRunCommitted`). A run that
  returns for a transient failure never gets there, nor does one that dies first; a run stopped
  between two sources does if it completed something, and otherwise loses the failures it found
  (`ProcessIngestion.World.Run`).
- The fast path's failure handler resets the job by id even when its run never won the claim;
  that hands a job another worker owns to a third one (`Lease.StrayResetSafeIffUnowned`).
- An accepted `order.paid` stores the order id as the subscription id, so a later revoke naming
  the subscription is ignored unless the ids coincide (`Billing.OrderPaidHidesRevoke`,
  `Billing.RevokeHitsLastBound`).
- The cancellation write has no guard; one in flight across a revoke reopens the door to stale
  paid orders (`Billing.CancelRaceResurrects`, `Billing.LeavesRevokedIffLifts`).
- `subscription.canceled` may move the period end back; activations never do
  (`Billing.PeriodEndMovesBackIff`).
- A webhook whose effect was taken may be dispatched again exactly when something fails after the
  effect: a later statement of its handler, the reply to a committed one, or the cache invalidation
  (`WebhookClaim.StepKeepsAppliedOnce`, `WebhookClaim.LateFailureRepeats`). A past-due event whose
  customer is bound to another organisation fails so at every delivery
  (`Billing.PastDueNeverFinishes`). An immediate repeat is harmless
  (`Billing.RedispatchIsIdempotent`); one after a recovery is not
  (`Billing.RepeatOverwritesRecovery`, with the exact condition in `Billing.RepeatChangesIff`).
- Once nobody holds the claim on an event, because its holder answered or died, no later delivery
  applies it; it then stays unapplied for ever if and only if no dispatch took effect before
  (`WebhookClaim.UnappliedForeverIffNoEffect`). A first delivery that dies right after its claim is
  the failing input (`WebhookClaim.OrphanIsReachable`).
- A source cut into fewer chunks than its checkpoint says is reported done with all its old rows in
  place (`Pipeline.Store.IngestSource`).
- A spent refresh token can be replaced again by a request that still holds it past the token's
  expiry plus the retention; a configured retention below one day counts as none
  (`RefreshTokens.LatenessForksFamily`, `RefreshTokens.RetentionIsZeroIff`).
- `last <weekday>` moves forward, to another weekday, unless the reference day is that weekday
  (`Calendar.LastDayExact`); dates in the years 0 to 99 turn into the nineteen-hundreds
  (`Calendar.DateIsoExact`, `Calendar.MonthsExact`).
- Resolving entities fails unless every name the pool does not match has a row whose database lower
  case is among the names asked for and which folds to it (`Edges.ResolveEntities`). Folding alike
  in database and program suffices; a single new name needs it (`Edges.NewNameFoundIffFolds`), in a
  larger batch another name may stand in (`Edges.DisagreeingNameFound`).
- `queryNearestBatch` sends empty vectors that the single lookup answers itself
  (`Batching.BatchIsSingleIff`, `Batching.EmptyVectorDiffers`).

## Model

| member | source | states |
|---|---|---|
| JobStore.JobTable.ClaimJob | apps/ingestion/src/job-store.ts:56-96 | the claim succeeds exactly on a pending row or a processing one whose stamp is older than the lease, and the four results tell exactly which case the row was in; no other row changes |
| JobStore.JobTable.UpdateJobStatus | apps/ingestion/src/job-store.ts:150-196 | the status write applies exactly to a pending or processing row, and re-stamps the start time when it is a heartbeat |
| JobStore.JobTable.ResetJobForRetry | apps/ingestion/src/job-store.ts:133-148 | only a processing row is reset, to pending with no start time |
| JobStore.TerminalIsAbsorbing | apps/ingestion/src/job-store.ts:176-195 | no history of claims, writes, resets and cancellations moves a completed, partial, failed or cancelled row; only the sweep removes it |
| JobStore.SettledIsStable | apps/ingestion/src/job-store.ts:176-195 | a terminal or absent job is terminal or absent after every further history |
| JobStore.ProcessingStaysStamped | apps/ingestion/src/job-store.ts:158-167 | in every history a processing row has a start time, so its lease can expire |
| Lease.ClaimStealsIffLeaseLapsed | apps/ingestion/src/job-store.ts:50-80 | while a worker is live, another claim succeeds if and only if the job is unsettled and that worker has not stamped for more than a lease |
| Lease.StepKeepsExclusive | apps/ingestion/src/process-ingestion.ts:438-468 | every action keeps exclusive ownership when workers beat and only owners reset |
| Lease.MutualExclusion | apps/ingestion/src/job-store.ts:56-96 | at every point of every run of claims, heartbeats, crashes, resets, cancellations and sweeps, the last included, there is at most one live owner and no claim succeeds beside it, given beats within the lease |
| Lease.StrayResetSafeIffUnowned | apps/ingestion/src/index.ts:159-186 | the fast path's reset keeps exclusivity if and only if nobody else owns the job; otherwise reset and next claim leave two live workers |
| Tables.DeleteEdgesKeeps | apps/ingestion/src/ingestion/pipeline.ts:382-384 | deleting the tail's edges keeps every invariant and everything below the checkpoint |
| Tables.DeleteVectorsKeeps | apps/ingestion/src/ingestion/pipeline.ts:385-393 | deleting any part of the tail's vectors keeps every invariant: no vector outlives its memory, committed memories stay indexed |
| Tables.DeleteMemoriesKeeps | apps/ingestion/src/ingestion/pipeline.ts:394-396 | once edges and vectors are gone, deleting the memories orphans nothing |
| Tables.AddChunkKeeps | apps/ingestion/src/ingestion/pipeline.ts:768-821 | adding a chunk with its memories keeps every invariant and everything kept from `from` on |
| Tables.KeptHolds | apps/ingestion/src/ingestion/pipeline.ts:353-407 | what a purge keeps includes the whole content of every other source and of every chunk below the checkpoint |
| Tables.KeptComplete | apps/ingestion/src/ingestion/pipeline.ts:353-407 | an attempt at one source leaves a completed other source complete |
| Pipeline.PlanBatch | apps/ingestion/src/ingestion/pipeline.ts:233-241 | the plan starts at the checkpoint, never exceeds the budget, uses all of it unless it finishes, and is empty only without budget or work |
| Pipeline.Store.PurgeSourceArtifacts | apps/ingestion/src/ingestion/pipeline.ts:353-407 | a purge stopped at any statement keeps every invariant and every row below the checkpoint; run to the end it leaves nothing at or above it |
| Pipeline.Store.PersistPreparedWindow | apps/ingestion/src/ingestion/pipeline.ts:757-847 | a window stopped anywhere keeps the invariants; run to the end its chunks hold exactly their facts and all are indexed |
| Pipeline.Store.PersistWindows | apps/ingestion/src/ingestion/pipeline.ts:849-879 | the windows of the plan, none longer than the concurrency, store and index the whole batch, or stop at a cancellation or a failed call |
| Pipeline.Store.CreateEdges | apps/ingestion/src/ingestion/pipeline.ts:881-949 | stage 8 adds exactly one new edge for every witness among the batch's live memories and changes nothing else |
| Pipeline.Store.Heartbeat | apps/ingestion/src/process-ingestion.ts:438-468 | a heartbeat that is due and does not fail re-stamps the row, or reports a cancellation exactly when the job is settled |
| Pipeline.Store.AdvanceCheckpoint | apps/ingestion/src/ingestion/pipeline.ts:951-965 | the checkpoint write commits the batch: stored, indexed, nothing below touched; the last batch drops the checkpoint |
| Pipeline.Store.IngestSource | apps/ingestion/src/ingestion/pipeline.ts:409-986 | every way an attempt can end leaves the store either uncommitted with all committed rows intact or committed through the plan's end, index and database in agreement at every statement; a checkpoint at or past the last chunk changes nothing and reports the source done; it throws only after a failed call, for a source over five hundred chunks, or on a cancellation |
| ResumedRuns.AttemptKeepsProgress | apps/ingestion/src/ingestion/pipeline.ts:484-519 | one attempt extends the log of committed chunks by exactly its batch, or leaves it |
| ResumedRuns.HistoryKeepsProgress | apps/ingestion/src/ingestion/pipeline.ts:484-519 | along every history the checkpoint covers exactly the committed log, and the log is a chain of whole batches, each the plan of one attempt with what it yielded |
| ResumedRuns.CompletionIsExact | apps/ingestion/src/ingestion/pipeline.ts:353-407 | when a source completes after any crashes, retries and budgets, it has one row per chunk that yielded facts, with exactly the facts of one attempt, the chunks of a batch all from the same one, all indexed, and nothing else |
| ResumedRuns.Uninterrupted | apps/ingestion/src/ingestion/pipeline.ts:484-519 | an attempt that nothing interrupts commits its batch on any store without rows past the checkpoint, so the histories spoken of exist |
| BatchDedup.KeptInOneChunk | apps/ingestion/src/ingestion/pipeline.ts:521-524 | in whatever order its chunks reach the record, a batch keeps each key that survives in it in exactly one chunk, and no other key |
| BatchDedup.NormalizeBatch | apps/ingestion/src/ingestion/pipeline.ts:672-735 | the chunks of a batch, run through one record that starts empty, yield what the specification gives each of them at its place in the order |
| BatchDedup.KeysStoredPerBatch | apps/ingestion/src/ingestion/pipeline.ts:484-524 | at completion, with any budgets, crashes, finishing orders and answers of the model at each attempt, each committed batch has exactly one row under every key that survives in it; a source has as many rows under a key as batches in which it survives |
| BatchDedup.SameCountsIffNoKeyTwice | apps/ingestion/src/ingestion/pipeline.ts:484-524 | with the same answers at every attempt and chunks finishing in any order, a resumed history loses no key against one uninterrupted attempt, and stores none more often if and only if no key survives in two of its batches |
| BatchDedup.ResumableRefinesOneShot | apps/ingestion/src/ingestion/pipeline.ts:484-524 | with chunks finishing in order, the resumed history has as many rows of every content in every chunk as the one attempt if and only if no key survives in two of its batches |
| BatchDedup.SplitStoresRepeat | apps/ingestion/src/ingestion/pipeline.ts:521-524 | the failing input: of two chunks with the same fact one attempt stores one row, two attempts of one chunk each store two |
| BatchDedup.SplitIsReachable | apps/ingestion/src/ingestion/pipeline.ts:484-524 | for any two chunks there is such a history of two attempts |
| BatchDedup.OneShotIsReachable | apps/ingestion/src/ingestion/pipeline.ts:484-524 | for any two chunks there is such an uninterrupted attempt |
| ResumedRuns.PlansTile | apps/ingestion/src/ingestion/pipeline.ts:233-241 | successive batches cover each chunk from the checkpoint to the last end exactly once, and reach the end exactly when the budgets suffice |
| ProcessIngestion.World.ShouldStop | apps/ingestion/src/process-ingestion.ts:288-303 | the run stops if and only if the check succeeded and found the job cancelled or the space tombstoned; a failed check lets it go on |
| ProcessIngestion.World.MarkSource | apps/ingestion/src/source-status.ts:34-72 | a status write touches the source only inside the message's scope, and completed is written only for a source stored whole |
| ProcessIngestion.World.MarkUnprocessedSourcesCancelled | apps/ingestion/src/source-status.ts:74-95 | exactly the listed, in-scope, unsettled sources become failed; others keep their status |
| ProcessIngestion.World.IngestWithRetries | apps/ingestion/src/process-ingestion.ts:470-525 | at most three attempts, each with answers of its own, every one but the last ended by a retryable failure, and a retryable failure is final only after three; they keep every source's progress, stay inside the budget, and a finished source is stored whole |
| ProcessIngestion.World.ProcessSource | apps/ingestion/src/process-ingestion.ts:389-617 | one turn changes only its source, reports at most the budget, lowers the remaining chunks by what it reports, and judges the source by its attempts: finished, cancelled, three retryable failures, or a permanent one; it dies or fails only after a failed call or for an oversized source |
| ProcessIngestion.World.SourceLoop | apps/ingestion/src/process-ingestion.ts:305-617 | the loop reports at most eight chunks, ends on the list, the budget or a stop, its bookkeeping is right about every passed source, and its completed list is exactly the sources it completed |
| ProcessIngestion.World.Run | apps/ingestion/src/process-ingestion.ts:194-775 | whatever the providers yield at each attempt, each of the six outcomes says truthfully what became of the job row; at most eight chunks, exactly eight on a requeue; an applied roll-up lists exactly the failed sources and leaves the job completed if and only if none failed, failed if and only if all of a non-empty list did, and partial otherwise; remaining work drops by at least the chunks reported; only listed sources change status; however it ends, deaths included, the run counts exactly what it completed and gave up on if its recording committed and nothing otherwise, and it says which endings get to record. It retries only after a transient failure, rolls up only when every listed source has had its turn, and reports the chunks of its turns; without a failed call it neither dies nor retries, and what it gets to record commits |
| ProcessIngestion.FailedOfCounts | apps/ingestion/src/process-ingestion.ts:699-711 | the failed ids are none, or as many as the listed ones, exactly when no listed source or every one of them is failed |
| ProcessIngestion.World.Halt | apps/ingestion/src/process-ingestion.ts:309-385 | a run stopped between two sources, transient failures or not, gets to record exactly when it completed something, and settling the rest completes nothing, and without a failed call leaves no listed source of the tenant waiting |
| ProcessIngestion.World.Conclude | apps/ingestion/src/process-ingestion.ts:655-775 | at the end of the budget or of the list the run gets to record exactly when it completed or failed something, before it hands the job back or writes the roll-up |
| ProcessIngestion.World.MeterRun | apps/ingestion/src/process-ingestion.ts:664-678 | recording counts exactly what the run completed and gave up on if it commits, keeps every counter row balanced, and leaves statuses, remaining work and failures as they were |
| ProcessIngestion.RecordHasEffect | apps/ingestion/src/process-ingestion.ts:325-340 | a roll-up of the two lists counts exactly the sources newly completed and given up on since the run began, out-of-scope ones excepted |
| ProcessIngestion.TrackedNext | apps/ingestion/src/process-ingestion.ts:527-617 | after each turn the two lists are exactly the in-scope sources completed and given up on since the run began |
| ProcessIngestion.FailedOfSame | apps/ingestion/src/process-ingestion.ts:403-410 | failed ids listed from the rows are unaffected by later turns on other sources |
| ProcessIngestion.PassedNext | apps/ingestion/src/process-ingestion.ts:527-617 | a settled, completed or permanently failed source joins the passed ones with its failure listed exactly when its row is failed |
| ProcessIngestion.AttemptLeavesOther | apps/ingestion/src/process-ingestion.ts:470-525 | an attempt at one source leaves the progress and completeness of every other source |
| ProcessIngestion.AttemptKeepsSourceOk | apps/ingestion/src/process-ingestion.ts:470-525 | an attempt keeps its own source's progress, whatever this and earlier attempts yielded, and completes it when nothing remains |
| ProcessIngestion.TotalLeftBound | apps/ingestion/src/constants.ts:94-101 | no job has more than five hundred chunks left per listed source |
| Delivery.HandleIngestionDelivery | apps/ingestion/src/queue-consumer.ts:162-277 | at every exit, crashes included, the job is settled, its space gone, the message still queued, or a continuation with the next count queued; a processed, terminal or missing job is never retried, one in flight or failed transiently never acknowledged, and a run out of budget is acknowledged only after its continuation is published, which only a missing producer, no progress, the 800th continuation or a failed publish prevents; no other message is touched |
| Delivery.NoLostJob | apps/ingestion/src/queue-consumer.ts:55-155 | in every reachable state the job is settled or absent, its space tombstoned, a copy unacknowledged, or a copy dead-lettered |
| Delivery.StepKeepsDurable | apps/ingestion/src/queue-consumer.ts:55-155 | publish before ack: no step of any consumer, direct run, cancellation or crash breaks durability |
| Delivery.ContinuationsAreBounded | apps/ingestion/src/queue-consumer.ts:66-75 | without redone work a published count k has 8k chunks behind it and is at most 625, and neither refusal applies to a run that ran out of budget |
| Usage.UsageDb.RecordIngestionUsage | packages/db/src/usage-rollup.ts:30-149 | the transaction, loop by loop, posts exactly the sources not yet counted, their tokens and types, and flags them |
| Usage.UsageDb.Collect | packages/db/src/usage-rollup.ts:47-72 | one pass over possibly repeated ids collects each countable source once, with its tokens and content types |
| Usage.SearchConserves | packages/db/src/usage-rollup.ts:11-28 | recording searches, a non-positive number included, keeps every counter row equal to what was counted on it |
| Usage.SearchesAddUp | packages/db/src/usage-rollup.ts:16-27 | over every history the search counter of a row grows by exactly the positive numbers of queries recorded on it |
| Usage.BareTokensAddUp | packages/db/src/usage-rollup.ts:81-83 | over every history the tokens counted without a source are exactly those of the calls that name none |
| Usage.RecordCounts | packages/db/src/usage-rollup.ts:47-72 | one roll-up counts exactly the requested completions and failures of its tenant not counted yet, on its own row, moves none already counted, and changes nothing but flags |
| Usage.StatusOnlyConserves | packages/db/src/usage-rollup.ts:60-69 | status writes made between roll-ups keep every counter row equal to what was counted on it |
| Usage.RecordConserves | packages/db/src/usage-rollup.ts:39-147 | one roll-up keeps every counter row equal to what was counted on it |
| Usage.MeteringConserves | packages/db/src/usage-rollup.ts:39-147 | over every history of roll-ups with overlapping or repeated ids, searches and status changes, token, source, failure and type counts equal the sums over the sources flagged, each counted at most once and for ever on one row |
| Usage.TypeCountsAddUp | packages/db/src/usage-rollup.ts:98-121 | the content-type counts of a row add up to its ingested sources |
| Usage.FreshLedgerConserved | packages/db/src/usage-rollup.ts:60-69 | a ledger with cleared flags starts out conserved |
| MeteredRuns.MeteredIffItsRunCommitted | apps/ingestion/src/process-ingestion.ts:309-743 | over every history of the runs that list a source, with other jobs running beside them and the row changed from outside in between, a settled source entered its status once, and is counted as completed if and only if that run's recording committed, as failed if and only if moreover that run gave up on it |
| MeteredRuns.RunsFollow | apps/ingestion/src/process-ingestion.ts:194-775 | a run has this effect on every listed source and none on any other |
| MeteredRuns.CountedStays | packages/db/src/usage-rollup.ts:60-69 | a source counted by one run stays counted on the same row through all later runs |
| Billing.BillingDb.DispatchActive | apps/api/src/features/billing/webhooks.ts:189-278 | patch and guards applied step by step give the guarded activation on the row as it was; a failure leaves the row as it was or fully activated, an accepted customer bound elsewhere always fails, and customers stay unique |
| Billing.BillingDb.DispatchEvent | apps/api/src/features/billing/webhooks.ts:295-387 | a dispatch that returns changed one organisation by the effect of its kind and scope; one that throws left the row untouched, with its first statement only, or with all of it; past-due and canceled events whose customer is bound elsewhere always throw; customers stay unique; it throws only after a failed statement or for a customer bound elsewhere |
| Billing.BillingDb.ReconcileExpiredSubscriptions | apps/api/src/features/billing/reconcile.ts:10-34 | exactly the past-due and canceled organisations whose period ended more than the grace period ago change, each to free and revoked; none is left past it; the answer is how many changed, and zero exactly when nothing did |
| Billing.BillingDb.ClearAbandonedCheckouts | apps/api/src/features/billing/reconcile.ts:47-62 | no reader sees a difference from the sweep on; no pending plan without a deadline or past it remains; the answer is how many organisations changed, and zero exactly when none did |
| Billing.BillingDb.CancelSubscription | apps/api/src/features/billing/service.ts:283-303 | refusals change nothing; an accepted cancellation overwrites the status of whatever the row has become meanwhile |
| Billing.BillingDb.CreateCheckoutSession | apps/api/src/features/billing/service.ts:187-258 | refused exactly for a live subscription; otherwise the pending plan is visible until the provider's deadline, or for an hour |
| Billing.BillingInvariant | apps/api/src/features/billing/webhooks.ts:220-277 | in every run revoked means free with no subscription and no period, a paid plan has a live status, and the checkout guard is "no subscription id on file" |
| Billing.ActivationMeans | apps/api/src/features/billing/webhooks.ts:189-277 | an activating event is refused exactly without a known product, for a revoked organisation without a future period end, or when the stored period is longer; otherwise the row says field by field what the event says |
| Billing.OtherEventsMean | apps/api/src/features/billing/webhooks.ts:295-387 | every other event field by field: which subscription it must name, what it changes, and when it binds a customer |
| Billing.LeavesRevokedIffLifts | apps/api/src/features/billing/webhooks.ts:256-264 | the exact steps that take an organisation out of revoked, and the exact ones that give a plan back |
| Billing.RevokedStaysRevoked | apps/api/src/features/billing/webhooks.ts:238-264 | any sequence of id-bearing events without a future period end leaves a revoked organisation free and revoked, when no cancellation is in flight |
| Billing.CancelRaceResurrects | apps/api/src/features/billing/service.ts:295-302 | a cancellation in flight across a revoke lets a stale paid order restore the plan |
| Billing.PeriodEndMovesBackIff | apps/api/src/features/billing/webhooks.ts:266-275 | the exact steps that move the period end back, and the exact ones that drop it |
| Billing.ActivationsNeverMoveBack | apps/api/src/features/billing/webhooks.ts:252-275 | over any run of late or replayed activations the period end never goes back |
| Billing.SupersededEventsIgnored | apps/api/src/features/billing/webhooks.ts:313-326 | any run of events naming a superseded subscription changes nothing but an unset customer |
| Billing.OrderPaidHidesRevoke | apps/api/src/features/billing/webhooks.ts:208-227 | after an accepted order.paid, the revoke of its subscription takes effect if and only if order and subscription id coincide |
| Billing.RevokeHitsLastBound | apps/api/src/features/billing/webhooks.ts:208-227 | over every run, a revoke that names a subscription takes effect if and only if its id is the object id of the last accepted id-bearing activation that nothing ended since |
| Billing.RedispatchIsIdempotent | apps/api/src/features/billing/webhooks.ts:329-387 | dispatching an event again, after a full dispatch or one that stopped half way, leaves what one full dispatch leaves |
| Billing.PastDueNeverFinishes | apps/api/src/features/billing/webhooks.ts:329-336 | a past-due event whose customer belongs to another organisation takes effect and then fails, now and at every repeat |
| Billing.RepeatOverwritesRecovery | apps/api/src/features/billing/webhooks.ts:329-336 | repeated after an activation that recovered the subscription, a past-due event marks it past due again |
| Billing.RepeatChangesIff | apps/api/src/features/billing/webhooks.ts:189-387 | dispatching an event again, whatever happened since, changes the row if and only if the row lets it in and differs from what it says in plan, status, subscription, period, pending checkout or an unset customer |
| Billing.SweepIsInvisible | apps/api/src/features/billing/service.ts:93-97 | the checkout sweep never changes what a reader sees from then on and leaves no deadline in the past |
| WebhookClaim.AtMostOneInFlight | apps/api/src/features/billing/webhooks.ts:437-453 | in every interleaving of deliveries of one id at most one dispatch is in flight |
| WebhookClaim.AppliedAtMostOnce | apps/api/src/features/billing/webhooks.ts:437-469 | over every interleaving in which nothing fails after an effect, an event takes effect at most once |
| WebhookClaim.StepKeepsAppliedOnce | apps/api/src/features/billing/webhooks.ts:437-469 | a step keeps "applied at most once and not about to be again" if and only if it is not a failure after an effect |
| WebhookClaim.RepeatsArePaidFor | apps/api/src/features/billing/webhooks.ts:455-467 | an event takes effect at most once more than there were failures after an effect, in its handler or in the cache invalidation |
| WebhookClaim.LateFailureRepeats | apps/api/src/features/billing/webhooks.ts:455-467 | after either kind of failure that follows an effect the next delivery applies the event again |
| WebhookClaim.DeathClosesIffHolding | apps/api/src/features/billing/webhooks.ts:442-453 | the death of a delivery leaves the event processed with nobody at work on it if and only if that delivery held the claim |
| WebhookClaim.UnappliedForeverIffNoEffect | apps/api/src/features/billing/webhooks.ts:437-469 | an event whose claim nobody holds any more is never applied later, and stays unapplied for ever if and only if no dispatch took effect before |
| WebhookClaim.OrphanIsReachable | apps/api/src/features/billing/webhooks.ts:442-453 | the failing input: a first delivery that dies after its claim leaves the event unapplied for good; one that dies after its effect leaves it applied |
| Keys.FactKeyInjective | apps/ingestion/src/extractors/normalize.ts:318-328 | two facts share a joined key if and only if they share all four fields, whatever bars the content holds |
| Keys.EdgeKeyInjective | apps/ingestion/src/ingestion/edges.ts:64-66 | two edges share a joined key if and only if they share the triple, whatever bars the relation holds |
| Keys.RelationNameCanonical | apps/ingestion/src/extractors/normalize.ts:65-75 | canonical names hold no white space, hyphen or double underscore, and canonicalising is idempotent |
| Keys.RelationNameInOnePass | apps/ingestion/src/extractors/normalize.ts:65-75 | the chain of passes equals one pass over the trimmed name, white space and hyphens to underscores and the rest to upper case, with each run of underscores read as one |
| Keys.CollapseRun | apps/ingestion/src/extractors/normalize.ts:65-75 | a run of underscores collapses like a single one |
| Keys.UnchangedIffCanonical | apps/ingestion/src/extractors/normalize.ts:65-75 | a name is left alone exactly when it is canonical already |
| Normalize.SplitEqualsFused | apps/ingestion/src/extractors/normalize.ts:284-378 | attaching the graph to base facts, even with event times filled in between, gives the facts of the one-pass form in the same order |
| Normalize.EveryMemoryAccounted | apps/ingestion/src/extractors/normalize.ts:309-332 | every raw memory becomes one fact or one drop reason |
| Normalize.SurvivorsDistinct | apps/ingestion/src/extractors/normalize.ts:318-329 | survivors have fresh, pairwise different keys, and exactly those join the record |
| Survivors.BaseSelects | apps/ingestion/src/extractors/normalize.ts:309-332 | the base facts are, in order, made of exactly the memories that pass the literal filters and whose key neither the record nor an earlier one has, with their own content, type, score, role and date |
| Survivors.JudgeReasons | apps/ingestion/src/extractors/normalize.ts:196-234 | a memory is kept exactly when it passes the four filters, and the first that fails names the reason |
| Survivors.RelationsSelect | apps/ingestion/src/extractors/normalize.ts:162-190 | the relations are, in order, exactly the raw ones that pass the four filters, each from the raw subject to the raw object, with the raw confidence and the stated date or else the fallback |
| Survivors.EntitiesSelect | apps/ingestion/src/extractors/normalize.ts:129-155 | the entities are, in order, exactly the first of every name, with their trimmed type or else the default |
| Survivors.BackfilledAdds | apps/ingestion/src/extractors/normalize.ts:246-258 | backfilling adds nothing but stubs of at most five words for mentioned names nobody had |
| Survivors.MentionsAre | apps/ingestion/src/extractors/normalize.ts:246-258 | the mentioned names are exactly the two ends of the relations |
| Survivors.FirstGraphIs | apps/ingestion/src/extractors/normalize.ts:341-356 | a memory gets the first graph result in range that carries its index |
| Survivors.NoGraphOutside | apps/ingestion/src/extractors/normalize.ts:341-349 | a graph result out of range belongs to no memory |
| Survivors.FactsSelect | apps/ingestion/src/ingestion/pipeline.ts:672-735 | a chunk's facts are, in order, one for each surviving memory, with its own fields, its stated date or else the inferred one, and the relations and entities of its first graph result |
| Normalize.SharedRecordDistinct | apps/ingestion/src/extractors/normalize.ts:275-277 | no fact recurs over the chunks of one batch, which share a record |
| Normalize.KeyIsTuple | apps/ingestion/src/extractors/normalize.ts:318-323 | two valid facts share a key exactly when content, type, role and time agree |
| Normalize.EndpointsAreEntities | apps/ingestion/src/extractors/normalize.ts:366-375 | every endpoint of a fact's relations is among its entities unless it has more than five words, and entity names are distinct |
| Normalize.RelationsAreSound | apps/ingestion/src/extractors/normalize.ts:162-190 | kept relations have non-empty, different ends, a canonical name and a confidence of at least 0.7 |
| Normalize.NormalizeBaseFacts | apps/ingestion/src/extractors/normalize.ts:309-332 | the loop with its counter and shared key set computes the first phase and bumps exactly one reason per dropped memory |
| Normalize.NormalizeEntities | apps/ingestion/src/extractors/normalize.ts:129-155 | the loop keeps the first entity of every name and counts every other one |
| Normalize.IndexGraphs | apps/ingestion/src/extractors/normalize.ts:341-356 | the first in-range result per memory wins and every other result is one drop |
| Normalize.AttachGraphToFacts | apps/ingestion/src/extractors/normalize.ts:335-378 | the nested loops compute the second phase |
| Normalize.NormalizeChunk | apps/ingestion/src/ingestion/pipeline.ts:672-735 | the two phases with the temporal fallback between them give the filled facts of the one-pass form |
| Edges.CollectUniqueEntities | apps/ingestion/src/ingestion/pipeline.ts:1012-1022 | the nested loops keep the first entity of every folded name over all facts |
| Edges.UniqueKeepsNames | apps/ingestion/src/ingestion/pipeline.ts:1012-1022 | collecting loses no folded name and repeats none |
| Edges.UniqueSelects | apps/ingestion/src/ingestion/pipeline.ts:1012-1022 | collecting keeps, in order, exactly the first entity of every name in lower case and normal white space |
| Edges.FuzzyResolve | apps/ingestion/src/extractors/resolve-entity.ts:107-132 | a match is the only exact one, or with no exact one the first best score of at least ninety for a name of three characters or more; none is missed |
| Edges.EntityTable.InsertOrIgnore | apps/ingestion/src/extractors/resolve-entity.ts:247-257 | the insert keeps lower-cased names unique and afterwards the name has a row |
| Edges.ResolveEntities | apps/ingestion/src/extractors/resolve-entity.ts:189-306 | with other sources inserting meanwhile, resolution succeeds if and only if every name the pool does not match has a row, old or new, whose database lower case is among the folded names asked for and which folds to it; then every entity has its match in the pool or without one such a row, and is new exactly when its row is; folding alike in database and program suffices |
| Edges.NewNameFoundIffFolds | apps/ingestion/src/extractors/resolve-entity.ts:258-277 | the failing input: a batch of one name new to the space succeeds if and only if database and program fold it alike |
| Edges.DisagreeingNameFound | apps/ingestion/src/extractors/resolve-entity.ts:258-277 | in a larger batch a name both sides fold differently is still found when another name of the batch asks for its row |
| Edges.FoldingSuffices | apps/ingestion/src/extractors/resolve-entity.ts:247-277 | when both sides fold the table and the batch alike, every name of the batch is found |
| Edges.BuildNameToIdMap | apps/ingestion/src/extractors/resolve-entity.ts:308-316 | the map covers exactly the resolved names and gives each its last id |
| Edges.CreateEdgesFromFacts | apps/ingestion/src/ingestion/edges.ts:31-95 | the nested loops with their joined-key set insert exactly the specified rows |
| Edges.EdgesAreExact | apps/ingestion/src/ingestion/edges.ts:57-83 | the rows are exactly the distinct triples asked for, without self-loops, each with the memory, confidence and date of the first relation that asked |
| Edges.RelationsReachGraph | apps/ingestion/src/ingestion/edges.ts:57-83 | every relation has an edge with its triple unless its ends share an id or an end of more than five words is no fact's entity |
| Edges.ChunkListsEndpoints | apps/ingestion/src/extractors/normalize.ts:366-375 | every fact that leaves the normalisation of a chunk, temporal fallback included, has its endpoints among its entities or longer than five words |
| Edges.LinkFacts | apps/ingestion/src/ingestion/pipeline.ts:887-945 | the whole stage: the id map covers exactly the facts' folded names, its ids are rows, the edges are those of the map, no edge is invented, and every relation of a normalised fact has its edge or one of the two excuses |
| Fixtures.Replay | packages/test-support/src/fixtures.ts:235-342 | replay answers each request from the entry of its own key, fails exactly on a missing key, and changes no entry |
| Fixtures.Hybrid | packages/test-support/src/fixtures.ts:359-441 | a hybrid call records exactly the missing keys, overwrites none, answers what replay would answer afterwards, and reports a miss exactly when a key was missing |
| Fixtures.PassReplays | packages/test-support/src/fixtures.ts:344-357 | whatever a hybrid pass answered, replay of its final store answers the same |
| Fixtures.MissFreePassIsClosed | packages/test-support/src/fixtures.ts:344-357 | a miss-free pass leaves the store unchanged and every replay repeats it, never missing a key |
| Fixtures.NextPassRepeats | packages/test-support/src/fixtures.ts:344-357 | the pass after any finished hybrid pass is miss-free and repeats it call by call |
| Fixtures.Capture | apps/api/scripts/capture-pipeline-fixtures.ts:111-160 | for every deterministic sequential client the loop stops within two passes, is never rejected, and leaves a store that replays the client |
| Fixtures.NoCollisionIffNeverOverwritten | packages/test-support/src/fixtures.ts:109-125 | for overlapping calls too, the collision list is unchanged if and only if no served response was ever replaced |
| Batching.AboveFloorSelects | packages/vector/src/qdrant.ts:114-124 | the floor keeps exactly the matches that score at or above it, each once, in the order of the response |
| Batching.QueryNearestMany | packages/vector/src/qdrant.ts:168-228 | the batch equals the single lookups, search by search |
| Batching.ScatterResults | packages/vector/src/qdrant.ts:216-222 | results go back to the searches they belong to, and a short answer reads as no matches |
| Batching.QueryNearestBatch | packages/vector/src/qdrant.ts:127-166 | one entry per vector; every non-empty vector gets its single lookup, and an empty one the filtered answer to a search that is sent all the same |
| Batching.BatchIsSingleIff | packages/vector/src/qdrant.ts:127-166 | an entry equals the single lookup on every backend if and only if its vector is non-empty or the limit is not positive |
| Batching.EmptyVectorDiffers | packages/vector/src/qdrant.ts:127-166 | the failing input: an empty vector with a positive limit, on a backend that answers it |
| Batching.FilterResults | packages/vector/src/qdrant.ts:157-165 | a response of any number of lists is filtered list by list, in place and in order |
| Batching.PrepareExistingMemoryHints | apps/ingestion/src/ingestion/pipeline.ts:256-337 | every chunk gets an entry, its own lookup exactly when its batch or half succeeded, and the empty list otherwise |
| Batching.LookUpBatch | apps/ingestion/src/ingestion/pipeline.ts:270-319 | the batched lookup with one hydration equals the per-chunk lookups |
| Batching.ContentsSelect | apps/ingestion/src/ingestion/pipeline.ts:303-318 | hydration gives, in order, the contents of exactly the ids that are still known |
| MemoryVectors.MemoryVectorStore.QueryNearest | packages/test-support/src/memory-vector-store.ts:63-84 | the answer is the exact top K of the scope by score and id |
| MemoryVectors.TopKUnique | packages/test-support/src/memory-vector-store.ts:80-83 | there is exactly one such answer |
| MemoryVectors.MemoryVectorStore.Upsert | packages/test-support/src/memory-vector-store.ts:55-61 | the loop stores every item under its id, the last one of an id winning |
| MemoryVectors.DeleteUndoesUpsert | packages/test-support/src/memory-vector-store.ts:99-102 | deleting what was upserted restores every other id |
| MemoryVectors.MemoryVectorStore.DeleteByIds | packages/test-support/src/memory-vector-store.ts:99-102 | the loop removes exactly the listed ids from its collection and touches no other |
| MemoryVectors.ListRestores | packages/test-support/src/memory-vector-store.ts:104-118 | a collection is restored from its list in whatever order it was listed |
| MemoryVectors.RoundTrip | packages/test-support/src/memory-vector-store.ts:104-118 | the JSON form restores the whole store |
| RefreshTokens.RevokedTokens.RevokeRefreshTokenIfActive | apps/api/src/features/auth/refresh-tokens.ts:45-59 | one check-and-set: true exactly for the caller that did the revoking |
| RefreshTokens.RevokedTokens.CleanupExpiredRows | apps/api/src/features/maintenance/cleanup.ts:121-139 | every row whose token or revocation is not over yet stays, no row is altered, and the answer is how many went |
| RefreshTokens.SweptOnce | apps/api/src/features/maintenance/cleanup.ts:121-139 | a second sweep with the same cutoff finds nothing |
| RefreshTokens.Refresh | apps/api/src/features/auth/routes.ts:400-469 | a new pair is minted exactly when the token was live at the check, the user active, and this very call did the revoking |
| RefreshTokens.LogOut | apps/api/src/features/auth/routes.ts:490-505 | after logout a live token is on record; an expired one changes nothing |
| RefreshTokens.SweepIsInvisible | apps/api/src/features/maintenance/cleanup.ts:121-139 | the sweep changes the standing of no token that could still be presented |
| RefreshTokens.SingleUse | apps/api/src/features/auth/routes.ts:420-455 | over every interleaving of refreshes, logouts, crashes and sweeps no token has two successors, provided each request revokes its token before the token's expiry plus the retention has passed |
| RefreshTokens.LatenessForksFamily | apps/api/src/features/auth/routes.ts:420-455 | that deadline is exact: of two requests holding a token, one revokes it in time and one a millisecond past the deadline replaces it again |
| RefreshTokens.RetentionIsZeroIff | apps/api/src/features/maintenance/cleanup.ts:55-60 | a configured retention strictly between zero and one day is cut to none |
| RefreshTokens.CleanupIsSweep | apps/api/src/features/maintenance/cleanup.ts:55-64 | the cleanup with a configured retention, or thirty days without one, is the sweep of the interleavings above with that retention |
| Calendar.CivilOf | apps/ingestion/src/extractors/temporal.ts:33-41 | every day number has a valid date with that number, leap years included |
| Calendar.CivilRoundTrip | apps/ingestion/src/extractors/temporal.ts:33-41 | every valid date comes back from its day number |
| Calendar.EpochIsDayZero | apps/ingestion/src/extractors/temporal.ts:33-41 | day number 0 is 1 January 1970 |
| Calendar.NextDayIsTomorrow | apps/ingestion/src/extractors/temporal.ts:33-41 | consecutive day numbers are consecutive dates, with the month lengths and leap years spelled out |
| Calendar.WeekdaysAre | apps/ingestion/src/extractors/temporal.ts:28-31 | 1 January 1970 is a Thursday, and every day is one weekday on |
| Calendar.DateIsoExact | apps/ingestion/src/extractors/temporal.ts:33-55 | the text names the day of its instant if and only if the year is not 0 to 99 |
| Calendar.TwoDigitYears | apps/ingestion/src/extractors/temporal.ts:33-55 | in the years 0 to 99 it names the same date of the nineteen-hundreds |
| Calendar.OffsetExact | apps/ingestion/src/extractors/temporal.ts:74-110 | a fixed or counted number of days is that many days on |
| Calendar.WeeksExact | apps/ingestion/src/extractors/temporal.ts:129-140 | this, last and next week give the Monday of that week exactly on plain years |
| Calendar.NextDayExact | apps/ingestion/src/extractors/temporal.ts:122-126 | next weekday lands on that weekday one to seven days later |
| Calendar.LastDayExact | apps/ingestion/src/extractors/temporal.ts:117-126 | last weekday lands on it, a week earlier, if and only if the reference day is one; otherwise it moves forward by as many days as have passed since that weekday |
| Calendar.FourDaysAfter28th | apps/ingestion/src/extractors/temporal.ts:157-166 | four days after the 28th always lie in the next month |
| Calendar.MonthsAre | apps/ingestion/src/extractors/temporal.ts:142-166 | the month phrases give the first of the right month, with every year under the two-digit rule |
| Calendar.MonthsExact | apps/ingestion/src/extractors/temporal.ts:142-166 | they are right if and only if neither the reference nor the resulting year is 0 to 99 |

## Left out

- ProcessIngestion.World.Run: assumes the ownership that `Lease.MutualExclusion` proves, so between its claim and its end only cancellation, pruning and tombstones interfere; a reset by a worker without a claim is judged in `Lease`.
- ProcessIngestion.World.Run: the roll-up is sound for sources inside the message's space; rows outside it keep their status while the roll-up counts them as done.
- ProcessIngestion.World.RecordBestEffort: the token total passed along is arbitrary, because the roll-up ignores it whenever it lists sources; the calendar day is arbitrary too.
- ProcessIngestion.World.Run: what other jobs write to their own sources while this run is under way is not interleaved with its statements; a source's number of chunks does not change between runs.
- MeteredRuns.MeteredIffItsRunCommitted: two runs of one job that overlap because a lease lapsed, and source rows deleted or put back to pending by hand, are not part of the histories.
- ProcessIngestion.World.ProcessSource: a source cancelled mid-chunk stays processing, as in the source; the roll-up is then refused because the job is terminal.
- Pipeline.Store.IngestSource: what a chunk yields is an arbitrary list per attempt; `BatchDedup` says which lists deduplication leaves. Extraction and embedding are an oracle, and the witnesses of stage 8 are arbitrary (the content of edges is in `Edges`).
- Pipeline.Store.IngestSource: ids of all tables come from one counter; a memory row carries the key it was deduplicated under, which the database does not store.
- BatchDedup.SameCountsIffNoKeyTwice: the model's answers are assumed the same for a chunk at every attempt; they may in fact depend on the duplicate hints, which only `BatchDedup.KeysStoredPerBatch` allows for.
- ResumedRuns.CompletionIsExact: the source keeps its number of chunks throughout a history; a checkpoint past the last chunk is covered by `Pipeline.Store.IngestSource` alone.
- Lease.MutualExclusion: all workers read one clock; in the code each claim compares with its own worker's clock, and skew between them shortens or stretches the lease.
- Usage.UsageDb.RecordIngestionUsage: the `memoriesCreated` column is not modelled; it is a count of links at one moment with no conservation law.
- Billing.BillingDb.DispatchActive: the read of the customer id and the guarded update are one step; the product catalogue, signatures and the choice of the organisation are not modelled.
- Billing.BillingDb.CreateCheckoutSession: the billing e-mail and product checks before the provider call are not modelled; they only add refusals.
- WebhookClaim.AtMostOneInFlight: the retention sweep of billing events (180 days by default) is excluded from the runs; a delivery after it would be a new event.
- Fixtures.Capture: the client is deterministic and sequential and stops after a bounded number of responses; overlapping calls are covered only by the collision list, and keys stand for their requests (no hash collisions).
- Normalize.KeyIsTuple: the ISO text of an instant is assumed non-empty, bar-free and different for different instants.
- Edges.ResolveEntities: deletion of entity rows during resolution and the vector upserts of entities are not modelled.
- Batching.PrepareExistingMemoryHints: batched and per-chunk lookups are compared on one state of the index and the memories.
- MemoryVectors.MemoryVectorStore.QueryNearest: the score is any real-valued function; a NaN score, from vectors of different lengths, is not.
- RefreshTokens.SingleUse: signatures are assumed to accept exactly the issued tokens; user and membership lookups only delay or abandon a request.
- Calendar.CivilOf: the limits of the host's date range and the recognition of phrases in text are not modelled; padding of the year in the text is not either.
- Delivery.NoLostJob: a dead-lettered copy counts as kept; redrive and reaping of dead letters are not part of this model.
- Chunking of sources, the API's job store, source deletion, search ranking, rate limits, HTTP routing and schemas are not part of this model.
- Admin requeue and analytics backfill write the same rows outside the protocol and are excluded.
