# Pipeline execution and raw payload storage: a verified model

This project models two connected parts of the platform and proves what they promise.

**The execution protocol.** A `PipelineRun` row is dispatched, claimed by a worker, and processed page by
page: fetch, store the raw payload, map and load, mark the raw row, checkpoint. Each of the last four is a
separate durable write. A failing attempt is retried by Celery or finalised, and a run that hit its page
cap can be continued by a new run seeded from it. `Protocol.dfy` states all of this as a transition system
over run rows, raw-record rows, the destination, the broker queue and volatile workers; the action of each
step carries everything that is not determined (the answer of the source, the failure raised, which message
is delivered, where a worker dies). Alongside it, the code's loops and methods are written as methods on
mutable rows and objects (`Claims`, `RestApi`, `Orchestration`, `PipelineTask`, `Dispatch`, `SqlServer`,
`Mapping`) and are shown to take steps of that system and nothing else, so what is proved of every reachable
state holds of the rows they leave.

**The raw payload store and its key migration.** `RawStore`, `RawService` and `Keys` model the
content-addressed, tenant-prefixed, write-once store; `WriteOnce` any number of concurrent `put` calls,
including the check-then-write fallback; `Migration` and `MigrationPass` the pass that moves three generations
of keys to one, and `Counters` what its counters count; `Convergence` any number of overlapping, dying and
cancelled passes, and `Storing` the pipelines that store meanwhile; `MigrationJob` the job around a pass;
`JobSystem` operators, jobs, tasks and their passes, all interleaved, and `JobWitnesses` what can happen there.

## How the parts fit together

| file | content |
|---|---|
| `Prelude.dfy`, `Paths.dfy`, `Mapping.dfy` | errors and results, dotted lookups, the destination mapping |
| `Claims.dfy` | the run row, and the only operations that change its status |
| `RestApi.dfy` | sending with one re-authentication, the page generator as an object with a resumption point |
| `SqlServer.dfy` | the batched, single-transaction load |
| `RetryPolicy.dfy` | backoff bounds |
| `Protocol.dfy` | the transition system |
| `RunInvariant.dfy`, `ProtocolInvariant.dfy` | what every step keeps |
| `Delivery.dfy`, `Refinement.dfy`, `Duplicates.dfy`, `AuditTrail.dfy`, `Chains.dfy`, `ChainCounts.dfy` | what is delivered along a chain of runs, over whole executions |
| `Retries.dfy`, `Stuck.dfy`, `InMemory.dfy` | how often a run is attempted, when it can still end, and how far the in-memory row is to be trusted |
| `Executions.dfy`, `Witnesses.dfy` | executions that exist: the uncapped one every clean success equals, and the ones that show which limits are attained |
| `Runs.dfy`, `Orchestration.dfy`, `PipelineTask.dfy`, `Dispatch.dfy` | the methods that refine the protocol, over the real store, raw-record table and destination |
| `Keys.dfy`, `RawStore.dfy`, `RawService.dfy`, `WriteOnce.dfy` | keys, the store, the service, concurrent writers |
| `Migration.dfy`, `MigrationPass.dfy`, `Counters.dfy`, `Convergence.dfy`, `Storing.dfy` | the key migration: one pass and its counters, many passes, and pipelines beside them |
| `MigrationJob.dfy`, `JobSystem.dfy`, `JobWitnesses.dfy` | the jobs around the passes |

`dafny verify dfyconfig.toml` checks everything.

## Assumptions about the environment

- At most one live worker executes a given Celery task id. Workers are keyed by task id for this reason: a
  claim is granted again to the task that owns the run, and the `mark_run_*` functions look at the in-memory
  status only (apps/execution/claims.py:70, :86 and :106). A dead worker's message may be delivered again,
  as late acknowledgement allows (config/settings/base.py:162), or be dropped.
- A claim finds the row locked only while another task is claiming an existing run: that task's claim has locked
  the same row, or the pipeline and connection rows it shares (the claim's `select_for_update` joins them and
  names no table, apps/execution/claims.py:55-62). `Protocol.RejectNext` asks for such a task.
- A destination transaction is all-or-nothing. A commit whose answer is lost is a separate event (`LoadLost`).
- A page of the source is its records and the bytes they were parsed from. Where a result needs a stable source,
  it is stable in what the pipeline loads: every answer has as many records as the source's page, mapping to the
  same rows (`Refinement.FromPage`). Its bytes, and fields that are not mapped, may differ from one fetch to the
  next; and only the answers to the run in question and those it continues count (`Refinement.StableFor`).
- SHA-256 is a function about which only the form of its values is known. Where it matters, the bytes that
  occur are assumed not to collide (`WriteOnce.NoCollision`).
- A HEAD request is answered "not found" only when the object is missing.
- What the database raises while a raw row is inserted or marked, or a checkpoint is saved, is recorded as an
  unexpected error, which is not retryable (the catch-all, apps/execution/orchestration.py:66-72).
- Identifiers (UUIDs, the schema name, the bucket) contain no slash, and a raw-record row is unique by run,
  sequence and checksum.

## What turned out to be different from the documentation

- "Five total tries" (docs/decisions/0005-execution-orchestration.md:86) holds only while no worker of the task
  dies. Each crash adds one attempt, and a crash between publishing a retry and acknowledging its predecessor
  three more: one crash allows a sixth attempt, one such late crash a ninth. `Retries.AttemptsBounded` proves the
  bound and `Witnesses.BoundAttained` that it is attained for every number of crashes of either kind.
- docs/decisions/0005-execution-orchestration.md:40 says a run whose worker was killed has no automatic
  recovery; with late acknowledgement the message is delivered again and the same task re-claims the run
  (`Witnesses.RedeliveredAfterACrash`). What strands a run without any crash is the row lock:
  `Witnesses.LosingTheLockStrandsARun` is an execution in which the owner's own retry meets the claim of a second
  dispatch, is skipped as "nothing to do", and leaves the run RUNNING with an empty queue. Exactly when a RUNNING
  run is stuck is `Stuck.EndsIffMessageQueued`, and that nothing but this lock and a dropped message of a dead
  worker gets it there is `Stuck.WhatStrandsARun`.
- After a failed checkpoint save the in-memory run is a page ahead of its row (`Witnesses.MemoryAhead`), and it is
  this object that the failure is recorded on; the columns that decide the run's status agree all the same
  (`InMemory.RowsAgreeUnlessCheckpointFailed`).
- A stalled migration job is "marked cancelled" when it is superseded (apps/opsui/services.py:82-88), but the flag
  its task reads is not set: if the task is alive, the job can still end SUCCEEDED
  (`JobWitnesses.SupersededMaySucceed`). What SUCCEEDED says of the data is true even then
  (`JobSystem.SucceededIsTrue`).
- A cancel is accepted while the job is RUNNING, but one that comes after the task's last read of the flag is not
  honoured: the job ends SUCCEEDED with the cancel requested (`JobWitnesses.CancelTooLate`).
- The same document says raw rows are written with `update_or_create` on (run, sequence); the code uses
  `get_or_create` on (run, sequence, checksum), and so does the model.
- A `put` that finds an existing object compares sizes only, so an object of the same size with other bytes
  under the new key is reused silently. `Migration.MeaningPreserved` states when a moved URI still reads back
  its bytes, and `RawStore.ReadBackExactly` that reading reports the mismatch.
- In the fallback without conditional writes, two calls can both write; the bytes are the same, the content type
  need not be (`WriteOnce.FallbackRace`).

## Model

| member | source | states |
|---|---|---|
| Paths.LookupComposes | apps/core/paths.py:13-22 | a dotted path is a composition of lookups |
| Paths.LookupKey | apps/core/paths.py:18-22 | a path without a dot finds what the object holds under that key, an explicit null included, and nothing where the key is absent or the value is no object |
| Paths.JoinSplit | apps/core/paths.py:17-18 | splitting a path loses nothing |
| Paths.GetByPath | apps/core/paths.py:13-22 | the loop answers what the lookup finds and whether it finds anything; with the two rows around it that fixes every answer, and tells a missing field from a null |
| Mapping.MapRecordSpec | apps/pipelines/mapping.py:16-44 | mapping succeeds exactly on objects that, in strict mode, have every source field, and then gives exactly the mapped columns, each with its value or null |
| Mapping.ImageUnique | apps/pipelines/mapping.py:16-44 | that image is unique |
| Mapping.MapRecordLoop | apps/pipelines/mapping.py:33-44 | the dictionary-filling loop computes it |
| Mapping.MapRecordsSpec | apps/pipelines/mapping.py:47-50 | all records are mapped in order, or the first that cannot be fails the page |
| Claims.ClaimRun | apps/execution/claims.py:37-82 | a claim is granted exactly for a pending run, or a running one of the same task, that nobody else has locked; it becomes RUNNING, owned by the task, with one more attempt, on the row and in memory; a refusal changes nothing |
| Claims.PipelineRun.MarkRunSucceeded | apps/execution/claims.py:85-102 | only from RUNNING; the error columns are cleared |
| Claims.PipelineRun.MarkRunFailed | apps/execution/claims.py:105-122 | only from RUNNING; otherwise nothing changes |
| Claims.PipelineRun.RecordPendingRetry | apps/execution/claims.py:125-132 | records the error and leaves the status alone |
| RestApi.SendWithAuthRetry | apps/connectors/sources/rest_api.py:173-203 | one request, or, after a 401 or 403 with a provider, a second one once the provider was told to drop its credentials; the calls in their order; the last answer decides: below 400 it is the reply, a 429, a server error or a failure in transit may be retried, any other error not |
| RestApi.ExtractRecords | apps/connectors/sources/rest_api.py:211-223 | it yields records exactly if the response is the list of these records, or an object with that list under the path; anything else is the malformed-response error |
| RestApi.PageGenerator.Next | apps/connectors/sources/rest_api.py:239-299 | what the generator yields when resumed from each of its suspension points; it raises the page-limit error exactly when the page that filled the cap was neither empty nor short |
| RestApi.FetchAll | apps/connectors/sources/rest_api.py:239-299 | page i holds all the records, in order, of the last answer to the i-th request, which asked for the i-th page; at most `max_pages` consecutive pages and two requests per page; ends by an empty or short page or by the error of the request after the last page, never silently at the cap |
| SqlServer.ValidateColumns | apps/connectors/destinations/sqlserver.py:157-169 | refuses exactly the records that use an unknown column |
| SqlServer.InsertBatches | apps/connectors/destinations/sqlserver.py:124-129 | the batches partition the records in order, full ones except perhaps the last; the count is the number of records; it fails exactly when one of these batches does |
| SqlServer.PartitionUnique | apps/connectors/destinations/sqlserver.py:125-128 | the size alone determines the batches |
| SqlServer.ValidIdentifierExactly | apps/connectors/destinations/sqlserver.py:31-40 | a schema or table name is accepted exactly if it is a letter or underscore with at most 127 letters, digits and underscores after it, and perhaps a final line feed |
| SqlServer.Load | apps/connectors/destinations/sqlserver.py:97-144 | success, which needs every batch and the commit to go through, appends all records in order; every refusal and failure, in the code's order, with its error; a database failure may be retried exactly if it is an operational one; a failure leaves the table unchanged unless the commit's answer was lost |
| RetryPolicy.BackoffBounds | apps/execution/retry_policy.py:16-23 | a wait lies between its exponential part and a quarter more, which may be drawn; between 10 and 375 seconds |
| RetryPolicy.ExponentialValues | apps/execution/retry_policy.py:16-23 | the exponential parts are 10, 20, 40, 80, 160 seconds and 300 from the sixth on |
| RetryPolicy.WaitsIncrease | apps/execution/retry_policy.py:16-23 | below the cap, jitter never makes a later wait shorter |
| RetryPolicy.ChainWait | apps/execution/retry_policy.py:10-23 | the retries of a run wait 150 to 187.5 seconds in all |
| RunInvariant.AdvanceKeeps | apps/execution/orchestration.py:121-164 | every event of an attempt, a failing checkpoint save among them, keeps the invariant of the run and of its worker |
| RunInvariant.ClaimKeeps | apps/execution/claims.py:54-82 | so does every claim, first or repeated |
| RunInvariant.NewRunOk | apps/execution/dispatch.py:90-101 | a new run, fresh or a continuation, satisfies it |
| ProtocolInvariant.NextKeeps | apps/execution/tasks.py:23-57 | every step of the whole system keeps the system invariant |
| ProtocolInvariant.SingleOwner | apps/execution/claims.py:54-82 | in every reachable state a run has at most one live executor, the run's owner, and the status, owner, attempt, error and continuation link it holds in memory are the stored ones |
| InMemory.RowsAgreeUnlessCheckpointFailed | apps/execution/orchestration.py:150-164 | the whole in-memory row is the stored one if and only if no checkpoint save has failed in this attempt |
| Witnesses.MemoryAhead | apps/execution/orchestration.py:150-164 | such a failure happens: the page is loaded, and the in-memory counters are ahead of the stored ones |
| ProtocolInvariant.ExecutionForward | apps/execution/claims.py:1-6 | over whole executions SUCCEEDED and FAILED are never left, the owner never changes, no counter decreases |
| Delivery.DestinationIsHistory | apps/execution/orchestration.py:140-143 | the destination holds exactly the transactions each chain of runs committed, in order |
| Delivery.AtLeastOnce | apps/execution/orchestration.py:121-164 | every page from the root start page up to the saved cursor is mapped, committed and recorded |
| Delivery.NoSilentTruncation | apps/connectors/sources/rest_api.py:255-299 | a SUCCEEDED run's last response was an empty or short page, with all earlier pages recorded across the chain |
| Delivery.CopiesBounded | apps/execution/orchestration.py:126-164 | no page is committed more often than its chain was claimed |
| ChainCounts.CopiesWithinAttempts | apps/execution/claims.py:78-82 | the claims of a chain are the sum of its `attempt` columns, so these bound the copies of a page and the lost checkpoints |
| Delivery.CommitAccount | apps/execution/orchestration.py:126-164 | the exact number of commits: pages below the cursor, recorded ending pages, lost checkpoints (at most one per claim) and the one in flight |
| Delivery.NeverRefetched | apps/execution/orchestration.py:121-126 | a page recorded without ending the extraction is never asked for again |
| Delivery.CountersConserved | apps/execution/orchestration.py:150-164 | the page and payload counters are the recorded pages, both record counters their records; sequence numbers run 1, 2, 3, ... |
| Delivery.PageLimitCursor | apps/execution/dispatch.py:72-101 | a continuable run's cursor names the first page not loaded |
| Delivery.ContinuationDisjoint | apps/execution/dispatch.py:90-99 | the committed pages of the runs of a chain share no page and no sequence number |
| ChainCounts.RawRowsDisjoint | apps/execution/orchestration.py:129-139 | every raw-record row of a run, committed or not, has a larger sequence number than those of the runs it continues |
| Refinement.SucceededAtFirstEnd | apps/connectors/sources/rest_api.py:255-299 | if the source's data were stable for a chain, its SUCCEEDED run ends at the source's first ending page |
| Refinement.SucceededLoadsEverythingOnce | apps/execution/orchestration.py:121-164 | if the source's data were stable for the chain and none of its checkpoints was lost, a success leaves exactly the rows of the pages up to the end, in order, whatever failed, was retried or continued, and whatever happened to other runs |
| Refinement.CappedEqualsUncapped | apps/execution/orchestration.py:121-164 | any two such successes leave the same rows |
| Refinement.PageLimitCountsPages | apps/execution/dispatch.py:90-99 | for a source stable for the chain, the cursor of a page-limit failure is the start page plus `pages_extracted` |
| Duplicates.RowsAccounted | apps/execution/orchestration.py:126-164 | for a source stable for the chain, in every reachable state: the rows of each page below the cursor once, of the ending page as often as it was recorded, and of the commits whose checkpoint was lost |
| Duplicates.SuccessHoldsReferenceAndSurplus | apps/execution/orchestration.py:121-164 | without any restriction on failures, a success holds the rows of the uncapped run plus exactly that surplus, and exactly those rows if and only if the surplus is empty |
| Executions.UncappedSucceeds | apps/execution/orchestration.py:121-164 | the uncapped failure-free run exists and succeeds |
| Executions.EveryCleanSuccessEqualsTheUncappedRun | apps/execution/orchestration.py:121-164 | a chain that lost no checkpoint, however capped, retried and continued, leaves the rows of that one run |
| Witnesses.LosingTheLockStrandsARun | apps/execution/claims.py:54-73 | a run dispatched twice: the owner's retry meets the other claim's row lock and is dropped; no crash, no lost message, and the run stays RUNNING with no worker and no message |
| Retries.DecisionsAgree | apps/execution/tasks.py:36-46 | the run is left RUNNING exactly when the task schedules a retry, and FAILED otherwise |
| Retries.AttemptsBounded | apps/execution/tasks.py:22-46 | at most five attempts, plus one for each crash of the owning task and three more for each crash after a published retry |
| Witnesses.BoundAttained | apps/execution/tasks.py:22-46 | that bound is attained, for every number of crashes of either kind |
| Witnesses.RedeliveredAfterACrash | apps/execution/claims.py:70-81 | after a crash the message is delivered again and the same task claims the run a second time |
| Retries.AttemptIsRetriesPlusOne | apps/execution/tasks.py:25-46 | without crashes of the task, `attempt` is the retry count plus one, at most five |
| Retries.CrashFreeChainEnds | apps/execution/tasks.py:36-46 | a crash-free chain ends FAILED at its fifth failing attempt at the latest, and until then each failure has queued the next attempt |
| Stuck.EndsIffMessageQueued | apps/execution/claims.py:54-82 | in every reachable state a RUNNING run can still end if and only if a message of its owner is queued |
| Stuck.AbandonedForGood | apps/execution/claims.py:54-82 | without one its row stays as it is in every continuation of the execution |
| Stuck.WhatStrandsARun | apps/execution/claims.py:63-67 | a RUNNING run that can no longer end has had a claim of its owner dropped at the row lock, or a message of a dead worker of its owner dropped by the broker |
| AuditTrail.MarksAreCommits | apps/execution/orchestration.py:145-149 | a marked raw row is a committed page, and every recorded page has its marked row |
| AuditTrail.OneVersionMarked | apps/execution/orchestration.py:129-149 | in a chain without a lost checkpoint at most one version of each page is marked, in every reachable state and though retries may have stored others; it is the committed one, recorded unless its checkpoint is still to come |
| Orchestration.StoreRawPayload | apps/execution/orchestration.py:129-139 | storing a page is the protocol's step: the object is under the page's own key, with these bytes if it was new, and the page's row, created if it was new, carries that key's URI, the content type and the size; or a failure with its cause, which leaves rows and protocol as they were; earlier rows stay, and stay readable |
| Orchestration.MapAndLoad | apps/execution/orchestration.py:141-143 | mapping a page and loading it into the destination table is the protocol's step for each way the transaction may end |
| Orchestration.MarkRawLoaded | apps/execution/orchestration.py:145-149 | so is marking the version that was loaded: only the flag of its row changes |
| Orchestration.CheckpointPage | apps/execution/orchestration.py:150-164 | so is the checkpoint: counters and cursor move on in memory, and these five columns are saved; a failing save leaves the stored row as it was and the object in memory a page ahead |
| PipelineTask.ExtractAndLoad | apps/execution/orchestration.py:112-164 | the page loop over the generator follows the protocol to its end or its first failure, which the environment or the page cap caused; raw rows already there are kept, rows of other runs untouched, and all stay readable unless foreign bytes sit under a page's key |
| PipelineTask.ExecuteRun | apps/execution/orchestration.py:77-109 | a pipeline without a mapping fails before anything is fetched or loaded |
| PipelineTask.RunPipeline | apps/execution/orchestration.py:32-74 | which claims are rejected, and that a rejection changes nothing; success and failure are recorded on the row; raw rows are kept and readable as above |
| PipelineTask.RecordFailure | apps/execution/orchestration.py:197-219 | the error is stored; the run is FAILED on the last attempt or a non-retryable error and keeps its status otherwise |
| PipelineTask.RunPipelineTask | apps/execution/tasks.py:23-57 | from a reachable state the task, by steps of its own and with answers read from the wire, reaches a reachable state; what it rejects and why it may fail; it leaves the run RUNNING with a retry queued or FAILED without one |
| PipelineTask.RecordedPagesReadBack | apps/execution/orchestration.py:129-149 | every page the protocol records has its flagged raw row, whose URI reads back bytes of the checksum of the page, if nothing foreign was under the keys of the run |
| PipelineTask.RetriedOnlyIfItMayPass | apps/execution/orchestration.py:61-72 | an attempt ends with a retryable error only after setting up or preparing a request raised one, a failure in transit, a 429, a server error, or a database out of reach |
| Dispatch.TriggerManualRun | apps/execution/dispatch.py:28-115 | one run per key; exactly who is refused, what is reused and when it is enqueued again, the columns of a new row, fresh or continuing; the platform takes protocol steps |
| Dispatch.FinishedCopyIsCurrent | apps/execution/dispatch.py:72-99 | a copy of a continuable run, loaded at whatever earlier point of the execution, is the row stored now |
| Keys.ParsePadded | apps/rawstore/service.py:39 | sequence numbers read back from their padded form, beyond six digits too |
| Keys.SixDigits | apps/rawstore/service.py:39-40 | the first million sequence numbers are printed in six digits |
| Keys.KeyForm | apps/rawstore/service.py:39-41 | the form of a key |
| Keys.ChecksumRoundTrip | apps/rawstore/backends/s3.py:29-43 | the checksum is recovered from a printed key of any generation |
| Keys.ChecksumExactly | apps/rawstore/backends/s3.py:29-43 | from any key a checksum is read exactly if the file name is a text without dash, a dash, 64 characters and `.raw`, and then it is these 64 |
| Keys.KeyInjective | apps/rawstore/service.py:39 | equal keys mean equal tenant, pipeline, run, sequence and checksum |
| Keys.PrefixedIsNotLogical | apps/rawstore/migration.py:16-23 | a prefixed key is nobody's unprefixed key |
| Keys.ParseUriExact | apps/rawstore/backends/s3.py:234-249 | a URI is accepted exactly when it is the printed form of a key in the configured bucket |
| Keys.ReadableKeys | apps/rawstore/backends/s3.py:234-273 | whatever the URI, a tenant gets exactly the keys of the configured bucket under its own prefix; everything else is access denied |
| Keys.AuthorizedExactly | apps/rawstore/backends/s3.py:266-273 | a tenant's keys are readable by that tenant and no other |
| RawStore.PayloadStore.Put | apps/rawstore/backends/s3.py:132-137 | nothing stored changes, at most this key is added with these bytes; with the backend answering, it fails only on an existing object of another size |
| RawStore.PayloadStore.PutCreateOnly | apps/rawstore/backends/s3.py:139-172 | tells the answers apart in the code's order: exists, no bucket, unsupported, anything else |
| RawStore.PayloadStore.PutCheckThenWrite | apps/rawstore/backends/s3.py:174-189 | writes only an absent key |
| RawStore.PayloadStore.VerifyExistingObject | apps/rawstore/backends/s3.py:191-214 | accepts an existing object of the same size, and nothing else with a known size |
| RawStore.ReadBackExactly | apps/rawstore/backends/s3.py:216-232 | a version is read back by its own tenant exactly when the stored bytes have the key's checksum |
| RawStore.ReadExactly | apps/rawstore/backends/s3.py:216-232 | a read of any URI gives certain bytes if and only if it names an object of the tenant that holds them and the checksum in its key, if there is one, is theirs |
| RawService.StoreRawPayload | apps/rawstore/service.py:8-57 | the row is created once per (run, sequence, checksum), earlier rows and objects are untouched, all rows stay readable unless foreign bytes sit under the new key, and it fails only on an object of another size there |
| RawService.VersionsCoexist | apps/rawstore/service.py:26-33 | of two stores under one run and sequence, the second changes nothing if the bytes are the same; otherwise both rows exist and each version reads back its own bytes |
| RawService.ReadablePreserved | apps/rawstore/backends/s3.py:132-137 | adding objects keeps every row readable with the same bytes |
| WriteOnce.NextKeeps | apps/rawstore/backends/s3.py:139-214 | every request of every concurrent call keeps the store's invariant |
| WriteOnce.NothingChangesOrDisappears | apps/rawstore/backends/s3.py:132-189 | under any interleaving an object once present keeps its bytes, and one older than the calls is not touched at all |
| WriteOnce.ReturnedIsStored | apps/rawstore/backends/s3.py:132-137 | a returned `put` left its bytes, unless its key was taken before; then the object there has the size of its own |
| WriteOnce.ReplacedOnlyByPlainWrite | apps/rawstore/backends/s3.py:174-189 | exactly which step can replace an object |
| WriteOnce.FallbackRace | apps/rawstore/backends/s3.py:174-189 | two calls without conditional writes can both write, the second replacing the first |
| Migration.GenerationsDoNotOverlap | apps/rawstore/migration.py:103-124 | the three generations are told apart exactly when tenant UUID and schema name differ |
| Migration.LegacyKeyIsNoTarget | apps/rawstore/migration.py:103-142 | no new key is a key some record is still stored under |
| Migration.JudgedAsAtStart | apps/rawstore/migration.py:182-216 | the verdict on a record does not depend on what has been migrated meanwhile |
| Migration.MigratedUnique | apps/rawstore/migration.py:182-228 | a complete pass has one possible outcome |
| Migration.PassCompletes | apps/rawstore/migration.py:145-166 | completing one pass from whatever a stopped or overlapped pass left gives that outcome |
| Migration.NothingLeftToDo | apps/rawstore/migration.py:187-188 | a further pass finds nothing ready and changes nothing |
| Migration.MeaningPreserved | apps/rawstore/migration.py:127-142 | at any moment of any passes a moved URI reads back the legacy bytes in its tenant exactly unless other bytes had been under the new key from the start; the legacy object is still there |
| MigrationPass.Accounting | apps/rawstore/migration.py:182-243 | how the counters add up, for any records and any stopping point; at most 200 problem records are kept |
| Counters.JudgedExactly | apps/rawstore/migration.py:103-142 | what a record is found to be, said of its URI, the objects and the checksum: migrated, unprefixed, schema-prefixed, missing, in conflict or ready |
| Counters.CountersExactly | apps/rawstore/migration.py:182-243 | each counter is the number of inspected records of its kind |
| Counters.SampleExactly | apps/rawstore/migration.py:92-100 | the problem records kept are the first 200, in order, each with the first twelve characters of its checksum and its category |
| MigrationPass.CleanCount | apps/rawstore/migration.py:190-224 | no record missing or in conflict means every record is migrated or ready, and conversely |
| MigrationPass.SecondPassMigratesNone | apps/rawstore/migration.py:187-188 | after a complete pass `records_migrated` is zero |
| MigrationPass.VerifyAndMaybeMigrate | apps/rawstore/migration.py:127-142 | copies the bytes and content type of a verified object, JSON standing in for a missing type, and moves the URI; fails, with the store answering, only on a taken key |
| MigrationPass.RunRawPayloadMigration | apps/rawstore/migration.py:145-243 | counters are those of the records as they were before the pass; a dry run changes nothing; where a cancel stops it and at which record it fails, with what was saved of the counters by then; with the store answering, it fails exactly at the first record whose new key is taken by an object of another size, if no cancel comes first |
| Convergence.NextKeeps | apps/rawstore/migration.py:182-235 | every request of every overlapping pass keeps the invariant |
| Convergence.SafeThroughout | apps/rawstore/migration.py:127-142 | no object is altered or removed, and every URI is the old one or the new one with the copied object behind it |
| Convergence.OneCompletePassIsEnough | apps/rawstore/migration.py:145-166 | once one pass has been through all records the database is, and stays, migrated, in the one way that is possible |
| Convergence.LonePassCompletes | apps/rawstore/migration.py:182-235 | without a blocked record a pass left alone goes through all records, so these passes and the loop of one pass have the same outcome |
| Storing.PassesUnaffected | apps/rawstore/service.py:26-57 | whatever pipelines store and create meanwhile, also under the keys of records being moved, the passes and URIs stand as in an execution without them, and every object is there with the same bytes |
| Storing.MigratedAmidStores | apps/rawstore/migration.py:145-166 | once a pass has been through all records they are migrated and stay so with pipelines storing all the time, and read back as before |
| Storing.CreatedRowsReadable | apps/rawstore/service.py:39-57 | a record created meanwhile needs no pass, and reads back bytes of its checksum unless others had been under its key from the start |
| MigrationJob.JobTable.StartMigrationJob | apps/opsui/services.py:33-57 | a job is created exactly when the organization has no active one at the check and none at the insert, whatever others do between; a refused insert yields the other job, or is raised again if that one is over by the second lookup |
| MigrationJob.JobTable.RetryMigrationJob | apps/opsui/services.py:60-90 | a live job cannot be retried; a stalled one is cancelled and, unless others act in between, replaced |
| MigrationJob.JobTable.RequestCancel | apps/opsui/services.py:93-101 | only for a job seen pending or running; sets the flag and nothing else |
| MigrationJob.ApplyKeeps | apps/opsui/services.py:33-101 | no operation on the job rows takes a cancel request back, loses a job, or lets an organization have two active ones |
| MigrationJob.FlagIsMonotone | apps/opsui/tasks.py:60-62 | whatever operations others perform between a task's reads, a flag once read as set is read as set ever after |
| MigrationJob.FlagReadExactly | apps/opsui/tasks.py:60-62 | a read finds a cancel exactly if one was requested when the job began or an accepted request came before the read |
| MigrationJob.AllMoved | apps/opsui/tasks.py:90-97 | a complete pass without problem records leaves every URI under the tenant's UUID |
| MigrationJob.RunMigrationTask | apps/opsui/tasks.py:47-106 | with any operations of others before each read of the flag and before the save of the status: CANCELLED exactly if the last read finds a cancel, otherwise SUCCEEDED or PARTIALLY_FAILED as the dry-run flag and the counters of the returned pass say; FAILED exactly if the pass raises, which, with the store answering on a real job, is if and only if a record is blocked and no earlier read finds a cancel; what counters each leaves; a real job that ends SUCCEEDED moved every record; at most one active job per organization throughout |
| JobSystem.NextKeeps | apps/opsui/tasks.py:39-106 | every step of operators, tasks and passes keeps the invariant of the whole job system |
| JobSystem.CancelIsForGood | apps/opsui/services.py:93-101 | over whole executions no job is lost and no cancel request is taken back |
| JobSystem.DecidedTruly | apps/opsui/tasks.py:86-97 | what the last read of the flag decides, in every reachable state: CANCELLED exactly if a cancel is requested by then, always if one cut the pass short; otherwise the pass has been through all records, and a real one is SUCCEEDED exactly when no record was missing or in conflict |
| JobSystem.SettledTruly | apps/opsui/tasks.py:97-99 | what is true of the status when it is saved, whatever others did since it was decided |
| JobSystem.SucceededIsTrue | apps/opsui/tasks.py:86-99 | whenever a real job is SUCCEEDED the records are migrated, each at its tenant's own URI, and stay so, whatever other jobs and tasks did or do |
| JobWitnesses.SupersededMaySucceed | apps/opsui/services.py:60-90 | a superseded job, marked CANCELLED and replaced, can end SUCCEEDED, for any records that are neither problems nor blocked |
| JobWitnesses.CancelTooLate | apps/opsui/services.py:93-101 | so can a job with an accepted cancel, if it comes after the last read of the flag |

## Left out

- Timestamps, message texts, `TaskExecution` rows, logging and redaction: written beside the modelled columns and never read back by the modelled code.
- Credentials, auth providers and the outbound policy: a request is answered, fails in transit or is refused.
- The ORM, Celery, boto3, SQLAlchemy and httpx: durable maps, a queue with redelivery, a conditional write, an atomic transaction and a source function.
- Run, task and record identifiers are natural numbers in the protocol and texts in the store.
- Configuration other than `max_pages` is fixed along a chain of runs; the protocol follows the runs of one pipeline.
- The protocol lets a run be enqueued at any status; no result says that an execution exists which needs more than the dispatch allows.
- Locks on the run, pipeline and connection rows taken by anything but a claim (an edit of the pipeline, say) are not modelled.
- The protocol commits an empty transaction for a retained empty page; the connector returns before opening one. The rows are the same.
- Saving the outcome of a succeeded run can fail in the database; in the protocol the worker then dies, since the code lets that exception out of the task.
- SQL Server inserts take each mapped record as a row; records with differing columns in one batch do not arise from one mapping.
- Several continuations of one failed run are possible, because dispatch does not forbid them; results are stated along each chain.
- A migration task's counters are those of `MigrationJob.RunMigrationTask`; `JobSystem` keeps only the two that decide the status.
- The passes of `JobSystem` are those of `Convergence`; pipelines that store meanwhile are added to these passes in `Storing`, not to the jobs around them. A record a pipeline creates during a pass is not among those the pass inspects.
- The operator UI, permissions, audit logging, outbound HTTP checks, secrets and schema migrations.
