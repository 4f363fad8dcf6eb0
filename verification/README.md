# Verified models of the import runtime, token rotation, company merge and text kernels

This project models five parts of the repository and proves what they keep over whole runs.

**Import runtime** (`JobKeys`, `ImportContext`, `ContextRules`, `ImportControl`, `ControlRecords`, `ControlTables`,
`RuntimeStore`, `RuntimeRows`, `RuntimeIdentity`, `RuntimeDeliveries`, `RuntimeAgreement`, `RuntimeCalm`,
`RuntimeWriteOff`, `RuntimeRecovery`, `RuntimeResumeIds`, `RuntimeBulk`, `BulkRules`, `RuntimePause`, `RuntimeDeletion`,
`RuntimeMachine`, `RuntimeGuarantees`). `RuntimeStore.Store` holds the job rows, the per session and worker counters,
the control records and the broker's waiting and held deliveries. Each exported function, the bulk enqueue included, is
one step of `RuntimeStore.Event`; a run is any sequence of steps. `RuntimeMachine` is the same runtime as classes whose
methods update their tables in place, each proved equal to its step. What the steps themselves must do is stated apart
from their definitions: where a context comes from (`ContextRules`), what every column of a row holds (`RuntimeRows`),
what a bulk call makes of its items (`BulkRules`), when a job is paused (`RuntimePause`).

**Refresh tokens** (`RefreshTokens`, `TokenUsers`, `AuthServer`, `ApiClient`, `ApiCalls`). The server is an expiring
store with a clock, each handler one timed step. The browser client is cut at its awaits, so that every interleaving of
concurrent calls is a sequence of events.

**Company merge** (`CompanyMerge`, `DedupRoute`). Master pointers form a forest; eight child tables follow.

**CSV export** (`CsvExport`), **identifiers** (`Digits`, `Texts`, `Cui`, `NrRegCom`) and the **runtime view**
(`ObservedLogs`, `ObservedJobs`). The CSV reader is the grammar of section 2 of RFC 4180 with LF as line break and any
character other than quote, comma, CR and LF as TEXTDATA.

`Options` and `Counting` hold what the others share.

## Premises

- Each API handler, each control update and each runtime function is one atomic step, and no database call fails half
  way through one.
- Ids of enqueued jobs are new at the broker, so no such add is dropped as a duplicate. Resume ids are taken as new as
  well, which `RuntimeResumeIds` justifies for recoveries and refutes for plain resumes. A waiting delivery is named by
  its arrival number.
- The digest in job keys and resume ids holds no colon and no two preimages have one in common; a stored token hash
  stands for its token.
- Jobs come from this module's own enqueue functions, so that what the broker holds without a context names no tenant
  and batch either, and a progress patch that replaces the resume payload keeps the job's context in it
  (`RuntimeIdentity.Proper`).
- New session ids, times and the rows a select statement returns (in any order) are parameters.

## What turned out false, and the exact conditions

- A resume in recover mode writes off a paused row whose budget is spent without counting it as failed
  (`RequeueKeepsAgreementIff`, `WrittenOffRowIsNotCounted`).
- A broker retry keeps the counters an index of the rows until it begins (`StepKeepsIndexIff`,
  `RetryBreaksIndexAtBegin`).
- A completion takes one off `pausedJobs` even though its row was not paused (`PausedStaysExactIff`).
- A job paused while it runs can be resumed only if its processor throws: a processor that returns completes the row,
  and resume no longer selects it (`PausedMidRunResumesIff`).
- Enqueueing a key again under another session lets `queuedJobs` exceed the waiting deliveries (`EnqueueKeepsHomeIff`,
  `SecondSessionOvercounts`). The bound breaks at the next resume of such a row, unless the counter has room
  (`RequeueKeepsBoundIff`).
- Bulk and single enqueues agree on the counters only if all items share the first item's session and worker, and only
  then does a bulk call keep the counters an index of the rows and, where they are tight, `queuedJobs` within the
  waiting deliveries (`BulkCountersAgreeIff`, `BulkKeepsIndexIff`, `TightBulkKeepsBoundIff`). Without a named session
  every item opens its own (`UnnamedSessionIsSplit`).
- An explicit context that carries a job key gives that key to every job enqueued under it. A bulk insert of two or more
  such items is refused, and a single child overwrites its parent's row (`ExplicitKeyIsRefusedIff`,
  `ChildTakesItsParentsRow`).
- A plain resume reuses its resume id the next time, and while the broker keeps the first the second is dropped, though
  its row is marked as sent (`NextResumeIdRepeatsIff`, `ResumeIsDroppedIff`, `PausedTwiceIsStranded`); beginning a job
  resets its recovery limit to three (`BeginResetsLimit`); a delivery with tenant and batch but no context is never
  closed (`StrayDeliveryIsNeverClosed`).
- Joined key parts can be read back exactly if no part holds `::` and only the last may end in `:`; an absent field and
  a present neighbour can trade places (`SplitJoin`, `EquallyManyCollideIff`, `MovedFieldKeepsTheKey`).
- Stored and signed lifetimes both of more than thirty days let a revoked family come back (`RevocationIsFinalIff`). A
  lost refresh answer makes the client's next refresh revoke its own family (`LossIsHarmlessIff`, `LostAnswerRevokes`).
- A deletion pauses its batch but keeps the time and author of the pause stored before (`DeletionKeepsPauseStamps`).
- Nothing guards a merge: deciding a pair twice, for one company and then for the other, makes a pointer cycle
  (`MergeKeepsForestIff`, `SecondThoughtsMakeACycle`). Log rows written for entity type `company`, which is what the
  workers write, are never moved, so that a tenant's rows all stay on current masters only if no merge meets such a row
  (`RowFollowsIff`, `MergeKeepsAllRowsIff`, `GuardedRunsKeepAllRowsIff`).
- Normalising an old register number with more than six digits of order throws (`ThrowsIff`). Leading zeros make a lone
  `0` valid, and a check digit of zero can miss a slip (`LeadingZerosKeepValidityIff`, `ZeroCheckDigitMissesASlip`).
- A merged observed job need not report the earlier creation time (`MergeOfOrdered`), and a live queue job may begin
  later than its last event (`LiveInOrderIff`).

## Model

| member | source | states |
|---|---|---|
| JobKeys.SplitJoin | workers/shared/src/import-execution.ts:211-213 | a joined list of key parts is read back by splitting if and only if no part holds the separator and only the last may end in a colon |
| JobKeys.JoinInjective | workers/shared/src/import-execution.ts:211-213 | two unambiguous part lists with one preimage are the same list |
| JobKeys.EquallyManyCollideIff | workers/shared/src/import-execution.ts:211-213 | a list of non-empty parts shares its preimage with another list of as many parts if and only if two neighbouring parts, once joined, can be cut elsewhere |
| JobKeys.AnyListCollidesIff | workers/shared/src/import-execution.ts:211-213 | it shares it with a list of any length if and only if it has two parts or more, or its one part can be cut |
| JobKeys.ColonAtPartEdgeIsAmbiguous | workers/shared/src/import-execution.ts:211-213 | in any list, a colon moved from the end of one part to the beginning of the next leaves the preimage |
| JobKeys.RuntimeJobKeyIdentifies | workers/shared/src/import-execution.ts:215-238 | with the same fields present, a digest of hex digits that does not collide on them, and parts that can be cut only there or be read back, equal job keys mean equal queue, job name, worker and batch and equal optional fields |
| JobKeys.PlainFieldsIdentify | workers/shared/src/import-execution.ts:215-238 | argument sets of fields without `::` and without a colon at their end, the same ones left out, share a key if and only if all nine fields agree |
| JobKeys.MovedFieldKeepsTheKey | workers/shared/src/import-execution.ts:211-238 | the premise on absent fields is needed: a value moved to an absent neighbour gives the same key |
| JobKeys.ResumeJobIdInjective | workers/shared/src/import-execution.ts:240-243 | resume ids tell apart job and attempt, for every key |
| JobKeys.SameJobDistinctAttempts | workers/shared/src/import-execution.ts:240-243 | resume ids of one job agree only for the same attempt |
| ContextRules.CarriedContext | workers/shared/src/import-execution.ts:763-774 | an embedded context is carried on; only its worker and stage can be named anew |
| ContextRules.TrackedIff | workers/shared/src/import-execution.ts:776-789 | without one a job is tracked if and only if the explicit context, or else the parent's, or else the payload names a tenant and a batch, and it is tracked under those |
| ContextRules.DerivedOwners | workers/shared/src/import-execution.ts:791-821 | worker, session, parent, correlation and stage are each the first that is named by the call, the explicit context, the parent's and the payload, in the order of each field |
| ContextRules.DerivedSubject | workers/shared/src/import-execution.ts:744-761 | so are entity type, entity id and idempotency scope, down to the company or bronze contact a payload names and the job id |
| ContextRules.StageIsFirstPrefix | workers/shared/src/import-execution.ts:205-209 | a stage is the one named unless blank, or else the first of the table whose prefix the queue has, or else the default |
| ContextRules.SameRowIffSameJob | workers/shared/src/import-execution.ts:763-849 | two enqueues that neither carry nor name a key get one row if and only if tenant, queue, job name, worker, batch, entity, scope, correlation and parent agree, for fields without `::` and without a colon at their end, the same ones left out |
| ImportControl.DeleteHidesAndPauses | apps/api/src/routes/imports-bronze.ts:4390-4457 | an accepted deletion hides and pauses the batch and keeps every worker pause and all other metadata |
| ImportControl.HiddenBatchKeepsControl | apps/api/src/routes/imports-bronze.ts:4195-4212 | no API command changes the control record of a hidden batch |
| ImportControl.PatchKeysSpareControl | apps/api/src/routes/imports-bronze.ts:700-722 | the handlers that patch metadata never write the control record |
| ImportControl.DeletedIsKept | workers/shared/src/import-execution.ts:634-727 | a deleted batch stays hidden and paused under every API command |
| ImportControl.GlobalPauseReadsBack | workers/shared/src/import-execution.ts:665-678 | the global flag reads as it was set for that tenant and as before for every other; no batch changes; the version goes up by one |
| ImportControl.BatchPauseReadsBack | workers/shared/src/import-execution.ts:680-693 | the batch flag reads as it was set for that batch and as before for every other; worker pauses, hiding and settings are as before |
| ImportControl.WorkerPauseReadsBack | workers/shared/src/import-execution.ts:695-714 | the worker flag reads as it was set for that worker of that batch and as before for every other worker and batch |
| ImportControl.DeleteRequestReadsBack | workers/shared/src/import-execution.ts:716-727 | the request can be read back, and changes neither the pauses nor the hiding of the batch |
| ImportControl.PauseCommandReadsBack | workers/shared/src/import-execution.ts:564-599 | after a pause or resume command its scope is paused exactly as asked, or as before if the batch is hidden or unknown |
| ImportControl.PauseLasts | workers/shared/src/import-execution.ts:634-727 | no other command than its own resume ends a pause of a tenant, batch or worker |
| ControlRecords.OnlyItsOwnCommandPauses | workers/shared/src/import-execution.ts:634-727 | nor does any other command than its own pause command, or the deletion of its batch, pause a scope |
| ControlRecords.PausedAtIff | workers/shared/src/import-execution.ts:564-599 | a scope is paused exactly if its own stored record is there and says so |
| ControlRecords.HiddenIff | apps/api/src/routes/imports-bronze.ts:166-172 | a batch is hidden exactly if its control record says so or holds a deletion time |
| ControlRecords.BatchPauseIsStamped | workers/shared/src/import-execution.ts:680-693 | a pause stamps its time and author, a resume clears them and stamps its request; all other fields stay |
| ControlRecords.GlobalPauseIsStamped | workers/shared/src/import-execution.ts:665-678 | so are a tenant's, whose version goes up by one from whatever number is stored |
| ControlRecords.WorkerPauseIsStamped | workers/shared/src/import-execution.ts:695-714 | a worker's flag is set in the map of worker pauses and stamped in two fields of its own; all other fields stay |
| ControlRecords.DeleteRequestIsStamped | workers/shared/src/import-execution.ts:716-727 | a request to delete, its time and its author are stored, and all other fields stay |
| ControlRecords.DeletionWrites | apps/api/src/routes/imports-bronze.ts:4382-4456 | a deletion is refused for a hidden or completed batch, and otherwise cancels it and replaces its control record alone |
| ControlRecords.DeletionIsStamped | apps/api/src/routes/imports-bronze.ts:4433-4447 | the record says who deleted the batch and when, and whether the file went too |
| ControlRecords.DeletionKeepsPauseStamps | apps/api/src/routes/imports-bronze.ts:4433-4447 | the time and author of its pause stay those stored before the deletion that paused it |
| ControlRecords.CancelsIff | apps/api/src/routes/imports-bronze.ts:4920-4938 | cancelling changes the status of a pending or processing batch and nothing else |
| ControlRecords.PatchesIff | apps/api/src/routes/imports-bronze.ts:4961-5040 | a retry makes any batch pending again that is neither processing nor completed; the other metadata handlers keep the status |
| ControlTables.ControlDb.PauseImport | apps/api/src/routes/imports-bronze.ts:4110-4234 | pausing or resuming a batch answers 404 exactly for an unknown or hidden one, and otherwise the flag reads as asked |
| ControlTables.ControlDb.SetTenantImportGlobalPause | workers/shared/src/import-execution.ts:665-678 | the method is the global pause step, after which a stored tenant's flag reads as asked |
| ControlTables.ControlDb.PauseImportWorker | apps/api/src/routes/imports-bronze.ts:4236-4357 | so it does for one worker of a batch |
| ControlTables.ControlDb.DeleteImport | apps/api/src/routes/imports-bronze.ts:4374-4457 | the deletion handler's three writes amount to the one deletion step, and leave the batch deleted |
| RuntimeIdentity.StepKeepsSound | workers/shared/src/import-execution.ts:729-737 | every step, bulk calls included, keeps each payload naming its own row, and only an enqueue adds rows |
| RuntimeIdentity.BulkKeepsSound | workers/shared/src/import-execution.ts:1011-1144 | so does every bulk call, whatever sessions, workers and keys its items have |
| RuntimeIdentity.IdentitySurvives | workers/shared/src/import-execution.ts:252-287 | in every reachable state each row's resume payload carries the row's own key, and the row of every waiting or held delivery exists |
| RuntimeIdentity.ResumedDeliveryUpdatesItsRow | workers/shared/src/import-execution.ts:1146-1246 | the delivery sent for a requeued row begins that row, in its session, and touches no other |
| RuntimeIdentity.StrayDeliveryIsNeverClosed | workers/shared/src/import-execution.ts:1260-1330 | a delivery without a context but with tenant and batch opens a row that neither completion nor failure closes |
| RuntimeRows.EnqueuedRow | workers/shared/src/import-execution.ts:876-953 | every column of the one row a tracked enqueue writes, stored key or fresh, and the delivery it sends, which carries the row's payload under the row's id |
| RuntimeRows.UntrackedIsSentAsIs | workers/shared/src/import-execution.ts:857-866 | a job without tenant or batch is sent as it is and recorded nowhere |
| RuntimeRows.UntrackedIsLeftAlone | workers/shared/src/import-execution.ts:1332-1334 | a job without a context is not touched by progress, completion or failure |
| RuntimeRows.BulkInsertedRow | workers/shared/src/import-execution.ts:965-1009 | every column of the row a bulk call inserts for a fresh key |
| RuntimeRows.BulkOverwrittenRow | workers/shared/src/import-execution.ts:1095-1112 | a stored key keeps all but its state, queue, id and payloads |
| RuntimeRows.BegunRow | workers/shared/src/import-execution.ts:1286-1309 | every column of the one row a begin writes |
| RuntimeRows.ProgressedRow | workers/shared/src/import-execution.ts:1344-1365 | every column of the one row a progress report writes; counters and deliveries stay |
| RuntimeRows.CompletedRow | workers/shared/src/import-execution.ts:1383-1404 | every column of the one row a completion writes |
| RuntimeRows.FailedRow | workers/shared/src/import-execution.ts:1422-1445 | every column of the one row a failure writes, its error being the message or the first 4000 characters of a longer one |
| RuntimeRows.RequeuedRowIs | workers/shared/src/import-execution.ts:1186-1224 | a resume sends the row's own job once, under the id of its next attempt, and changes only state, id and, where it recovers, attempts |
| RuntimeRows.RequeueCharges | workers/shared/src/import-execution.ts:1226-1242 | it moves the row's own counters: one more queued, one fewer paused or failed if the row was so, never below zero |
| RuntimeRows.SkippedRowIs | workers/shared/src/import-execution.ts:1176-1200 | a row without a payload stays and one over its budget is written off; neither is sent or counted |
| RuntimeRows.PausedEnqueueComesBack | workers/shared/src/import-execution.ts:876-1224 | a job enqueued under a pause and resumed reaches its queue with the payload it would have had |
| RuntimeRows.PausedBeginComesBack | workers/shared/src/import-execution.ts:1151-1309 | a delivery that began under a pause and is resumed comes back as it was, under a new id |
| RuntimeRows.FailedJobComesBack | workers/shared/src/import-execution.ts:1151-1445 | a failed job with budget left comes back with its payload, in the queue of its context |
| RuntimeDeliveries.StepCharges | workers/shared/src/import-execution.ts:416-469 | every step, bulk calls included, changes the counters by one clamped delta on one row |
| RuntimeDeliveries.StepKeepsRunningExact | workers/shared/src/import-execution.ts:1310-1319 | running counters stay equal to the held deliveries over a step, so the clamp has no effect |
| RuntimeDeliveries.RunningIsExact | workers/shared/src/import-execution.ts:1405-1414 | over every run, bulk calls, retries and late pauses included, running is the number of deliveries begun unpaused and not yet closed |
| RuntimeDeliveries.QueuedIsBounded | workers/shared/src/import-execution.ts:889-921 | over every run that keeps each key in one session, queued never exceeds the waiting deliveries |
| RuntimeDeliveries.EnqueueKeepsHomeIff | workers/shared/src/import-execution.ts:499-561 | an enqueue keeps row and deliveries in one session if and only if it does not name another session for a stored key |
| RuntimeDeliveries.BulkKeepsHomeIff | workers/shared/src/import-execution.ts:1095-1112 | a bulk insert that names no key twice keeps them so if and only if no item names another session or worker for a stored key |
| RuntimeDeliveries.BulkMovesWaiting | workers/shared/src/import-execution.ts:1130-1137 | an unpaused bulk call adds to each counter row the deliveries of its own items, a paused one none |
| RuntimeDeliveries.BulkKeepsBoundIff | workers/shared/src/import-execution.ts:1114-1123 | a bulk call keeps queued within the waiting deliveries if and only if it is paused or the row it charges has room for the items that go elsewhere |
| RuntimeDeliveries.TightBulkKeepsBoundIff | workers/shared/src/import-execution.ts:1114-1123 | where that row has no room: if and only if it is paused or all items have the session and worker charged |
| RuntimeDeliveries.RequeueKeepsBoundIff | workers/shared/src/import-execution.ts:1201-1242 | a resume keeps the bound if and only if the row lives where its delivery is counted or its counter row has room |
| RuntimeDeliveries.StepKeepsBoundIff | workers/shared/src/import-execution.ts:416-469 | any step keeps queued within the waiting deliveries if and only if the row it charges has room, which only bulk calls and resumes can need |
| RuntimeDeliveries.SecondSessionArises | workers/shared/src/import-execution.ts:763-849 | two payloads with carried contexts that meet the premises of the next row |
| RuntimeDeliveries.SecondSessionOvercounts | workers/shared/src/import-execution.ts:499-561 | two enqueues of one key under two sessions and a resume give a queued counter above its deliveries |
| RuntimeAgreement.StepMoves | workers/shared/src/import-execution.ts:476-562 | every step but a bulk call writes exactly the one row it is said to write |
| RuntimeAgreement.StepFits | workers/shared/src/import-execution.ts:416-469 | in a step on one row that enqueues no stored key, marks no running job paused and writes nothing off, the delta charged is the change of that row between the counted classes |
| RuntimeAgreement.CalmStepKeepsIndex | workers/shared/src/import-execution.ts:416-469 | a calm step, bulk calls with fresh keys and one session and worker included, keeps the counters an index of the rows |
| RuntimeAgreement.BulkKeepsIndexIff | workers/shared/src/import-execution.ts:1095-1123 | a bulk call keeps the index if and only if every item has a fresh key and the session and worker charged |
| RuntimeAgreement.CountersIndexRows | workers/shared/src/import-execution.ts:889-921 | over every calm run total, queued, running, completed and failed equal the rows in those classes, and paused is at most the paused rows |
| RuntimeAgreement.PausedStaysExactIff | workers/shared/src/import-execution.ts:1386-1414 | the paused counter stays exact over a calm step if and only if it is not a completion that finds it positive |
| RuntimeAgreement.PausedIndexesRows | workers/shared/src/import-execution.ts:1386-1414 | until such a completion the paused counter equals the paused rows |
| RuntimeAgreement.RequeueKeepsAgreementIff | workers/shared/src/import-execution.ts:1186-1242 | a resume keeps the counters an index if and only if it does not write off a paused row over its budget |
| RuntimeWriteOff.WrittenOffRowIsNotCounted | workers/shared/src/import-execution.ts:1186-1200 | such a row arises under every limit: enqueued under a pause and resumed in recover mode, three times under the default limit of three, the job is written off by the next resume, and the failed counter misses it |
| RuntimeCalm.StepKeepsIndexIff | workers/shared/src/import-execution.ts:416-469 | any step keeps the index if and only if it enqueues no stored key, makes no bulk call beyond fresh keys of one session and worker, marks no running job paused and writes off no paused row |
| RuntimeCalm.CalmIsExact | workers/shared/src/import-execution.ts:416-469 | calm steps are exactly those that keep rows and deliveries linked and the counters an index |
| RuntimeCalm.BeginKeepsIndexIff | workers/shared/src/import-execution.ts:1310-1319 | beginning a delivery keeps the index if and only if its row is queued, or the queued counter is at zero and the row leaves a class its counter does not fill |
| RuntimeCalm.RetryBreaksIndexAtBegin | workers/shared/src/import-execution.ts:1422-1460 | a broker retry keeps the index when it is made and breaks it when it begins |
| RuntimeAgreement.PausedMidRunResumesIff | workers/enrichment/src/workers/a1-csv-parser.ts:453-455 | a job that sees a pause while it runs is left resumable if and only if its processor throws; one that returns completes the row |
| RuntimeRecovery.RecoveriesAreBudgeted | workers/shared/src/import-execution.ts:1186-1223 | over any run the attempts and recoveries of each job stay within the largest limit its own enqueues name or a begin writes, attempts never fall, and the recoveries are exactly attempts 1 to attemptsUsed |
| RuntimeRecovery.RecoveryIdsDistinct | workers/shared/src/import-execution.ts:240-243 | no two recoveries of a job share a resume id |
| RuntimeRecovery.NextResumeIdRepeatsIff | workers/shared/src/import-execution.ts:1186-1223 | the next resume of a row reuses the id if and only if this one spent no attempt |
| RuntimeRecovery.BeginResetsLimit | workers/shared/src/import-execution.ts:1286-1309 | beginning a job writes the default recovery limit and keeps its attempts |
| RuntimeRecovery.SelectsIff | workers/shared/src/import-execution.ts:1159-1174 | a resume selects exactly the paused, stale and failed rows of its tenant and batch, and of its worker if it names one |
| RuntimeRecovery.ResumeSparesOthers | workers/shared/src/import-execution.ts:1178-1246 | every row outside the page stays as it is |
| RuntimeRecovery.ReportsWhatItSends | workers/shared/src/import-execution.ts:1178-1252 | the number a resume reports as requeued is that of the deliveries it sends |
| RuntimeResumeIds.ResumeIsDroppedIff | workers/shared/src/import-execution.ts:1201-1210 | a resume sends nothing if and only if its queue still keeps the id |
| RuntimeResumeIds.ResumeGoesToItsAddress | workers/shared/src/import-execution.ts:1201-1224 | the id kept for a resume is the one it is sent under, in the queue it is sent to, and the one its row holds |
| RuntimeResumeIds.DroppedResumeIsCounted | workers/shared/src/import-execution.ts:1212-1242 | its row is nevertheless marked as sent again and counted as queued |
| RuntimeResumeIds.DroppedResumeKeepsBoundIff | workers/shared/src/import-execution.ts:1226-1242 | queued then stays within the waiting deliveries if and only if its counter row had one to spare |
| RuntimeResumeIds.ResumedAgainIsDropped | workers/shared/src/import-execution.ts:1201-1224 | over any run in which the broker does not forget a resume, a later one of the row from the same queue is dropped if no attempt was spent |
| RuntimeResumeIds.PausedTwiceIsStranded | workers/shared/src/import-execution.ts:1201-1224 | a job that is resumed, begins under a pause and is resumed again gets no second delivery |
| RuntimeResumeIds.RecoveringRunsLoseNothing | workers/shared/src/import-execution.ts:1186-1224 | where every resume recovers one of a set of rows with distinct keys, no add is dropped, whatever the broker keeps or forgets: the run is the one that new ids give |
| RuntimeResumeIds.RunsByIdStayAccounted | workers/shared/src/import-execution.ts:1405-1414 | identity and running counters survive every run, dropped resumes included |
| RuntimeRecovery.RequeueRemovesOne | workers/shared/src/import-execution.ts:1176-1246 | one turn of the resume loop takes exactly its row out of the resumable ones |
| RuntimeRecovery.ResumeRemovesPage | workers/shared/src/import-execution.ts:1151-1252 | one resume call takes its whole page out of the resumable rows |
| RuntimeRecovery.ResumeDrains | workers/shared/src/import-execution.ts:1151-1252 | k calls take min(n, 1000k) of n resumable rows, so ceil(n/1000) calls leave none |
| RuntimeBulk.BulkIsOneByOne | workers/shared/src/import-execution.ts:1011-1144 | with fresh distinct keys and one session and worker, the bulk insert, delta and broker call leave the store of the items enqueued one by one under the one flag the call read |
| RuntimeBulk.BulkRefinesSingles | workers/shared/src/import-execution.ts:1011-1144 | with one reading of the flags, that is the store of single enqueues |
| RuntimeBulk.OneByOneIsARun | workers/shared/src/import-execution.ts:851-953 | that store is the one the run of single enqueue steps leaves |
| RuntimeBulk.BulkIsARunOfSingles | workers/shared/src/import-execution.ts:965-1144 | the whole call is the run of its items' single enqueues, and queued plus paused is their number |
| RuntimeBulk.BulkCountersAgreeIff | workers/shared/src/import-execution.ts:1114-1123 | bulk and single enqueues leave the same counters if and only if every item has the session and worker charged |
| RuntimeBulk.NamedSessionIsShared | workers/shared/src/import-execution.ts:763-849 | a caller that names the session or a parent, and no worker per item, gets one session and worker |
| RuntimeBulk.UnnamedSessionIsSplit | workers/shared/src/import-execution.ts:763-849 | without either, an item's session differs from the one charged |
| RuntimeBulk.ExplicitKeyIsRefusedIff | workers/enrichment/src/workers/ingest-utils.ts:677-702 | under an explicit context with a job key the insert is refused if and only if there are two items or more |
| RuntimeBulk.EnqueuesShareARowIff | workers/shared/src/import-execution.ts:763-849 | two enqueues of payloads without a context get one row if and only if tenant and job key, named or derived, agree |
| RuntimeBulk.ChildTakesItsParentsRow | workers/enrichment/src/workers/ingest-utils.ts:886-912 | a child enqueued with its parent's whole context as the explicit one adds no row and puts its job into its parent's |
| BulkRules.FirstItemLeads | workers/shared/src/import-execution.ts:1015-1025 | the context a bulk call pauses, counts and reports under is its first item's, under the worker and stage the call names for all |
| BulkRules.ItemTakes | workers/shared/src/import-execution.ts:1064-1082 | each item is enqueued with what it names, or else the call, or else the first item's context |
| BulkRules.EntriesInOrder | workers/shared/src/import-execution.ts:1064-1093 | where every item has a context the entries are the items in order |
| BulkRules.EntryHasItsItem | workers/shared/src/import-execution.ts:1064-1093 | every entry is that of one item, with that item's own context |
| BulkRules.PlanIs | workers/shared/src/import-execution.ts:1014-1063 | what a bulk call does follows from its items but for the pause: nothing, untracked sends, or entries charged to the session of the first and the worker named for all |
| BulkRules.ReportIsTrue | workers/shared/src/import-execution.ts:1130-1143 | the call reports as queued what it sent and as paused what it recorded unsent; a refused one sends and records nothing |
| BulkRules.BulkCharges | workers/shared/src/import-execution.ts:1114-1123 | one counter row gains the entries, as queued or as paused, and no other row changes |
| BulkRules.StrayContext | workers/shared/src/import-execution.ts:1260-1271 | a delivery that carries no context begins under one derived from its payload, the worker that took it and its id |
| RuntimePause.BeginInScopeIsPaused | workers/shared/src/import-execution.ts:1286-1306 | a delivery of a paused tenant, batch or worker begins paused and is not held |
| RuntimePause.BeginIsPausedIff | workers/shared/src/import-execution.ts:1286-1306 | a tracked delivery begins paused, and is not held, if and only if its tenant, its batch or its worker in that batch is paused; otherwise its row runs and a worker holds it |
| RuntimePause.EnqueueIsPausedIff | workers/shared/src/import-execution.ts:876-953 | a single enqueue is recorded as paused and sends nothing if and only if one of its three scopes is paused; otherwise one delivery is sent |
| RuntimePause.BulkPlanIsPausedIff | workers/shared/src/import-execution.ts:1051-1056 | a bulk call is paused if and only if one of the three scopes of its first item, under the worker the call names, is |
| RuntimePause.BulkIsAllOrNothing | workers/shared/src/import-execution.ts:1090-1137 | each entry is then recorded as paused and nothing sent, or else each as queued and sent, in order |
| RuntimePause.ProgressIsPausedIff | workers/shared/src/import-execution.ts:1336-1343 | a progress report leaves its row paused if and only if it says so or one of the three scopes is paused |
| RuntimePause.ResumedScopeStarts | workers/shared/src/import-execution.ts:564-599 | after the resume of one scope, the other two not paused, the next begin starts |
| RuntimePause.OnlyApiWritesControl | workers/shared/src/import-execution.ts:564-599 | no runtime step writes control records |
| RuntimePause.PausedScopeNeverStarts | workers/enrichment/src/main.ts:392-401 | over every run from a pause until its own resume the scope stays paused and no processor starts on it |
| RuntimePause.UnpausedStays | workers/shared/src/import-execution.ts:634-727 | over every run a scope that is not paused stays so until its own pause command or the deletion of its batch |
| RuntimePause.NeverPausedStarts | workers/shared/src/import-execution.ts:1286-1306 | so a job none of whose three scopes was or became paused starts at its begin |
| RuntimeDeletion.DeletedBatchNeverStarts | workers/enrichment/src/main.ts:392-401 | over every run after a deletion the control record stays and no processor starts on the batch |
| RuntimeMachine.ImportRuntime.constructor | workers/shared/src/import-execution.ts:851-953 | an empty runtime |
| RuntimeMachine.ImportRuntime.ApplyWorkerCounterDelta | workers/shared/src/import-execution.ts:416-469 | the counter row after a delta clamped at zero in every column; a missing row stays missing |
| RuntimeMachine.ImportRuntime.UpsertImportRuntimeJob | workers/shared/src/import-execution.ts:476-562 | the rows after the insert or the conflict update, which keeps session, batch and attempts |
| RuntimeMachine.ImportRuntime.EnqueueImportJob | workers/shared/src/import-execution.ts:851-953 | the method is the enqueue step, and reports queued exactly when it added a delivery |
| RuntimeMachine.ImportRuntime.EnqueueImportJobBulk | workers/shared/src/import-execution.ts:1011-1144 | the loops over the items are the bulk step and its result |
| RuntimeMachine.ImportRuntime.BuildBulkEntries | workers/shared/src/import-execution.ts:1065-1093 | the loop collects the items with a context, in order |
| RuntimeMachine.ImportRuntime.BeginImportRuntimeJob | workers/shared/src/import-execution.ts:1260-1330 | the method is the begin step and reports the pause it read |
| RuntimeMachine.ImportRuntime.UpdateImportRuntimeProgress | workers/shared/src/import-execution.ts:1332-1381 | the method rewrites the job's row only |
| RuntimeMachine.ImportRuntime.CompleteImportRuntimeJob | workers/shared/src/import-execution.ts:1383-1420 | the method is the completion step |
| RuntimeMachine.ImportRuntime.FailImportRuntimeJob | workers/shared/src/import-execution.ts:1422-1460 | the method is the failure step, message cut at 4000 characters |
| RuntimeMachine.ImportRuntime.ResumeRow | workers/shared/src/import-execution.ts:1186-1246 | one turn of the resume loop is the requeue step of its row and touches no other |
| RuntimeMachine.ImportRuntime.ResumeImportRuntimeJobs | workers/shared/src/import-execution.ts:1151-1252 | the loop is the run of its requeue steps, and requeued plus skipped is the page |
| RuntimeMachine.DeliveryLoop.Close | workers/enrichment/src/main.ts:402-425 | a finished processor ends in the completion or the failure of its delivery, counted once |
| RuntimeMachine.DeliveryLoop.Deliver | workers/enrichment/src/main.ts:389-428 | one delivery is its begin step and, unless that was paused, its completion or failure; the statistics count it once |
| RuntimeGuarantees.EmptyRuntimeFits | workers/shared/src/import-execution.ts:394-469 | an empty runtime satisfies every invariant |
| RuntimeGuarantees.EveryRuntimeIsAccounted | workers/shared/src/import-execution.ts:416-469 | every run from an empty runtime has payloads that name their rows, exact running counters and recoveries within each job's own limits |
| RuntimeGuarantees.SteadyRuntimeIsBounded | workers/shared/src/import-execution.ts:889-921 | every run from an empty runtime that keeps each key in one session has queued counters within the waiting deliveries |
| RuntimeGuarantees.CalmRuntimeIsIndexed | workers/shared/src/import-execution.ts:416-469 | every calm run from an empty runtime has counters that index its rows |
| RefreshTokens.DaysWithinMonth | apps/api/src/routes/auth.ts:105-114 | a lifetime configured in days fits the revocation period if and only if it is at most thirty |
| RefreshTokens.DurationsRead | apps/api/src/routes/auth.ts:105-114 | digits and one unit letter of either case are read as seconds, minutes, hours or days, and any other letter as thirty days |
| RefreshTokens.DurationsAreTrimmed | apps/api/src/routes/auth.ts:105-107 | white space around a duration makes no difference |
| RefreshTokens.IssuedTokenLives | apps/api/src/lib/refresh-token-store.ts:59-106 | an issued token verifies until its lifetimes end, and no other token is affected |
| RefreshTokens.RevocationLastsAMonth | apps/api/src/lib/refresh-token-store.ts:108-115 | a revoked family reads as revoked for thirty days and no longer, every other family as before |
| RefreshTokens.RunsKeepOneRecordPerFamily | apps/api/src/routes/auth.ts:272-303 | over every run each family has at most one unconsumed record, filed under its own token's id and family |
| RefreshTokens.EachIdIsAcceptedAtMostOnce | apps/api/src/routes/auth.ts:490-515 | over every run each token id is accepted at most once, and not at all if it was before |
| RefreshTokens.AcceptedIsNeverRotated | apps/api/src/routes/auth.ts:485-500 | an accepted token is never rotated again, and presenting it leaves the family revoked |
| TokenUsers.LoginBeginsAFamily | apps/api/src/routes/auth.ts:251-304 | a login issues one new token of its user in a family no other token has, and changes nothing else |
| TokenUsers.GrantIsTheSameUsers | apps/api/src/routes/auth.ts:496-519 | a granted refresh hands out one new token of the same user and family, with its record, and uses the presented one up |
| TokenUsers.RunsKeepOneUser | apps/api/src/routes/auth.ts:251-304 | over every run all tokens of a family are one user's |
| TokenUsers.NoRefreshChangesHands | apps/api/src/routes/auth.ts:485-519 | so in every run no refresh grants a token of another user than that of the rest of its family |
| RefreshTokens.RefreshRotatesIff | apps/api/src/routes/auth.ts:485-519 | a presented token is rotated if and only if it is the family's live token, and otherwise the family is revoked |
| RefreshTokens.RefusedRefreshLeaves | apps/api/src/routes/auth.ts:480-506 | what each refusal leaves behind: a token that does not verify or whose family is revoked changes nothing, a dead one revokes its family, an inactive user's is consumed |
| RefreshTokens.ForeignRecordRevokes | apps/api/src/routes/auth.ts:490-494 | whatever the store holds, a token whose id has another token's record revokes its family |
| RefreshTokens.LogoutRevokes | apps/api/src/routes/auth.ts:543-556 | a logout with a verifying token revokes its family and removes its record, sparing all other families; any other token changes nothing |
| RefreshTokens.LoggedOutForAMonth | apps/api/src/routes/auth.ts:543-556 | no refresh of any token of the family is granted for the next thirty days, whatever requests come between |
| RefreshTokens.LoggedOutForGood | apps/api/src/routes/auth.ts:543-556 | nor in any later run if the stored or the signed lifetime is at most thirty days |
| RefreshTokens.HandleKeepsSeals | apps/api/src/lib/refresh-token-store.ts:59-78 | with a stored or signed lifetime of at most thirty days no record of a revoked family serves beyond the revocation |
| RefreshTokens.RevokedStaysRevoked | apps/api/src/lib/refresh-token-store.ts:108-115 | then no run accepts a token of a revoked family again |
| RefreshTokens.LongLifetimeReopens | apps/api/src/lib/refresh-token-store.ts:108-115 | with both lifetimes longer a replayed token revokes a family that a later refresh reopens |
| RefreshTokens.RevocationIsFinalIff | apps/api/src/routes/auth.ts:543-556 | revocation is final in every run if and only if the stored or the signed lifetime is at most thirty days |
| AuthServer.RefreshTokenStore.ConsumeRefreshToken | apps/api/src/lib/refresh-token-store.ts:80-95 | a live record is returned and removed, an expired or missing one gives nothing |
| AuthServer.RefreshTokenStore.VerifyRefreshTokenHash | apps/api/src/lib/refresh-token-store.ts:97-106 | true exactly for a live record of this very token |
| AuthServer.AuthRoutes.IssueAuthTokens | apps/api/src/routes/auth.ts:251-304 | one new token is signed and stored, in the given family or a new one |
| AuthServer.AuthRoutes.Login | apps/api/src/routes/auth.ts:327-390 | the handler is the login step for a right password and an active account, and changes nothing otherwise |
| AuthServer.AuthRoutes.Refresh | apps/api/src/routes/auth.ts:452-532 | the handler is the refresh step on the token of the body, or else of the cookie |
| AuthServer.AuthRoutes.Logout | apps/api/src/routes/auth.ts:534-565 | the handler is the logout step, which revokes before it consumes |
| ApiClient.StepKeepsGood | apps/web/src/lib/api.ts:71-111 | every calm step keeps one refresh in flight at most, with the live token in the cookie or in its answer |
| ApiClient.CalmRunsStayGood | apps/web/src/lib/api.ts:151-206 | so does every calm run |
| ApiClient.ConcurrentCallsShareOneRefresh | apps/web/src/lib/api.ts:71-111 | after a login at any server that has only run its handlers, whatever its lifetimes, for every calm interleaving: at most one refresh in flight, it presents the live token, the family is not revoked, no call sends more than two data requests or gives up before its second |
| ApiClient.ServingKeepsTheLiveTokenIff | apps/api/src/routes/auth.ts:496-506 | serving a refresh leaves the client the live token if and only if the user is active |
| ApiClient.LossIsHarmlessIff | apps/web/src/lib/api.ts:102-108 | losing a message leaves the client the live token if and only if it was still the request |
| ApiClient.LostAnswerRevokes | apps/web/src/lib/api.ts:102-108 | after a lost answer the client's next refresh revokes its own family |
| ApiCalls.FirstRefusalWaits | apps/web/src/lib/api.ts:73-80 | in any state a first refusal joins the refresh under way or sends one with the current cookie, and waits for it |
| ApiCalls.StartSendsOnce | apps/web/src/lib/api.ts:176-191 | a new call sends one data request |
| ApiCalls.AnswerEndsCall | apps/web/src/lib/api.ts:193-206 | an answered request ends its call and leaves the session |
| ApiCalls.RefreshIsServed | apps/api/src/routes/auth.ts:452-532 | the server answers by the cookie that was sent, and without one refuses and changes nothing |
| ApiCalls.SecondRefusalEndsCall | apps/web/src/lib/api.ts:156-167 | a refused retry ends the call as refused and clears the session |
| ApiCalls.RefreshEndsAsAnswered | apps/web/src/lib/api.ts:88-105 | a refresh leaves the session stored if and only if it was granted, and wakes all and only its waiters, each with that outcome |
| ApiCalls.LostRefreshEndsRefused | apps/web/src/lib/api.ts:102-108 | a lost refresh does so as one not granted, and leaves the cookie |
| ApiCalls.FailedRefreshEndsRefused | apps/web/src/lib/api.ts:156-167 | a call woken by a refresh that was not granted ends as refused, sends no second request and clears the session |
| ApiCalls.GrantedRefreshRetries | apps/web/src/lib/api.ts:158-162 | a call woken by a granted one sends its second and last request |
| ApiCalls.CallsEndAsTheirRequests | apps/web/src/lib/api.ts:151-206 | over every run, losses included, a call sends at most two requests, ends as answered if and only if one of them was answered, and as refused only if every one was refused |
| ApiCalls.NoCallIsStranded | apps/web/src/lib/api.ts:71-111 | over every run at most one refresh is under way, every waiting call waits for that one, and every open call can go on |
| ApiClient.Browser.RefreshAccessToken | apps/web/src/lib/api.ts:73-111 | a refresh under way is joined, otherwise one is sent with the current cookie |
| ApiClient.Browser.RefreshSettles | apps/web/src/lib/api.ts:88-108 | the session is kept or cleared, the promise forgotten and exactly its callers woken |
| ApiClient.Browser.ApiFetch | apps/web/src/lib/api.ts:176-191 | a call begins with one data request |
| ApiClient.Browser.DataArrives | apps/web/src/lib/api.ts:193-206 | only a first refusal goes to a refresh; a refused retry clears the session |
| ApiClient.Browser.RefreshDone | apps/web/src/lib/api.ts:151-167 | after a refresh the call is retried once, or the session is cleared |
| CompanyMerge.MergeKeepsForestIff | apps/api/src/routes/silver-gold.ts:573-605 | root lookup still ends everywhere if and only if the secondary is not on its new master's own path |
| CompanyMerge.MergeMovesSubtree | apps/api/src/routes/silver-gold.ts:594-605 | the secondary's subtree gets the master's root and no other record's root changes |
| CompanyMerge.RepointConserves | apps/api/src/routes/silver-gold.ts:606-672 | no child row is lost or made, and the master gains exactly the rows the secondary gives up |
| CompanyMerge.DecisionIsAnswered | apps/api/src/routes/silver-gold.ts:557-600 | an unknown candidate and a master that is no company are refused and change nothing; otherwise the answer names the master of a merge, the given one or else company A |
| CompanyMerge.DecisionIsRecorded | apps/api/src/routes/silver-gold.ts:565-687 | the candidate is rejected, merged or pending exactly for reject, merge and skip, with its decider, a merge's master and the given reason or else what was stored; no other candidate changes |
| CompanyMerge.MergeIsRecorded | apps/api/src/routes/silver-gold.ts:573-673 | the losing company, if the tenant has it, points at the master with one more history entry, and its rows of eight tables go to the master; nothing else changes |
| CompanyMerge.MergeKeepsAttachedIff | apps/api/src/routes/silver-gold.ts:606-672 | the rows the nine updates select by company stay on current masters if and only if the master is another current master or the secondary has none of them |
| CompanyMerge.RowFollowsIff | apps/api/src/routes/silver-gold.ts:615-624 | a row of the secondary is on a current master afterwards if and only if it is not a log row of another entity type |
| CompanyMerge.MergeKeepsAllRowsIff | apps/api/src/routes/silver-gold.ts:606-672 | after a guarded merge all of the tenant's rows are on current masters if and only if the secondary has no log row of another entity type |
| CompanyMerge.DecideKeepsSound | apps/api/src/routes/silver-gold.ts:573-674 | a guarded decision keeps the forest and the master flags |
| CompanyMerge.GuardedRunsKeepMasters | apps/api/src/routes/silver-gold.ts:573-674 | over any run of guarded decisions root lookup ends and every row a merge would move hangs off a current master |
| CompanyMerge.GuardedRunsKeepAllRowsIff | apps/api/src/routes/silver-gold.ts:573-674 | over any run of guarded decisions all of the tenant's rows end on current masters if and only if no decision leaves such a log row behind |
| CompanyMerge.OtherTablesStrandNone | apps/api/src/routes/silver-gold.ts:606-672 | in every table but the log no decision leaves a row behind |
| CompanyMerge.RunsKeepRows | apps/api/src/routes/silver-gold.ts:573-687 | over any run each child table keeps its rows, and merge histories only grow |
| CompanyMerge.RunsSpareOtherTenants | apps/api/src/routes/silver-gold.ts:573-687 | a tenant without a request in the run keeps its companies and rows as they were |
| CompanyMerge.SecondThoughtsMakeACycle | apps/api/src/routes/silver-gold.ts:574-605 | two decisions of one pair of masters, each for the other company, make a cycle |
| DedupRoute.SilverTables.MergeInto | apps/api/src/routes/silver-gold.ts:594-673 | the nine updates of the transaction are the merge of the model |
| DedupRoute.SilverTables.DecideCandidate | apps/api/src/routes/silver-gold.ts:546-697 | the handler is the decision of the model, its refusals included |
| CsvExport.ExportLeads | apps/api/src/routes/outreach.ts:1111-1143 | reading the exported text back gives exactly the header and the rows, for any quotes, commas and line breaks in the fields |
| CsvExport.FieldsStandUnderTheirNames | apps/api/src/routes/outreach.ts:1111-1140 | in the table read back each of the nine fields of a lead stands under its own name |
| CsvExport.FieldReadsBack | apps/api/src/routes/outreach.ts:138-144 | an escaped field reads back as its text, a missing one as empty |
| CsvExport.LineReadsBack | apps/api/src/routes/outreach.ts:1128-1140 | a written line reads back as its fields |
| CsvExport.ExportsTellLeadsApart | apps/api/src/routes/outreach.ts:1143-1143 | two exports are the same text if and only if all fields read the same |
| Cui.SanitizeKeepsTheDigits | packages/shared-types/src/identifiers.ts:12-16 | sanitising keeps exactly the digits and is idempotent |
| Cui.IsValidCUI | packages/shared-types/src/identifiers.ts:18-35 | the loop decides the weighted check of the input's digits |
| Cui.TenDigitsAreValidIff | packages/shared-types/src/identifiers.ts:24-34 | ten digits are valid if and only if the last is the sum of the others, weighted 7, 5, 3, 2, 1, 7, 5, 3, 2, times ten, modulo eleven, modulo ten |
| Cui.LeadingZerosKeepValidityIff | packages/shared-types/src/identifiers.ts:20-22 | leading zeros up to ten digits keep the verdict if and only if the code is not an empty or lone zero made long enough |
| Cui.SubstitutionIsCaughtIff | packages/shared-types/src/identifiers.ts:27-34 | one wrong digit in a valid code is caught, except where the remainder moves between ten and zero; always for a non-zero check digit |
| Cui.SwapIsCaughtIff | packages/shared-types/src/identifiers.ts:27-34 | two different neighbouring payload digits swapped are caught under the same condition |
| Cui.ZeroCheckDigitMissesASlip | packages/shared-types/src/identifiers.ts:32-34 | a slip that keeps a code valid |
| NrRegCom.ParsesOldIff | packages/shared-types/src/identifiers.ts:3-3 | the old form is parsed into exactly the groups of its pattern |
| NrRegCom.ThrowsIff | packages/shared-types/src/identifiers.ts:100-116 | normalising throws if and only if the input is an old form with more than six digits of order |
| NrRegCom.NormalizeIsIdempotent | packages/shared-types/src/identifiers.ts:100-116 | a normalised number is in the new form and normalises to itself |
| NrRegCom.SanitizeAcceptsTheSame | packages/shared-types/src/identifiers.ts:72-90 | sanitising rejects exactly what normalising rejects, and normalising accepts the rest except over-long orders |
| NrRegCom.NormalizeAfterSanitize | packages/shared-types/src/identifiers.ts:72-116 | normalising a sanitised number is normalising the number, and sanitising is idempotent |
| NrRegCom.ConvertedIsCanonical | packages/shared-types/src/identifiers.ts:49-62 | a converted number is a valid number of the new form with its base, or the order is too long |
| NrRegCom.SameCanonicalIff | packages/shared-types/src/identifiers.ts:49-62 | two old numbers get one canonical text if and only if letter, year, order value and county value agree |
| NrRegCom.NewIsValidIff | packages/shared-types/src/identifiers.ts:37-47 | a number in the new form is valid if and only if its last digit is that of its letter's code and its other digits added up |
| NrRegCom.WrongLetterIsCaught | packages/shared-types/src/identifiers.ts:37-47 | a wrong letter always changes the check digit |
| NrRegCom.WrongDigitIsCaught | packages/shared-types/src/identifiers.ts:37-47 | a single wrong digit changes the check digit |
| NrRegCom.SwapIsNeverCaught | packages/shared-types/src/identifiers.ts:37-47 | two digits that change places never do |
| ObservedLogs.GroupObservedLogsByRuntimeKey | apps/api/src/routes/imports-bronze.ts:1843-1859 | the loop builds the buckets by key and lists the keys in the order of their first log |
| ObservedLogs.GroupsAreBuckets | apps/api/src/routes/imports-bronze.ts:1849-1856 | a key is grouped exactly if it has logs, and its group is those logs in order |
| ObservedLogs.KeysCover | apps/api/src/routes/imports-bronze.ts:1849-1856 | every log's key is listed, once, with a non-empty bucket |
| ObservedJobs.KeysByFirstLog | apps/api/src/routes/imports-bronze.ts:1843-1859 | the keys are listed in the order of their first logs |
| ObservedLogs.BucketsPartition | apps/api/src/routes/imports-bronze.ts:1849-1858 | the buckets' sizes add up to the number of logs |
| ObservedLogs.BucketHoldsItsLogs | apps/api/src/routes/imports-bronze.ts:1849-1858 | a log is in the bucket of its key as often as in the input, and in no other |
| ObservedLogs.BucketKeepsOrder | apps/api/src/routes/imports-bronze.ts:1851-1856 | newest-first logs give newest-first buckets |
| ObservedJobs.SameKeyIff | apps/api/src/routes/imports-bronze.ts:1560-1564 | exactly which ids and entities share a key within a worker |
| ObservedJobs.ContainsIff | apps/api/src/routes/imports-bronze.ts:1604-1610 | a word is found exactly if it stands somewhere in the text |
| ObservedJobs.BronzeStateIff | apps/api/src/routes/imports-bronze.ts:1595-1617 | exactly when a bronze job is in each of its five states, with the words its latest log may say it by |
| ObservedJobs.SilverStateIff | apps/api/src/routes/imports-bronze.ts:1692-1698 | the same for the four states of a silver job |
| ObservedJobs.JobsSpeakOfTheirLogs | apps/api/src/routes/imports-bronze.ts:1700-1768 | with newest-first logs a job spans exactly its logs, is filed under the key of every one of them and has the texts of the latest |
| ObservedJobs.ShownUnderItsKey | apps/api/src/routes/imports-bronze.ts:1999-2017 | every job shown is filed under its own key |
| ObservedJobs.MergeTakesTheLater | apps/api/src/routes/imports-bronze.ts:1815-1841 | a merge takes each field from the job that ended later, the right one on a tie, and from the other only what that lacks |
| ObservedJobs.LaterSourceLeads | apps/api/src/routes/imports-bronze.ts:1980-2017 | where both sources have logs of a key the one with the newest log leads, the silver one on a tie |
| ObservedJobs.CountsAreOfStates | apps/api/src/routes/imports-bronze.ts:1861-1879 | the counts are the numbers of jobs in the three states |
| ObservedJobs.LiveJobIsShown | apps/api/src/routes/imports-bronze.ts:2022-2065 | a live job whose key no other has is shown in place of its logs', with the queue's state and times and their last event |
| ObservedLogs.MergeOfOrdered | apps/api/src/routes/imports-bronze.ts:1815-1841 | a merged job keeps begin before end, reports the later end and the worse state, and the earlier creation time exactly under a stated condition |
| ObservedLogs.BuildPersistedObservedJobs | apps/api/src/routes/imports-bronze.ts:1980-2020 | the two loops build the map of observed jobs and its insertion order |
| ObservedLogs.ObservedShows | apps/api/src/routes/imports-bronze.ts:1999-2017 | exactly the keys with logs of either source are shown, once each, merged where both have logs |
| ObservedLogs.ShownJobsAreInOrder | apps/api/src/routes/imports-bronze.ts:1700-1768 | with newest-first logs every shown job begins no later than it ends |
| ObservedLogs.CountsFit | apps/api/src/routes/imports-bronze.ts:1861-1879 | completed, warnings and errors together are at most the observed jobs, and those at most the observed logs |
| ObservedLogs.SortIsStable | apps/api/src/routes/imports-bronze.ts:1932-1940 | jobs with one time stamp keep their order |
| ObservedLogs.ShowsTheNewest | apps/api/src/routes/imports-bronze.ts:1932-1940 | the list is the newest 120 jobs, newest first, and nothing left out is newer |
| ObservedLogs.LiveInOrderIff | apps/api/src/routes/imports-bronze.ts:2022-2065 | a live job begins no later than its last event if and only if its time stamp is no later than the event it inherits, or than its processing |
| ObservedLogs.LiveCountsFit | apps/api/src/routes/imports-bronze.ts:1881-1905 | each live count is the number of live jobs in its state, together at most all of them |
| ObservedLogs.MergeLiveQueueJobs | apps/api/src/routes/imports-bronze.ts:2067-2121 | the loop lays the live jobs over the observed ones, in order, and counts them |
| ObservedLogs.BuildRuntimeWorkerSnapshot | apps/api/src/routes/imports-bronze.ts:2123-2157 | a worker's list is the newest 120 of its observed and live jobs, newest first; whatever is left out is no newer; with newest-first logs every job without a live counterpart is in order |

## Left out

- Time stamps, session rows, metrics and metadata of job rows, including that a single enqueue stamps `pausedAt` and a
  bulk one does not.
- The `counterDelta` of progress patches, taken not to touch job counters, and the counters of units of work.
- Concurrent handlers inside one step, and database calls that fail between two writes.
- Postgres, Redis and BullMQ themselves, row level security, connection handling and the uniqueness constraints of the
  merged tables.
- SHA-256 and its cut to 24 characters, JWT signing, bcrypt and UUIDs: taken as collision-free or new values.
- A queue whose processor is missing, which closes nothing: the processors are one arbitrary step that returns or
  throws.
- The CSRF check, rate limits, registration, access tokens and request validation of the auth routes.
- The client's redirect and listeners; whether a call goes to an auth URL; statuses other than 401.
- Deleting companies, automatic merges by the exact-hash worker, and candidate rows of deleted companies.
- Selecting and sorting the exported leads, and turning dates and scores into text.
- A stored `version` that is a text or a list, which JavaScript may read as a number.
- Case mapping and digits beyond ASCII, and white space beyond what `trim` removes.
- Which queue jobs belong to a batch, the progress and attempt numbers of a live job, a live job without a time stamp,
  and date parsing.
- The order in which a select statement returns resumable rows, which is arbitrary in the model.
