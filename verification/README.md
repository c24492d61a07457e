# Verified models of hamicloud's execution protocols

hamicloud runs batch jobs and rolls out services.  A Python API writes requests to
PostgreSQL; a Go runtime with one scheduler and any number of executors carries them out.
Nothing coordinates these processes but the tables: rows are read, kept in memory while
others act, and used later.  This project models four of its protocols and proves what
they guarantee over whole runs.

- **Job execution** (`JobStates` to `Reconcilers`, with `JobEffects`, `JobOutcomes`, `LockedReservations`): jobs, attempts, execution intents with leases
  and epochs, reservations, dead letters; admission, claim, report, cancellation, retry, crash recovery.
- **Release rollout** (`ReleaseTables` to `LateBuilds`, `ReleaseStore`, `ReleaseOutcomes`): release numbers, generations,
  builds, superseding, service intents that can be re-claimed, promotion.
- **Delivery** (`Idempotency`, `Outbox`, `MessageIds`): idempotency keys with an insert race; the transactional
  outbox with concurrent drains, crashes and a deduplicating broker.
- **Selection** (`Queries`, `FairScan`, `AdmissionScan`, `Base64Url`, `FixedText`, `Cursors`, `Paging`, `Calendar`): fair
  admission under a cap, and keyset paging with its cursors.

How the parts fit together:

- `JobTables` and `ReleaseTables` say for each transaction when it commits and what it leaves.
  `JobProtocol` and `ReleaseProtocol` make runs of them: an operation is one transaction, its arguments
  are the environment's choices, and a refused one changes nothing.  Rows and claims handed out
  are never forgotten, so every process may use them however old they are.
- `JobEffects` says what each job transaction means in plain states and values, and `JobOutcomes` and `ReleaseOutcomes`
  give machines over a single job, release, intent or application that every operation on all tables follows.
- `SchedulerModel` is the protocol with one scheduler whose passes do not overlap.  `ExecIsRun` shows that its
  runs are runs of the protocol.  Results about "every reachable state with one scheduler" are about it.
- `PostgresStore`, `ReleaseStore`, `SchedulerLoop`, `Reconcilers` and `Outbox.Dispatcher` are the code in its own
  imperative form, statement by statement and loop by loop.  Their contracts tie the new tables to the transactions
  above, and `Cluster.RunOnce` shows that a pass of the real loop, interleaved with anything
  others do, is a run of the model.  So the run theorems hold for the code.
- `SchedulerPass` says what a pass consists of, turn by turn, and what it achieves when nobody else acts.

Where a promise turned out not to hold in general, the code is modelled as it is, a concrete run shows
the failure, and the exact condition is proved:

- Confirming a recovery is guarded by the job's state alone.  It is safe if and only if the job's current
  intent is TERMINATED (`ConfirmIsSafeIff`); one sequential scheduler guarantees that, two overlapping passes
  do not (`OverlappingPassesBreakAgreement`).
- Attempts never overlap if and only if the scheduler was given a deleter that deletes
  (`AttemptsNeverOverlapIffDeleter`).  The other case arises when the scheduler cannot reach Kubernetes and falls back
  to `NoopJobDeleter`, which confirms without deleting (runtime/cmd/hamicloud-scheduler/main.go, lines 44 to 54).
- Finishing a job releases the workspace's oldest reservation with SKIP LOCKED.  A step breaks the count of reservations
  if and only if it is a release that finds every row locked while the counts are equal (`BoundBreaksIff`,
  `LockedRowIsOverCounted`), and over a run the excess is at most the number of such releases
  (`OverCountIsSkippedReleases`).
- A finished build raises the desired generation "so the scheduler admits the release".  It is admitted if and only
  if it is newer than every deployable release (`BuildIsAdmittedIff`); a late build of an older release
  can leave the newest one healthy and never served (`LateBuildStrandsNewestRelease`).
- An event's own headers can replace the message id.  Events with given message ids are all delivered once, in every
  run, if and only if the ids are distinct (`DeliversIffMsgIdsDistinct`).  The repository's own producers write
  tracing headers, idempotency_key, rerun_from and rollback_from only, so what they insert is always delivered
  (`PlainHeadersDeliver`).
- A cursor decodes to its position if and only if the year is 1970 or later (`CursorRoundTrip`), so a listing can be
  followed to its end if and only if no page but the last ends with an older row (`WalkExists`).

Where code and documentation disagree the model follows the code: ADR-0003 speaks of at most three attempts and of
jitter, the code allows max_retries + 1 attempts and has no jitter; the outbox delay is capped at 300 seconds in
the text of the expression but never exceeds 256 (`BackoffStaysBelowCap`).

`dafny verify dfyconfig.toml` verifies everything.

## Model

| member | source | states |
|---|---|---|
| `JobStates.LegalIsTheTable` | runtime/internal/domain/job_state.go:31-68 | the state test used in proofs is exactly membership in the transition table |
| `JobStates.ValidateTransition` | runtime/internal/domain/job_state.go:89-100 | no error if and only if the edge is legal, the terminal error if and only if the source is terminal |
| `JobStates.LegalSourcesFor` | runtime/internal/domain/job_state.go:103-114 | the loop returns every state with an edge to the target, each once, and nothing else |
| `JobStates.LegalSourcesSQL` | runtime/internal/store/postgres.go:22-41 | the guard list admits exactly the states that have an edge to one of the targets, without repetition, for any list of targets |
| `JobStates.CaseUpdatesAreLegal` | runtime/internal/store/postgres.go:1278-1290 | each CASE update guarded by a union of source sets takes a legal edge from every admitted state, and no state from which its edge exists is shut out |
| `JobProtocol.OnlyAdmissionAndSubmissionChangeTheSkeleton` | runtime/internal/store/postgres.go:591-1529 | every other transaction keeps all rows and who belongs to whom, and moves every job along a legal edge or not at all |
| `JobProtocol.StepIsLegal` | runtime/internal/store/postgres.go:624-637 | whatever transaction runs, from whatever stale snapshot, a job changes state only along an edge of the table and takes a new attempt only when it moves from QUEUED to ADMITTED |
| `JobProtocol.NewJobsAreSubmitted` | apps/api/app/api/v1/jobs.py:80-92 | a job appears only by submission, QUEUED and without attempts |
| `JobProtocol.IntoRetryWait` | runtime/internal/store/postgres.go:1386-1403 | only a committed failure report and a committed confirmation lead into RETRY_WAIT |
| `JobProtocol.TerminalIsAbsorbing` | runtime/internal/domain/job_state.go:84-86 | over every run, for any number of schedulers and workers, a finished job keeps its state and takes no further attempt |
| `JobProtocol.CancellationIsFinal` | apps/api/app/api/v1/jobs.py:256-266 | after CANCEL_REQUESTED the only other state ever reached is CANCELLED and no attempt is created |
| `JobEffects.SubmitMeans` | apps/api/app/api/v1/jobs.py:80-92 | a submitted job is QUEUED without attempts; an id that is taken changes nothing |
| `JobEffects.CancelMeans` | apps/api/app/api/v1/jobs.py:256-266 | a job is CANCEL_REQUESTED after the request if and only if it was not finished; a finished job and every other row stay |
| `JobEffects.AdmissionMeans` | runtime/internal/store/postgres.go:591-696 | an admission commits if and only if the budget lasts, the number is free and the job is QUEUED; then job, attempt, intent and reservation are as stated in plain values, otherwise nothing changes |
| `JobEffects.ClaimMeans` | runtime/internal/store/postgres.go:1048-1175 | what a claim writes to intent, attempt and job, and that it tells what it claimed |
| `JobEffects.RenewMeans` | runtime/internal/store/postgres.go:501-524 | a renewal by the holder makes the lease run until now plus the extension and changes nothing else |
| `JobEffects.SuccessMeans` | runtime/internal/store/postgres.go:1238-1342 | a success report commits if and only if the claim is in force and the job RUNNING or CANCEL_REQUESTED, and makes it SUCCEEDED or CANCELLED |
| `JobEffects.FailureMeans` | runtime/internal/store/postgres.go:1386-1460 | a failure report makes a job that is being cancelled CANCELLED, otherwise with a retry RETRY_WAIT and no record, without one FAILED with its record |
| `JobEffects.BeginMeans` | runtime/internal/store/postgres.go:835-906 | a recovery begins if and only if the lease was lost in the epoch seen and the attempt is started; what it writes, in plain values |
| `JobEffects.ConfirmMeans` | runtime/internal/store/postgres.go:910-982 | a confirmation makes the job CANCELLED, RETRY_WAIT, or FAILED with a record of its current attempt, from exactly the stated states |
| `JobOutcomes.JobFollowsMachine` | runtime/internal/store/postgres.go:591-1529 | on any tables every operation moves every job exactly as a machine over its state says: whenever there is a reason, and only then |
| `JobOutcomes.RetryWaitIff` | runtime/internal/store/postgres.go:1386-1403 | a job enters RETRY_WAIT if and only if a failure to be retried is reported under a claim in force, or a recovery to be retried is confirmed, while it is started and not being cancelled |
| `AttemptNumbering.AdmissionTakesNextNumber` | runtime/internal/store/postgres.go:599-637 | an admission that commits, from a scan of any age, takes the number after the job's current one |
| `AttemptNumbering.StepKeepsWorld` | runtime/internal/store/postgres.go:591-669 | every operation keeps the structural invariant: attempts numbered 1 to current, one intent each, and every snapshot and claim ever handed out still refers to real rows |
| `AttemptNumbering.AttemptsAreGapFree` | apps/api/app/models/job.py:87-89 | in every reachable state, with any number of schedulers, a job's attempts are exactly 1..current_attempt_number, each number once, each with exactly one intent |
| `JobProgress.JobMovesAreBounded` | runtime/internal/store/postgres.go:599-605 | a submitted job changes state at most 6 * (max_retries + 1) + 2 times in any run |
| `JobProgress.AttemptsAreClaimedOnce` | runtime/internal/store/postgres.go:1048-1175 | two claims of the same job attempt in any run are the same claim, so one worker and one epoch hold it |
| `JobProgress.LostStaysLost` | runtime/internal/store/postgres.go:1194-1207 | a claim whose intent was finished or re-claimed stays lost through every run |
| `JobProgress.LateWritesChangeNothing` | runtime/internal/store/postgres.go:501-524 | once a claim is lost, any later renewal or report with it, after any further run, leaves all tables as they are |
| `JobProgress.AtMostOneFinalisation` | runtime/internal/store/postgres.go:1254-1266 | workers and recovery together finalise an intent at most once in any run |
| `QuotaReservations.ReleasedRows` | runtime/internal/store/postgres.go:969-979 | a release takes one ACTIVE row of the workspace away, unless it finds every row locked, and then none |
| `QuotaReservations.BoundBreaksIff` | runtime/internal/store/postgres.go:1328-1339 | from any state within the bound, a step leads to more ACTIVE rows than occupying jobs if and only if it is a release that finds every row locked while the counts are equal |
| `QuotaReservations.OverCountIsSkippedReleases` | runtime/internal/store/postgres.go:671-689 | in every reachable state a workspace's ACTIVE CONCURRENT_JOB rows number at most its jobs that occupy a slot and the releases that found every row locked, although releases take the oldest row and rows expire by themselves |
| `LockedReservations.LockedRowIsOverCounted` | apps/api/app/core/quotas.py:35-46 | a concrete run in which the only ACTIVE row is locked by a request while the job's success is reported: the job is finished and its reservation stays |
| `QuotaReservations.ReservationsNeverOverCount` | runtime/internal/store/postgres.go:671-689 | in every run in which no release of the workspace found every row locked, its ACTIVE CONCURRENT_JOB rows number at most its jobs that occupy a slot |
| `FairScan.SmallerRanksComeFirst` | runtime/internal/store/postgres.go:533-556 | if a job is returned, every eligible job of smaller rank in any workspace is returned before it |
| `FairScan.EachWorkspaceGetsAPrefix` | runtime/internal/store/postgres.go:533-556 | the returned jobs of a workspace are a prefix of its queue in creation order |
| `FairScan.ScanFitsUnderCap` | runtime/internal/store/postgres.go:537-556 | returned and occupying jobs of a workspace together never exceed the cap |
| `FairScan.ScanFillsCap` | runtime/internal/store/postgres.go:533-556 | a scan below its limit returns, for every workspace, all its queued jobs or so many that returned and busy ones reach the cap |
| `FairScan.OlderComesFirst` | runtime/internal/store/postgres.go:554-556 | among jobs of equal rank the older one is returned first, in any workspace |
| `AdmissionScan.RankQueue` | runtime/internal/store/postgres.go:540-549 | numbering the queue in creation order per workspace gives distinct ranks without gaps, for every table |
| `AdmissionScan.ScanUnadmittedJobs` | runtime/internal/store/postgres.go:528-588 | for every table, cap and limit the query returns a fair scan |
| `Queries.SelectOrdered` | runtime/internal/store/postgres.go:533-562 | ORDER BY with LIMIT: rows in key order, no repetition, and nothing left out sorts before anything returned |
| `SchedulerModel.ExecIsRun` | runtime/internal/scheduler/scheduler.go:157-197 | a run with one sequential scheduler is a run of the general protocol |
| `JointInvariant.TripleWriteKeepsJoint` | runtime/internal/store/postgres.go:1138-1164 | a write to one intent, its attempt and its job keeps agreement of all tables if the three new values agree and the attempt is current |
| `JointInvariant.HolderIsCurrent` | runtime/internal/store/postgres.go:1254-1266 | a held claim is always about the job's current attempt, which is why writes without a state guard are safe |
| `JointInvariant.StepKeepsSystem` | runtime/internal/store/postgres.go:591-1529 | every step of the scheduler, of workers and of clients keeps the joint invariant and the facts behind the rows the scheduler still holds |
| `JointInvariant.ReachableStatesAgree` | runtime/internal/store/postgres.go:591-1529 | in every reachable state with one scheduler job state, attempt state and intent status agree, and every attempt but the current one is FAILED with a TERMINATED intent |
| `SchedulerGuarantees.NoWorkIsLost` | runtime/internal/store/postgres.go:782-831 | in every reachable state each unfinished job with an attempt is waiting to be admitted or requeued, or its current intent is claimable, found by the recovery query, or CLAIMED with a running lease by a claim that was handed out and still holds |
| `SchedulerGuarantees.OneLiveIntent` | runtime/internal/store/postgres.go:644-651 | a job never has two intents in PENDING or CLAIMED, and the live one is its current attempt's |
| `SchedulerGuarantees.SuccessIsLast` | runtime/internal/store/postgres.go:1268-1290 | an attempt that succeeded is the job's last, so at most one ever succeeds |
| `SchedulerGuarantees.StepKeepsPastStopped` | runtime/internal/store/postgres.go:1000-1036 | a step makes an attempt past only after its worker reported its end or its deletion was confirmed, if there is a deleter |
| `SchedulerGuarantees.BudgetErrorIsUnreachable` | runtime/internal/store/postgres.go:602-605 | in every reachable state a QUEUED or RETRY_WAIT job has budget for another attempt, and no scan ever taken can make admission exceed it, so the error called unreachable is unreachable |
| `OverlapLimits.ConfirmIsSafeIff` | runtime/internal/store/postgres.go:925-935 | a confirmation keeps the tables in agreement if and only if it changes nothing or the job's current intent is TERMINATED, which the statement does not test |
| `OverlapLimits.OverlappingPassesBreakAgreement` | runtime/internal/store/postgres.go:988-1045 | a concrete run with two overlapping recovery passes breaks the agreement and reaches the budget error |
| `OverlapLimits.WithoutDeleterAttemptsOverlap` | runtime/internal/store/postgres.go:1014-1022 | a concrete run without a deleter makes a second attempt due although nothing says the first has stopped |
| `OverlapLimits.AttemptsNeverOverlapIffDeleter` | runtime/internal/store/postgres.go:988-1045 | over all runs, attempt n + 1 is due only after attempt n was reported finished or confirmed deleted, if and only if the scheduler has a deleter that deletes |
| `DeadLetters.FinishedAttemptIsFrozen` | runtime/internal/store/postgres.go:1268-1276 | an attempt whose intent is finished is never written again |
| `DeadLetters.ConfirmWritesLetter` | runtime/internal/store/postgres.go:940-967 | the confirmation writes the same record as the trigger, because beginning a recovery always recorded a reason |
| `DeadLetters.DeadLettersMatchFailures` | migrations/versions/0007_add_dead_letter_records.py:48-89 | in every reachable state a job has a dead-letter record if and only if it is FAILED, and the record repeats its final attempt |
| `ConcurrencyCap.LiveIntentsHaveDistinctJobs` | runtime/internal/store/postgres.go:537-538 | there are as many live intents as jobs that have one |
| `ConcurrencyCap.CapIsNeverExceeded` | runtime/internal/scheduler/scheduler.go:128-152 | in every reachable state each workspace has at most the configured number of attempts with a PENDING or CLAIMED intent |
| `PostgresStore.SelectOldestFree` | runtime/internal/store/postgres.go:969-979 | the row to release is the workspace's oldest ACTIVE one that nobody has locked; none only if there is none |
| `PostgresStore.UpdateJobState` | migrations/versions/0007_add_dead_letter_records.py:48-89 | the state update changes nothing else, and the trigger behind it writes one record for this job exactly when the job becomes FAILED |
| `PostgresStore.FailJob` | runtime/internal/store/postgres.go:940-967 | trigger and explicit upsert together leave one record, the confirm step's |
| `PostgresStore.Store.CancelJob` | apps/api/app/api/v1/jobs.py:256-266 | accepted if and only if the job is not finished; a repeated request is accepted without a change |
| `PostgresStore.Store.CreateJobAttemptIntent` | runtime/internal/store/postgres.go:591-696 | statement by statement, commits exactly when the row can be admitted, and leaves the job ADMITTED with its next attempt, a PENDING intent and a reservation for its timeout |
| `PostgresStore.Store.ClaimNextJobAttempt` | runtime/internal/store/postgres.go:1048-1175 | claims some PENDING intent with the next epoch and a lease until now plus its length; attempt and job are STARTING; nothing only if there is none |
| `PostgresStore.Store.RenewLease` | runtime/internal/store/postgres.go:501-524 | succeeds exactly for the holder of the current epoch, and then the lease runs until now plus the extension; nothing else changes |
| `PostgresStore.Store.MarkJobAttemptRunning` | runtime/internal/store/postgres.go:1178-1235 | commits exactly under the fence and both state guards, otherwise leaves all tables |
| `PostgresStore.Store.MarkJobAttemptSucceeded` | runtime/internal/store/postgres.go:1238-1342 | commits exactly under the fence and the guard, with the oldest free reservation released or none if all are locked, otherwise rolls everything back |
| `PostgresStore.Store.MarkJobAttemptFailed` | runtime/internal/store/postgres.go:1346-1460 | commits exactly under the fence from a started or cancelled job; CANCEL_REQUESTED gives CANCELLED, otherwise a retry gives RETRY_WAIT and no record, no retry FAILED with a record; the oldest free reservation is released |
| `PostgresStore.Store.MarkJobAttemptCancelled` | runtime/internal/store/postgres.go:1463-1529 | the same for a cancellation |
| `PostgresStore.Store.BeginJobRecovery` | runtime/internal/store/postgres.go:835-906 | three guarded updates that all commit or all roll back |
| `PostgresStore.Store.ConfirmJobRecovery` | runtime/internal/store/postgres.go:910-982 | guarded by the job state alone; writes target, record and release as specified |
| `PostgresStore.Store.RequeueJob` | runtime/internal/store/postgres.go:746-759 | moves the job to QUEUED exactly if the table allows it |
| `SchedulerPass.RetryDelays` | runtime/internal/store/postgres.go:732-743 | with the base of 5 s the delays are 5, 10, 20, 40 and then 60 seconds |
| `SchedulerLoop.SelectExpired` | runtime/internal/store/postgres.go:782-831 | the recovery query returns every intent that needs recovery, once, as it is at that moment |
| `SchedulerLoop.Cluster.RecoverItem` | runtime/internal/store/postgres.go:1000-1042 | begin, delete and confirm of one item, with other processes acting before each, are a turn of the model that ends at the next item |
| `SchedulerLoop.Cluster.RecoverExpiredJobIntents` | runtime/internal/store/postgres.go:988-1045 | the pass is a run of the model in which every intent that needs recovery gets its turn, and it creates no attempt |
| `SchedulerLoop.Cluster.RequeueIfDue` | runtime/internal/store/postgres.go:732-759 | requeues exactly if the elapsed time reaches the delay of the job's attempt number |
| `SchedulerLoop.Cluster.RequeueRetryWaitJobs` | runtime/internal/store/postgres.go:699-763 | of the jobs that have waited longest, up to the limit, exactly those whose delay has elapsed are requeued, each in its turn |
| `SchedulerLoop.Cluster.RunOnce` | runtime/internal/scheduler/scheduler.go:75-155 | whatever others do in between, the scheduler takes a pass: a turn for every lost intent, for each of the 50 jobs that waited longest and for every job of a fair scan of 50; the count is the number of attempts created; agreement of the tables is kept; if nobody acts in between, lost work is recovered, due jobs are queued and every scanned job is ADMITTED with its next attempt and a PENDING intent, and the count is the number of these jobs |
| `SchedulerPass.PassCompletes` | runtime/internal/scheduler/scheduler.go:75-155 | in every reachable state a pass that nobody interrupts recovers every lost job as budget, cancellation and deletion demand, requeues every due job that waited longest, and admits every job of the fair scan over the result, touching no other job |
| `SchedulerPass.QuietItem` | runtime/internal/store/postgres.go:1000-1042 | an item that says what the tables say is always begun and, unless its deletion is still to be waited for, confirmed; its job ends CANCELLED, RETRY_WAIT or FAILED accordingly |
| `Reconcilers.Worker.StartJob` | runtime/internal/reconciler/job_reconciler.go:149-172 | before the workload starts a worker writes CANCELLED if the job is read as being cancelled; otherwise RUNNING, accepted exactly if claim, attempt and job allow it, and after a refusal CANCELLED if the job is read so then |
| `Reconcilers.StatusTextNamesCode` | runtime/internal/reconciler/job_reconciler.go:240-246 | the default reason ends with the exit code, which can be read back |
| `Reconcilers.Worker.ReconcileJob` | runtime/internal/reconciler/job_reconciler.go:140-258 | a worker writes with its own claim only and finalises at most once and last; a started workload gets exactly one final report: success for a clean exit, otherwise cancelled if the job was read so after the run, otherwise failed with its exit code, the stated reason, and a retry exactly while the budget lasts |
| `Reconcilers.ProbeRelease` | runtime/internal/reconciler/reconciler.go:134-190 | ready if and only if one of the first maxRetries probes is reached and ready; never more probes than that |
| `Reconcilers.ReconcileOne` | runtime/internal/reconciler/reconciler.go:122-222 | under a claim in force the release is HEALTHY with its intent APPLIED if it becomes ready, DEPLOY_FAILED with its intent TERMINATED otherwise; older generations are torn down exactly if this call promoted the release; without the claim nothing changes |
| `ReleaseTables.NamesAreDistinct` | runtime/internal/store/postgres.go:219 | hc-svc-{app}-{generation} determines application and generation |
| `ReleaseProtocol.StepEvolves` | runtime/internal/store/postgres.go:111-524 | no transaction removes a row, lowers a generation or an epoch, un-finishes an intent or revives a superseded release, and a release becomes deployable only together with a higher generation |
| `ReleaseProtocol.HeadStays` | runtime/internal/store/postgres.go:162-167 | as long as the generation stays, the highest-numbered deployable release stays |
| `ReleaseProtocol.FreeNumberIsNext` | apps/api/app/api/v1/webhooks.py:201-207 | a number read without a lock is free only if it is still the next one |
| `ReleaseProtocol.StepKeepsWorld` | runtime/internal/store/postgres.go:111-524 | every operation keeps numbering, origins of intents, scans, claims and the rolled-out status of claimed releases |
| `ReleaseGuarantees.OneReleasePerGeneration` | runtime/internal/store/postgres.go:217-251 | in every reachable state two service intents with the same resource name belong to the same release |
| `ReleaseGuarantees.SupersededIsAbsorbing` | runtime/internal/store/postgres.go:284-307 | a superseded release stays superseded through every run and none of its intents can be claimed or is held |
| `ReleaseGuarantees.PromotedIsNewest` | runtime/internal/store/postgres.go:435-444 | a promoted release is the newest deployable one of its application |
| `ReleaseGuarantees.ServingOnlyAdvances` | runtime/internal/store/postgres.go:394-455 | between any two points of any run the desired generation, the serving generation and the number of the serving release never go back |
| `ReleaseGuarantees.ReleaseNumbersAreGapFree` | apps/api/app/api/v1/apps.py:197-204 | in every reachable state an application's release numbers are 1..max, each once |
| `ReleaseGuarantees.StaleWebhookCommitsIff` | apps/api/app/api/v1/webhooks.py:201-287 | a webhook that read the maximum earlier commits if and only if no release was numbered since |
| `ReleaseGuarantees.EpochsHaveOneHolder` | runtime/internal/store/postgres.go:350-366 | however often an intent is re-claimed, an epoch has one holder and one claim at most is in force |
| `ReleaseGuarantees.ClaimTakesLargerEpoch` | runtime/internal/store/postgres.go:350-366 | a new claim's epoch is larger than that of every earlier claim on the intent |
| `ReleaseGuarantees.LateWritesChangeNothing` | runtime/internal/store/postgres.go:407-421 | after a claim is lost, any write with it, after any further run, changes no table |
| `ReleaseGuarantees.AtMostOneFinalisation` | runtime/internal/store/postgres.go:474-484 | a service intent is finalised at most once in any run |
| `ReleaseOutcomes.ReleaseFollowsMachine` | runtime/internal/store/postgres.go:111-524 | on any tables every operation moves every release exactly as a machine over its status says |
| `ReleaseOutcomes.HealthyWasReported` | runtime/internal/store/postgres.go:394-455 | in every run a HEALTHY release was reported healthy by a worker whose claim was in force then |
| `ReleaseOutcomes.DeployFailedWasReported` | runtime/internal/store/postgres.go:486-495 | in every run a DEPLOY_FAILED release was reported failed by a worker whose claim was in force then |
| `ReleaseOutcomes.ApplicationFollowsMachine` | runtime/internal/store/postgres.go:435-444 | the generation rises by one exactly when the application gets a release with an image; what is served changes exactly when a release of the desired generation is reported healthy |
| `ReleaseOutcomes.NewApplication` | apps/api/app/api/v1/apps.py:89-96 | a new application desires its first generation and serves nothing |
| `ReleaseOutcomes.IntentFollowsMachine` | runtime/internal/store/postgres.go:259-524 | status, lease and epoch of every intent change exactly as stated for every operation |
| `LateBuilds.BuildIsAdmittedIff` | runtime/internal/store/postgres.go:1641-1682 | a finished build's release is offered for rollout by the next scan if and only if it is newer than every deployable release; otherwise that scan supersedes it, although the generation was raised |
| `LateBuilds.StrandedUntilNextGeneration` | runtime/internal/store/postgres.go:435-444 | an application whose head is rolled out and that has no scan at the desired generation serves the same release until the next generation |
| `LateBuilds.LateBuildStrandsNewestRelease` | runtime/internal/store/postgres.go:1645-1682 | a concrete run in which a late build of an older release leaves the newest release HEALTHY and never served until the generation is raised again |
| `ReleaseStore.MaxReleaseNumber` | apps/api/app/api/v1/apps.py:197-202 | the maximum of the application's release numbers, 0 if it has none |
| `ReleaseStore.UpdateSuperseded` | runtime/internal/store/postgres.go:119-135 | comparing with the newest deployable number supersedes exactly the waiting releases that have a newer one with an image |
| `ReleaseStore.Store.Deploy` | apps/api/app/api/v1/apps.py:196-223 | takes the next number of the application, inserts the release IMAGE_READY with the client's digest and raises the generation by one |
| `ReleaseStore.Store.Rollback` | apps/api/app/api/v1/apps.py:327-365 | a new IMAGE_READY release with the target's digest and the next number, refused exactly for a target of another application |
| `ReleaseStore.Store.TriggerBuild` | apps/api/app/api/v1/apps.py:700-752 | takes the next number and leaves the generation |
| `ReleaseStore.Store.SupersedeOutdated` | runtime/internal/store/postgres.go:111-153 | both updates of the supersede transaction |
| `ReleaseStore.Store.ScanUnadmittedReleases` | runtime/internal/store/postgres.go:111-206 | after superseding, every release that is its application's newest with an image, waits and has no rollout at the desired generation is returned with that generation, up to the limit |
| `ReleaseStore.Store.CreateServiceReleaseIntent` | runtime/internal/store/postgres.go:217-251 | creates an intent exactly if none exists for release and generation |
| `ReleaseStore.Store.ClaimNextServiceRelease` | runtime/internal/store/postgres.go:259-389 | claims a PENDING or expired intent of a release that is not SUPERSEDED, with the next epoch |
| `ReleaseStore.Store.MarkReleaseHealthy` | runtime/internal/store/postgres.go:394-455 | commits exactly under the fence: release HEALTHY, intent APPLIED; it becomes current exactly when its generation is still the desired one |
| `ReleaseStore.Store.MarkReleaseFailed` | runtime/internal/store/postgres.go:459-498 | commits exactly under the fence: release DEPLOY_FAILED, intent TERMINATED, applications unchanged |
| `ReleaseStore.Store.ClaimNextBuildRelease` | runtime/internal/store/postgres.go:1543-1639 | claims some release that waits for its image; nothing only if there is none |
| `ReleaseStore.Store.MarkBuildSucceeded` | runtime/internal/store/postgres.go:1645-1682 | image and generation change together, exactly for a release in BUILDING |
| `ReleaseStore.Store.MarkBuildFailed` | runtime/internal/store/postgres.go:1732-1762 | BUILD_FAILED exactly for a release in BUILDING |
| `Idempotency.StepKeepsWorld` | apps/api/app/core/idempotency.py:33-150 | every step of any number of concurrent requests keeps the invariant over records, jobs, events and what requests were told |
| `Idempotency.SubmissionsAreApart` | apps/api/app/core/idempotency.py:79-103 | two jobs submitted with the same key were prepared at least 24 hours apart, in any interleaving |
| `Idempotency.OneJobWhileUnexpired` | apps/api/app/api/v1/jobs.py:80-141 | while the record is unexpired exactly one job of the key is younger than 24 hours, the one the record names, with one event |
| `Idempotency.AcceptedNamesOwnSubmission` | apps/api/app/core/idempotency.py:57-68 | every accepted answer, own or replayed, names a committed job with the same key and payload |
| `Idempotency.ConflictMeansOtherPayload` | apps/api/app/core/idempotency.py:137-150 | a conflict is answered only if the key was used with another payload; the race handler always finds a record |
| `Idempotency.AnswerWhileUnexpired` | apps/api/app/core/idempotency.py:33-76 | while the record is unexpired every answer is the recorded job for the same payload and a conflict for another |
| `Idempotency.CheckAnswersIff` | apps/api/app/core/idempotency.py:49-76 | the check answers if and only if the key has an unexpired record; otherwise the request goes on and an expired record is marked for deletion |
| `Idempotency.RaceAnswersIff` | apps/api/app/core/idempotency.py:111-150 | after a lost race the record that won decides: its job for the same payload, a conflict for another, whatever its age |
| `Idempotency.FreshKeyIsAccepted` | apps/api/app/core/idempotency.py:57-103 | in any interleaving, a request that finds no record or an expired one, and whose key nobody else commits in between, is accepted with its own new job, one event and a record that holds for 24 hours |
| `Idempotency.AcceptedTogetherIsSameJob` | apps/api/app/core/idempotency.py:111-144 | two accepted requests with one key get the same job unless the jobs are 24 hours apart |
| `Outbox.BackoffStaysBelowCap` | apps/api/app/workers/outbox_dispatcher.py:176-178 | the delay doubles up to 256 seconds; the cap of 300 is never reached |
| `Outbox.BackoffDoubles` | apps/api/app/workers/outbox_dispatcher.py:176-178 | 2 s after the first failure, doubled with each further one, 256 s from the eighth on |
| `Outbox.StepKeepsWorld` | apps/api/app/workers/outbox_dispatcher.py:86-192 | every step of concurrent drains, crashes, purges and requeues keeps locks exclusive and acknowledged events in the stream |
| `Outbox.DeletedOnlyAfterAck` | apps/api/app/workers/outbox_dispatcher.py:236-253 | an inserted event is still a row or was acknowledged, and whatever was acknowledged has its message in the stream |
| `Outbox.HeldAtMostOnce` | apps/api/app/workers/outbox_dispatcher.py:121-130 | the stream holds no event twice, however often it was published |
| `Outbox.AckedIsHeldIff` | apps/api/app/workers/outbox_dispatcher.py:121-142 | in every run an acknowledged event is in the stream exactly once if and only if no other event's message was stored under its message id |
| `Outbox.AckedIsHeldOnce` | apps/api/app/workers/outbox_dispatcher.py:132-142 | an acknowledged event is in the stream exactly once if no two events inserted in the run share a message id |
| `MessageIds.SharedIdLosesEvent` | apps/api/app/workers/outbox_dispatcher.py:121-130 | for any message ids of which two are equal, a run that ends with an event PUBLISHED and not in the stream |
| `MessageIds.DeliversIffMsgIdsDistinct` | apps/api/app/workers/outbox_dispatcher.py:86-192 | every run that inserts events with given message ids holds every acknowledged event exactly once, if and only if the ids are distinct |
| `MessageIds.PlainHeadersDeliver` | apps/api/app/core/events.py:31-34 | in every run whose events carry no Nats-Msg-Id header, as none of the repository's producers writes one, every acknowledged event is in the stream exactly once |
| `Outbox.TransientNeverFails` | apps/api/app/workers/outbox_dispatcher.py:173-179 | without a permanent failure no event ever becomes FAILED, in any run |
| `Outbox.Dispatcher.DispatchEvent` | apps/api/app/workers/outbox_dispatcher.py:120-187 | one turn of the loop stores the message exactly if it reached the broker and is new, and records the outcome on this row only: PUBLISHED now, FAILED, or PENDING with the next delay |
| `Outbox.Dispatcher.DrainBatch` | apps/api/app/workers/outbox_dispatcher.py:86-192 | exactly the rows of the batch record their own outcomes, every acknowledged message is in the stream, and the number of acknowledgements is returned |
| `Outbox.Dispatcher.DrainDue` | apps/api/app/workers/outbox_dispatcher.py:86-192 | every event that is due and locked by nobody is published, up to the limit, and records its outcome; all other rows stay |
| `Outbox.Dispatcher.RequeueFailed` | apps/api/app/workers/outbox_dispatcher.py:256-275 | the FAILED rows asked for, or all, are PENDING, due at once and without retries; no other row changes |
| `Outbox.DrainIsRun` | apps/api/app/workers/outbox_dispatcher.py:86-192 | the loop does what the interleaved model does when nothing comes between |
| `Outbox.SelectLocksIff` | apps/api/app/workers/outbox_dispatcher.py:99-114 | a drain locks a batch if and only if its rows are distinct, PENDING, due, and locked by nobody |
| `Outbox.InsertedIsWaiting` | apps/api/app/core/events.py:36-49 | a new event is PENDING, without retries and due at once |
| `Outbox.WaitingIsPublished` | apps/api/app/workers/outbox_dispatcher.py:132-142 | from any state, a due event that nobody has locked is PUBLISHED and in the stream after one acknowledged drain |
| `Outbox.CrashedDrainCanBeRepeated` | apps/api/app/workers/outbox_dispatcher.py:97-98 | a drain that crashes before its commit leaves every row as it was and free to be drained again |
| `Outbox.Dispatcher.PurgeExpired` | apps/api/app/workers/outbox_dispatcher.py:236-253 | removes exactly the PUBLISHED rows past retention and returns how many |
| `Base64Url.DecodeEncode` | apps/api/app/core/pagination.py:11 | decoding undoes encoding for every byte sequence (section 5 of RFC 4648) |
| `Base64Url.RepadRestores` | apps/api/app/core/pagination.py:18 | however much of the padding was stripped, re-padding restores the encoding |
| `Base64Url.Vectors` | apps/api/app/core/pagination.py:11 | test vectors of section 10 of RFC 4648 and the two URL safe symbols |
| `FixedText.ReadWrite` | apps/api/app/core/pagination.py:10 | reading a text of padded numbers and literals gives the numbers back |
| `Cursors.ParseFormattedTime` | apps/api/app/core/pagination.py:23 | a formatted UTC timestamp is read back, with or without a fraction |
| `Cursors.IsoShape` | apps/api/app/core/pagination.py:10 | for every valid time the text is date, clock, six digits of fraction unless they are zero, and +00:00 |
| `Cursors.UuidShape` | apps/api/app/core/pagination.py:10 | for every id the text is 8-4-4-4-12 hexadecimal digits |
| `Cursors.CursorRoundTrip` | apps/api/app/core/pagination.py:8-35 | a cursor, with any part of its padding stripped, decodes to its position if and only if the year is 1970 or later, and is refused otherwise |
| `Paging.CursorsLeadOn` | apps/api/app/api/v1/jobs.py:462-482 | following next_cursor is going on after the last row of each page |
| `Paging.NextStartsAfterLast` | apps/api/app/core/pagination.py:8-35 | next_cursor leads on after the page's last row, and is refused if and only if that row is from before 1970 |
| `Paging.WalkIff` | apps/api/app/api/v1/jobs.py:462-482 | a client gets through a sequence of pages with cursors if and only if each page goes on after the last and no page but the last ends before 1970 |
| `Paging.WalkExists` | apps/api/app/api/v1/jobs.py:462-482 | every table has its pages for every limit, and they can be followed to the end if and only if no page but the last ends before 1970 |
| `Paging.PagingIsExact` | apps/api/app/api/v1/jobs.py:462-482 | for every table with representable times, following next_cursor until it is null returns rows newest first, none twice, every row present from the start and only rows of the table, although rows are inserted in between |
| `Calendar.OlderIsEarlier` | apps/api/app/api/v1/jobs.py:462-473 | a row sorts after another if and only if it was created earlier in microseconds on the calendar, or at the same time with the smaller id |
| `Calendar.NewestFirstIsByTime` | apps/api/app/api/v1/jobs.py:462-473 | along a listing creation times never increase, and ids decrease where times are equal |
| `Paging.WalkIsShort` | apps/api/app/api/v1/jobs.py:475-482 | every page but the last is full, so the walk ends |

## Left out

- PostgreSQL itself: transactions are atomic, row locks and unique constraints are taken as given, and which rows
  others have locked when a SKIP LOCKED query runs is an argument.
- Kubernetes, Docker, BuildKit, Git, NATS and HTTP: what a runner, deleter, probe or publish returns is an argument.  A
  deleter that reports success counts as having stopped the workload.
- The broker's deduplication window: the modelled stream never forgets a message id.
- Several schedulers with overlapping passes: only the results stated for any number of schedulers are claimed for them.
- What the teardown of old generations removes: it runs after commit and outside any fence.
- SchedulerLoop.Cluster.RunOnce: does not make the service calls of the pass, because they work on other tables; these
  calls are operations of `ReleaseProtocol` and may come at any time there.
- The executor's heartbeat and poll loops and the build reconciler: they only choose when to call what is modelled.
- Audit events and rate limits.
- Reservations of other classes than CONCURRENT_JOB, and the workspace quota checks of the API.
- ReleaseGuarantees.StaleWebhookCommitsIff: one application's release insert; the unique delivery row and deliveries that
  match several applications, whose inserts commit together, are not modelled.
- PostgresStore.Store.ClaimNextJobAttempt: any PENDING intent may be taken, because creation times of intents and the
  executor's workspace filter are not modelled; the run results hold for every choice.
- ReleaseStore.Store.ClaimNextServiceRelease: any claimable intent may be taken, because creation times of intents are not
  modelled; the run results hold for every choice.
- ReleaseStore.Store.ClaimNextBuildRelease: any waiting release may be taken, because creation times are not modelled;
  that the release has a repository is not tested.
- SchedulerLoop.SelectExpired: the rows come in any order, because creation times of intents are not modelled.
- PostgresStore.Store.MarkJobAttemptSucceeded: the outbox event written by the same transaction is not modelled.
- PostgresStore.Store.MarkJobAttemptFailed: the outbox event written by the same transaction is not modelled.
- Outbox.Dispatcher.DrainDue: any due rows may come first, because creation times of events are not modelled.
- ReleaseStore.Store.ScanUnadmittedReleases: the rows come in any order, because creation times are not modelled.
- JobStates.LegalSourcesSQL: does not sort the list, because the order of an IN list has no effect.
- Cursors.DecodeCursor: refuses characters outside the base 64 alphabet, offsets other than zero and the alternative
  spellings of timestamps and UUIDs that Python's parsers accept; the round trip of every cursor the API issues is not
  affected.
- Idempotency: the payload hash is a value; that different payloads have different hashes is not claimed.
- Liveness: what a step, a pass or a drain achieves is stated, not that it is ever taken; jobs cancelled before their
  first admission stay as they are.
- Authentication, roles, image policy, redaction, telemetry, configuration and the web console.
