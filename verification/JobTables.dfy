/**
 The five tables of the job execution protocol and, for each store transaction, when it
 commits and what it leaves in the tables.  A transaction that returns an error or finds
 no row to change rolls back, so it leaves the tables as they were.
 */
module JobTables {
  import opened Options
  import opened JobStates

  type WorkspaceId = nat
  type JobId = nat
  type AttemptId = nat
  type IntentId = nat
  type ReservationId = nat
  type WorkerId = nat

  datatype Job = Job(
    workspace: WorkspaceId,
    state: JobState,
    attempt: nat,  // current_attempt_number
    maxRetries: nat,
    timeoutSeconds: int,
    createdAt: int,
    updatedAt: int)

  datatype Attempt = Attempt(
    job: JobId,
    number: nat,
    state: JobState,
    epoch: nat,
    exitCode: Option<int>,
    reason: Option<string>)

  datatype IntentStatus = Pending | Claimed | Applied | Terminated

  datatype Intent = Intent(
    attempt: AttemptId,
    status: IntentStatus,
    epoch: nat,
    holder: Option<WorkerId>,
    leaseExpires: Option<int>)
  {
    predicate Live() {
      status.Pending? || status.Claimed?
    }

    predicate LeaseExpired(now: int) {
      leaseExpires.Some? && leaseExpires.value < now
    }
  }

  datatype ReservationStatus = Active | Released | Expired

  /** A CONCURRENT_JOB row of `quota_reservations`. */
  datatype Reservation = Reservation(
    workspace: WorkspaceId,
    status: ReservationStatus,
    expiresAt: int,
    createdAt: int)

  datatype DeadLetter = DeadLetter(
    workspace: WorkspaceId,
    lastAttempt: nat,
    exitCode: Option<int>,
    reason: Option<string>)

  /** `dead_letter_records` is keyed by its unique job_id. */
  datatype Db = Db(
    jobs: map<JobId, Job>,
    attempts: map<AttemptId, Attempt>,
    intents: map<IntentId, Intent>,
    reservations: map<ReservationId, Reservation>,
    deadLetters: map<JobId, DeadLetter>)

  const EMPTY_DB: Db := Db(map[], map[], map[], map[], map[])

  /** A row returned by `ScanUnadmittedJobs`; it may be stale when it is used. */
  datatype UnadmittedJob = UnadmittedJob(
    job: JobId,
    workspace: WorkspaceId,
    maxRetries: nat,
    attempt: nat,
    timeoutSeconds: int)

  /** What a worker holds after `ClaimNextJobAttempt`: its claim, fenced by the epoch. */
  datatype Token = Token(
    intent: IntentId,
    attempt: AttemptId,
    job: JobId,
    number: nat,
    maxRetries: nat,
    epoch: nat,
    holder: WorkerId)

  /** A row returned by `FindExpiredJobIntents`; it may be stale when it is used. */
  datatype RecoveryItem = RecoveryItem(
    intent: IntentId,
    attempt: AttemptId,
    job: JobId,
    number: nat,
    maxRetries: nat,
    epoch: nat,
    jobState: JobState,
    needsBegin: bool,
    jobUpdatedAt: int)

  const LEASE_LOST := "Worker lease expired; executor lost"
  const CANCEL_CONFIRMED := "Job cancellation confirmed during recovery"
  const FAILED_DEFAULT := "Job reached FAILED state"
  const RECOVERY_TIMEOUT := 300

  // ---------------------------------------------------------------- API requests

  function SubmitTx(db: Db, id: JobId, ws: WorkspaceId, maxRetries: nat, timeout: int, now: int): Db {
    if id in db.jobs then db
    else db.(jobs := db.jobs[id := Job(ws, Queued, 0, maxRetries, timeout, now, now)])
  }

  /** `cancel_job`: repeated requests are accepted without a change; terminal jobs refuse. */
  function CancelTx(db: Db, id: JobId, now: int): Db {
    if id in db.jobs && Legal(db.jobs[id].state, CancelRequested)
    then SetJobState(db, id, CancelRequested, now)
    else db
  }

  function SetJobState(db: Db, id: JobId, state: JobState, now: int): Db
    requires id in db.jobs
  {
    db.(jobs := db.jobs[id := db.jobs[id].(state := state, updatedAt := now)])
  }

  // ---------------------------------------------------------------- admission

  function SnapshotJob(db: Db, id: JobId): UnadmittedJob
    requires id in db.jobs
  {
    var j := db.jobs[id];
    UnadmittedJob(id, j.workspace, j.maxRetries, j.attempt, j.timeoutSeconds)
  }

  predicate InSlot(db: Db, a: AttemptId, job: JobId, number: int) {
    a in db.attempts && db.attempts[a].job == job && db.attempts[a].number == number
  }

  predicate AttemptExists(db: Db, job: JobId, number: int) {
    exists a :: a in db.attempts && InSlot(db, a, job, number)
  }

  predicate AdmitOk(db: Db, s: UnadmittedJob, aid: AttemptId, iid: IntentId, rid: ReservationId) {
    && s.attempt + 1 <= s.maxRetries + 1
    && !AttemptExists(db, s.job, s.attempt + 1)
    && s.job in db.jobs
    && Legal(db.jobs[s.job].state, Admitted)
    && aid !in db.attempts && iid !in db.intents && rid !in db.reservations
  }

  function ReservationTtl(timeout: int): int {
    if timeout <= 0 then 600 else timeout
  }

  function ExpireReservations(rs: map<ReservationId, Reservation>, ws: WorkspaceId, now: int)
    : map<ReservationId, Reservation>
  {
    map r | r in rs ::
      if rs[r].workspace == ws && rs[r].status.Active? && rs[r].expiresAt <= now
      then rs[r].(status := Expired) else rs[r]
  }

  /** `CreateJobAttemptIntent`. */
  function AdmitTx(db: Db, s: UnadmittedJob, aid: AttemptId, iid: IntentId, rid: ReservationId, now: int): Db {
    if !AdmitOk(db, s, aid, iid, rid) then db
    else
      var j := db.jobs[s.job];
      db.(jobs := db.jobs[s.job := j.(state := Admitted, attempt := s.attempt + 1, updatedAt := now)],
          attempts := db.attempts[aid := Attempt(s.job, s.attempt + 1, Admitted, 0, None, None)],
          intents := db.intents[iid := Intent(aid, Pending, 0, None, None)],
          reservations := ExpireReservations(db.reservations, s.workspace, now)
                          [rid := Reservation(s.workspace, Active, now + ReservationTtl(s.timeoutSeconds), now)])
  }

  // ---------------------------------------------------------------- claim and lease

  /** An intent that `ClaimNextJobAttempt` may select; its two inner joins need both rows. */
  predicate Claimable(db: Db, iid: IntentId) {
    && iid in db.intents
    && db.intents[iid].status.Pending?
    && db.intents[iid].attempt in db.attempts
    && db.attempts[db.intents[iid].attempt].job in db.jobs
  }

  function ClaimToken(db: Db, iid: IntentId, worker: WorkerId): Token
    requires Claimable(db, iid)
  {
    var i := db.intents[iid];
    var a := db.attempts[i.attempt];
    Token(iid, i.attempt, a.job, a.number, db.jobs[a.job].maxRetries, i.epoch + 1, worker)
  }

  /** The attempt write is unguarded; the job moves only from ADMITTED. */
  function ClaimTx(db: Db, iid: IntentId, worker: WorkerId, lease: int, now: int): Db
    requires Claimable(db, iid)
  {
    var i := db.intents[iid];
    var a := db.attempts[i.attempt];
    var j := db.jobs[a.job];
    db.(intents := db.intents[iid := i.(status := Claimed, holder := Some(worker), epoch := i.epoch + 1,
                                        leaseExpires := Some(now + lease))],
        attempts := db.attempts[i.attempt := a.(state := Starting, epoch := i.epoch + 1)],
        jobs := if j.state.Admitted? then db.jobs[a.job := j.(state := Starting, updatedAt := now)]
                else if j.state.CancelRequested? then db.jobs[a.job := j.(updatedAt := now)]
                else db.jobs)
  }

  /** The fence of every write by a claim holder. */
  predicate Holds(db: Db, t: Token) {
    && t.epoch > 0
    && t.intent in db.intents
    && db.intents[t.intent].epoch == t.epoch
    && db.intents[t.intent].status.Claimed?
  }

  function RenewTx(db: Db, t: Token, extension: int, now: int): Db {
    if !Holds(db, t) then db
    else db.(intents := db.intents[t.intent := db.intents[t.intent].(leaseExpires := Some(now + extension))])
  }

  // ---------------------------------------------------------------- outcome reports

  predicate RunningOk(db: Db, t: Token) {
    && Holds(db, t)
    && t.attempt in db.attempts && db.attempts[t.attempt].state.Starting?
    && t.job in db.jobs && Legal(db.jobs[t.job].state, Running)
  }

  function RunningTx(db: Db, t: Token, now: int): Db {
    if !RunningOk(db, t) then db
    else
      SetJobState(db.(attempts := db.attempts[t.attempt := db.attempts[t.attempt].(state := Running)]),
                  t.job, Running, now)
  }

  predicate IsActiveIn(rs: map<ReservationId, Reservation>, ws: WorkspaceId, r: ReservationId) {
    r in rs && rs[r].workspace == ws && rs[r].status.Active?
  }

  /** The release statement found an ACTIVE row of the workspace that nobody else had locked. */
  predicate FindsRow(rs: map<ReservationId, Reservation>, ws: WorkspaceId, pick: Option<ReservationId>) {
    pick.Some? && IsActiveIn(rs, ws, pick.value)
  }

  /** FOR UPDATE SKIP LOCKED: when others hold every ACTIVE row the statement finds none and releases nothing. */
  function ReleaseOne(rs: map<ReservationId, Reservation>, ws: WorkspaceId, pick: Option<ReservationId>)
    : map<ReservationId, Reservation>
  {
    if FindsRow(rs, ws, pick) then rs[pick.value := rs[pick.value].(status := Released)] else rs
  }

  predicate SucceededOk(db: Db, t: Token) {
    && Holds(db, t)
    && t.attempt in db.attempts
    && t.job in db.jobs && InLegalSources(db.jobs[t.job].state, SUCCESS_TARGETS)
  }

  function SucceededTx(db: Db, t: Token, pick: Option<ReservationId>, now: int): Db {
    if !SucceededOk(db, t) then db
    else
      var j := db.jobs[t.job];
      db.(intents := db.intents[t.intent := db.intents[t.intent].(status := Applied)],
          attempts := db.attempts[t.attempt := db.attempts[t.attempt].(state := Succeeded, exitCode := Some(0))],
          jobs := db.jobs[t.job := j.(state := SuccessTarget(j.state), updatedAt := now)],
          reservations := ReleaseOne(db.reservations, j.workspace, pick))
  }

  predicate FailedOk(db: Db, t: Token) {
    && Holds(db, t)
    && t.job in db.jobs && InLegalSources(db.jobs[t.job].state, FAILURE_TARGETS)
  }

  function FailedTx(db: Db, t: Token, reason: string, exitCode: int, shouldRetry: bool,
                    pick: Option<ReservationId>, now: int): Db
  {
    if !FailedOk(db, t) then db
    else
      var j := db.jobs[t.job];
      var target := FailureTarget(j.state, shouldRetry);
      db.(intents := db.intents[t.intent := db.intents[t.intent].(status := Terminated)],
          attempts := if t.attempt !in db.attempts then db.attempts
                      else db.attempts[t.attempt := db.attempts[t.attempt].(
                             state := Failed, exitCode := Some(exitCode), reason := Some(reason))],
          jobs := db.jobs[t.job := j.(state := target, updatedAt := now)],
          deadLetters := if target.Failed?
                         then db.deadLetters[t.job := DeadLetter(j.workspace, j.attempt, Some(exitCode), Some(reason))]
                         else db.deadLetters,
          reservations := ReleaseOne(db.reservations, j.workspace, pick))
  }

  predicate CancelledOk(db: Db, t: Token) {
    && Holds(db, t)
    && t.job in db.jobs && InLegalSources(db.jobs[t.job].state, {Cancelled})
  }

  function CancelledTx(db: Db, t: Token, pick: Option<ReservationId>, now: int): Db {
    if !CancelledOk(db, t) then db
    else
      var j := db.jobs[t.job];
      db.(intents := db.intents[t.intent := db.intents[t.intent].(status := Terminated)],
          attempts := if t.attempt !in db.attempts then db.attempts
                      else db.attempts[t.attempt := db.attempts[t.attempt].(state := Cancelled)],
          jobs := db.jobs[t.job := j.(state := Cancelled, updatedAt := now)],
          reservations := ReleaseOne(db.reservations, j.workspace, pick))
  }

  // ---------------------------------------------------------------- recovery and requeue

  /** The WHERE clause of `FindExpiredJobIntents`. */
  predicate NeedsRecovery(db: Db, iid: IntentId, now: int) {
    && iid in db.intents
    && var i := db.intents[iid];
    && i.attempt in db.attempts
    && var a := db.attempts[i.attempt];
    && a.job in db.jobs
    && var j := db.jobs[a.job];
    && a.number == j.attempt
    && (|| (i.status.Claimed? && i.LeaseExpired(now) &&
            (j.state.Starting? || j.state.Running? || j.state.CancelRequested?))
        || j.state.RecoveryPending?
        || (i.status.Terminated? && (j.state.Starting? || j.state.Running? || j.state.CancelRequested?)))
  }

  function SnapshotExpired(db: Db, iid: IntentId, now: int): RecoveryItem
    requires NeedsRecovery(db, iid, now)
  {
    var i := db.intents[iid];
    var a := db.attempts[i.attempt];
    var j := db.jobs[a.job];
    RecoveryItem(iid, i.attempt, a.job, a.number, j.maxRetries, i.epoch, j.state,
                 i.status.Claimed? && i.LeaseExpired(now), j.updatedAt)
  }

  predicate BeginOk(db: Db, it: RecoveryItem, now: int) {
    && (it.jobState.Running? ==> it.job in db.jobs && Legal(db.jobs[it.job].state, RecoveryPending))
    && it.attempt in db.attempts && (db.attempts[it.attempt].state.Starting? || db.attempts[it.attempt].state.Running?)
    && it.intent in db.intents
    && db.intents[it.intent].epoch == it.epoch
    && db.intents[it.intent].status.Claimed?
    && db.intents[it.intent].LeaseExpired(now)
  }

  /** `BeginJobRecovery`: only an item seen RUNNING moves the job. */
  function BeginTx(db: Db, it: RecoveryItem, now: int): Db {
    if !BeginOk(db, it, now) then db
    else
      db.(intents := db.intents[it.intent := db.intents[it.intent].(status := Terminated)],
          attempts := db.attempts[it.attempt :=
                        if it.jobState.CancelRequested?
                        then db.attempts[it.attempt].(state := Cancelled, exitCode := Some(130),
                                                           reason := Some(CANCEL_CONFIRMED))
                        else db.attempts[it.attempt].(state := Failed, exitCode := Some(-1),
                                                           reason := Some(LEASE_LOST))],
          jobs := if it.jobState.Running?
                  then db.jobs[it.job := db.jobs[it.job].(state := RecoveryPending, updatedAt := now)]
                  else db.jobs)
  }

  predicate ConfirmOk(db: Db, job: JobId, shouldRetry: bool, isCancel: bool) {
    && job in db.jobs
    && Legal(db.jobs[job].state, RecoveryTarget(shouldRetry, isCancel))
  }

  /** The reason the confirm step records: the attempt's own, or a default when it has none. */
  function DeadLetterReason(reason: Option<string>): string {
    if reason.Some? && reason.value != "" then reason.value else FAILED_DEFAULT
  }

  /** The dead letter of a job whose current attempt is `att` (None if that row is missing). */
  function ConfirmLetter(j: Job, att: Option<Attempt>): DeadLetter {
    match att
    case None => DeadLetter(j.workspace, j.attempt, None, Some(FAILED_DEFAULT))
    case Some(a) => DeadLetter(j.workspace, j.attempt, a.exitCode, Some(DeadLetterReason(a.reason)))
  }

  /** The row that the trigger fn_jobs_insert_dead_letter writes, given the job's current attempt. */
  function TriggerLetter(j: Job, att: Option<Attempt>): DeadLetter {
    match att
    case None => DeadLetter(j.workspace, j.attempt, None, Some(FAILED_DEFAULT))
    case Some(a) => DeadLetter(j.workspace, j.attempt, a.exitCode, a.reason)
  }

  /** `SELECT ... FROM job_attempts WHERE job_id = .. AND attempt_number = ..`. */
  predicate IsCurrentAttempt(db: Db, job: JobId, aid: AttemptId) {
    && job in db.jobs && aid in db.attempts
    && db.attempts[aid].job == job && db.attempts[aid].number == db.jobs[job].attempt
  }

  /** `cur` is the row the lookup of the current attempt returns. */
  predicate CurrentRowOk(db: Db, job: JobId, cur: Option<AttemptId>) {
    match cur
    case Some(aid) => IsCurrentAttempt(db, job, aid)
    case None => forall aid :: aid in db.attempts ==> !IsCurrentAttempt(db, job, aid)
  }

  /** `ConfirmJobRecovery`: guarded by the job's state alone. */
  function ConfirmTx(db: Db, job: JobId, shouldRetry: bool, isCancel: bool,
                     cur: Option<AttemptId>, pick: Option<ReservationId>, now: int): Db
  {
    if !ConfirmOk(db, job, shouldRetry, isCancel) || !CurrentRowOk(db, job, cur) then db
    else
      var j := db.jobs[job];
      var target := RecoveryTarget(shouldRetry, isCancel);
      var att := if cur.Some? then Some(db.attempts[cur.value]) else None;
      db.(jobs := db.jobs[job := j.(state := target, updatedAt := now)],
          deadLetters := if target.Failed? then db.deadLetters[job := ConfirmLetter(j, att)] else db.deadLetters,
          reservations := ReleaseOne(db.reservations, j.workspace, pick))
  }

  /** One UPDATE of `RequeueRetryWaitJobs`. */
  function RequeueTx(db: Db, job: JobId, now: int): Db {
    if job in db.jobs && Legal(db.jobs[job].state, Queued)
    then SetJobState(db, job, Queued, now)
    else db
  }
}
