/**
 What each job transaction means, row by row: from which states it commits, what it writes there and what it
 leaves alone.  The statements name states and values only; the transactions of JobTables are proved to
 satisfy them.
 */
module JobEffects {
  import opened Options
  import opened Rows
  import opened JobStates
  import opened JobTables

  /** The job moved to `state` at time `now`, and nothing else about any job changed. */
  predicate MovesJob(db: Db, db': Db, job: JobId, state: JobState, now: int) {
    && job in db.jobs && OnlyRow(db.jobs, db'.jobs, job)
    && db'.jobs[job] == db.jobs[job].(state := state, updatedAt := now)
  }

  predicate WritesAttempt(db: Db, db': Db, a: AttemptId, row: Attempt) {
    a in db.attempts && OnlyRow(db.attempts, db'.attempts, a) && db'.attempts[a] == row
  }

  predicate SetsIntent(db: Db, db': Db, i: IntentId, status: IntentStatus) {
    i in db.intents && OnlyRow(db.intents, db'.intents, i) && db'.intents[i] == db.intents[i].(status := status)
  }

  // ---------------------------------------------------------------- requests of clients

  /** A submitted job waits in the queue; an id that is taken changes nothing. */
  lemma SubmitMeans(db: Db, id: JobId, ws: WorkspaceId, maxRetries: nat, timeout: int, now: int)
    ensures var db' := SubmitTx(db, id, ws, maxRetries, timeout, now);
            && (id in db.jobs ==> db' == db)
            && (id !in db.jobs ==> db' == db.(jobs := db.jobs[id := Job(ws, Queued, 0, maxRetries, timeout, now, now)]))
  {
  }

  /**
   After a cancellation request a job is CANCEL_REQUESTED if and only if it was not finished; a finished job and every
   other row stay as they were.
   */
  lemma CancelMeans(db: Db, id: JobId, now: int)
    requires id in db.jobs
    ensures var db' := CancelTx(db, id, now);
            && id in db'.jobs
            && (db'.jobs[id].state.CancelRequested? <==>
                  db.jobs[id].state !in {Succeeded, Failed, Cancelled})
            && (db.jobs[id].state in {Succeeded, Failed, Cancelled, CancelRequested} ==> db' == db)
            && (db' != db ==> MovesJob(db, db', id, CancelRequested, now))
            && db'.attempts == db.attempts && db'.intents == db.intents
            && db'.reservations == db.reservations && db'.deadLetters == db.deadLetters
  {
  }

  // ---------------------------------------------------------------- admission, claim, lease

  predicate Admissible(db: Db, s: UnadmittedJob) {
    && s.attempt <= s.maxRetries
    && (forall a :: a in db.attempts ==> !(db.attempts[a].job == s.job && db.attempts[a].number == s.attempt + 1))
    && s.job in db.jobs && db.jobs[s.job].state.Queued?
  }

  predicate AdmissionLeaves(db: Db, db': Db, s: UnadmittedJob, aid: AttemptId, iid: IntentId, now: int) {
    && s.job in db.jobs && OnlyRow(db.jobs, db'.jobs, s.job)
    && db'.jobs[s.job] == db.jobs[s.job].(state := Admitted, attempt := s.attempt + 1, updatedAt := now)
    && db'.attempts == db.attempts[aid := Attempt(s.job, s.attempt + 1, Admitted, 0, None, None)]
    && db'.intents == db.intents[iid := Intent(aid, Pending, 0, None, None)]
    && db'.deadLetters == db.deadLetters
  }

  /** A reservation for the job's timeout, 600 s if it has none; the workspace's overdue rows are expired. */
  predicate ReservationIsMade(rs: map<ReservationId, Reservation>, rs': map<ReservationId, Reservation>,
                              s: UnadmittedJob, rid: ReservationId, now: int) {
    && rs'.Keys == rs.Keys + {rid}
    && rs'[rid] == Reservation(s.workspace, Active, now + (if s.timeoutSeconds > 0 then s.timeoutSeconds else 600), now)
    && forall r :: r in rs && r != rid ==>
         rs'[r] == if rs[r].workspace == s.workspace && rs[r].status.Active? && rs[r].expiresAt <= now
                   then rs[r].(status := Expired) else rs[r]
  }

  lemma AdmissionCommitsIff(db: Db, s: UnadmittedJob, aid: AttemptId, iid: IntentId, rid: ReservationId)
    requires aid !in db.attempts && iid !in db.intents && rid !in db.reservations
    ensures AdmitOk(db, s, aid, iid, rid) <==> Admissible(db, s)
  {
    if a :| a in db.attempts && db.attempts[a].job == s.job && db.attempts[a].number == s.attempt + 1 {
      assert InSlot(db, a, s.job, s.attempt + 1);
    }
  }

  lemma AdmissionMeans(db: Db, s: UnadmittedJob, aid: AttemptId, iid: IntentId, rid: ReservationId, now: int)
    requires aid !in db.attempts && iid !in db.intents && rid !in db.reservations
    ensures var db' := AdmitTx(db, s, aid, iid, rid, now);
            if Admissible(db, s)
            then AdmissionLeaves(db, db', s, aid, iid, now)
                 && ReservationIsMade(db.reservations, db'.reservations, s, rid, now)
            else db' == db
  {
    AdmissionCommitsIff(db, s, aid, iid, rid);
  }

  /** `t` is the claim on the row as it was, and the row, its attempt and its job say so. */
  predicate ClaimLeaves(db: Db, db': Db, t: Token, lease: int, now: int) {
    && t.intent in db.intents && db.intents[t.intent].status.Pending? && t.epoch == db.intents[t.intent].epoch + 1
    && OnlyRow(db.intents, db'.intents, t.intent)
    && db'.intents[t.intent] == Intent(t.attempt, Claimed, t.epoch, Some(t.holder), Some(now + lease))
    && t.attempt in db.attempts && t.job == db.attempts[t.attempt].job && t.number == db.attempts[t.attempt].number
    && WritesAttempt(db, db', t.attempt, db.attempts[t.attempt].(state := Starting, epoch := t.epoch))
    && t.job in db.jobs && t.maxRetries == db.jobs[t.job].maxRetries && OnlyRow(db.jobs, db'.jobs, t.job)
    && db'.jobs[t.job].(updatedAt := 0) ==
       db.jobs[t.job].(state := if db.jobs[t.job].state == Admitted then Starting else db.jobs[t.job].state,
                       updatedAt := 0)
    && db'.jobs[t.job].updatedAt == (if db.jobs[t.job].state in {Admitted, CancelRequested} then now
                                     else db.jobs[t.job].updatedAt)
    && db'.reservations == db.reservations && db'.deadLetters == db.deadLetters
  }

  lemma ClaimMeans(db: Db, iid: IntentId, worker: WorkerId, lease: int, now: int)
    requires Claimable(db, iid)
    ensures var t := ClaimToken(db, iid, worker);
            t.intent == iid && t.holder == worker && t.attempt == db.intents[iid].attempt
            && ClaimLeaves(db, ClaimTx(db, iid, worker, lease, now), t, lease, now)
  {
  }

  /** The claim's epoch is the intent's, and the intent is still claimed. */
  predicate InForce(intents: map<IntentId, Intent>, t: Token) {
    t.epoch > 0 && t.intent in intents && intents[t.intent].epoch == t.epoch && intents[t.intent].status == Claimed
  }

  /** A renewal by the holder of the current claim makes the lease run until `now + extension` and does nothing else. */
  lemma RenewMeans(db: Db, t: Token, extension: int, now: int)
    ensures Holds(db, t) <==> InForce(db.intents, t)
    ensures var db' := RenewTx(db, t, extension, now);
            if InForce(db.intents, t)
            then db' == db.(intents := db.intents[t.intent :=
                   db.intents[t.intent].(leaseExpires := Some(now + extension))])
            else db' == db
  {
  }

  // ---------------------------------------------------------------- reports of workers

  lemma RunningMeans(db: Db, t: Token, now: int)
    ensures RunningOk(db, t) <==>
            && InForce(db.intents, t) && t.attempt in db.attempts && db.attempts[t.attempt].state.Starting?
            && t.job in db.jobs && db.jobs[t.job].state.Starting?
    ensures var db' := RunningTx(db, t, now);
            if RunningOk(db, t)
            then && MovesJob(db, db', t.job, Running, now)
                 && WritesAttempt(db, db', t.attempt, db.attempts[t.attempt].(state := Running))
                 && db'.intents == db.intents
                 && db'.reservations == db.reservations && db'.deadLetters == db.deadLetters
            else db' == db
  {
  }

  /** A clean exit: the attempt SUCCEEDED, and so did the job unless it was being cancelled. */
  predicate SuccessLeaves(db: Db, db': Db, t: Token, now: int) {
    && SetsIntent(db, db', t.intent, Applied)
    && t.attempt in db.attempts
    && WritesAttempt(db, db', t.attempt, db.attempts[t.attempt].(state := Succeeded, exitCode := Some(0)))
    && t.job in db.jobs
    && (db.jobs[t.job].state == Running ==> MovesJob(db, db', t.job, Succeeded, now))
    && (db.jobs[t.job].state == CancelRequested ==> MovesJob(db, db', t.job, Cancelled, now))
    && db'.deadLetters == db.deadLetters
  }

  lemma SuccessMeans(db: Db, t: Token, pick: Option<ReservationId>, now: int)
    ensures SucceededOk(db, t) <==>
            && InForce(db.intents, t) && t.attempt in db.attempts
            && t.job in db.jobs && db.jobs[t.job].state in {Running, CancelRequested}
    ensures var db' := SucceededTx(db, t, pick, now);
            if SucceededOk(db, t) then SuccessLeaves(db, db', t, now) else db' == db
  {
    if t.job in db.jobs {
      CaseUpdatesAreLegal(db.jobs[t.job].state, true);
    }
  }

  /**
   A failure: a job that was being cancelled is CANCELLED, otherwise it waits for its retry, or without one it is
   FAILED and has a dead letter.
   */
  predicate FailureLeaves(db: Db, db': Db, t: Token, reason: string, exitCode: int, shouldRetry: bool, now: int) {
    && SetsIntent(db, db', t.intent, Terminated)
    && (t.attempt in db.attempts ==>
          WritesAttempt(db, db', t.attempt, db.attempts[t.attempt].(state := Failed, exitCode := Some(exitCode),
                                                                    reason := Some(reason))))
    && (t.attempt !in db.attempts ==> db'.attempts == db.attempts)
    && t.job in db.jobs
    && (db.jobs[t.job].state == CancelRequested ==>
          MovesJob(db, db', t.job, Cancelled, now) && db'.deadLetters == db.deadLetters)
    && (db.jobs[t.job].state != CancelRequested && shouldRetry ==>
          MovesJob(db, db', t.job, RetryWait, now) && db'.deadLetters == db.deadLetters)
    && (db.jobs[t.job].state != CancelRequested && !shouldRetry ==>
          && MovesJob(db, db', t.job, Failed, now)
          && db'.deadLetters == db.deadLetters[t.job :=
               DeadLetter(db.jobs[t.job].workspace, db.jobs[t.job].attempt, Some(exitCode), Some(reason))])
  }

  lemma FailureCommitsIff(db: Db, t: Token)
    ensures FailedOk(db, t) <==>
            && InForce(db.intents, t)
            && t.job in db.jobs && db.jobs[t.job].state in {Starting, Running, RecoveryPending, CancelRequested}
  {
    if t.job in db.jobs {
      CaseUpdatesAreLegal(db.jobs[t.job].state, true);
    }
  }

  lemma FailureMeans(db: Db, t: Token, reason: string, exitCode: int, shouldRetry: bool, pick: Option<ReservationId>,
                     now: int)
    ensures var db' := FailedTx(db, t, reason, exitCode, shouldRetry, pick, now);
            if FailedOk(db, t) then FailureLeaves(db, db', t, reason, exitCode, shouldRetry, now) else db' == db
  {
  }

  /** A confirmed cancellation, possible only after it was requested. */
  predicate CancellationLeaves(db: Db, db': Db, t: Token, now: int) {
    && SetsIntent(db, db', t.intent, Terminated)
    && (t.attempt in db.attempts ==>
          WritesAttempt(db, db', t.attempt, db.attempts[t.attempt].(state := Cancelled)))
    && (t.attempt !in db.attempts ==> db'.attempts == db.attempts)
    && MovesJob(db, db', t.job, Cancelled, now) && db'.deadLetters == db.deadLetters
  }

  lemma CancellationMeans(db: Db, t: Token, pick: Option<ReservationId>, now: int)
    ensures CancelledOk(db, t) <==>
            InForce(db.intents, t) && t.job in db.jobs && db.jobs[t.job].state == CancelRequested
    ensures var db' := CancelledTx(db, t, pick, now);
            if CancelledOk(db, t) then CancellationLeaves(db, db', t, now) else db' == db
  {
    if t.job in db.jobs {
      CaseUpdatesAreLegal(db.jobs[t.job].state, true);
    }
  }

  // ---------------------------------------------------------------- recovery and requeue

  /** The lease of the intent ran out, in the epoch the item was seen with. */
  predicate LeaseIsLost(intents: map<IntentId, Intent>, it: RecoveryItem, now: int) {
    && it.intent in intents && intents[it.intent].epoch == it.epoch && intents[it.intent].status == Claimed
    && intents[it.intent].leaseExpires.Some? && intents[it.intent].leaseExpires.value < now
  }

  /** The attempt is written off; a running job is set aside until its workload is deleted. */
  predicate BeginLeaves(db: Db, db': Db, it: RecoveryItem, now: int) {
    && SetsIntent(db, db', it.intent, Terminated)
    && it.attempt in db.attempts
    && (it.jobState == CancelRequested ==>
          WritesAttempt(db, db', it.attempt, db.attempts[it.attempt].(state := Cancelled, exitCode := Some(130),
            reason := Some("Job cancellation confirmed during recovery"))))
    && (it.jobState != CancelRequested ==>
          WritesAttempt(db, db', it.attempt, db.attempts[it.attempt].(state := Failed, exitCode := Some(-1),
            reason := Some("Worker lease expired; executor lost"))))
    && (it.jobState == Running ==> MovesJob(db, db', it.job, RecoveryPending, now))
    && (it.jobState != Running ==> db'.jobs == db.jobs)
    && db'.reservations == db.reservations && db'.deadLetters == db.deadLetters
  }

  lemma BeginMeans(db: Db, it: RecoveryItem, now: int)
    ensures BeginOk(db, it, now) <==>
            && (it.jobState == Running ==> it.job in db.jobs && db.jobs[it.job].state == Running)
            && it.attempt in db.attempts && db.attempts[it.attempt].state in {Starting, Running}
            && LeaseIsLost(db.intents, it, now)
    ensures var db' := BeginTx(db, it, now);
            if BeginOk(db, it, now) then BeginLeaves(db, db', it, now) else db' == db
  {
  }

  /** A confirmed recovery: CANCELLED, RETRY_WAIT, or FAILED with a dead letter about the current attempt. */
  predicate ConfirmLeaves(db: Db, db': Db, job: JobId, shouldRetry: bool, isCancel: bool, cur: Option<AttemptId>,
                          now: int) {
    && job in db.jobs && (cur.Some? ==> cur.value in db.attempts)
    && (isCancel ==> MovesJob(db, db', job, Cancelled, now) && db'.deadLetters == db.deadLetters)
    && (!isCancel && shouldRetry ==> MovesJob(db, db', job, RetryWait, now) && db'.deadLetters == db.deadLetters)
    && (!isCancel && !shouldRetry ==>
          && MovesJob(db, db', job, Failed, now)
          && db'.deadLetters == db.deadLetters[job :=
               DeadLetter(db.jobs[job].workspace, db.jobs[job].attempt,
                          if cur.Some? then db.attempts[cur.value].exitCode else None,
                          if cur.Some? && db.attempts[cur.value].reason.Some?
                             && db.attempts[cur.value].reason.value != ""
                          then db.attempts[cur.value].reason else Some("Job reached FAILED state"))])
    && db'.attempts == db.attempts && db'.intents == db.intents
  }

  lemma ConfirmMeans(db: Db, job: JobId, shouldRetry: bool, isCancel: bool, cur: Option<AttemptId>,
                     pick: Option<ReservationId>, now: int)
    requires CurrentRowOk(db, job, cur)
    ensures ConfirmOk(db, job, shouldRetry, isCancel) <==>
            && job in db.jobs
            && if isCancel then db.jobs[job].state == CancelRequested
               else db.jobs[job].state in {Starting, Running, RecoveryPending}
    ensures var db' := ConfirmTx(db, job, shouldRetry, isCancel, cur, pick, now);
            if ConfirmOk(db, job, shouldRetry, isCancel)
            then ConfirmLeaves(db, db', job, shouldRetry, isCancel, cur, now) else db' == db
  {
  }

  lemma RequeueMeans(db: Db, job: JobId, now: int)
    ensures var db' := RequeueTx(db, job, now);
            if job in db.jobs && db.jobs[job].state == RetryWait
            then && MovesJob(db, db', job, Queued, now)
                 && db'.attempts == db.attempts && db'.intents == db.intents
                 && db'.reservations == db.reservations && db'.deadLetters == db.deadLetters
            else db' == db
  {
  }
}
