/**
 The protocol seen from one job: a machine over its state alone, which says for every operation whether and where
 the job moves.  All operations on all tables are proved to follow it.
 */
module JobOutcomes {
  import opened JobStates
  import opened JobTables
  import opened JobEffects
  import opened JobProtocol

  /** A worker reports with a claim on this job that is still in force. */
  predicate ReportsOn(w: World, t: Token, job: JobId) {
    t in w.tokens && t.job == job && InForce(w.db.intents, t)
  }

  /** A scanned row that is still as it was leads to a new attempt under fresh ids. */
  predicate Admits(w: World, op: Op, job: JobId)
    requires op.Admit?
  {
    && op.row in w.scans && op.row.job == job && Admissible(w.db, op.row)
    && op.aid !in w.db.attempts && op.iid !in w.db.intents && op.rid !in w.db.reservations
  }

  predicate Claims(w: World, iid: IntentId, job: JobId) {
    && iid in w.db.intents && w.db.intents[iid].status == Pending && w.db.intents[iid].attempt in w.db.attempts
    && w.db.attempts[w.db.intents[iid].attempt].job == job
  }

  predicate BeginsOn(w: World, it: RecoveryItem, job: JobId) {
    && it in w.items && it.job == job && it.jobState == Running
    && it.attempt in w.db.attempts && w.db.attempts[it.attempt].state in {Starting, Running}
    && LeaseIsLost(w.db.intents, it, w.now)
  }

  /** Where the operation takes a job that is in `state` now. */
  function NextState(w: World, op: Op, job: JobId, state: JobState): JobState {
    match op
    case RequestCancel(j) => if j == job && state !in {Succeeded, Failed, Cancelled} then CancelRequested else state
    case Admit(_, _, _, _) => if Admits(w, op, job) then Admitted else state
    case Claim(iid, _, _) => if Claims(w, iid, job) && state == Admitted then Starting else state
    case MarkRunning(t) =>
      if ReportsOn(w, t, job) && state == Starting
         && t.attempt in w.db.attempts && w.db.attempts[t.attempt].state == Starting
      then Running else state
    case MarkSucceeded(t, _) =>
      if !ReportsOn(w, t, job) || t.attempt !in w.db.attempts then state
      else if state == Running then Succeeded
      else if state == CancelRequested then Cancelled
      else state
    case MarkFailed(t, _, _, shouldRetry, _) =>
      if !ReportsOn(w, t, job) then state
      else if state in {Starting, Running, RecoveryPending} then (if shouldRetry then RetryWait else Failed)
      else if state == CancelRequested then Cancelled
      else state
    case MarkCancelled(t, _) => if ReportsOn(w, t, job) && state == CancelRequested then Cancelled else state
    case Begin(it) => if BeginsOn(w, it, job) && state == Running then RecoveryPending else state
    case Confirm(j, shouldRetry, isCancel, cur, _) =>
      if j != job || !CurrentRowOk(w.db, job, cur) then state
      else if isCancel then (if state == CancelRequested then Cancelled else state)
      else if state in {Starting, Running, RecoveryPending} then (if shouldRetry then RetryWait else Failed)
      else state
    case Requeue(j, _) => if j == job && state == RetryWait then Queued else state
    case _ => state
  }

  /** The job is where the machine takes it. */
  predicate Follows(w: World, op: Op, job: JobId)
    requires job in w.db.jobs
  {
    job in NextDb(w, op).jobs && NextDb(w, op).jobs[job].state == NextState(w, op, job, w.db.jobs[job].state)
  }

  lemma RunningFollows(w: World, op: Op, job: JobId)
    requires op.MarkRunning? && job in w.db.jobs
    ensures Follows(w, op, job)
  {
    RunningMeans(w.db, op.token, w.now);
  }

  lemma SuccessFollows(w: World, op: Op, job: JobId)
    requires op.MarkSucceeded? && job in w.db.jobs
    ensures Follows(w, op, job)
  {
    SuccessMeans(w.db, op.token, op.pick, w.now);
  }

  lemma FailureFollows(w: World, op: Op, job: JobId)
    requires op.MarkFailed? && job in w.db.jobs
    ensures Follows(w, op, job)
  {
    FailureCommitsIff(w.db, op.token);
    FailureMeans(w.db, op.token, op.reason, op.exitCode, op.shouldRetry, op.pick, w.now);
  }

  lemma CancellationFollows(w: World, op: Op, job: JobId)
    requires op.MarkCancelled? && job in w.db.jobs
    ensures Follows(w, op, job)
  {
    CancellationMeans(w.db, op.token, op.pick, w.now);
  }

  lemma BeginFollows(w: World, op: Op, job: JobId)
    requires op.Begin? && job in w.db.jobs
    ensures Follows(w, op, job)
  {
    BeginMeans(w.db, op.item, w.now);
  }

  lemma ConfirmFollows(w: World, op: Op, job: JobId)
    requires op.Confirm? && job in w.db.jobs
    ensures Follows(w, op, job)
  {
    if CurrentRowOk(w.db, op.job, op.current) {
      ConfirmMeans(w.db, op.job, op.shouldRetry, op.isCancel, op.current, op.pick, w.now);
    }
  }

  lemma RequeueFollows(w: World, op: Op, job: JobId)
    requires op.Requeue? && job in w.db.jobs
    ensures Follows(w, op, job)
  {
    RequeueMeans(w.db, op.job, op.at);
  }

  lemma CancelFollows(w: World, op: Op, job: JobId)
    requires op.RequestCancel? && job in w.db.jobs
    ensures Follows(w, op, job)
  {
    if op.job in w.db.jobs {
      CancelMeans(w.db, op.job, w.now);
    }
  }

  lemma AdmissionFollows(w: World, op: Op, job: JobId)
    requires op.Admit? && job in w.db.jobs
    ensures Follows(w, op, job)
  {
    if op.aid !in w.db.attempts && op.iid !in w.db.intents && op.rid !in w.db.reservations {
      AdmissionMeans(w.db, op.row, op.aid, op.iid, op.rid, w.now);
    }
  }

  lemma ClaimFollows(w: World, op: Op, job: JobId)
    requires op.Claim? && job in w.db.jobs
    ensures Follows(w, op, job)
  {
    if Claimable(w.db, op.iid) {
      ClaimMeans(w.db, op.iid, op.worker, op.lease, w.now);
    }
  }

  lemma OthersFollow(w: World, op: Op, job: JobId)
    requires op.Tick? || op.Submit? || op.Scan? || op.Renew? || op.FindExpired? || op.Expire?
    requires job in w.db.jobs
    ensures Follows(w, op, job)
  {
  }

  /**
   Whatever operation runs, on whatever tables, every job moves exactly as the machine says: it changes state when there
   is a reason and only then.
   */
  lemma JobFollowsMachine(w: World, op: Op, job: JobId)
    requires job in w.db.jobs
    ensures job in Apply(w, op).db.jobs
    ensures Apply(w, op).db.jobs[job].state == NextState(w, op, job, w.db.jobs[job].state)
  {
    match op
    case RequestCancel(_) => CancelFollows(w, op, job);
    case Admit(_, _, _, _) => AdmissionFollows(w, op, job);
    case Claim(_, _, _) => ClaimFollows(w, op, job);
    case MarkRunning(_) => RunningFollows(w, op, job);
    case MarkSucceeded(_, _) => SuccessFollows(w, op, job);
    case MarkFailed(_, _, _, _, _) => FailureFollows(w, op, job);
    case MarkCancelled(_, _) => CancellationFollows(w, op, job);
    case Begin(_) => BeginFollows(w, op, job);
    case Confirm(_, _, _, _, _) => ConfirmFollows(w, op, job);
    case Requeue(_, _) => RequeueFollows(w, op, job);
    case _ => OthersFollow(w, op, job);
  }

  /**
   Retries: a job enters RETRY_WAIT if and only if a worker reports a failure to be retried under a claim in force, or a
   recovery to be retried is confirmed, while the job is started and not being cancelled.
   */
  lemma RetryWaitIff(w: World, op: Op, job: JobId)
    requires job in w.db.jobs && w.db.jobs[job].state != RetryWait
    ensures job in Apply(w, op).db.jobs
    ensures Apply(w, op).db.jobs[job].state == RetryWait <==>
            && w.db.jobs[job].state in {Starting, Running, RecoveryPending}
            && (|| (op.MarkFailed? && op.shouldRetry && ReportsOn(w, op.token, job))
                || (op.Confirm? && op.shouldRetry && !op.isCancel && op.job == job
                    && CurrentRowOk(w.db, job, op.current)))
  {
    JobFollowsMachine(w, op, job);
  }
}
