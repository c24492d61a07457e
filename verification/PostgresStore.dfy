/**
 The job transactions of `PostgresStore`, statement by statement.  A method works on a copy of
 the tables, as a transaction does; returning early drops the copy, which is the rollback.
 Each method is proved to leave exactly the tables that its specification in JobTables gives, and its contract
 says in plain states and values when it commits and what it writes.
 */
module PostgresStore {
  import opened Options
  import opened Rows
  import opened JobStates
  import opened JobTables
  import opened JobEffects
  import opened Queries

  predicate IsFree(rs: map<ReservationId, Reservation>, ws: WorkspaceId, locked: set<ReservationId>, r: ReservationId) {
    IsActiveIn(rs, ws, r) && r !in locked
  }

  /** `r` is the row that the release statement selects: the oldest ACTIVE one that nobody else has locked. */
  predicate IsOldestFree(rs: map<ReservationId, Reservation>, ws: WorkspaceId, locked: set<ReservationId>,
                         r: ReservationId) {
    && IsFree(rs, ws, locked, r)
    && forall q :: q in rs && IsFree(rs, ws, locked, q) ==> rs[r].createdAt <= rs[q].createdAt
  }

  /** The row taken is the oldest free one; none is taken exactly when all are locked or there is none. */
  predicate IsRelease(rs: map<ReservationId, Reservation>, ws: WorkspaceId, locked: set<ReservationId>,
                      pick: Option<ReservationId>) {
    match pick
    case Some(r) => IsOldestFree(rs, ws, locked, r)
    case None => forall r :: r in rs ==> !IsFree(rs, ws, locked, r)
  }

  /** The oldest free row becomes RELEASED and no other row changes; nothing changes if no row is free. */
  predicate Frees(rs: map<ReservationId, Reservation>, rs': map<ReservationId, Reservation>, ws: WorkspaceId,
                  locked: set<ReservationId>) {
    || (exists r :: r in rs && IsOldestFree(rs, ws, locked, r) && rs' == rs[r := rs[r].(status := Released)])
    || ((forall r :: r in rs ==> !IsFree(rs, ws, locked, r)) && rs' == rs)
  }

  /** SELECT ... WHERE status = 'ACTIVE' ORDER BY created_at LIMIT 1 FOR UPDATE SKIP LOCKED. */
  method SelectOldestFree(rs: map<ReservationId, Reservation>, ws: WorkspaceId, locked: set<ReservationId>)
    returns (row: Option<ReservationId>)
    ensures IsRelease(rs, ws, locked, row)
  {
    var free := set r | r in rs && IsFree(rs, ws, locked, r);
    var rows := SelectOrdered(free, map r | r in free :: SortKey(rs[r].createdAt, 0), 1);
    if rows == [] {
      assert forall r :: r in rs && IsFree(rs, ws, locked, r) ==> r in free;
      return None;
    }
    assert rows[0] in free;
    forall q | q in rs && IsFree(rs, ws, locked, q) ensures rs[rows[0]].createdAt <= rs[q].createdAt {
      assert q in free;
    }
    return Some(rows[0]);
  }

  /** A SELECT by (job_id, attempt_number), which is unique. */
  method SelectCurrentAttempt(tx: Db, job: JobId) returns (row: Option<AttemptId>)
    ensures CurrentRowOk(tx, job, row)
  {
    if a :| a in tx.attempts && IsCurrentAttempt(tx, job, a) {
      return Some(a);
    }
    return None;
  }

  lemma FindCurrent(tx: Db, job: JobId) returns (row: Option<AttemptId>)
    ensures CurrentRowOk(tx, job, row)
  {
    row := None;
    if a :| a in tx.attempts && IsCurrentAttempt(tx, job, a) {
      row := Some(a);
    }
  }

  /** The record of the confirm step, with the default reason when the attempt has none. */
  method FinalLetter(tx: Db, job: JobId, row: Option<AttemptId>) returns (letter: DeadLetter)
    requires job in tx.jobs && CurrentRowOk(tx, job, row)
    ensures letter == ConfirmLetter(tx.jobs[job], if row.Some? then Some(tx.attempts[row.value]) else None)
  {
    var exitCode, reason := None, FAILED_DEFAULT;
    if row.Some? {
      exitCode := tx.attempts[row.value].exitCode;
      if tx.attempts[row.value].reason.Some? && tx.attempts[row.value].reason.value != "" {
        reason := tx.attempts[row.value].reason.value;
      }
    }
    letter := DeadLetter(tx.jobs[job].workspace, tx.jobs[job].attempt, exitCode, Some(reason));
  }

  /** What fn_jobs_insert_dead_letter leaves when a job moves from `was` to FAILED. */
  function TriggerRow(tx: Db, job: JobId, cur: Option<AttemptId>): map<JobId, DeadLetter>
    requires job in tx.jobs && CurrentRowOk(tx, job, cur)
  {
    if cur.Some? then tx.deadLetters[job := TriggerLetter(tx.jobs[job], Some(tx.attempts[cur.value]))]
    else if job in tx.deadLetters then tx.deadLetters
    else tx.deadLetters[job := TriggerLetter(tx.jobs[job], None)]
  }

  /** UPDATE jobs SET state, updated_at, followed by its AFTER UPDATE trigger. */
  method UpdateJobState(tx0: Db, job: JobId, state: JobState, now: int) returns (tx: Db)
    requires job in tx0.jobs
    ensures tx.(deadLetters := tx0.deadLetters) == SetJobState(tx0, job, state, now)
    ensures !state.Failed? || tx0.jobs[job].state.Failed? ==> tx.deadLetters == tx0.deadLetters
    ensures forall j :: j in tx0.deadLetters && j != job ==>
            j in tx.deadLetters && tx.deadLetters[j] == tx0.deadLetters[j]
    ensures forall j :: j in tx.deadLetters && j != job ==> j in tx0.deadLetters
    ensures state.Failed? && !tx0.jobs[job].state.Failed? ==>
              exists cur :: CurrentRowOk(tx, job, cur) &&
                  tx.deadLetters == TriggerRow(tx.(deadLetters := tx0.deadLetters), job, cur)
  {
    var was := tx0.jobs[job].state;
    tx := tx0.(jobs := tx0.jobs[job := tx0.jobs[job].(state := state, updatedAt := now)]);
    if state.Failed? && !was.Failed? {
      var cur := SelectCurrentAttempt(tx, job);
      if cur.Some? {
        var ja := tx.attempts[cur.value];
        tx := tx.(deadLetters := tx.deadLetters[job :=
            DeadLetter(tx.jobs[job].workspace, tx.jobs[job].attempt, ja.exitCode, ja.reason)]);
      } else if job !in tx.deadLetters {
        tx := tx.(deadLetters := tx.deadLetters[job :=
            DeadLetter(tx.jobs[job].workspace, tx.jobs[job].attempt, None, Some(FAILED_DEFAULT))]);
      }
      assert CurrentRowOk(tx, job, cur);
    }
  }

  /** The move to FAILED of the confirm step and its own upsert of the record, which replaces the trigger's. */
  method FailJob(tx0: Db, job: JobId, now: int) returns (tx: Db, ghost cur: Option<AttemptId>)
    requires job in tx0.jobs
    ensures CurrentRowOk(tx0, job, cur)
    ensures var att := if cur.Some? then Some(tx0.attempts[cur.value]) else None;
            tx == SetJobState(tx0, job, Failed,
                now).(deadLetters := tx0.deadLetters[job := ConfirmLetter(tx0.jobs[job], att)])
  {
    tx := UpdateJobState(tx0, job, Failed, now);
    var row := SelectCurrentAttempt(tx, job);
    cur := row;
    var letter := FinalLetter(tx, job, row);
    tx := tx.(deadLetters := tx.deadLetters[job := letter]);
    assert tx.deadLetters == tx0.deadLetters[job := letter];
    assert forall a :: a in tx.attempts ==> (IsCurrentAttempt(tx, job, a) <==> IsCurrentAttempt(tx0, job, a));
  }

  /** The unique constraint on (job_id, attempt_number) refuses an insert. */
  method SlotIsTaken(tx: Db, job: JobId, number: nat) returns (taken: bool)
    ensures taken <==> AttemptExists(tx, job, number)
  {
    taken := exists a :: a in tx.attempts && InSlot(tx, a, job, number);
  }

  /** The CASE update of a failure report and, on FAILED, its upsert of the record, which replaces the trigger's. */
  method FailOrRetryJob(tx0: Db, job: JobId, reason: string, exitCode: int, shouldRetry: bool, now: int)
    returns (tx: Db)
    requires job in tx0.jobs
    ensures var j := tx0.jobs[job];
            var target := FailureTarget(j.state, shouldRetry);
            tx == SetJobState(tx0, job, target, now).(
                    deadLetters := if target.Failed?
                                   then tx0.deadLetters[job :=
                                          DeadLetter(j.workspace, j.attempt, Some(exitCode), Some(reason))]
                                   else tx0.deadLetters)
  {
    var state := if tx0.jobs[job].state.CancelRequested? then Cancelled else if shouldRetry then RetryWait else Failed;
    tx := UpdateJobState(tx0, job, state, now);
    if state.Failed? {
      var letter := DeadLetter(tx.jobs[job].workspace, tx.jobs[job].attempt, Some(exitCode), Some(reason));
      tx := tx.(deadLetters := tx.deadLetters[job := letter]);
      assert tx.deadLetters == tx0.deadLetters[job := letter];
    }
  }

  /** `state IN (legalSourcesSQL(targets))`. */
  method StateGuard(state: JobState, targets: seq<JobState>) returns (pass: bool)
    ensures pass <==> InLegalSources(state, set t | t in targets)
  {
    var sources := LegalSourcesSQL(targets);
    pass := state in sources;
  }

  method SingleGuard(state: JobState, target: JobState) returns (pass: bool)
    ensures pass <==> Legal(state, target)
  {
    pass := StateGuard(state, [target]);
    assert forall t :: t in [target] <==> t == target;
    assert target in set t | t in [target];
  }

  /** The last statement of every finalising transaction; `locked` are the rows that other transactions hold. */
  method ReleaseReservation(rs: map<ReservationId, Reservation>, ws: WorkspaceId, locked: set<ReservationId>)
    returns (released: map<ReservationId, Reservation>, ghost pick: Option<ReservationId>)
    ensures IsRelease(rs, ws, locked, pick) && released == ReleaseOne(rs, ws, pick)
    ensures Frees(rs, released, ws, locked)
  {
    released := rs;
    var row := SelectOldestFree(rs, ws, locked);
    pick := row;
    if row.Some? {
      released := rs[row.value := rs[row.value].(status := Released)];
    }
  }

  /** UPDATE execution_intents ... WHERE id AND lease_epoch AND status = 'CLAIMED': the number of rows it changes. */
  method FencedRows(tx: Db, t: Token) returns (n: nat)
    ensures n <= 1
    ensures t.epoch > 0 ==> (n == 1 <==> Holds(tx, t))
  {
    n := if t.intent in tx.intents && tx.intents[t.intent].epoch == t.epoch && tx.intents[t.intent].status.Claimed?
         then 1 else 0;
  }

  class Store {
    var jobs: map<JobId, Job>
    var attempts: map<AttemptId, Attempt>
    var intents: map<IntentId, Intent>
    var reservations: map<ReservationId, Reservation>
    var deadLetters: map<JobId, DeadLetter>

    function Tables(): Db
      reads this
    {
      Db(jobs, attempts, intents, reservations, deadLetters)
    }

    constructor ()
      ensures Tables() == EMPTY_DB
    {
      jobs, attempts, intents, reservations, deadLetters := map[], map[], map[], map[], map[];
    }

    method Commit(tx: Db)
      modifies this
      ensures Tables() == tx
    {
      jobs, attempts, intents, reservations, deadLetters :=
          tx.jobs, tx.attempts, tx.intents, tx.reservations, tx.deadLetters;
    }

    /**
     `cancel_job` of the API on the locked job row: refused for a finished job, accepted again for a repeated request.
     */
    method CancelJob(job: JobId, now: int) returns (accepted: bool)
      modifies this
      ensures accepted <==> job in old(jobs) && old(jobs)[job].state !in {Succeeded, Failed, Cancelled}
      ensures accepted ==> OnlyRow(old(jobs), jobs, job) && jobs[job].state == CancelRequested
                           && jobs[job].attempt == old(jobs)[job].attempt
      ensures !accepted ==> jobs == old(jobs)
      ensures attempts == old(attempts) && intents == old(intents)
              && reservations == old(reservations) && deadLetters == old(deadLetters)
      ensures Tables() == CancelTx(old(Tables()), job, now)
    {
      if job !in jobs {
        return false;
      }
      if jobs[job].state != CancelRequested {
        var error := ValidateTransition(jobs[job].state, CancelRequested);
        if !error.NoError? {
          return false;
        }
        var tx := UpdateJobState(Tables(), job, CancelRequested, now);
        Commit(tx);
      }
      return true;
    }

    /** `CreateJobAttemptIntent`; the ids are the fresh UUIDs it draws. */
    method CreateJobAttemptIntent(job: UnadmittedJob, aid: AttemptId, iid: IntentId, rid: ReservationId, now: int)
      returns (admitted: bool)
      requires aid !in attempts && iid !in intents && rid !in reservations
      modifies this
      ensures admitted <==> Admissible(old(Tables()), job)
      ensures admitted ==> AdmissionLeaves(old(Tables()), Tables(), job, aid, iid, now)
      ensures admitted ==> ReservationIsMade(old(reservations), reservations, job, rid, now)
      ensures !admitted ==> Tables() == old(Tables())
      ensures Tables() == AdmitTx(old(Tables()), job, aid, iid, rid, now)
    {
      ghost var was := Tables();
      AdmissionCommitsIff(was, job, aid, iid, rid);
      var tx := Tables();
      var next := job.attempt + 1;
      if next > job.maxRetries + 1 {
        return false;
      }
      var taken := SlotIsTaken(tx, job.job, next);
      if taken {
        return false;
      }
      tx := tx.(attempts := tx.attempts[aid := Attempt(job.job, next, Admitted, 0, None, None)]);
      if job.job !in tx.jobs {
        return false;
      }
      var pass := SingleGuard(tx.jobs[job.job].state, Admitted);
      if !pass {
        return false;
      }
      tx := tx.(jobs := tx.jobs[job.job := tx.jobs[job.job].(state := Admitted, attempt := next, updatedAt := now)]);
      tx := tx.(intents := tx.intents[iid := Intent(aid, Pending, 0, None, None)]);
      var ttl := if job.timeoutSeconds <= 0 then 600 else job.timeoutSeconds;
      tx := tx.(reservations := ExpireReservations(tx.reservations, job.workspace, now));
      tx := tx.(reservations := tx.reservations[rid := Reservation(job.workspace, Active, now + ttl, now)]);
      Commit(tx);
      AdmissionMeans(was, job, aid, iid, rid, now);
      return true;
    }

    /** `ClaimNextJobAttempt`: some PENDING intent, or nothing when there is none. */
    method ClaimNextJobAttempt(worker: WorkerId, lease: int, now: int) returns (claim: Option<Token>)
      modifies this
      ensures claim.None? ==> Tables() == old(Tables()) && forall i :: i in intents ==> !Claimable(Tables(), i)
      ensures claim.Some? ==>
                && Claimable(old(Tables()), claim.value.intent)
                && claim.value == ClaimToken(old(Tables()), claim.value.intent, worker)
                && Tables() == ClaimTx(old(Tables()), claim.value.intent, worker, lease, now)
                && Holds(Tables(), claim.value) && claim.value.holder == worker
                && ClaimLeaves(old(Tables()), Tables(), claim.value, lease, now)
    {
      var tx := Tables();
      if i :| i in tx.intents && Claimable(tx, i) {
        ClaimMeans(tx, i, worker, lease, now);
        var intent := tx.intents[i];
        var attempt := tx.attempts[intent.attempt];
        var epoch := intent.epoch + 1;
        tx := tx.(intents := tx.intents[i := intent.(status := Claimed, holder := Some(worker), epoch := epoch,
                                                        leaseExpires := Some(now + lease))]);
        tx := tx.(attempts := tx.attempts[intent.attempt := attempt.(state := Starting, epoch := epoch)]);
        var job := tx.jobs[attempt.job];
        var pass := SingleGuard(job.state, Starting);
        if pass || job.state.CancelRequested? {
          var state := if job.state.CancelRequested? then CancelRequested else Starting;
          tx := tx.(jobs := tx.jobs[attempt.job := job.(state := state, updatedAt := now)]);
        }
        claim := Some(Token(i, intent.attempt, attempt.job, attempt.number, job.maxRetries, epoch, worker));
        Commit(tx);
      } else {
        claim := None;
      }
    }

    method RenewLease(t: Token, extension: int, now: int) returns (ok: bool)
      modifies this
      ensures ok == Holds(old(Tables()), t) == InForce(old(intents), t)
      ensures ok ==> OnlyRow(old(intents), intents, t.intent)
                     && intents[t.intent] == old(intents)[t.intent].(leaseExpires := Some(now + extension))
      ensures !ok ==> intents == old(intents)
      ensures jobs == old(jobs) && attempts == old(attempts)
              && reservations == old(reservations) && deadLetters == old(deadLetters)
      ensures Tables() == RenewTx(old(Tables()), t, extension, now)
    {
      if t.epoch <= 0 {
        return false;
      }
      var n := FencedRows(Tables(), t);
      if n == 0 {
        return false;
      }
      intents := intents[t.intent := intents[t.intent].(leaseExpires := Some(now + extension))];
      return true;
    }

    method MarkJobAttemptRunning(t: Token, now: int) returns (ok: bool)
      modifies this
      ensures ok == RunningOk(old(Tables()), t)
      ensures ok <==> InForce(old(intents), t)
                      && t.attempt in old(attempts) && old(attempts)[t.attempt].state == Starting
                      && t.job in old(jobs) && old(jobs)[t.job].state == Starting
      ensures ok ==> MovesJob(old(Tables()), Tables(), t.job, Running, now)
                     && OnlyRow(old(attempts), attempts, t.attempt)
                     && attempts[t.attempt] == old(attempts)[t.attempt].(state := Running)
      ensures intents == old(intents) && reservations == old(reservations) && deadLetters == old(deadLetters)
      ensures !ok ==> Tables() == old(Tables())
      ensures Tables() == RunningTx(old(Tables()), t, now)
    {
      RunningMeans(Tables(), t, now);
      if t.epoch <= 0 {
        return false;
      }
      var tx := Tables();
      var n := FencedRows(tx, t);
      if n == 0 || t.attempt !in tx.attempts || !tx.attempts[t.attempt].state.Starting? {
        return false;
      }
      tx := tx.(attempts := tx.attempts[t.attempt := tx.attempts[t.attempt].(state := Running)]);
      if t.job !in tx.jobs {
        return false;
      }
      var pass := SingleGuard(tx.jobs[t.job].state, Running);
      if !pass {
        return false;
      }
      tx := UpdateJobState(tx, t.job, Running, now);
      Commit(tx);
      return true;
    }

    method MarkJobAttemptSucceeded(t: Token, now: int, locked: set<ReservationId>)
      returns (ok: bool, ghost pick: Option<ReservationId>)
      modifies this
      ensures ok <==> InForce(old(intents), t) && t.attempt in old(attempts)
                      && t.job in old(jobs) && old(jobs)[t.job].state in {Running, CancelRequested}
      ensures ok ==> SuccessLeaves(old(Tables()), Tables(), t, now)
      ensures ok ==> Frees(old(reservations), reservations, old(jobs)[t.job].workspace, locked)
      ensures !ok ==> Tables() == old(Tables())
      ensures ok == SucceededOk(old(Tables()), t)
      ensures Tables() == SucceededTx(old(Tables()), t, pick, now)
    {
      ghost var before := Tables();
      SuccessMeans(before, t, None, now);
      pick := None;
      if t.epoch <= 0 {
        return false, None;
      }
      var tx := Tables();
      var n := FencedRows(tx, t);
      if n == 0 {
        return false, None;
      }
      tx := tx.(intents := tx.intents[t.intent := tx.intents[t.intent].(status := Applied)]);
      if t.attempt in tx.attempts {
        tx := tx.(attempts := tx.attempts[t.attempt :=
            tx.attempts[t.attempt].(state := Succeeded, exitCode := Some(0))]);
      }
      if t.job !in tx.jobs {
        return false, None;
      }
      var pass := StateGuard(tx.jobs[t.job].state, [Succeeded, Cancelled]);
      assert (set s | s in [Succeeded, Cancelled]) == SUCCESS_TARGETS;
      if !pass {
        return false, None;
      }
      var state := if tx.jobs[t.job].state.CancelRequested? then Cancelled else Succeeded;
      tx := UpdateJobState(tx, t.job, state, now);
      if t.attempt !in tx.attempts {
        return false, None;
      }
      var released;
      released, pick := ReleaseReservation(tx.reservations, tx.jobs[t.job].workspace, locked);
      tx := tx.(reservations := released);
      Commit(tx);
      SuccessMeans(before, t, pick, now);
      return true, pick;
    }

    method MarkJobAttemptFailed(t: Token, reason: string, exitCode: int, shouldRetry: bool, now: int,
                                locked: set<ReservationId>)
      returns (ok: bool, ghost pick: Option<ReservationId>)
      modifies this
      ensures ok <==> InForce(old(intents), t) && t.job in old(jobs)
                      && old(jobs)[t.job].state in {Starting, Running, RecoveryPending, CancelRequested}
      ensures ok ==> FailureLeaves(old(Tables()), Tables(), t, reason, exitCode, shouldRetry, now)
      ensures ok ==> Frees(old(reservations), reservations, old(jobs)[t.job].workspace, locked)
      ensures !ok ==> Tables() == old(Tables())
      ensures ok == FailedOk(old(Tables()), t)
      ensures Tables() == FailedTx(old(Tables()), t, reason, exitCode, shouldRetry, pick, now)
    {
      ghost var was := Tables();
      FailureCommitsIff(was, t);
      pick := None;
      if t.epoch <= 0 {
        return false, None;
      }
      var tx := Tables();
      var n := FencedRows(tx, t);
      if n == 0 {
        return false, None;
      }
      tx := tx.(intents := tx.intents[t.intent := tx.intents[t.intent].(status := Terminated)]);
      if t.attempt in tx.attempts {
        tx := tx.(attempts := tx.attempts[t.attempt :=
            tx.attempts[t.attempt].(state := Failed, exitCode := Some(exitCode), reason := Some(reason))]);
      }
      if t.job !in tx.jobs {
        return false, None;
      }
      var pass := StateGuard(tx.jobs[t.job].state, [RetryWait, Failed, Cancelled]);
      assert (set s | s in [RetryWait, Failed, Cancelled]) == FAILURE_TARGETS;
      if !pass {
        return false, None;
      }
      tx := FailOrRetryJob(tx, t.job, reason, exitCode, shouldRetry, now);
      var released;
      released, pick := ReleaseReservation(tx.reservations, tx.jobs[t.job].workspace, locked);
      tx := tx.(reservations := released);
      Commit(tx);
      FailureMeans(was, t, reason, exitCode, shouldRetry, pick, now);
      return true, pick;
    }

    method MarkJobAttemptCancelled(t: Token, now: int, locked: set<ReservationId>)
      returns (ok: bool, ghost pick: Option<ReservationId>)
      modifies this
      ensures ok <==> InForce(old(intents), t) && t.job in old(jobs) && old(jobs)[t.job].state == CancelRequested
      ensures ok ==> CancellationLeaves(old(Tables()), Tables(), t, now)
      ensures ok ==> Frees(old(reservations), reservations, old(jobs)[t.job].workspace, locked)
      ensures !ok ==> Tables() == old(Tables())
      ensures ok == CancelledOk(old(Tables()), t)
      ensures Tables() == CancelledTx(old(Tables()), t, pick, now)
    {
      ghost var was := Tables();
      CancellationMeans(was, t, None, now);
      pick := None;
      if t.epoch <= 0 {
        return false, None;
      }
      var tx := Tables();
      var n := FencedRows(tx, t);
      if n == 0 {
        return false, None;
      }
      tx := tx.(intents := tx.intents[t.intent := tx.intents[t.intent].(status := Terminated)]);
      if t.attempt in tx.attempts {
        tx := tx.(attempts := tx.attempts[t.attempt := tx.attempts[t.attempt].(state := Cancelled)]);
      }
      if t.job !in tx.jobs {
        return false, None;
      }
      var pass := StateGuard(tx.jobs[t.job].state, [Cancelled]);
      assert (set s | s in [Cancelled]) == {Cancelled};
      if !pass {
        return false, None;
      }
      tx := UpdateJobState(tx, t.job, Cancelled, now);
      var released;
      released, pick := ReleaseReservation(tx.reservations, tx.jobs[t.job].workspace, locked);
      tx := tx.(reservations := released);
      Commit(tx);
      CancellationMeans(was, t, pick, now);
      return true, pick;
    }

    /** `BeginJobRecovery`. */
    method BeginJobRecovery(it: RecoveryItem, now: int) returns (ok: bool)
      modifies this
      ensures ok <==> (it.jobState == Running ==> it.job in old(jobs) && old(jobs)[it.job].state == Running)
                      && it.attempt in old(attempts) && old(attempts)[it.attempt].state in {Starting, Running}
                      && LeaseIsLost(old(intents), it, now)
      ensures ok ==> BeginLeaves(old(Tables()), Tables(), it, now)
      ensures !ok ==> Tables() == old(Tables())
      ensures ok == BeginOk(old(Tables()), it, now)
      ensures Tables() == BeginTx(old(Tables()), it, now)
    {
      BeginMeans(Tables(), it, now);
      var tx := Tables();
      var isCancel := it.jobState.CancelRequested?;
      if !isCancel && it.jobState.Running? {
        if it.job !in tx.jobs {
          return false;
        }
        var pass := SingleGuard(tx.jobs[it.job].state, RecoveryPending);
        if !pass {
          return false;
        }
        tx := UpdateJobState(tx, it.job, RecoveryPending, now);
      }
      var state, reason, exitCode := Failed, LEASE_LOST, -1;
      if isCancel {
        state, reason, exitCode := Cancelled, CANCEL_CONFIRMED, 130;
      }
      if it.attempt !in tx.attempts
         || !(tx.attempts[it.attempt].state.Starting? || tx.attempts[it.attempt].state.Running?)
      {
        return false;
      }
      tx := tx.(attempts := tx.attempts[it.attempt :=
          tx.attempts[it.attempt].(state := state, exitCode := Some(exitCode), reason := Some(reason))]);
      if !(it.intent in tx.intents && tx.intents[it.intent].epoch == it.epoch && tx.intents[it.intent].status.Claimed?
           && tx.intents[it.intent].LeaseExpired(now)) {
        return false;
      }
      tx := tx.(intents := tx.intents[it.intent := tx.intents[it.intent].(status := Terminated)]);
      Commit(tx);
      return true;
    }

    /** `ConfirmJobRecovery`. */
    method ConfirmJobRecovery(job: JobId, shouldRetry: bool, isCancel: bool, now: int, locked: set<ReservationId>)
      returns (ok: bool, ghost cur: Option<AttemptId>, ghost pick: Option<ReservationId>)
      modifies this
      ensures CurrentRowOk(old(Tables()), job, cur)
      ensures ok <==> job in old(jobs)
                      && if isCancel then old(jobs)[job].state == CancelRequested
                         else old(jobs)[job].state in {Starting, Running, RecoveryPending}
      ensures ok ==> ConfirmLeaves(old(Tables()), Tables(), job, shouldRetry, isCancel, cur, now)
      ensures ok ==> Frees(old(reservations), reservations, old(jobs)[job].workspace, locked)
      ensures !ok ==> Tables() == old(Tables())
      ensures ok == ConfirmOk(old(Tables()), job, shouldRetry, isCancel)
      ensures Tables() == ConfirmTx(old(Tables()), job, shouldRetry, isCancel, cur, pick, now)
    {
      var tx := Tables();
      var target := if isCancel then Cancelled else if !shouldRetry then Failed else RetryWait;
      ghost var was := tx;
      cur := FindCurrent(tx, job);
      ConfirmMeans(was, job, shouldRetry, isCancel, cur, None, now);
      if job !in tx.jobs {
        return false, cur, None;
      }
      var pass := SingleGuard(tx.jobs[job].state, target);
      if !pass {
        return false, cur, None;
      }
      if target.Failed? {
        tx, cur := FailJob(tx, job, now);
      } else {
        tx := UpdateJobState(tx, job, target, now);
      }
      var released;
      released, pick := ReleaseReservation(tx.reservations, tx.jobs[job].workspace, locked);
      tx := tx.(reservations := released);
      Commit(tx);
      ConfirmMeans(was, job, shouldRetry, isCancel, cur, pick, now);
      return true, cur, pick;
    }

    /** One UPDATE of `RequeueRetryWaitJobs`. */
    method RequeueJob(job: JobId, now: int) returns (rows: nat)
      modifies this
      ensures rows == (if job in old(jobs) && old(jobs)[job].state == RetryWait then 1 else 0)
      ensures rows == 1 ==> MovesJob(old(Tables()), Tables(), job, Queued, now)
      ensures rows == 0 ==> jobs == old(jobs)
      ensures attempts == old(attempts) && intents == old(intents)
              && reservations == old(reservations) && deadLetters == old(deadLetters)
      ensures Tables() == RequeueTx(old(Tables()), job, now)
    {
      RequeueMeans(Tables(), job, now);
      rows := 0;
      if job in jobs {
        var pass := SingleGuard(jobs[job].state, Queued);
        if pass {
          var tx := UpdateJobState(Tables(), job, Queued, now);
          Commit(tx);
          rows := 1;
        }
      }
    }
  }
}
