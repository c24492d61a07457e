/**
 Dead letters match failures: with one scheduler a job has a dead-letter record exactly
 when it is FAILED, and the record repeats the final attempt.
 */
module DeadLetters {
  import opened Options
  import opened JobStates
  import opened JobTables
  import opened JobProtocol
  import opened AttemptNumbering
  import opened JobProgress
  import opened SchedulerModel
  import opened JointInvariant
  import opened SchedulerGuarantees

  /** The record of a failed job is what the trigger writes for its final attempt. */
  predicate LetterOk(db: Db, job: JobId)
    requires job in db.jobs
  {
    && job in db.deadLetters
    && forall a :: a in db.attempts && IsCurrentAttempt(db, job, a) ==>
         db.deadLetters[job] == TriggerLetter(db.jobs[job], Some(db.attempts[a]))
  }

  /** A recovery has begun on the job's current attempt and is not confirmed yet. */
  predicate BeingRecovered(db: Db, i: IntentId) {
    && i in db.intents && Linked(db, i) && IsCurrent(db, i) && db.intents[i].status.Terminated?
    && (db.jobs[JobOf(db, i)].state.Starting? || db.jobs[JobOf(db, i)].state.Running? ||
         db.jobs[JobOf(db, i)].state.RecoveryPending?)
  }

  predicate LettersOk(db: Db) {
    && (forall j :: j in db.deadLetters ==> j in db.jobs && db.jobs[j].state.Failed?)
    && (forall j :: j in db.jobs && db.jobs[j].state.Failed? ==> LetterOk(db, j))
    && (forall i :: i in db.intents && BeingRecovered(db, i) ==> LeaseLost(db, i))
  }

  datatype Write = Write(intent: IntentId, attempt: AttemptId)

  /** The attempt an operation may write, and the intent it holds it by. */
  function AttemptWrite(w: World, op: Op): Option<Write> {
    match op
    case Claim(iid, _, _) => if Claimable(w.db, iid) then Some(Write(iid, w.db.intents[iid].attempt)) else None
    case MarkRunning(t) => ReportWrite(w, t)
    case MarkSucceeded(t, _) => ReportWrite(w, t)
    case MarkFailed(t, _, _, _, _) => ReportWrite(w, t)
    case MarkCancelled(t, _) => ReportWrite(w, t)
    case Begin(it) => if it in w.items && BeginOk(w.db, it, w.now) then Some(Write(it.intent, it.attempt)) else None
    case _ => None
  }

  function ReportWrite(w: World, t: Token): Option<Write> {
    if t in w.tokens && Holds(w.db, t) then Some(Write(t.intent, t.attempt)) else None
  }

  lemma OnlyWritersChangeAttempts(w: World, op: Op, a: AttemptId)
    requires a in w.db.attempts
    ensures a in Apply(w, op).db.attempts
    ensures Apply(w, op).db.attempts[a] != w.db.attempts[a] ==>
              AttemptWrite(w, op).Some? && AttemptWrite(w, op).value.attempt == a
  {
  }

  lemma WritersHoldLiveIntents(w: World, op: Op)
    requires WorldOk(w) && AttemptWrite(w, op).Some?
    ensures var wr := AttemptWrite(w, op).value;
            wr.intent in w.db.intents && w.db.intents[wr.intent].Live() && w.db.intents[wr.intent].attempt == wr.attempt
  {
    match op
    case MarkRunning(t) => assert TokenOk(w.db, t);
    case MarkSucceeded(t, _) => assert TokenOk(w.db, t);
    case MarkFailed(t, _, _, _, _) => assert TokenOk(w.db, t);
    case MarkCancelled(t, _) => assert TokenOk(w.db, t);
    case Begin(it) => assert ItemOk(w.db, it);
    case _ =>
  }

  /** An attempt whose intent is finished is never written again. */
  lemma FinishedAttemptIsFrozen(w: World, op: Op, i: IntentId)
    requires WorldOk(w) && i in w.db.intents && Finished(w.db.intents[i])
    ensures var a := w.db.intents[i].attempt;
            a in w.db.attempts && a in Apply(w, op).db.attempts && Apply(w, op).db.attempts[a] == w.db.attempts[a]
  {
    var a := w.db.intents[i].attempt;
    OnlyWritersChangeAttempts(w, op, a);
    if Apply(w, op).db.attempts[a] != w.db.attempts[a] {
      WritersHoldLiveIntents(w, op);
      SharedAttemptIsSameIntent(w.db, i, AttemptWrite(w, op).value.intent);
    }
  }

  /** A failed job's final attempt is finished. */
  lemma FailedIsFinished(db: Db, job: JobId, a: AttemptId) returns (i: IntentId)
    requires Structure(db) && Joint(db) && job in db.jobs && db.jobs[job].state.Failed? && IsCurrentAttempt(db, job, a)
    ensures i in db.intents && db.intents[i].attempt == a && db.intents[i].status.Terminated?
  {
    assert HasIntent(db, a);
    i :| i in db.intents && db.intents[i].attempt == a;
    assert Linked(db, i) && IntentAgrees(db, i);
  }

  /** There are two ways into FAILED, and each writes the record. */
  lemma IntoFailed(w: World, op: Op, job: JobId)
    requires job in w.db.jobs && !w.db.jobs[job].state.Failed?
    requires job in Apply(w, op).db.jobs && Apply(w, op).db.jobs[job].state.Failed?
    ensures || (op.MarkFailed? && op.token in w.tokens && op.token.job == job && FailedOk(w.db, op.token))
            || (op.Confirm? && op.job == job && !op.shouldRetry && !op.isCancel
                && ConfirmOk(w.db, job, false, false) && CurrentRowOk(w.db, job, op.current))
    ensures Apply(w, op).db.jobs[job].attempt == w.db.jobs[job].attempt
  {
  }

  /** A record appears only together with the move to FAILED. */
  lemma NewLetterIsFailure(w: World, op: Op, job: JobId)
    requires job in Apply(w, op).db.deadLetters && job !in w.db.deadLetters
    ensures job in Apply(w, op).db.jobs && Apply(w, op).db.jobs[job].state.Failed?
  {
  }

  /** The record of a failed job is never touched again. */
  lemma LetterRowStays(w: World, op: Op, job: JobId)
    requires job in w.db.jobs && w.db.jobs[job].state.Failed? && job in w.db.deadLetters
    ensures job in Apply(w, op).db.deadLetters && Apply(w, op).db.deadLetters[job] == w.db.deadLetters[job]
  {
    CaseUpdatesAreLegal(Failed, true);
    CaseUpdatesAreLegal(Failed, false);
  }

  /** The job's current attempt is unique. */
  lemma CurrentAttemptIsUnique(db: Db, job: JobId, a: AttemptId, b: AttemptId)
    requires Structure(db) && IsCurrentAttempt(db, job, a) && IsCurrentAttempt(db, job, b)
    ensures a == b
  {
    assert SameSlot(db, a, b);
  }

  /** The failure report's record is the attempt it has just written. */
  lemma ReportWritesLetter(db: Db, t: Token, reason: string, exitCode: int, shouldRetry: bool,
                           pick: Option<ReservationId>, now: int)
    requires Structure(db) && Joint(db) && TokenOk(db, t) && FailedOk(db, t)
    requires FailureTarget(db.jobs[t.job].state, shouldRetry).Failed?
    ensures LetterOk(FailedTx(db, t, reason, exitCode, shouldRetry, pick, now), t.job)
  {
    var db' := FailedTx(db, t, reason, exitCode, shouldRetry, pick, now);
    HolderIsCurrent(db, t);
    assert IsCurrentAttempt(db, t.job, t.attempt);
    forall a | a in db'.attempts && IsCurrentAttempt(db', t.job, a) ensures a == t.attempt {
      CurrentAttemptIsUnique(db, t.job, a, t.attempt);
    }
  }

  /** The confirmation copies the reason that beginning the recovery recorded, so the default is never used. */
  lemma ConfirmWritesLetter(db: Db, job: JobId, cur: Option<AttemptId>, pick: Option<ReservationId>, now: int,
                            i: IntentId)
    requires Structure(db) && Joint(db) && LettersOk(db)
    requires ConfirmOk(db, job, false, false) && CurrentRowOk(db, job, cur)
    requires i in db.intents && JobOf(db, i) == job && IsCurrent(db, i) && db.intents[i].status.Terminated?
    ensures LetterOk(ConfirmTx(db, job, false, false, cur, pick, now), job)
  {
    var b := db.intents[i].attempt;
    assert BeingRecovered(db, i) && LeaseLost(db, i);
    assert IsCurrentAttempt(db, job, b);
    assert cur.Some?;
    forall a | a in db.attempts && IsCurrentAttempt(db, job, a) ensures a == b {
      CurrentAttemptIsUnique(db, job, a, b);
    }
    LetterOfLostLease(db, job, b, pick, now);
  }

  lemma LetterOfLostLease(db: Db, job: JobId, b: AttemptId, pick: Option<ReservationId>, now: int)
    requires ConfirmOk(db, job, false, false) && IsCurrentAttempt(db, job, b)
    requires forall a :: a in db.attempts && IsCurrentAttempt(db, job, a) ==> a == b
    requires db.attempts[b].reason == Some(LEASE_LOST)
    ensures LetterOk(ConfirmTx(db, job, false, false, Some(b), pick, now), job)
  {
  }

  /** A failed job takes no further attempt. */
  lemma FailedTakesNoAttempt(w: World, op: Op, job: JobId, a: AttemptId)
    requires WorldOk(w) && job in w.db.jobs && w.db.jobs[job].state.Failed?
    requires IsCurrentAttempt(Apply(w, op).db, job, a)
    ensures IsCurrentAttempt(w.db, job, a)
  {
    StepIsLegal(w, op, job);
    if a !in w.db.attempts {
      NewAttemptsAreAdmitted(w, op, a);
    } else {
      AttemptStays(w, op, a);
    }
  }

  lemma AttemptStays(w: World, op: Op, a: AttemptId)
    requires WorldOk(w) && a in w.db.attempts && a in Apply(w, op).db.attempts
    ensures Apply(w, op).db.attempts[a].job == w.db.attempts[a].job &&
            Apply(w, op).db.attempts[a].number == w.db.attempts[a].number
  {
    StepGrows(w, op);
  }

  /** A failed job keeps its final attempt, and that row keeps its contents. */
  lemma FinalAttemptStays(w: World, op: Op, job: JobId, a: AttemptId)
    requires WorldOk(w) && Joint(w.db) && job in w.db.jobs && w.db.jobs[job].state.Failed?
    requires IsCurrentAttempt(Apply(w, op).db, job, a)
    ensures IsCurrentAttempt(w.db, job, a) && Apply(w, op).db.attempts[a] == w.db.attempts[a]
  {
    FailedTakesNoAttempt(w, op, job, a);
    var i := FailedIsFinished(w.db, job, a);
    FinishedAttemptIsFrozen(w, op, i);
  }

  lemma LetterStays(w: World, op: Op, job: JobId)
    requires WorldOk(w) && Joint(w.db) && LettersOk(w.db) && job in w.db.jobs && w.db.jobs[job].state.Failed?
    requires job in Apply(w, op).db.jobs
    ensures LetterOk(Apply(w, op).db, job)
  {
    assert LetterOk(w.db, job);
    LetterRowStays(w, op, job);
    StepIsLegal(w, op, job);
    var db' := Apply(w, op).db;
    forall a | a in db'.attempts && IsCurrentAttempt(db', job, a)
      ensures db'.deadLetters[job] == TriggerLetter(db'.jobs[job], Some(db'.attempts[a]))
    {
      FinalAttemptStays(w, op, job, a);
    }
  }

  lemma NewAttemptsAreAdmitted(w: World, op: Op, a: AttemptId)
    requires a in Apply(w, op).db.attempts && a !in w.db.attempts
    ensures Apply(w, op).db.attempts[a].job in Apply(w, op).db.jobs
    ensures Apply(w, op).db.jobs[Apply(w, op).db.attempts[a].job].state.Admitted?
  {
  }

  lemma NewIntentsArePending(w: World, op: Op, i: IntentId)
    requires i in Apply(w, op).db.intents
    ensures i in w.db.intents || Apply(w, op).db.intents[i].status.Pending?
  {
  }

  /** An intent is terminated by a failure report, a cancellation report or the begin of a recovery. */
  lemma TerminatedBy(w: World, op: Op, i: IntentId)
    requires i in w.db.intents && !w.db.intents[i].status.Terminated?
    requires i in Apply(w, op).db.intents && Apply(w, op).db.intents[i].status.Terminated?
    ensures || (op.MarkFailed? && op.token in w.tokens && op.token.intent == i && FailedOk(w.db, op.token))
            || (op.MarkCancelled? && op.token in w.tokens && op.token.intent == i && CancelledOk(w.db, op.token))
            || (op.Begin? && op.item in w.items && op.item.intent == i && BeginOk(w.db, op.item, w.now))
  {
  }

  /** Reports move the job on together with the intent. */
  lemma ReportsEndRecovery(w: World, op: Op)
    requires (op.MarkFailed? && FailedOk(w.db, op.token)) || (op.MarkCancelled? && CancelledOk(w.db, op.token))
    requires op.token in w.tokens && TokenOk(w.db, op.token)
    ensures !BeingRecovered(Apply(w, op).db, op.token.intent)
  {
  }

  lemma BeginRecordsLostLease(w: World, op: Op)
    requires op.Begin? && op.item in w.items && BeginOk(w.db, op.item, w.now) && ItemCurrent(w.db, op.item)
    requires BeingRecovered(Apply(w, op).db, op.item.intent)
    ensures LeaseLost(Apply(w, op).db, op.item.intent)
  {
  }

  predicate LeaseLost(db: Db, i: IntentId)
    requires Linked(db, i)
  {
    AttemptOf(db, i).exitCode == Some(-1) && AttemptOf(db, i).reason == Some(LEASE_LOST)
  }

  lemma IntoTerminated(w: World, op: Op, i: IntentId)
    requires WorldOk(w) && (op.Begin? ==> ItemCurrent(w.db, op.item))
    requires i in w.db.intents && !w.db.intents[i].status.Terminated?
    requires BeingRecovered(Apply(w, op).db, i)
    ensures LeaseLost(Apply(w, op).db, i)
  {
    TerminatedBy(w, op, i);
    if op.Begin? {
      BeginRecordsLostLease(w, op);
    } else {
      assert TokenOk(w.db, op.token);
      ReportsEndRecovery(w, op);
    }
  }

  /** A terminated intent that is being recovered after a step was being recovered before it. */
  lemma WasBeingRecovered(db: Db, db': Db, i: IntentId)
    requires Joint(db) && Grows(db, db') && i in db.intents && db.intents[i].status.Terminated?
    requires JobOf(db, i) in db'.jobs && JobStep(db.jobs[JobOf(db, i)], db'.jobs[JobOf(db, i)])
    requires BeingRecovered(db', i)
    ensures BeingRecovered(db, i)
  {
    assert Linked(db, i) && IntentAgrees(db, i);
    var j, j' := db.jobs[JobOf(db, i)], db'.jobs[JobOf(db, i)];
    assert j'.attempt == j.attempt;
  }

  lemma RecoveredBefore(w: World, op: Op, i: IntentId)
    requires WorldOk(w) && Joint(w.db)
    requires i in w.db.intents && w.db.intents[i].status.Terminated? && BeingRecovered(Apply(w, op).db, i)
    ensures BeingRecovered(w.db, i)
  {
    StepGrows(w, op);
    StepIsLegal(w, op, JobOf(w.db, i));
    WasBeingRecovered(w.db, Apply(w, op).db, i);
  }

  lemma SameAttemptSameLease(db: Db, db': Db, i: IntentId)
    requires Linked(db, i) && Linked(db', i) && LeaseLost(db, i)
    requires db'.intents[i].attempt == db.intents[i].attempt &&
             db'.attempts[db.intents[i].attempt] == db.attempts[db.intents[i].attempt]
    ensures LeaseLost(db', i)
  {
  }

  lemma IntentKeepsAttempt(w: World, op: Op, i: IntentId)
    requires WorldOk(w) && i in w.db.intents
    ensures i in Apply(w, op).db.intents && Apply(w, op).db.intents[i].attempt == w.db.intents[i].attempt
  {
    StepGrows(w, op);
  }

  lemma LeaseStaysLost(w: World, op: Op, i: IntentId)
    requires WorldOk(w) && Joint(w.db) && LettersOk(w.db)
    requires i in w.db.intents && w.db.intents[i].status.Terminated? && BeingRecovered(Apply(w, op).db, i)
    ensures LeaseLost(Apply(w, op).db, i)
  {
    RecoveredBefore(w, op, i);
    FinishedAttemptIsFrozen(w, op, i);
    IntentKeepsAttempt(w, op, i);
    SameAttemptSameLease(w.db, Apply(w, op).db, i);
  }

  /** Beginning a recovery is the only way into it, and it records the lost lease. */
  lemma RecoveryRecordsLostLease(w: World, op: Op, i: IntentId)
    requires WorldOk(w) && Joint(w.db) && LettersOk(w.db)
    requires op.Begin? ==> ItemCurrent(w.db, op.item)
    requires BeingRecovered(Apply(w, op).db, i)
    ensures LeaseLost(Apply(w, op).db, i)
  {
    NewIntentsArePending(w, op, i);
    if w.db.intents[i].status.Terminated? {
      LeaseStaysLost(w, op, i);
    } else {
      IntoTerminated(w, op, i);
    }
  }

  lemma StepKeepsLetters(w: World, op: Op)
    requires WorldOk(w) && Joint(w.db) && LettersOk(w.db)
    requires op.Begin? ==> ItemCurrent(w.db, op.item)
    requires op.Confirm? ==>
             exists i :: i in w.db.intents && IntentOfJob(w.db, i, op.job) && w.db.intents[i].status.Terminated?
    ensures LettersOk(Apply(w, op).db)
  {
    var db' := Apply(w, op).db;
    forall j | j in db'.deadLetters ensures j in db'.jobs && db'.jobs[j].state.Failed? {
      LettersAreFailures(w, op, j);
    }
    forall j | j in db'.jobs && db'.jobs[j].state.Failed? ensures LetterOk(db', j) {
      FailedHasLetter(w, op, j);
    }
    forall i | i in db'.intents && BeingRecovered(db', i) ensures LeaseLost(db', i) {
      RecoveryRecordsLostLease(w, op, i);
    }
  }

  lemma LettersAreFailures(w: World, op: Op, job: JobId)
    requires LettersOk(w.db) && job in Apply(w, op).db.deadLetters
    ensures job in Apply(w, op).db.jobs && Apply(w, op).db.jobs[job].state.Failed?
  {
    if job in w.db.deadLetters {
      StepIsLegal(w, op, job);
    } else {
      NewLetterIsFailure(w, op, job);
    }
  }

  lemma ReportedFailureHasLetter(w: World, op: Op)
    requires WorldOk(w) && Joint(w.db) && op.MarkFailed? && op.token in w.tokens && FailedOk(w.db, op.token)
    requires Apply(w, op).db.jobs[op.token.job].state.Failed?
    ensures LetterOk(Apply(w, op).db, op.token.job)
  {
    assert TokenOk(w.db, op.token);
    ReportWritesLetter(w.db, op.token, op.reason, op.exitCode, op.shouldRetry, op.pick, w.now);
  }

  lemma ConfirmedFailureHasLetter(w: World, op: Op)
    requires WorldOk(w) && Joint(w.db) && LettersOk(w.db) && op.Confirm? && !op.shouldRetry && !op.isCancel
    requires exists i :: i in w.db.intents && IntentOfJob(w.db, i, op.job) && w.db.intents[i].status.Terminated?
    requires ConfirmOk(w.db, op.job, false, false) && CurrentRowOk(w.db, op.job, op.current)
    ensures LetterOk(Apply(w, op).db, op.job)
  {
    var i :| i in w.db.intents && IntentOfJob(w.db, i, op.job) && w.db.intents[i].status.Terminated?;
    ConfirmWritesLetter(w.db, op.job, op.current, op.pick, w.now, i);
  }

  lemma NewFailureHasLetter(w: World, op: Op, job: JobId)
    requires WorldOk(w) && Joint(w.db) && LettersOk(w.db)
    requires op.Confirm? ==>
             exists i :: i in w.db.intents && IntentOfJob(w.db, i, op.job) && w.db.intents[i].status.Terminated?
    requires job in w.db.jobs && !w.db.jobs[job].state.Failed?
    requires job in Apply(w, op).db.jobs && Apply(w, op).db.jobs[job].state.Failed?
    ensures LetterOk(Apply(w, op).db, job)
  {
    IntoFailed(w, op, job);
    if op.MarkFailed? {
      ReportedFailureHasLetter(w, op);
    } else {
      ConfirmedFailureHasLetter(w, op);
    }
  }

  lemma FailedHasLetter(w: World, op: Op, job: JobId)
    requires WorldOk(w) && Joint(w.db) && LettersOk(w.db)
    requires op.Confirm? ==>
             exists i :: i in w.db.intents && IntentOfJob(w.db, i, op.job) && w.db.intents[i].status.Terminated?
    requires job in Apply(w, op).db.jobs && Apply(w, op).db.jobs[job].state.Failed?
    ensures LetterOk(Apply(w, op).db, job)
  {
    if job !in w.db.jobs {
      NewJobsAreSubmitted(w, op, job);
    } else if w.db.jobs[job].state.Failed? {
      LetterStays(w, op, job);
    } else {
      NewFailureHasLetter(w, op, job);
    }
  }

  lemma {:induction false} ExecKeepsLetters(s: System, ops: seq<SysOp>)
    requires SystemOk(s) && LettersOk(s.w.db)
    ensures LettersOk(Exec(s, ops).w.db)
    decreases |ops|
  {
    if ops != [] {
      if Enabled(s, ops[0]) {
        if ops[0].ConfirmHead? {
          assert ItemCurrent(s.w.db, s.pc.todo[0]) && HeadOk(s, s.pc.todo[0]);
          assert IntentOfJob(s.w.db, s.pc.todo[0].intent, s.pc.todo[0].job);
        }
        StepKeepsLetters(s.w, Lower(s, ops[0]));
      }
      StepKeepsSystem(s, ops[0]);
      ExecKeepsLetters(Step(s, ops[0]), ops[1..]);
    }
  }

  /** The job's record repeats its number, workspace and final attempt. */
  predicate RecordsFinalAttempt(db: Db, job: JobId)
    requires job in db.jobs && job in db.deadLetters
  {
    exists a :: a in db.attempts && IsCurrentAttempt(db, job, a)
      && db.deadLetters[job] == TriggerLetter(db.jobs[job], Some(db.attempts[a]))
  }

  lemma LettersMatch(db: Db, job: JobId)
    requires Structure(db) && Joint(db) && LettersOk(db)
    ensures job in db.deadLetters <==> job in db.jobs && db.jobs[job].state.Failed?
    ensures job in db.deadLetters ==> RecordsFinalAttempt(db, job)
  {
    if job in db.deadLetters {
      assert LetterOk(db, job);
      var i := CurrentIntentExists(db, job);
      assert IsCurrentAttempt(db, job, db.intents[i].attempt);
    }
  }

  /**
   In every reachable state with one scheduler a job has a dead-letter record if and only if it is FAILED, and the
   record's attempt number, exit code and reason are those of the final attempt: both
   store paths and the trigger write the same row.
   */
  lemma DeadLettersMatchFailures(hasDeleter: bool, cap: nat, ops: seq<SysOp>, job: JobId)
    ensures var db := Exec(Start(hasDeleter, cap), ops).w.db;
            && (job in db.deadLetters <==> job in db.jobs && db.jobs[job].state.Failed?)
            && (job in db.deadLetters ==> RecordsFinalAttempt(db, job))
  {
    ReachableStatesAgree(hasDeleter, cap, ops);
    ExecKeepsLetters(Start(hasDeleter, cap), ops);
    LettersMatch(Exec(Start(hasDeleter, cap), ops).w.db, job);
  }
}
