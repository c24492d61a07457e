/**
 With one scheduler, job state, current attempt state and intent status agree in every
 reachable state.  This is what makes the writes without a state guard safe.
 */
module JointInvariant {
  import opened Options
  import opened JobStates
  import opened JobTables
  import opened JobProtocol
  import opened AttemptNumbering
  import opened SchedulerModel

  /** Which job states, attempt states and intent statuses may occur together for the current attempt. */
  predicate Agree(job: JobState, attempt: JobState, intent: IntentStatus) {
    match intent
    case Pending => attempt.Admitted? && (job.Admitted? || job.CancelRequested?)
    case Claimed =>
      || (attempt.Starting? && (job.Starting? || job.CancelRequested?))
      || (attempt.Running? && (job.Running? || job.CancelRequested?))
    case Applied => attempt.Succeeded? && (job.Succeeded? || job.Cancelled?)
    case Terminated =>
      || (attempt.Failed? && !job.Admitted? && !job.Succeeded?)
      || (attempt.Cancelled? && (job.CancelRequested? || job.Cancelled?))
  }

  /** The intent, its attempt and its job. */
  predicate Linked(db: Db, i: IntentId) {
    && i in db.intents && db.intents[i].attempt in db.attempts
    && db.attempts[db.intents[i].attempt].job in db.jobs
  }

  function AttemptOf(db: Db, i: IntentId): Attempt
    requires Linked(db, i)
  {
    db.attempts[db.intents[i].attempt]
  }

  function JobOf(db: Db, i: IntentId): JobId
    requires Linked(db, i)
  {
    AttemptOf(db, i).job
  }

  predicate IsCurrent(db: Db, i: IntentId)
    requires Linked(db, i)
  {
    AttemptOf(db, i).number == db.jobs[JobOf(db, i)].attempt
  }

  predicate IntentAgrees(db: Db, i: IntentId)
    requires Linked(db, i)
  {
    if IsCurrent(db, i)
    then Agree(db.jobs[JobOf(db, i)].state, AttemptOf(db, i).state, db.intents[i].status)
    else AttemptOf(db, i).state.Failed? && db.intents[i].status.Terminated?
  }

  /** Every intent agrees with its attempt and job, and a job without attempts is queued or being cancelled. */
  predicate Joint(db: Db) {
    && (forall i :: i in db.intents ==> Linked(db, i) && IntentAgrees(db, i))
    && (forall j :: j in db.jobs && db.jobs[j].attempt == 0 ==>
         (db.jobs[j].state.Queued? || db.jobs[j].state.CancelRequested?))
  }

  /** An item in the scheduler's hands: it is about the job's current attempt, and what it saw is still so. */
  predicate ItemCurrent(db: Db, it: RecoveryItem) {
    && RefersTo(db, it.intent, it.attempt, it.job, it.number, it.maxRetries)
    && it.number == db.jobs[it.job].attempt
    && (!it.needsBegin ==> db.intents[it.intent].status.Terminated?)
    && (IsCancel(it) ==> (db.jobs[it.job].state.CancelRequested? || db.jobs[it.job].state.Cancelled?))
  }

  /** What the head of the list guarantees in each phase. */
  predicate HeadOk(s: System, it: RecoveryItem)
    requires ItemCurrent(s.w.db, it)
  {
    match s.pc
    case Recovering(_, Begun) => s.w.db.intents[it.intent].status.Terminated?
    case Recovering(_, Confirming(retry)) =>
      && s.w.db.intents[it.intent].status.Terminated?
      && (retry ==> !IsCancel(it) && it.number <= it.maxRetries && (s.hasDeleter ==> it.attempt in s.stopped))
    case _ => true
  }

  predicate PcOk(s: System) {
    s.pc.Recovering? ==>
      && (forall k :: 0 <= k < |s.pc.todo| ==> ItemCurrent(s.w.db, s.pc.todo[k]) && s.pc.todo[k] in s.w.items)
      && (s.pc.todo != [] ==> HeadOk(s, s.pc.todo[0]))
  }

  predicate RowsKnown(s: System) {
    s.pc.Admitting? ==> forall k :: 0 <= k < |s.pc.rows| ==> s.pc.rows[k] in s.w.scans
  }

  predicate SystemOk(s: System) {
    WorldOk(s.w) && Joint(s.w.db) && PcOk(s) && RowsKnown(s)
  }

  // ---------------------------------------------------------------- the tables agree after every operation

  /** Outside job `j`, and for `j`'s earlier attempts, nothing that matters for agreement changes. */
  predicate QuietOutside(db: Db, db': Db, j: JobId)
    requires forall i :: i in db.intents ==> Linked(db, i)
  {
    && SameSkeleton(db, db')
    && (forall k :: k in db.jobs && k != j ==> db'.jobs[k].state == db.jobs[k].state)
    && (forall i :: i in db.intents && (JobOf(db, i) != j || !IsCurrent(db, i)) ==>
          && db'.intents[i].status == db.intents[i].status
          && db'.attempts[db.intents[i].attempt].state == AttemptOf(db, i).state)
  }

  /** A change confined to one job keeps agreement if that job's current attempt still agrees. */
  lemma QuietChangeKeepsJoint(db: Db, db': Db, j: JobId)
    requires Joint(db) && j in db.jobs && QuietOutside(db, db', j)
    requires db.jobs[j].attempt == 0 ==> (db'.jobs[j].state.Queued? || db'.jobs[j].state.CancelRequested?)
    requires forall i :: i in db.intents && JobOf(db, i) == j && IsCurrent(db, i) ==>
               Agree(db'.jobs[j].state, db'.attempts[db.intents[i].attempt].state, db'.intents[i].status)
    ensures Joint(db')
  {
    forall i | i in db'.intents ensures Linked(db', i) && IntentAgrees(db', i) {
      assert Linked(db, i) && IntentAgrees(db, i);
    }
  }

  /** The current attempt of a job and its intent are unique. */
  lemma CurrentIsUnique(db: Db, i: IntentId, k: IntentId)
    requires Structure(db) && Joint(db)
    requires i in db.intents && k in db.intents && JobOf(db, i) == JobOf(db, k) && IsCurrent(db, i) && IsCurrent(db, k)
    ensures i == k
  {
    assert SameSlot(db, db.intents[i].attempt, db.intents[k].attempt);
    assert SameTarget(db, i, k);
  }

  lemma SharedAttemptIsSameIntent(db: Db, i: IntentId, k: IntentId)
    requires Structure(db)
    requires i in db.intents && k in db.intents && db.intents[i].attempt == db.intents[k].attempt
    ensures i == k
  {
    assert SameTarget(db, i, k);
  }

  /**
   A write to one intent, its attempt and its job, all current, keeps agreement if the three
   new values agree.
   */
  lemma TripleWriteKeepsJoint(db: Db, db': Db, i: IntentId)
    requires Structure(db) && Joint(db) && i in db.intents && IsCurrent(db, i) && SameSkeleton(db, db')
    requires OnlyWrites(db, db', i, db.intents[i].attempt, JobOf(db, i))
    requires Agree(db'.jobs[JobOf(db, i)].state, db'.attempts[db.intents[i].attempt].state, db'.intents[i].status)
    ensures Joint(db')
  {
    var j := JobOf(db, i);
    forall k | k in db.intents && (JobOf(db, k) != j || !IsCurrent(db, k))
      ensures db'.intents[k].status == db.intents[k].status
      ensures db'.attempts[db.intents[k].attempt].state == AttemptOf(db, k).state
    {
      if db.intents[k].attempt == db.intents[i].attempt {
        SharedAttemptIsSameIntent(db, i, k);
      }
    }
    forall k | k in db.intents && JobOf(db, k) == j && IsCurrent(db, k) ensures k == i {
      CurrentIsUnique(db, i, k);
    }
    assert AttemptsInRange(db);
    QuietChangeKeepsJoint(db, db', j);
  }

  /** A write to the job alone. */
  lemma JobWriteKeepsJoint(db: Db, db': Db, j: JobId)
    requires Joint(db) && j in db.jobs && SameSkeleton(db, db') && OnlyWritesJob(db, db', j)
    requires db.jobs[j].attempt == 0 ==> (db'.jobs[j].state.Queued? || db'.jobs[j].state.CancelRequested?)
    requires forall i :: i in db.intents && JobOf(db, i) == j && IsCurrent(db, i) ==>
               Agree(db'.jobs[j].state, AttemptOf(db, i).state, db.intents[i].status)
    ensures Joint(db')
  {
    QuietChangeKeepsJoint(db, db', j);
  }

  /** A held claim is about the job's current attempt: earlier attempts' intents are TERMINATED. */
  lemma HolderIsCurrent(db: Db, t: Token)
    requires Joint(db) && TokenOk(db, t) && Holds(db, t)
    ensures Linked(db, t.intent) && IsCurrent(db, t.intent) && JobOf(db, t.intent) == t.job
    ensures Agree(db.jobs[t.job].state, db.attempts[t.attempt].state, Claimed)
  {
    assert IntentAgrees(db, t.intent);
  }

  lemma RunningKeepsJoint(db: Db, t: Token, now: int)
    requires Structure(db) && Joint(db) && TokenOk(db, t)
    ensures Joint(RunningTx(db, t, now))
  {
    if RunningOk(db, t) {
      HolderIsCurrent(db, t);
      RunningMoves(db, t, now);
      TripleWriteKeepsJoint(db, RunningTx(db, t, now), t.intent);
    }
  }

  lemma SucceededKeepsJoint(db: Db, t: Token, pick: Option<ReservationId>, now: int)
    requires Structure(db) && Joint(db) && TokenOk(db, t)
    ensures Joint(SucceededTx(db, t, pick, now))
  {
    if SucceededOk(db, t) {
      HolderIsCurrent(db, t);
      SucceededMoves(db, t, pick, now);
      CaseUpdatesAreLegal(db.jobs[t.job].state, true);
      TripleWriteKeepsJoint(db, SucceededTx(db, t, pick, now), t.intent);
    }
  }

  lemma FailedKeepsJoint(db: Db, t: Token, reason: string, exitCode: int, shouldRetry: bool,
                         pick: Option<ReservationId>, now: int)
    requires Structure(db) && Joint(db) && TokenOk(db, t)
    ensures Joint(FailedTx(db, t, reason, exitCode, shouldRetry, pick, now))
  {
    if FailedOk(db, t) {
      HolderIsCurrent(db, t);
      FailedMoves(db, t, reason, exitCode, shouldRetry, pick, now);
      TripleWriteKeepsJoint(db, FailedTx(db, t, reason, exitCode, shouldRetry, pick, now), t.intent);
    }
  }

  lemma CancelledKeepsJoint(db: Db, t: Token, pick: Option<ReservationId>, now: int)
    requires Structure(db) && Joint(db) && TokenOk(db, t)
    ensures Joint(CancelledTx(db, t, pick, now))
  {
    if CancelledOk(db, t) {
      HolderIsCurrent(db, t);
      CancelledMoves(db, t, pick, now);
      CaseUpdatesAreLegal(db.jobs[t.job].state, true);
      TripleWriteKeepsJoint(db, CancelledTx(db, t, pick, now), t.intent);
    }
  }

  lemma RunningReportKeepsJoint(w: World, t: Token)
    requires WorldOk(w) && Joint(w.db) && t in w.tokens
    ensures Joint(RunningTx(w.db, t, w.now))
  {
    assert TokenOk(w.db, t);
    RunningKeepsJoint(w.db, t, w.now);
  }

  lemma SuccessReportKeepsJoint(w: World, t: Token, pick: Option<ReservationId>)
    requires WorldOk(w) && Joint(w.db) && t in w.tokens
    ensures Joint(SucceededTx(w.db, t, pick, w.now))
  {
    assert TokenOk(w.db, t);
    SucceededKeepsJoint(w.db, t, pick, w.now);
  }

  lemma FailureReportKeepsJoint(w: World, t: Token, reason: string, exitCode: int, shouldRetry: bool,
                                pick: Option<ReservationId>)
    requires WorldOk(w) && Joint(w.db) && t in w.tokens
    ensures Joint(FailedTx(w.db, t, reason, exitCode, shouldRetry, pick, w.now))
  {
    assert TokenOk(w.db, t);
    FailedKeepsJoint(w.db, t, reason, exitCode, shouldRetry, pick, w.now);
  }

  lemma CancelReportKeepsJoint(w: World, t: Token, pick: Option<ReservationId>)
    requires WorldOk(w) && Joint(w.db) && t in w.tokens
    ensures Joint(CancelledTx(w.db, t, pick, w.now))
  {
    assert TokenOk(w.db, t);
    CancelledKeepsJoint(w.db, t, pick, w.now);
  }

  lemma ReportsKeepJoint(w: World, op: Op)
    requires WorldOk(w) && Joint(w.db)
    requires op.MarkRunning? || op.MarkSucceeded? || op.MarkFailed? || op.MarkCancelled?
    ensures Joint(NextDb(w, op))
  {
    if op.token in w.tokens {
      match op
      case MarkRunning(t) => RunningReportKeepsJoint(w, t);
      case MarkSucceeded(t, pick) => SuccessReportKeepsJoint(w, t, pick);
      case MarkFailed(t, reason, exitCode, shouldRetry, pick) =>
        FailureReportKeepsJoint(w, t, reason, exitCode, shouldRetry, pick);
      case MarkCancelled(t, pick) => CancelReportKeepsJoint(w, t, pick);
    }
  }

  lemma ClaimKeepsJoint(db: Db, iid: IntentId, worker: WorkerId, lease: int, now: int)
    requires Structure(db) && Joint(db) && Claimable(db, iid)
    ensures Joint(ClaimTx(db, iid, worker, lease, now))
  {
    assert Linked(db, iid) && IntentAgrees(db, iid);
    ClaimMoves(db, iid, worker, lease, now);
    TripleWriteKeepsJoint(db, ClaimTx(db, iid, worker, lease, now), iid);
  }

  lemma CancelKeepsJoint(db: Db, job: JobId, now: int)
    requires Joint(db)
    ensures Joint(CancelTx(db, job, now))
  {
    if CancelTx(db, job, now) != db {
      CancelMoves(db, job, now);
      forall i | i in db.intents && JobOf(db, i) == job && IsCurrent(db, i)
        ensures Agree(CancelRequested, AttemptOf(db, i).state, db.intents[i].status)
      {
        assert IntentAgrees(db, i);
      }
      JobWriteKeepsJoint(db, CancelTx(db, job, now), job);
    }
  }

  lemma RequeueKeepsJoint(db: Db, job: JobId, now: int)
    requires Joint(db)
    ensures Joint(RequeueTx(db, job, now))
  {
    if RequeueTx(db, job, now) != db {
      RequeueMoves(db, job, now);
      forall i | i in db.intents && JobOf(db, i) == job && IsCurrent(db, i)
        ensures Agree(Queued, AttemptOf(db, i).state, db.intents[i].status)
      {
        assert IntentAgrees(db, i);
      }
      JobWriteKeepsJoint(db, RequeueTx(db, job, now), job);
    }
  }

  lemma BegunAgrees(db: Db, it: RecoveryItem, now: int)
    requires ItemCurrent(db, it) && Linked(db, it.intent) && IntentAgrees(db, it.intent) && BeginOk(db, it, now)
    ensures var db' := BeginTx(db, it, now);
            Agree(db'.jobs[it.job].state, db'.attempts[it.attempt].state, db'.intents[it.intent].status)
  {
  }

  /** Beginning a recovery: the job may have moved since the item was read, but the lease check still holds. */
  lemma BeginKeepsJoint(db: Db, it: RecoveryItem, now: int)
    requires Structure(db) && Joint(db) && ItemCurrent(db, it)
    ensures Joint(BeginTx(db, it, now))
  {
    if BeginOk(db, it, now) {
      assert Linked(db, it.intent) && IsCurrent(db, it.intent) && IntentAgrees(db, it.intent);
      BeginMoves(db, it, now);
      BeginWrites(db, it, now);
      BegunAgrees(db, it, now);
      TripleWriteKeepsJoint(db, BeginTx(db, it, now), it.intent);
    }
  }

  /** Confirming a recovery is safe when the job's current intent is TERMINATED, which the store does not check. */
  lemma ConfirmKeepsJoint(w: World, op: Op, i: IntentId)
    requires WorldOk(w) && Joint(w.db) && op.Confirm?
    requires i in w.db.intents && JobOf(w.db, i) == op.job && IsCurrent(w.db, i) && w.db.intents[i].status.Terminated?
    ensures Joint(Apply(w, op).db)
  {
    ConfirmTxKeepsJoint(w.db, op.job, op.shouldRetry, op.isCancel, op.current, op.pick, w.now, i);
  }

  /** What agrees with the job's current intent agrees with every current intent of the job. */
  lemma CurrentDecides(db: Db, i: IntentId, state: JobState)
    requires Structure(db) && Joint(db) && i in db.intents && IsCurrent(db, i)
    requires Agree(state, AttemptOf(db, i).state, db.intents[i].status)
    ensures db.jobs[JobOf(db, i)].attempt > 0
    ensures forall k :: k in db.intents && JobOf(db, k) == JobOf(db, i) && IsCurrent(db, k) ==>
              Agree(state, AttemptOf(db, k).state, db.intents[k].status)
  {
    forall k | k in db.intents && JobOf(db, k) == JobOf(db, i) && IsCurrent(db, k) ensures k == i {
      CurrentIsUnique(db, i, k);
    }
    assert AttemptsInRange(db);
  }

  /** The targets of a confirmation agree with an ended attempt. */
  lemma ConfirmedAgrees(db: Db, i: IntentId, shouldRetry: bool, isCancel: bool)
    requires Linked(db, i) && IntentAgrees(db, i) && IsCurrent(db, i) && db.intents[i].status.Terminated?
    requires ConfirmOk(db, JobOf(db, i), shouldRetry, isCancel)
    ensures Agree(RecoveryTarget(shouldRetry, isCancel), AttemptOf(db, i).state, db.intents[i].status)
  {
  }

  lemma ConfirmTxKeepsJoint(db: Db, job: JobId, shouldRetry: bool, isCancel: bool,
                            cur: Option<AttemptId>, pick: Option<ReservationId>, now: int, i: IntentId)
    requires Structure(db) && Joint(db)
    requires i in db.intents && JobOf(db, i) == job && IsCurrent(db, i) && db.intents[i].status.Terminated?
    ensures Joint(ConfirmTx(db, job, shouldRetry, isCancel, cur, pick, now))
  {
    if ConfirmOk(db, job, shouldRetry, isCancel) && CurrentRowOk(db, job, cur) {
      ConfirmMoves(db, job, shouldRetry, isCancel, cur, pick, now);
      assert IntentAgrees(db, i);
      ConfirmedAgrees(db, i, shouldRetry, isCancel);
      CurrentDecides(db, i, RecoveryTarget(shouldRetry, isCancel));
      JobWriteKeepsJoint(db, ConfirmTx(db, job, shouldRetry, isCancel, cur, pick, now), job);
    }
  }

  /** Admission retires the current attempt, which QUEUED guarantees to have failed and ended. */
  lemma AdmitKeepsJoint(w: World, op: Op)
    requires WorldOk(w) && Joint(w.db) && op.Admit?
    ensures Joint(Apply(w, op).db)
  {
    if op.row in w.scans && AdmitOk(w.db, op.row, op.aid, op.iid, op.rid) {
      AdmissionTakesNextNumber(w.db, op.row, op.aid, op.iid, op.rid);
      var db, db' := w.db, Apply(w, op).db;
      forall i | i in db'.intents ensures Linked(db', i) && IntentAgrees(db', i) {
        if i != op.iid {
          assert Linked(db, i) && IntentAgrees(db, i);
          assert AttemptsInRange(db);
        }
      }
    }
  }

  lemma SubmitKeepsJoint(w: World, op: Op)
    requires WorldOk(w) && Joint(w.db) && op.Submit?
    ensures Joint(Apply(w, op).db)
  {
    forall i | i in w.db.intents ensures Linked(Apply(w, op).db, i) && IntentAgrees(Apply(w, op).db, i) {
      assert IntentAgrees(w.db, i);
    }
  }

  lemma QuietOpsKeepJoint(w: World, op: Op)
    requires WorldOk(w) && Joint(w.db)
    requires op.Tick? || op.Scan? || op.FindExpired? || op.Expire? || op.Renew? ||
             (op.Claim? && !Claimable(w.db, op.iid))
    ensures Joint(Apply(w, op).db)
  {
    var db' := Apply(w, op).db;
    forall i | i in db'.intents ensures Linked(db', i) && IntentAgrees(db', i) {
      assert IntentAgrees(w.db, i);
    }
  }

  // ---------------------------------------------------------------- the scheduler's rows stay current

  /** Nothing but admission and submission can make a held item stale; a terminated intent and a cancellation stay. */
  lemma ItemStaysCurrent(w: World, op: Op, it: RecoveryItem)
    requires ItemCurrent(w.db, it) && !op.Admit? && !op.Submit?
    ensures ItemCurrent(Apply(w, op).db, it)
    ensures w.db.intents[it.intent].status.Terminated? ==> Apply(w, op).db.intents[it.intent].status.Terminated?
  {
    OnlyAdmissionAndSubmissionChangeTheSkeleton(w, op);
    StepIsLegal(w, op, it.job);
  }

  lemma SubmitKeepsItem(w: World, op: Op, it: RecoveryItem)
    requires ItemCurrent(w.db, it) && op.Submit?
    ensures ItemCurrent(Apply(w, op).db, it)
    ensures Apply(w, op).db.intents == w.db.intents
  {
  }

  lemma NewItemIsCurrent(db: Db, iid: IntentId, now: int)
    requires Joint(db) && NeedsRecovery(db, iid, now)
    ensures ItemCurrent(db, SnapshotExpired(db, iid, now))
  {
    assert Linked(db, iid) && IntentAgrees(db, iid);
  }

  lemma BegunIsTerminated(w: World, it: RecoveryItem)
    requires it in w.items && BeginOk(w.db, it, w.now)
    ensures Apply(w, Begin(it)).db.intents[it.intent].status.Terminated?
  {
  }

  lemma EnvKeepsJoint(w: World, op: Op)
    requires WorldOk(w) && Joint(w.db) && EnvOp(op)
    ensures Joint(Apply(w, op).db)
  {
    match op
    case Submit(_, _, _, _) => SubmitKeepsJoint(w, op);
    case RequestCancel(job) => CancelKeepsJoint(w.db, job, w.now);
    case Claim(iid, worker, lease) =>
      if Claimable(w.db, iid) {
        ClaimKeepsJoint(w.db, iid, worker, lease, w.now);
      } else {
        QuietOpsKeepJoint(w, op);
      }
    case MarkRunning(_) => ReportsKeepJoint(w, op);
    case MarkSucceeded(_, _) => ReportsKeepJoint(w, op);
    case MarkFailed(_, _, _, _, _) => ReportsKeepJoint(w, op);
    case MarkCancelled(_, _) => ReportsKeepJoint(w, op);
    case _ => QuietOpsKeepJoint(w, op);
  }

  lemma BeginHeadKeepsJoint(s: System)
    requires SystemOk(s) && Enabled(s, BeginHead)
    ensures Joint(NextDb(s.w, Lower(s, BeginHead)))
  {
    assert ItemCurrent(s.w.db, s.pc.todo[0]);
    if s.pc.todo[0].needsBegin {
      BeginKeepsJoint(s.w.db, s.pc.todo[0], s.w.now);
    }
  }

  lemma ConfirmHeadKeepsJoint(s: System, op: SysOp)
    requires SystemOk(s) && Enabled(s, op) && op.ConfirmHead?
    ensures Joint(NextDb(s.w, Lower(s, op)))
  {
    var it := s.pc.todo[0];
    assert ItemCurrent(s.w.db, it) && HeadOk(s, it);
    ConfirmKeepsJoint(s.w, Lower(s, op), it.intent);
  }

  lemma LoweredKeepsJoint(s: System, op: SysOp)
    requires SystemOk(s) && Enabled(s, op)
    ensures Joint(Apply(s.w, Lower(s, op)).db)
  {
    match op
    case Env(e) => EnvKeepsJoint(s.w, e);
    case BeginHead => BeginHeadKeepsJoint(s);
    case ConfirmHead(_, _) => ConfirmHeadKeepsJoint(s, op);
    case RequeueOne(job, at) => RequeueKeepsJoint(s.w.db, job, at);
    case AdmitHead(_, _, _) => AdmitKeepsJoint(s.w, Lower(s, op));
    case _ => QuietOpsKeepJoint(s.w, Lower(s, op));
  }

  lemma StepKeepsJoint(s: System, op: SysOp)
    requires SystemOk(s)
    ensures Joint(Step(s, op).w.db)
  {
    if Enabled(s, op) {
      LoweredKeepsJoint(s, op);
    }
  }

  /** While the scheduler recovers, nothing is admitted. */
  lemma RecoveryAdmitsNothing(s: System, op: SysOp)
    requires s.pc.Recovering? && Enabled(s, op)
    ensures !Lower(s, op).Admit?
  {
  }

  lemma HeldItemsStayCurrent(s: System, op: SysOp, it: RecoveryItem)
    requires s.pc.Recovering? && Enabled(s, op) && ItemCurrent(s.w.db, it)
    ensures ItemCurrent(Step(s, op).w.db, it)
    ensures s.w.db.intents[it.intent].status.Terminated? ==> Step(s, op).w.db.intents[it.intent].status.Terminated?
  {
    RecoveryAdmitsNothing(s, op);
    if Lower(s, op).Submit? {
      SubmitKeepsItem(s.w, Lower(s, op), it);
    } else {
      ItemStaysCurrent(s.w, Lower(s, op), it);
    }
  }

  lemma NewTodoIsCurrent(s: System, op: SysOp, k: nat)
    requires SystemOk(s) && Enabled(s, op) && op.StartRecovery? && k < |op.intents|
    ensures var it := AllExpired(s.w.db, op.intents, s.w.now)[k];
            ItemCurrent(s.w.db, it) && it in Apply(s.w, Lower(s, op)).items
  {
    assert op.intents[k] in op.intents;
    NewItemIsCurrent(s.w.db, op.intents[k], s.w.now);
  }

  lemma HeldTodoIsCurrent(s: System, op: SysOp, k: nat)
    requires SystemOk(s) && Enabled(s, op) && s.pc.Recovering? && k < |s.pc.todo|
    ensures var it := s.pc.todo[k];
            ItemCurrent(Step(s, op).w.db, it) && it in Step(s, op).w.items
  {
    HeldItemsStayCurrent(s, op, s.pc.todo[k]);
  }

  /** The scheduler keeps its list, drops the head, or starts with a fresh one. */
  lemma TodoComesFrom(s: System, op: SysOp)
    requires Enabled(s, op) && NextPc(s, op).Recovering? && !op.StartRecovery?
    ensures s.pc.Recovering?
    ensures NextPc(s, op).todo == s.pc.todo || (s.pc.todo != [] && NextPc(s, op).todo == s.pc.todo[1..])
  {
  }

  lemma StepKeepsTodo(s: System, op: SysOp)
    requires SystemOk(s) && Enabled(s, op) && Step(s, op).pc.Recovering?
    ensures var s' := Step(s, op);
            forall k :: 0 <= k < |s'.pc.todo| ==> ItemCurrent(s'.w.db, s'.pc.todo[k]) && s'.pc.todo[k] in s'.w.items
  {
    var s' := Step(s, op);
    forall k | 0 <= k < |s'.pc.todo| ensures ItemCurrent(s'.w.db, s'.pc.todo[k]) && s'.pc.todo[k] in s'.w.items {
      if op.StartRecovery? {
        NewTodoIsCurrent(s, op, k);
      } else {
        TodoComesFrom(s, op);
        HeldTodoIsCurrent(s, op, if s'.pc.todo == s.pc.todo then k else k + 1);
      }
    }
  }

  lemma StepKeepsHead(s: System, op: SysOp)
    requires SystemOk(s) && Enabled(s, op)
    requires Step(s, op).pc.Recovering? && Step(s, op).pc.todo != [] && !Step(s, op).pc.phase.Fresh?
    requires ItemCurrent(Step(s, op).w.db, Step(s, op).pc.todo[0])
    ensures HeadOk(Step(s, op), Step(s, op).pc.todo[0])
  {
    var it := s.pc.todo[0];
    assert ItemCurrent(s.w.db, it) && HeadOk(s, it) && it in s.w.items;
    HeldItemsStayCurrent(s, op, it);
    if op.BeginHead? && it.needsBegin {
      BegunIsTerminated(s.w, it);
    }
  }

  lemma StepKeepsPc(s: System, op: SysOp)
    requires SystemOk(s)
    ensures PcOk(Step(s, op)) && RowsKnown(Step(s, op))
  {
    if Enabled(s, op) {
      var s' := Step(s, op);
      if s'.pc.Recovering? {
        StepKeepsTodo(s, op);
        if s'.pc.todo != [] && !s'.pc.phase.Fresh? {
          StepKeepsHead(s, op);
        }
      }
      if op.StartAdmission? {
        ScannedAreQueued(s.w.db, s.cap, op.limit, op.rank, op.jobs);
        forall k | s'.pc.Admitting? && 0 <= k < |s'.pc.rows| ensures s'.pc.rows[k] in s'.w.scans {
          assert op.jobs[k] in op.jobs && s'.pc.rows[k] == SnapshotJob(s.w.db, op.jobs[k]);
        }
      }
    }
  }

  lemma StepKeepsSystem(s: System, op: SysOp)
    requires SystemOk(s)
    ensures SystemOk(Step(s, op))
  {
    if Enabled(s, op) {
      StepKeepsWorld(s.w, Lower(s, op));
    }
    StepKeepsJoint(s, op);
    StepKeepsPc(s, op);
  }

  lemma {:induction false} ExecKeepsSystem(s: System, ops: seq<SysOp>)
    requires SystemOk(s)
    ensures SystemOk(Exec(s, ops))
    decreases |ops|
  {
    if ops != [] {
      StepKeepsSystem(s, ops[0]);
      ExecKeepsSystem(Step(s, ops[0]), ops[1..]);
    }
  }

  /**
   The joint invariant: in every reachable state of every run with one scheduler, each intent
   agrees with its attempt and its job, and every attempt but the current one has FAILED
   with a TERMINATED intent.
   */
  lemma ReachableStatesAgree(hasDeleter: bool, cap: nat, ops: seq<SysOp>)
    ensures SystemOk(Exec(Start(hasDeleter, cap), ops))
  {
    ExecKeepsSystem(Start(hasDeleter, cap), ops);
  }
}
