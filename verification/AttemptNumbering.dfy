/**
 Attempt numbers are gap-free for any number of schedulers admitting from arbitrarily old
 scans, and snapshots and claims never point at rows that changed identity.
 */
module AttemptNumbering {
  import opened JobTables
  import opened JobProtocol

  predicate HasIntent(db: Db, aid: AttemptId) {
    exists i :: i in db.intents && db.intents[i].attempt == aid
  }

  /** Every attempt belongs to a job and has a number between 1 and the job's current one. */
  predicate AttemptsInRange(db: Db) {
    forall a :: a in db.attempts ==>
      && db.attempts[a].job in db.jobs
      && 1 <= db.attempts[a].number <= db.jobs[db.attempts[a].job].attempt
  }

  predicate SameSlot(db: Db, a: AttemptId, b: AttemptId)
    requires a in db.attempts && b in db.attempts
  {
    db.attempts[a].job == db.attempts[b].job && db.attempts[a].number == db.attempts[b].number
  }

  /** The unique constraint uq_job_attempt_number. */
  predicate AttemptsUnique(db: Db) {
    forall a, b :: a in db.attempts && b in db.attempts && SameSlot(db, a, b) ==> a == b
  }

  /** Every number up to the current one has its attempt. */
  predicate NumbersFilled(db: Db) {
    forall j, n :: j in db.jobs && 1 <= n <= db.jobs[j].attempt ==> AttemptExists(db, j, n)
  }

  predicate BudgetBounds(db: Db) {
    forall j :: j in db.jobs ==> db.jobs[j].attempt <= db.jobs[j].maxRetries + 1
  }

  predicate IntentsOfAttempts(db: Db) {
    forall i :: i in db.intents ==> db.intents[i].attempt in db.attempts
  }

  predicate SameTarget(db: Db, i: IntentId, k: IntentId)
    requires i in db.intents && k in db.intents
  {
    db.intents[i].attempt == db.intents[k].attempt
  }

  predicate IntentsUnique(db: Db) {
    forall i, k :: i in db.intents && k in db.intents && SameTarget(db, i, k) ==> i == k
  }

  predicate AttemptsCovered(db: Db) {
    forall a :: a in db.attempts ==> HasIntent(db, a)
  }

  /** Attempts fill the slots of their jobs without gaps or repeats, and intents match attempts one to one. */
  predicate Structure(db: Db) {
    && AttemptsInRange(db) && AttemptsUnique(db) && NumbersFilled(db) && BudgetBounds(db)
    && IntentsOfAttempts(db) && IntentsUnique(db) && AttemptsCovered(db)
  }

  predicate RefersTo(db: Db, iid: IntentId, aid: AttemptId, job: JobId, number: nat, maxRetries: nat) {
    && iid in db.intents && db.intents[iid].attempt == aid
    && aid in db.attempts && db.attempts[aid].job == job && db.attempts[aid].number == number
    && job in db.jobs && db.jobs[job].maxRetries == maxRetries
  }

  predicate TokenOk(db: Db, t: Token) {
    && RefersTo(db, t.intent, t.attempt, t.job, t.number, t.maxRetries)
    && 1 <= t.epoch <= db.intents[t.intent].epoch
  }

  predicate ScanOk(db: Db, s: UnadmittedJob) {
    && s.job in db.jobs
    && db.jobs[s.job].workspace == s.workspace
    && db.jobs[s.job].maxRetries == s.maxRetries
    && s.attempt <= db.jobs[s.job].attempt
  }

  predicate ItemOk(db: Db, it: RecoveryItem) {
    && RefersTo(db, it.intent, it.attempt, it.job, it.number, it.maxRetries)
    && it.epoch <= db.intents[it.intent].epoch
  }

  predicate HistoryOk(w: World) {
    && (forall t :: t in w.tokens ==> TokenOk(w.db, t))
    && (forall s :: s in w.scans ==> ScanOk(w.db, s))
    && (forall it :: it in w.items ==> ItemOk(w.db, it))
  }

  predicate WorldOk(w: World) {
    Structure(w.db) && HistoryOk(w)
  }

  lemma SkeletonKeepsStructure(db: Db, db': Db)
    requires Structure(db) && SameSkeleton(db, db')
    ensures Structure(db')
  {
    forall a, b | a in db'.attempts && b in db'.attempts && SameSlot(db', a, b) ensures a == b {
      assert SameSlot(db, a, b);
    }
    forall i, k | i in db'.intents && k in db'.intents && SameTarget(db', i, k) ensures i == k {
      assert SameTarget(db, i, k);
    }
    forall j, n | j in db'.jobs && 1 <= n <= db'.jobs[j].attempt ensures AttemptExists(db', j, n) {
      assert AttemptExists(db, j, n);
      var a :| a in db.attempts && InSlot(db, a, j, n);
      assert InSlot(db', a, j, n);
    }
    forall a | a in db'.attempts ensures HasIntent(db', a) {
      assert HasIntent(db, a);
      var i :| i in db.intents && db.intents[i].attempt == a;
      assert db'.intents[i].attempt == a;
    }
  }

  /**
   An admission that commits from any snapshot of the job, however old, takes exactly the next number:
   an older snapshot's number already has an attempt.
   */
  lemma AdmissionTakesNextNumber(db: Db, s: UnadmittedJob, aid: AttemptId, iid: IntentId, rid: ReservationId)
    requires Structure(db) && ScanOk(db, s) && AdmitOk(db, s, aid, iid, rid)
    ensures s.attempt == db.jobs[s.job].attempt
  {
    assert 1 <= s.attempt + 1 <= db.jobs[s.job].attempt ==> AttemptExists(db, s.job, s.attempt + 1);
  }

  lemma AdmitKeepsAttempts(db: Db, s: UnadmittedJob, aid: AttemptId, iid: IntentId, rid: ReservationId, now: int)
    requires Structure(db) && ScanOk(db, s) && AdmitOk(db, s, aid, iid, rid)
    ensures var db' := AdmitTx(db, s, aid, iid, rid, now);
            AttemptsInRange(db') && AttemptsUnique(db') && NumbersFilled(db') && BudgetBounds(db')
  {
    AdmissionTakesNextNumber(db, s, aid, iid, rid);
    var db' := AdmitTx(db, s, aid, iid, rid, now);
    forall a, b | a in db'.attempts && b in db'.attempts && SameSlot(db', a, b) ensures a == b {
      if a != aid && b != aid {
        assert SameSlot(db, a, b);
      }
    }
    forall j, n | j in db'.jobs && 1 <= n <= db'.jobs[j].attempt ensures AttemptExists(db', j, n) {
      if j == s.job && n == s.attempt + 1 {
        assert InSlot(db', aid, j, n);
      } else {
        assert AttemptExists(db, j, n);
        var a :| a in db.attempts && InSlot(db, a, j, n);
        assert InSlot(db', a, j, n);
      }
    }
  }

  lemma AdmitKeepsIntents(db: Db, s: UnadmittedJob, aid: AttemptId, iid: IntentId, rid: ReservationId, now: int)
    requires IntentsOfAttempts(db) && IntentsUnique(db) && AttemptsCovered(db) && AdmitOk(db, s, aid, iid, rid)
    ensures var db' := AdmitTx(db, s, aid, iid, rid, now);
            IntentsOfAttempts(db') && IntentsUnique(db') && AttemptsCovered(db')
  {
    var db' := AdmitTx(db, s, aid, iid, rid, now);
    forall i, k | i in db'.intents && k in db'.intents && SameTarget(db', i, k) ensures i == k {
      if i != iid && k != iid {
        assert SameTarget(db, i, k);
      }
    }
    forall a | a in db'.attempts ensures HasIntent(db', a) {
      if a == aid {
        assert db'.intents[iid].attempt == a;
      } else {
        assert HasIntent(db, a);
        var i :| i in db.intents && db.intents[i].attempt == a;
        assert db'.intents[i] == db.intents[i];
      }
    }
  }

  lemma NewJobKeepsAttempts(db: Db, db': Db)
    requires Structure(db) && db'.attempts == db.attempts
    requires forall j :: j in db.jobs ==> j in db'.jobs && db'.jobs[j] == db.jobs[j]
    requires forall j :: j in db'.jobs && j !in db.jobs ==> db'.jobs[j].attempt == 0
    ensures AttemptsInRange(db') && AttemptsUnique(db') && NumbersFilled(db') && BudgetBounds(db')
  {
    forall a, b | a in db'.attempts && b in db'.attempts && SameSlot(db', a, b) ensures a == b {
      assert SameSlot(db, a, b);
    }
    forall j, n | j in db'.jobs && 1 <= n <= db'.jobs[j].attempt ensures AttemptExists(db', j, n) {
      assert AttemptExists(db, j, n);
      var a :| a in db.attempts && InSlot(db, a, j, n);
      assert InSlot(db', a, j, n);
    }
  }

  lemma SameIntentsKeepIntents(db: Db, db': Db)
    requires Structure(db) && db'.attempts == db.attempts && db'.intents == db.intents
    ensures IntentsOfAttempts(db') && IntentsUnique(db') && AttemptsCovered(db')
  {
    forall i, k | i in db'.intents && k in db'.intents && SameTarget(db', i, k) ensures i == k {
      assert SameTarget(db, i, k);
    }
    forall a | a in db'.attempts ensures HasIntent(db', a) {
      assert HasIntent(db, a);
    }
  }

  lemma SubmitKeepsStructure(db: Db, id: JobId, ws: WorkspaceId, maxRetries: nat, timeout: int, now: int)
    requires Structure(db)
    ensures Structure(SubmitTx(db, id, ws, maxRetries, timeout, now))
  {
    var db' := SubmitTx(db, id, ws, maxRetries, timeout, now);
    NewJobKeepsAttempts(db, db');
    SameIntentsKeepIntents(db, db');
  }

  /** Rows keep what snapshots and claims recorded about them; numbers and epochs only grow. */
  predicate Grows(db: Db, db': Db) {
    && (forall j :: j in db.jobs ==>
          j in db'.jobs && db.jobs[j].attempt <= db'.jobs[j].attempt && SameIdentity(db.jobs[j], db'.jobs[j]))
    && (forall a :: a in db.attempts ==>
          a in db'.attempts && db'.attempts[a].job == db.attempts[a].job &&
              db'.attempts[a].number == db.attempts[a].number)
    && (forall i :: i in db.intents ==>
          i in db'.intents && db'.intents[i].attempt == db.intents[i].attempt &&
              db.intents[i].epoch <= db'.intents[i].epoch)
  }

  lemma GrowthKeepsHistory(w: World, db': Db)
    requires HistoryOk(w) && Grows(w.db, db')
    ensures HistoryOk(w.(db := db'))
  {
  }

  lemma StepKeepsStructure(w: World, op: Op)
    requires WorldOk(w)
    ensures Structure(Apply(w, op).db)
  {
    match op
    case Submit(job, ws, maxRetries, timeout) =>
      SubmitKeepsStructure(w.db, job, ws, maxRetries, timeout, w.now);
    case Admit(row, aid, iid, rid) =>
      if row in w.scans && AdmitOk(w.db, row, aid, iid, rid) {
        AdmitKeepsAttempts(w.db, row, aid, iid, rid, w.now);
        AdmitKeepsIntents(w.db, row, aid, iid, rid, w.now);
      }
    case _ =>
      OnlyAdmissionAndSubmissionChangeTheSkeleton(w, op);
      SkeletonKeepsStructure(w.db, Apply(w, op).db);
  }

  lemma SkeletonGrows(db: Db, db': Db)
    requires SameSkeleton(db, db')
    ensures Grows(db, db')
  {
  }

  lemma AdmissionGrows(db: Db, s: UnadmittedJob, aid: AttemptId, iid: IntentId, rid: ReservationId, now: int)
    requires Structure(db) && ScanOk(db, s) && AdmitOk(db, s, aid, iid, rid)
    ensures Grows(db, AdmitTx(db, s, aid, iid, rid, now))
  {
    AdmissionTakesNextNumber(db, s, aid, iid, rid);
  }

  lemma SubmissionGrows(db: Db, id: JobId, ws: WorkspaceId, maxRetries: nat, timeout: int, now: int)
    ensures Grows(db, SubmitTx(db, id, ws, maxRetries, timeout, now))
  {
  }

  lemma StepGrows(w: World, op: Op)
    requires WorldOk(w)
    ensures Grows(w.db, Apply(w, op).db)
  {
    match op
    case Admit(row, aid, iid, rid) =>
      if row in w.scans && AdmitOk(w.db, row, aid, iid, rid) {
        AdmissionGrows(w.db, row, aid, iid, rid, w.now);
      }
    case Submit(job, ws, maxRetries, timeout) => SubmissionGrows(w.db, job, ws, maxRetries, timeout, w.now);
    case _ =>
      OnlyAdmissionAndSubmissionChangeTheSkeleton(w, op);
      SkeletonGrows(w.db, Apply(w, op).db);
  }

  lemma NewHistoryIsOk(w: World, op: Op)
    requires WorldOk(w)
    ensures op.Scan? ==> forall s :: s in ScanRows(w.db, op.rows) ==> ScanOk(w.db, s)
    ensures op.FindExpired? ==> forall it :: it in ExpiredRows(w.db, op.intents, w.now) ==> ItemOk(w.db, it)
    ensures op.Claim? && Claimable(w.db, op.iid) ==> TokenOk(Apply(w, op).db, ClaimToken(w.db, op.iid, op.worker))
  {
  }

  lemma StepKeepsWorld(w: World, op: Op)
    requires WorldOk(w)
    ensures WorldOk(Apply(w, op)) && Grows(w.db, Apply(w, op).db)
  {
    StepKeepsStructure(w, op);
    StepGrows(w, op);
    GrowthKeepsHistory(w, Apply(w, op).db);
    NewHistoryIsOk(w, op);
  }

  lemma {:induction false} RunKeepsWorld(w: World, ops: seq<Op>)
    requires WorldOk(w)
    ensures WorldOk(Run(w, ops)) && Grows(w.db, Run(w, ops).db)
    decreases |ops|
  {
    if ops != [] {
      StepKeepsWorld(w, ops[0]);
      RunKeepsWorld(Apply(w, ops[0]), ops[1..]);
    }
  }

  ghost predicate OnlyAttempt(db: Db, a: AttemptId, job: JobId, number: nat) {
    forall b :: InSlot(db, b, job, number) <==> b == a
  }

  ghost predicate OnlyIntent(db: Db, i: IntentId, a: AttemptId) {
    forall k :: k in db.intents && db.intents[k].attempt == a <==> k == i
  }

  /** The job has exactly one attempt with this number, and that attempt exactly one intent. */
  ghost predicate OneAttemptOneIntent(db: Db, job: JobId, number: nat) {
    exists a :: OnlyAttempt(db, a, job, number) && exists i :: OnlyIntent(db, i, a)
  }

  lemma ExistingAttemptIsOnly(db: Db, job: JobId, number: nat)
    requires Structure(db) && AttemptExists(db, job, number)
    ensures OneAttemptOneIntent(db, job, number)
  {
    var a :| a in db.attempts && InSlot(db, a, job, number);
    forall b | InSlot(db, b, job, number) ensures b == a {
      assert SameSlot(db, a, b);
    }
    assert OnlyAttempt(db, a, job, number);
    assert HasIntent(db, a);
    var i :| i in db.intents && db.intents[i].attempt == a;
    forall k | k in db.intents && db.intents[k].attempt == a ensures k == i {
      assert SameTarget(db, i, k);
    }
    assert OnlyIntent(db, i, a);
  }

  lemma SlotsAreFilledOnce(db: Db, job: JobId, number: nat)
    requires Structure(db) && job in db.jobs
    ensures AttemptExists(db, job, number) <==> 1 <= number <= db.jobs[job].attempt
    ensures AttemptExists(db, job, number) ==> OneAttemptOneIntent(db, job, number)
    ensures db.jobs[job].attempt <= db.jobs[job].maxRetries + 1
  {
    if AttemptExists(db, job, number) {
      var a :| a in db.attempts && InSlot(db, a, job, number);
      ExistingAttemptIsOnly(db, job, number);
    }
  }

  lemma InitOk()
    ensures WorldOk(INIT)
  {
  }

  /**
   In every reachable state, for any number of schedulers and any stale scans, the attempts of a job are
   exactly 1..current_attempt_number with one row and one intent each, and there are at most
   max_retries + 1 of them.
   */
  lemma AttemptsAreGapFree(ops: seq<Op>, job: JobId, number: nat)
    requires job in Run(INIT, ops).db.jobs
    ensures var db := Run(INIT, ops).db;
            && (AttemptExists(db, job, number) <==> 1 <= number <= db.jobs[job].attempt)
            && (AttemptExists(db, job, number) ==> OneAttemptOneIntent(db, job, number))
            && db.jobs[job].attempt <= db.jobs[job].maxRetries + 1
  {
    InitOk();
    RunKeepsWorld(INIT, ops);
    SlotsAreFilledOnce(Run(INIT, ops).db, job, number);
  }
}
