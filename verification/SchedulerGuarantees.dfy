/**
 What the joint invariant gives: no work is lost, attempts never overlap, and the retry
 budget is kept, in every reachable state of every run with one scheduler.
 */
module SchedulerGuarantees {
  import opened JobStates
  import opened JobTables
  import opened JobProtocol
  import opened AttemptNumbering
  import opened SchedulerModel
  import opened JointInvariant

  // ---------------------------------------------------------------- no lost work

  predicate IntentOfJob(db: Db, i: IntentId, job: JobId) {
    Linked(db, i) && JobOf(db, i) == job && IsCurrent(db, i)
  }

  /** Some process has a claim on the intent that is still in force, with a lease that has not run out. */
  predicate IsHeld(w: World, i: IntentId) {
    && i in w.db.intents && w.db.intents[i].leaseExpires.Some? && !w.db.intents[i].LeaseExpired(w.now)
    && exists t :: t in w.tokens && t.intent == i && Holds(w.db, t)
  }

  /** Someone will still move this job: its current intent is claimable, held, or selected for recovery. */
  predicate IntentIsServed(w: World, i: IntentId) {
    Claimable(w.db, i) || IsHeld(w, i) || NeedsRecovery(w.db, i, w.now)
  }

  /** The job waits for admission, waits out a backoff, or its current intent is served. */
  predicate WorkIsSafe(w: World, job: JobId)
    requires job in w.db.jobs
  {
    || w.db.jobs[job].state.Queued?
    || w.db.jobs[job].state.RetryWait?
    || exists i :: i in w.db.intents && IntentOfJob(w.db, i, job) && IntentIsServed(w, i)
  }

  /** A claimed intent has a lease and a holder. */
  predicate ClaimIsHeld(w: World, i: IntentId)
    requires i in w.db.intents
  {
    w.db.intents[i].status.Claimed? ==>
      w.db.intents[i].leaseExpires.Some? && exists t :: t in w.tokens && t.intent == i && Holds(w.db, t)
  }

  predicate ClaimsAreHeld(w: World) {
    forall i :: i in w.db.intents ==> ClaimIsHeld(w, i)
  }

  /** Only a claim makes an intent CLAIMED or changes its epoch, and leases are only ever set. */
  lemma OnlyClaimTakes(w: World, op: Op, i: IntentId)
    requires i in Apply(w, op).db.intents && Apply(w, op).db.intents[i].status.Claimed?
    requires !(op.Claim? && op.iid == i && Claimable(w.db, i))
    ensures i in w.db.intents && w.db.intents[i].status.Claimed?
    ensures Apply(w, op).db.intents[i].epoch == w.db.intents[i].epoch
    ensures w.db.intents[i].leaseExpires.Some? ==> Apply(w, op).db.intents[i].leaseExpires.Some?
  {
  }

  lemma StepKeepsClaimHeld(w: World, op: Op, i: IntentId)
    requires i in Apply(w, op).db.intents && (i in w.db.intents ==> ClaimIsHeld(w, i))
    ensures ClaimIsHeld(Apply(w, op), i)
  {
    var w' := Apply(w, op);
    if op.Claim? && op.iid == i && Claimable(w.db, i) {
      var t := ClaimToken(w.db, i, op.worker);
      assert t in w'.tokens && t.intent == i && Holds(w'.db, t);
    } else if w'.db.intents[i].status.Claimed? {
      OnlyClaimTakes(w, op, i);
      var t :| t in w.tokens && t.intent == i && Holds(w.db, t);
      assert t in w'.tokens && Holds(w'.db, t);
    }
  }

  lemma {:induction false} RunKeepsClaimsHeld(w: World, ops: seq<Op>)
    requires ClaimsAreHeld(w)
    ensures ClaimsAreHeld(Run(w, ops))
    decreases |ops|
  {
    if ops != [] {
      forall i | i in Apply(w, ops[0]).db.intents ensures ClaimIsHeld(Apply(w, ops[0]), i) {
        StepKeepsClaimHeld(w, ops[0], i);
      }
      RunKeepsClaimsHeld(Apply(w, ops[0]), ops[1..]);
    }
  }

  lemma CurrentIntentExists(db: Db, job: JobId) returns (i: IntentId)
    requires Structure(db) && job in db.jobs && db.jobs[job].attempt >= 1
    ensures i in db.intents && IntentOfJob(db, i, job)
  {
    assert AttemptExists(db, job, db.jobs[job].attempt);
    var a :| a in db.attempts && InSlot(db, a, job, db.jobs[job].attempt);
    assert HasIntent(db, a);
    i :| i in db.intents && db.intents[i].attempt == a;
  }

  lemma CurrentIntentIsServed(w: World, job: JobId, i: IntentId)
    requires Joint(w.db) && ClaimsAreHeld(w) && i in w.db.intents && IntentOfJob(w.db, i, job)
    requires !w.db.jobs[job].state.IsTerminal() && !w.db.jobs[job].state.Queued? && !w.db.jobs[job].state.RetryWait?
    ensures IntentIsServed(w, i)
  {
    assert IntentAgrees(w.db, i) && ClaimIsHeld(w, i);
  }

  /**
   No lost work: whatever crashed, was cancelled or came late, a job that has been admitted once and is not
   finished is always in the hands of someone who will move it.
   */
  lemma NoWorkIsLost(hasDeleter: bool, cap: nat, ops: seq<SysOp>, job: JobId)
    requires var db := Exec(Start(hasDeleter, cap), ops).w.db;
             job in db.jobs && db.jobs[job].attempt >= 1 && !db.jobs[job].state.IsTerminal()
    ensures WorkIsSafe(Exec(Start(hasDeleter, cap), ops).w, job)
  {
    ReachableStatesAgree(hasDeleter, cap, ops);
    ExecIsRun(Start(hasDeleter, cap), ops);
    RunKeepsClaimsHeld(INIT, Trace(Start(hasDeleter, cap), ops));
    var w := Exec(Start(hasDeleter, cap), ops).w;
    if !w.db.jobs[job].state.Queued? && !w.db.jobs[job].state.RetryWait? {
      var i := CurrentIntentExists(w.db, job);
      CurrentIntentIsServed(w, job, i);
    }
  }

  // ---------------------------------------------------------------- one live attempt, at most one success

  /** A job never has two intents in PENDING or CLAIMED, and the live one belongs to its current attempt. */
  lemma OneLiveIntent(hasDeleter: bool, cap: nat, ops: seq<SysOp>, i: IntentId, k: IntentId)
    requires var db := Exec(Start(hasDeleter, cap), ops).w.db;
             && Linked(db, i) && Linked(db, k) && JobOf(db, i) == JobOf(db, k)
             && db.intents[i].Live() && db.intents[k].Live()
    ensures i == k && IsCurrent(Exec(Start(hasDeleter, cap), ops).w.db, i)
  {
    ReachableStatesAgree(hasDeleter, cap, ops);
    var db := Exec(Start(hasDeleter, cap), ops).w.db;
    assert IntentAgrees(db, i) && IntentAgrees(db, k);
    CurrentIsUnique(db, i, k);
  }

  /** An attempt that succeeded is the job's last, so at most one attempt of a job ever succeeds. */
  lemma SuccessIsLast(hasDeleter: bool, cap: nat, ops: seq<SysOp>, a: AttemptId)
    requires var db := Exec(Start(hasDeleter, cap), ops).w.db; a in db.attempts && db.attempts[a].state.Succeeded?
    ensures var db := Exec(Start(hasDeleter, cap), ops).w.db;
            && db.attempts[a].job in db.jobs
            && db.attempts[a].number == db.jobs[db.attempts[a].job].attempt
            && db.jobs[db.attempts[a].job].state in {Succeeded, Cancelled}
  {
    ReachableStatesAgree(hasDeleter, cap, ops);
    var db := Exec(Start(hasDeleter, cap), ops).w.db;
    assert HasIntent(db, a);
    var i :| i in db.intents && db.intents[i].attempt == a;
    assert IntentAgrees(db, i);
  }

  // ---------------------------------------------------------------- attempts do not overlap

  /** The attempt is past: a later one exists, or the job is on its way to a later one. */
  predicate IsPast(db: Db, a: AttemptId)
    requires a in db.attempts && db.attempts[a].job in db.jobs
  {
    var j := db.jobs[db.attempts[a].job];
    db.attempts[a].number < j.attempt || j.state.RetryWait? || j.state.Queued?
  }

  /** Every past attempt was reported finished by its worker or confirmed deleted. */
  predicate PastAreStopped(s: System) {
    forall a :: a in s.w.db.attempts && s.w.db.attempts[a].job in s.w.db.jobs && IsPast(s.w.db, a) ==> a in s.stopped
  }

  /** The two ways into RETRY_WAIT, and nothing else, make a current attempt past. */
  lemma BecomesPast(s: System, op: SysOp, a: AttemptId)
    requires SystemOk(s) && Enabled(s, op)
    requires a in s.w.db.attempts && !IsPast(s.w.db, a)
    requires a in Step(s, op).w.db.attempts && Step(s, op).w.db.attempts[a].job in Step(s, op).w.db.jobs
             && IsPast(Step(s, op).w.db, a)
    ensures var e := Lower(s, op);
            || (e.MarkFailed? && e.token in s.w.tokens && FailedOk(s.w.db, e.token) && e.token.attempt == a)
            || (e.Confirm? && op.ConfirmHead? && e.shouldRetry && s.pc.todo[0].attempt == a)
  {
    var e, job := Lower(s, op), s.w.db.attempts[a].job;
    StepIsLegal(s.w, e, job);
    StepGrows(s.w, e);
    PastNeedsRetryWait(s.w.db.jobs[job], Step(s, op).w.db.jobs[job], s.w.db.attempts[a].number);
    IntoRetryWait(s.w, e, job);
    WhoseAttempt(s, op, a);
  }

  /** A current attempt of a job that is not waiting becomes past only when the job enters RETRY_WAIT. */
  lemma PastNeedsRetryWait(j: Job, j': Job, number: nat)
    requires JobStep(j, j') && number >= j.attempt && !j.state.RetryWait? && !j.state.Queued?
    requires number < j'.attempt || j'.state.RetryWait? || j'.state.Queued?
    ensures j'.state.RetryWait?
  {
  }

  /** A committed report or confirmation on a job is about the job's current attempt. */
  lemma WhoseAttempt(s: System, op: SysOp, a: AttemptId)
    requires SystemOk(s) && Enabled(s, op)
    requires a in s.w.db.attempts && IsCurrentAttempt(s.w.db, s.w.db.attempts[a].job, a)
    ensures var e := Lower(s, op);
            e.MarkFailed? && e.token in s.w.tokens && Holds(s.w.db, e.token) && e.token.job == s.w.db.attempts[a].job
            ==> e.token.attempt == a
    ensures op.ConfirmHead? && s.pc.todo[0].job == s.w.db.attempts[a].job ==> s.pc.todo[0].attempt == a
  {
    var e, db := Lower(s, op), s.w.db;
    if e.MarkFailed? && e.token in s.w.tokens && Holds(db, e.token) && e.token.job == db.attempts[a].job {
      assert TokenOk(db, e.token);
      HolderIsCurrent(db, e.token);
      assert SameSlot(db, a, e.token.attempt);
    }
    if op.ConfirmHead? && s.pc.todo[0].job == db.attempts[a].job {
      assert ItemCurrent(db, s.pc.todo[0]);
      assert SameSlot(db, a, s.pc.todo[0].attempt);
    }
  }

  /** Whoever makes an attempt past has seen it stopped. */
  lemma NewlyPastIsStopped(s: System, op: SysOp, a: AttemptId)
    requires SystemOk(s) && Enabled(s, op) && s.hasDeleter
    requires a in s.w.db.attempts && !IsPast(s.w.db, a)
    requires a in Step(s, op).w.db.attempts && Step(s, op).w.db.attempts[a].job in Step(s, op).w.db.jobs
             && IsPast(Step(s, op).w.db, a)
    ensures a in Step(s, op).stopped
  {
    BecomesPast(s, op, a);
    if op.ConfirmHead? {
      assert HeadOk(s, s.pc.todo[0]);
    }
  }

  /** A new attempt is not past, and a past one stays among the stopped. */
  lemma NewAttemptIsNotPast(w: World, op: Op, a: AttemptId)
    requires WorldOk(w) && a !in w.db.attempts && a in Apply(w, op).db.attempts
    requires Apply(w, op).db.attempts[a].job in Apply(w, op).db.jobs
    ensures !IsPast(Apply(w, op).db, a)
  {
  }

  lemma StepKeepsPastStopped(s: System, op: SysOp)
    requires SystemOk(s) && s.hasDeleter && PastAreStopped(s)
    ensures PastAreStopped(Step(s, op))
  {
    var s' := Step(s, op);
    if Enabled(s, op) {
      assert AttemptsInRange(s.w.db);
      forall a | a in s'.w.db.attempts && s'.w.db.attempts[a].job in s'.w.db.jobs && IsPast(s'.w.db, a)
        ensures a in s'.stopped
      {
        if a !in s.w.db.attempts {
          NewAttemptIsNotPast(s.w, Lower(s, op), a);
        } else if !IsPast(s.w.db, a) {
          NewlyPastIsStopped(s, op, a);
        }
      }
    }
  }

  lemma {:induction false} ExecKeepsPastStopped(s: System, ops: seq<SysOp>)
    requires SystemOk(s) && s.hasDeleter && PastAreStopped(s)
    ensures PastAreStopped(Exec(s, ops))
    decreases |ops|
  {
    if ops != [] {
      StepKeepsPastStopped(s, ops[0]);
      StepKeepsSystem(s, ops[0]);
      ExecKeepsPastStopped(Step(s, ops[0]), ops[1..]);
    }
  }

  /** Attempts never overlap in the runs of this configuration. */
  ghost predicate NeverOverlaps(hasDeleter: bool) {
    forall cap, ops :: PastAreStopped(Exec(Start(hasDeleter, cap), ops))
  }

  // ---------------------------------------------------------------- retry budget

  /** A job that waits for another attempt has budget for it, and so has every scan ever taken. */
  predicate BudgetKept(s: System) {
    && (forall j :: j in s.w.db.jobs && (s.w.db.jobs[j].state.Queued? || s.w.db.jobs[j].state.RetryWait?) ==>
          s.w.db.jobs[j].attempt <= s.w.db.jobs[j].maxRetries)
    && (forall r :: r in s.w.scans ==> r.attempt <= r.maxRetries)
  }

  lemma RetryHasBudget(s: System, op: SysOp, job: JobId)
    requires SystemOk(s) && Enabled(s, op) && job in s.w.db.jobs && !s.w.db.jobs[job].state.RetryWait?
    requires job in Step(s, op).w.db.jobs && Step(s, op).w.db.jobs[job].state.RetryWait?
    ensures Step(s, op).w.db.jobs[job].attempt <= s.w.db.jobs[job].maxRetries
  {
    var e := Lower(s, op);
    IntoRetryWait(s.w, e, job);
    if e.MarkFailed? {
      assert TokenOk(s.w.db, e.token);
      HolderIsCurrent(s.w.db, e.token);
    } else {
      assert ItemCurrent(s.w.db, s.pc.todo[0]) && HeadOk(s, s.pc.todo[0]);
    }
  }

  lemma WaitingKeepsBudget(j: Job, j': Job)
    requires JobStep(j, j') && (j'.state.Queued? || j'.state.RetryWait?)
    requires j.state.Queued? || j.state.RetryWait? ==> j.attempt <= j.maxRetries
    requires j'.state.RetryWait? && !j.state.RetryWait? ==> j'.attempt <= j.maxRetries
    ensures j'.attempt <= j'.maxRetries
  {
  }

  lemma StepKeepsJobBudget(s: System, op: SysOp, job: JobId)
    requires SystemOk(s) && BudgetKept(s) && Enabled(s, op)
    requires job in Step(s, op).w.db.jobs
    requires Step(s, op).w.db.jobs[job].state.Queued? || Step(s, op).w.db.jobs[job].state.RetryWait?
    ensures Step(s, op).w.db.jobs[job].attempt <= Step(s, op).w.db.jobs[job].maxRetries
  {
    var w', e := Step(s, op).w, Lower(s, op);
    if job in s.w.db.jobs {
      var j, j' := s.w.db.jobs[job], w'.db.jobs[job];
      StepIsLegal(s.w, e, job);
      if j'.state.RetryWait? && !j.state.RetryWait? {
        RetryHasBudget(s, op, job);
      }
      WaitingKeepsBudget(j, j');
    } else {
      NewJobsAreSubmitted(s.w, e, job);
    }
  }

  lemma StepKeepsBudget(s: System, op: SysOp)
    requires SystemOk(s) && BudgetKept(s)
    ensures BudgetKept(Step(s, op))
  {
    if Enabled(s, op) {
      var s' := Step(s, op);
      forall j | j in s'.w.db.jobs && (s'.w.db.jobs[j].state.Queued? || s'.w.db.jobs[j].state.RetryWait?)
        ensures s'.w.db.jobs[j].attempt <= s'.w.db.jobs[j].maxRetries
      {
        StepKeepsJobBudget(s, op, j);
      }
    }
  }

  lemma {:induction false} ExecKeepsBudget(s: System, ops: seq<SysOp>)
    requires SystemOk(s) && BudgetKept(s)
    ensures BudgetKept(Exec(s, ops))
    decreases |ops|
  {
    if ops != [] {
      StepKeepsBudget(s, ops[0]);
      StepKeepsSystem(s, ops[0]);
      ExecKeepsBudget(Step(s, ops[0]), ops[1..]);
    }
  }

  /**
   In every reachable state a QUEUED or RETRY_WAIT job has budget for another attempt.  So the error that
   `CreateJobAttemptIntent` calls unreachable is unreachable: no row the scheduler ever scanned, however stale, asks
   for an attempt beyond max_retries + 1.
   */
  lemma BudgetErrorIsUnreachable(hasDeleter: bool, cap: nat, ops: seq<SysOp>)
    ensures var w := Exec(Start(hasDeleter, cap), ops).w;
            && (forall j :: j in w.db.jobs && (w.db.jobs[j].state.Queued? || w.db.jobs[j].state.RetryWait?) ==>
                  w.db.jobs[j].attempt <= w.db.jobs[j].maxRetries)
            && (forall row :: row in w.scans ==> row.attempt + 1 <= row.maxRetries + 1)
  {
    ExecKeepsBudget(Start(hasDeleter, cap), ops);
  }
}
