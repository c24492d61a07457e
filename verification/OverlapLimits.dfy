/**
 The limits of the single-scheduler guarantees: exactly when confirming a recovery keeps
 the tables in agreement, a run of two overlapping recovery passes that breaks them, and
 why a scheduler without a deleter lets attempts overlap.
 */
module OverlapLimits {
  import opened Options
  import opened JobStates
  import opened JobTables
  import opened JobProtocol
  import opened AttemptNumbering
  import opened QuotaReservations
  import opened FairScan
  import opened SchedulerModel
  import opened JointInvariant
  import opened SchedulerGuarantees

  /** The confirm transaction commits. */
  predicate Confirms(w: World, op: Op) {
    op.Confirm? && ConfirmOk(w.db, op.job, op.shouldRetry, op.isCancel) && CurrentRowOk(w.db, op.job, op.current)
  }

  /** The job's current attempt has ended: its intent is TERMINATED. */
  predicate CurrentEnded(db: Db, job: JobId) {
    exists i :: i in db.intents && IntentOfJob(db, i, job) && db.intents[i].status.Terminated?
  }

  /**
   `ConfirmJobRecovery` checks the job's state alone.  It keeps the tables in agreement if and only if it is
   refused or the job's current intent is TERMINATED at that moment, a condition it never tests.
   */
  lemma ConfirmIsSafeIff(w: World, op: Op)
    requires WorldOk(w) && Joint(w.db) && op.Confirm?
    ensures Joint(Apply(w, op).db) <==> (Confirms(w, op) ==> CurrentEnded(w.db, op.job))
  {
    if Confirms(w, op) {
      if CurrentEnded(w.db, op.job) {
        var i :| i in w.db.intents && IntentOfJob(w.db, i, op.job) && w.db.intents[i].status.Terminated?;
        ConfirmKeepsJoint(w, op, i);
      } else {
        ConfirmWithoutEndBreaks(w, op);
      }
    }
  }

  lemma ConfirmWithoutEndBreaks(w: World, op: Op)
    requires WorldOk(w) && Joint(w.db) && Confirms(w, op) && !CurrentEnded(w.db, op.job)
    ensures !Joint(Apply(w, op).db)
  {
    var db, db' := w.db, Apply(w, op).db;
    if db.jobs[op.job].attempt == 0 {
      assert db'.jobs[op.job].attempt == 0 && db'.jobs[op.job].state.Cancelled?;
    } else {
      var i := CurrentIntentExists(db, op.job);
      assert IntentAgrees(db, i);
      assert Linked(db', i) && IsCurrent(db', i);
      assert !IntentAgrees(db', i);
    }
  }

  // ---------------------------------------------------------------- two overlapping passes

  const ROW1 := UnadmittedJob(0, 0, 1, 0, 600)
  const ROW2 := UnadmittedJob(0, 0, 1, 1, 600)
  const ROW3 := UnadmittedJob(0, 0, 1, 2, 600)
  const CLAIM1 := Token(0, 0, 0, 1, 1, 1, 7)
  const CLAIM2 := Token(1, 1, 0, 2, 1, 1, 8)
  const FIRST_PASS := RecoveryItem(0, 0, 0, 1, 1, 1, Starting, true, 0)
  const SECOND_PASS := RecoveryItem(0, 0, 0, 1, 1, 1, Starting, false, 0)

  /**
   A job with one retry.  Its first worker dies; one pass begins the recovery, a second pass reads the
   job before the first confirms, and confirms after the second attempt has been claimed.
   */
  const FIRST_ATTEMPT: seq<Op> :=
    [Submit(0, 0, 1, 600), Scan([0]), Admit(ROW1, 0, 0, 0), Claim(0, 7, 60), Tick(100)]
  const TWO_PASSES: seq<Op> :=
    [FindExpired([0]), Begin(FIRST_PASS), FindExpired([0]), Confirm(0, true, false, Some(0), Some(0)), Requeue(0, 100)]
  const SECOND_ATTEMPT: seq<Op> :=
    [Scan([0]), Admit(ROW2, 1, 1, 1), Claim(1, 8, 60), Confirm(0, true, false, Some(1), Some(1)), Requeue(0, 100),
     Scan([0])]
  const OVERLAP: seq<Op> := FIRST_ATTEMPT + TWO_PASSES + SECOND_ATTEMPT

  function JobRow(state: JobState, attempt: nat, updatedAt: int): Job {
    Job(0, state, attempt, 1, 600, 0, updatedAt)
  }

  const LOST_ATTEMPT := Attempt(0, 1, Failed, 1, Some(-1), Some(LEASE_LOST))
  const LOST_INTENT := Intent(0, Terminated, 1, Some(7), Some(60))
  const OLD_ROW := Reservation(0, Released, 600, 0)
  const NEW_ROW := Reservation(0, Active, 700, 100)

  /** The tables after each operation that changes them. */
  const QUEUED1 := EMPTY_DB.(jobs := map[0 := JobRow(Queued, 0, 0)])
  const ADMITTED1 := Db(map[0 := JobRow(Admitted, 1, 0)], map[0 := Attempt(0, 1, Admitted, 0, None, None)],
                        map[0 := Intent(0, Pending, 0, None, None)], map[0 := Reservation(0, Active, 600, 0)], map[])
  const CLAIMED1 := Db(map[0 := JobRow(Starting, 1, 0)], map[0 := Attempt(0, 1, Starting, 1, None, None)],
                       map[0 := Intent(0, Claimed, 1, Some(7), Some(60))], map[0 := Reservation(0, Active, 600, 0)],
                       map[])
  const BEGUN1 := CLAIMED1.(attempts := map[0 := LOST_ATTEMPT], intents := map[0 := LOST_INTENT])
  const WAITING1 := BEGUN1.(jobs := map[0 := JobRow(RetryWait, 1, 100)], reservations := map[0 := OLD_ROW])
  const QUEUED2 := WAITING1.(jobs := map[0 := JobRow(Queued, 1, 100)])
  const ADMITTED2 := Db(map[0 := JobRow(Admitted, 2, 100)],
                        map[0 := LOST_ATTEMPT, 1 := Attempt(0, 2, Admitted, 0, None, None)],
                        map[0 := LOST_INTENT, 1 := Intent(1, Pending, 0, None, None)], map[0 := OLD_ROW, 1 := NEW_ROW],
                        map[])
  const CLAIMED2 := Db(map[0 := JobRow(Starting, 2, 100)],
                       map[0 := LOST_ATTEMPT, 1 := Attempt(0, 2, Starting, 1, None, None)],
                       map[0 := LOST_INTENT, 1 := Intent(1, Claimed, 1, Some(8), Some(160))],
                       map[0 := OLD_ROW, 1 := NEW_ROW], map[])
  const WAITING2 := CLAIMED2.(jobs := map[0 := JobRow(RetryWait, 2, 100)],
                              reservations := map[0 := OLD_ROW, 1 := NEW_ROW.(status := Released)])
  const QUEUED3 := WAITING2.(jobs := map[0 := JobRow(Queued, 2, 100)])

  lemma SubmitStep()
    ensures SubmitTx(EMPTY_DB, 0, 0, 1, 600, 0) == QUEUED1
  {
  }

  lemma AdmitSteps()
    ensures AdmitTx(QUEUED1, ROW1, 0, 0, 0, 0) == ADMITTED1
    ensures AdmitTx(QUEUED2, ROW2, 1, 1, 1, 100) == ADMITTED2
  {
    assert AdmitOk(QUEUED1, ROW1, 0, 0, 0) && AdmitOk(QUEUED2, ROW2, 1, 1, 1);
    assert ExpireReservations(QUEUED2.reservations, 0, 100) == QUEUED2.reservations;
    assert AdmitTx(QUEUED1, ROW1, 0, 0, 0, 0).reservations == ADMITTED1.reservations;
    assert AdmitTx(QUEUED2, ROW2, 1, 1, 1, 100).jobs == ADMITTED2.jobs;
  }

  lemma ClaimSteps()
    ensures Claimable(ADMITTED1, 0) && ClaimTx(ADMITTED1, 0, 7, 60, 0) == CLAIMED1 &&
            ClaimToken(ADMITTED1, 0, 7) == CLAIM1
    ensures Claimable(ADMITTED2, 1) && ClaimTx(ADMITTED2, 1, 8, 60, 100) == CLAIMED2 &&
            ClaimToken(ADMITTED2, 1, 8) == CLAIM2
  {
    assert ClaimTx(ADMITTED1, 0, 7, 60, 0).jobs == CLAIMED1.jobs;
    assert ClaimTx(ADMITTED2, 1, 8, 60, 100).jobs == CLAIMED2.jobs;
  }

  lemma FindSteps()
    ensures ExpiredRows(CLAIMED1, [0], 100) == {FIRST_PASS}
    ensures ExpiredRows(BEGUN1, [0], 100) == {SECOND_PASS}
  {
    assert 0 in [0] && NeedsRecovery(CLAIMED1, 0, 100) && NeedsRecovery(BEGUN1, 0, 100);
  }

  lemma BeginStep()
    ensures BeginTx(CLAIMED1, FIRST_PASS, 100) == BEGUN1
  {
    assert BeginOk(CLAIMED1, FIRST_PASS, 100);
  }

  lemma ConfirmSteps()
    ensures ConfirmTx(BEGUN1, 0, true, false, Some(0), Some(0), 100) == WAITING1
    ensures ConfirmTx(CLAIMED2, 0, true, false, Some(1), Some(1), 100) == WAITING2
  {
    assert ConfirmOk(BEGUN1, 0, true, false) && CurrentRowOk(BEGUN1, 0, Some(0));
    assert ConfirmOk(CLAIMED2, 0, true, false) && CurrentRowOk(CLAIMED2, 0, Some(1));
  }

  lemma RequeueSteps()
    ensures RequeueTx(WAITING1, 0, 100) == QUEUED2 && RequeueTx(WAITING2, 0, 100) == QUEUED3
  {
  }

  lemma ScanSteps()
    ensures ScanRows(QUEUED1, [0]) == {ROW1} && ScanRows(QUEUED2, [0]) == {ROW2} && ScanRows(QUEUED3, [0]) == {ROW3}
  {
    assert 0 in [0] && QueuedRow(QUEUED1, 0) && QueuedRow(QUEUED2, 0) && QueuedRow(QUEUED3, 0);
  }

  /** The world after each operation of the run. */
  const BOTH_PASSES := {FIRST_PASS, SECOND_PASS}
  const W0: World := INIT
  const W1: World := World(QUEUED1, 0, {}, {}, {})
  const W2: World := World(QUEUED1, 0, {}, {ROW1}, {})
  const W3: World := World(ADMITTED1, 0, {}, {ROW1}, {})
  const W4: World := World(CLAIMED1, 0, {CLAIM1}, {ROW1}, {})
  const W5: World := World(CLAIMED1, 100, {CLAIM1}, {ROW1}, {})
  const W6: World := World(CLAIMED1, 100, {CLAIM1}, {ROW1}, {FIRST_PASS})
  const W7: World := World(BEGUN1, 100, {CLAIM1}, {ROW1}, {FIRST_PASS})
  const W8: World := World(BEGUN1, 100, {CLAIM1}, {ROW1}, BOTH_PASSES)
  const W9: World := World(WAITING1, 100, {CLAIM1}, {ROW1}, BOTH_PASSES)
  const W10: World := World(QUEUED2, 100, {CLAIM1}, {ROW1}, BOTH_PASSES)
  const W11: World := World(QUEUED2, 100, {CLAIM1}, {ROW1, ROW2}, BOTH_PASSES)
  const W12: World := World(ADMITTED2, 100, {CLAIM1}, {ROW1, ROW2}, BOTH_PASSES)
  const W13: World := World(CLAIMED2, 100, {CLAIM1, CLAIM2}, {ROW1, ROW2}, BOTH_PASSES)
  const W14: World := World(WAITING2, 100, {CLAIM1, CLAIM2}, {ROW1, ROW2}, BOTH_PASSES)
  const W15: World := World(QUEUED3, 100, {CLAIM1, CLAIM2}, {ROW1, ROW2}, BOTH_PASSES)
  const W16: World := World(QUEUED3, 100, {CLAIM1, CLAIM2}, {ROW1, ROW2, ROW3}, BOTH_PASSES)

  /** A chain of worlds, each the next operation's result, ends where the run ends. */
  lemma {:induction false} ChainIsRun(worlds: seq<World>, ops: seq<Op>)
    requires |worlds| == |ops| + 1
    requires forall k :: 0 <= k < |ops| ==> worlds[k + 1] == Apply(worlds[k], ops[k])
    ensures Run(worlds[0], ops) == worlds[|ops|]
    decreases |ops|
  {
    if ops != [] {
      ChainIsRun(worlds[1..], ops[1..]);
    }
  }

  lemma Admission1()
    ensures Apply(W0, Submit(0, 0, 1, 600)) == W1
    ensures Apply(W1, Scan([0])) == W2
    ensures Apply(W2, Admit(ROW1, 0, 0, 0)) == W3
  {
    SubmitStep();
    ScanSteps();
    AdmitSteps();
  }

  lemma Lease1()
    ensures Apply(W3, Claim(0, 7, 60)) == W4
    ensures Apply(W4, Tick(100)) == W5
    ensures Apply(W5, FindExpired([0])) == W6
  {
    ClaimSteps();
    FindSteps();
  }

  lemma Recovery1()
    ensures Apply(W6, Begin(FIRST_PASS)) == W7
    ensures Apply(W7, FindExpired([0])) == W8
    ensures Apply(W8, Confirm(0, true, false, Some(0), Some(0))) == W9
  {
    BeginStep();
    FindSteps();
    ConfirmSteps();
  }

  lemma Admission2()
    ensures Apply(W9, Requeue(0, 100)) == W10
    ensures Apply(W10, Scan([0])) == W11
    ensures Apply(W11, Admit(ROW2, 1, 1, 1)) == W12
  {
    RequeueSteps();
    ScanSteps();
    AdmitSteps();
  }

  lemma LateConfirmation()
    ensures Apply(W12, Claim(1, 8, 60)) == W13
    ensures Apply(W13, Confirm(0, true, false, Some(1), Some(1))) == W14
  {
    ClaimSteps();
    ConfirmSteps();
  }

  lemma LateRequeue()
    ensures Apply(W14, Requeue(0, 100)) == W15
    ensures Apply(W15, Scan([0])) == W16
  {
    RequeueSteps();
    ScanSteps();
  }

  lemma FirstAttemptRun()
    ensures Run(W0, FIRST_ATTEMPT) == W5
  {
    Admission1();
    Lease1();
    ChainIsRun([W0, W1, W2, W3, W4, W5], FIRST_ATTEMPT);
  }

  lemma TwoPassesRun()
    ensures Run(W5, TWO_PASSES) == W10
  {
    Lease1();
    Recovery1();
    Admission2();
    ChainIsRun([W5, W6, W7, W8, W9, W10], TWO_PASSES);
  }

  lemma SecondAttemptRun()
    ensures Run(W10, SECOND_ATTEMPT) == W16
  {
    Admission2();
    LateConfirmation();
    LateRequeue();
    ChainIsRun([W10, W11, W12, W13, W14, W15, W16], SECOND_ATTEMPT);
  }

  lemma OverlapRun()
    ensures Run(INIT, OVERLAP) == W16
  {
    FirstAttemptRun();
    TwoPassesRun();
    SecondAttemptRun();
    RunConcat(W0, FIRST_ATTEMPT, TWO_PASSES);
    RunConcat(W0, FIRST_ATTEMPT + TWO_PASSES, SECOND_ATTEMPT);
  }

  /**
   With two overlapping passes the late confirmation puts the job back to RETRY_WAIT while its second
   attempt is claimed and running, the tables disagree, and the next scan returns a row
   whose admission hits the budget error that a single scheduler can never reach.
   */
  lemma OverlappingPassesBreakAgreement()
    ensures var w := Run(INIT, OVERLAP);
            && !Joint(w.db)
            && w.db == QUEUED3 && QUEUED3.intents[1].status.Claimed? && QUEUED3.jobs[0].state.Queued?
            && ROW3 in w.scans && ROW3.attempt + 1 > ROW3.maxRetries + 1
  {
    OverlapRun();
    assert Linked(QUEUED3, 1) && IsCurrent(QUEUED3, 1) && !IntentAgrees(QUEUED3, 1);
  }

  // ---------------------------------------------------------------- a scheduler without a deleter

  const RANK := map[0 := 1]

  /** The worker dies and the recovery, having nothing to delete with, takes the deletion as confirmed. */
  const UNDELETED_CLAIM: seq<SysOp> :=
    [Env(Submit(0, 0, 1, 600)), StartAdmission(1, RANK, [0]), AdmitHead(0, 0, 0), Env(Claim(0, 7, 60)), Env(Tick(100))]
  const UNDELETED_RECOVERY: seq<SysOp> :=
    [StartRecovery([0]), BeginHead, DeleteHead(false), ConfirmHead(Some(0), Some(0))]

  lemma FirstJobIsScanned()
    ensures IsScan(QUEUED1, 1, 1, RANK, [0])
  {
    assert Occupying(QUEUED1, 0) == {};
    assert Eligible(QUEUED1, 1, RANK, 0);
  }

  function Sys(w: World, pc: Pc): System {
    System(w, pc, {}, false, 1)
  }

  lemma UndeletedScan()
    ensures Step(Sys(W0, Idle), Env(Submit(0, 0, 1, 600))) == Sys(W1, Idle)
    ensures Step(Sys(W1, Idle), StartAdmission(1, RANK, [0])) == Sys(W2, Admitting([ROW1]))
  {
    Admission1();
    FirstJobIsScanned();
    ScannedAreQueued(QUEUED1, 1, 1, RANK, [0]);
    assert AllQueued(QUEUED1, [0]) == [ROW1];
  }

  lemma UndeletedClaim()
    ensures Step(Sys(W2, Admitting([ROW1])), AdmitHead(0, 0, 0)) == Sys(W3, Idle)
    ensures Step(Sys(W3, Idle), Env(Claim(0, 7, 60))) == Sys(W4, Idle)
    ensures Step(Sys(W4, Idle), Env(Tick(100))) == Sys(W5, Idle)
  {
    Admission1();
    Lease1();
  }

  lemma UndeletedBegin()
    ensures Step(Sys(W5, Idle), StartRecovery([0])) == Sys(W6, Recovering([FIRST_PASS], Fresh))
    ensures Step(Sys(W6, Recovering([FIRST_PASS], Fresh)), BeginHead) == Sys(W7, Recovering([FIRST_PASS], Begun))
  {
    Lease1();
    Recovery1();
    assert NeedsRecovery(CLAIMED1, 0, 100) && BeginOk(CLAIMED1, FIRST_PASS, 100);
    assert AllExpired(CLAIMED1, [0], 100) == [FIRST_PASS];
  }

  lemma UndeletedDelete()
    ensures Step(Sys(W7, Recovering([FIRST_PASS], Begun)), DeleteHead(false)) ==
            Sys(W7, Recovering([FIRST_PASS], Confirming(true)))
  {
  }

  lemma UndeletedConfirm()
    ensures Step(Sys(W7, Recovering([FIRST_PASS], Confirming(true))), ConfirmHead(Some(0), Some(0))) ==
            Sys(W7.(db := WAITING1), Idle)
  {
    ConfirmSteps();
    assert CurrentRowOk(BEGUN1, 0, Some(0)) && IsActiveIn(BEGUN1.reservations, 0, 0);
  }

  lemma {:induction false} ChainIsExec(systems: seq<System>, ops: seq<SysOp>)
    requires |systems| == |ops| + 1
    requires forall k :: 0 <= k < |ops| ==> systems[k + 1] == Step(systems[k], ops[k])
    ensures Exec(systems[0], ops) == systems[|ops|]
    decreases |ops|
  {
    if ops != [] {
      ChainIsExec(systems[1..], ops[1..]);
    }
  }

  lemma UndeletedClaimRun()
    ensures Exec(Sys(W0, Idle), UNDELETED_CLAIM) == Sys(W5, Idle)
  {
    UndeletedScan();
    UndeletedClaim();
    ChainIsExec([Sys(W0, Idle), Sys(W1, Idle), Sys(W2, Admitting([ROW1])), Sys(W3, Idle), Sys(W4, Idle), Sys(W5, Idle)],
                UNDELETED_CLAIM);
  }

  lemma UndeletedRecoveryRun()
    ensures Exec(Sys(W5, Idle), UNDELETED_RECOVERY) == Sys(W7.(db := WAITING1), Idle)
  {
    UndeletedBegin();
    UndeletedDelete();
    UndeletedConfirm();
    ChainIsExec([Sys(W5, Idle), Sys(W6, Recovering([FIRST_PASS], Fresh)), Sys(W7, Recovering([FIRST_PASS], Begun)),
                 Sys(W7, Recovering([FIRST_PASS], Confirming(true))), Sys(W7.(db := WAITING1), Idle)],
                UNDELETED_RECOVERY);
  }

  /** The second attempt is due although nobody reported or confirmed that the first has stopped. */
  lemma WithoutDeleterAttemptsOverlap()
    ensures !PastAreStopped(Exec(Start(false, 1), UNDELETED_CLAIM + UNDELETED_RECOVERY))
  {
    UndeletedClaimRun();
    UndeletedRecoveryRun();
    ExecConcat(Start(false, 1), UNDELETED_CLAIM, UNDELETED_RECOVERY);
    assert 0 in WAITING1.attempts && IsPast(WAITING1, 0);
  }

  /**
   Attempts never overlap if and only if the scheduler has a deleter that deletes: then attempt n + 1 is created only
   after attempt n was reported finished by its own worker or its workload was confirmed deleted, for any mix of lease
   expiry, late renewals, failed deletions, recovery timeouts, crashes and cancellations.
   */
  lemma AttemptsNeverOverlapIffDeleter(hasDeleter: bool)
    ensures NeverOverlaps(hasDeleter) <==> hasDeleter
  {
    if hasDeleter {
      forall cap, ops ensures PastAreStopped(Exec(Start(hasDeleter, cap), ops)) {
        ExecKeepsPastStopped(Start(hasDeleter, cap), ops);
      }
    } else {
      WithoutDeleterAttemptsOverlap();
    }
  }
}
