/**
 Runs of the job protocol with any number of schedulers, executors and API clients.

 A run is a sequence of operations.  Each operation is one committed (or refused)
 transaction; the choices the environment makes (row ids, which intent a claim locks, what
 a runner reports, how far the clock moves) are its arguments.  An operation that the
 store would refuse leaves the world as it is.  Snapshots and claims are never forgotten, so
 any process may use one however old it is.
 */
module JobProtocol {
  import opened Options
  import opened JobStates
  import opened JobTables

  datatype World = World(
    db: Db,
    now: int,
    tokens: set<Token>,
    scans: set<UnadmittedJob>,
    items: set<RecoveryItem>)

  const INIT: World := World(EMPTY_DB, 0, {}, {}, {})

  datatype Op =
    | Tick(elapsed: nat)
    | Submit(job: JobId, workspace: WorkspaceId, maxRetries: nat, timeout: int)
    | RequestCancel(job: JobId)
    | Scan(rows: seq<JobId>)
    | Admit(row: UnadmittedJob, aid: AttemptId, iid: IntentId, rid: ReservationId)
    | Claim(iid: IntentId, worker: WorkerId, lease: int)
    | Renew(token: Token, extension: int)
    | MarkRunning(token: Token)
    | MarkSucceeded(token: Token, pick: Option<ReservationId>)
    | MarkFailed(token: Token, reason: string, exitCode: int, shouldRetry: bool, pick: Option<ReservationId>)
    | MarkCancelled(token: Token, pick: Option<ReservationId>)
    | FindExpired(intents: seq<IntentId>)
    | Begin(item: RecoveryItem)
    | Confirm(job: JobId, shouldRetry: bool, isCancel: bool, current: Option<AttemptId>, pick: Option<ReservationId>)
    | Requeue(job: JobId, at: int)  // the pass reads the clock once for all its updates
    | Expire(workspace: WorkspaceId)

  predicate QueuedRow(db: Db, job: JobId) {
    job in db.jobs && db.jobs[job].state.Queued?
  }

  function ScanRows(db: Db, rows: seq<JobId>): set<UnadmittedJob> {
    set j | j in rows && QueuedRow(db, j) :: SnapshotJob(db, j)
  }

  function ExpiredRows(db: Db, intents: seq<IntentId>, now: int): set<RecoveryItem> {
    set i | i in intents && NeedsRecovery(db, i, now) :: SnapshotExpired(db, i, now)
  }

  /** What an operation leaves in the tables. */
  function NextDb(w: World, op: Op): Db {
    match op
    case Tick(_) => w.db
    case Submit(job, ws, maxRetries, timeout) => SubmitTx(w.db, job, ws, maxRetries, timeout, w.now)
    case RequestCancel(job) => CancelTx(w.db, job, w.now)
    case Scan(_) => w.db
    case Admit(row, aid, iid, rid) => if row in w.scans then AdmitTx(w.db, row, aid, iid, rid, w.now) else w.db
    case Claim(iid, worker, lease) => if Claimable(w.db, iid) then ClaimTx(w.db, iid, worker, lease, w.now) else w.db
    case Renew(t, extension) => if t in w.tokens then RenewTx(w.db, t, extension, w.now) else w.db
    case MarkRunning(t) => if t in w.tokens then RunningTx(w.db, t, w.now) else w.db
    case MarkSucceeded(t, pick) => if t in w.tokens then SucceededTx(w.db, t, pick, w.now) else w.db
    case MarkFailed(t, reason, exitCode, shouldRetry, pick) =>
      if t in w.tokens then FailedTx(w.db, t, reason, exitCode, shouldRetry, pick, w.now) else w.db
    case MarkCancelled(t, pick) => if t in w.tokens then CancelledTx(w.db, t, pick, w.now) else w.db
    case FindExpired(_) => w.db
    case Begin(it) => if it in w.items then BeginTx(w.db, it, w.now) else w.db
    case Confirm(job, shouldRetry, isCancel, cur, pick) =>
      ConfirmTx(w.db, job, shouldRetry, isCancel, cur, pick, w.now)
    case Requeue(job, at) => RequeueTx(w.db, job, at)
    case Expire(ws) => w.db.(reservations := ExpireReservations(w.db.reservations, ws, w.now))
  }

  function Apply(w: World, op: Op): World {
    World(
      NextDb(w, op),
      if op.Tick? then w.now + op.elapsed else w.now,
      if op.Claim? && Claimable(w.db, op.iid) then w.tokens + {ClaimToken(w.db, op.iid, op.worker)} else w.tokens,
      if op.Scan? then w.scans + ScanRows(w.db, op.rows) else w.scans,
      if op.FindExpired? then w.items + ExpiredRows(w.db, op.intents, w.now) else w.items)
  }

  function Run(w: World, ops: seq<Op>): World
    decreases |ops|
  {
    if ops == [] then w else Run(Apply(w, ops[0]), ops[1..])
  }

  lemma {:induction false} RunConcat(w: World, a: seq<Op>, b: seq<Op>)
    ensures Run(w, a + b) == Run(Run(w, a), b)
    decreases |a|
  {
    if a == [] {
      assert a + b == b;
    } else {
      assert (a + b)[1..] == a[1..] + b;
      RunConcat(Apply(w, a[0]), a[1..], b);
    }
  }

  lemma RunOne(w: World, ops: seq<Op>, op: Op)
    ensures Run(w, ops + [op]) == Apply(Run(w, ops), op)
  {
    RunConcat(w, ops, [op]);
    assert [op][1..] == [];
  }

  // ---------------------------------------------------------------- every change is a legal edge

  /** Jobs are never deleted, and a job's workspace, retry budget and creation time never change. */
  predicate SameIdentity(j: Job, j': Job) {
    j'.workspace == j.workspace && j'.maxRetries == j.maxRetries && j'.createdAt == j.createdAt
  }

  /** One step on one job: nothing but its timestamp changes, or it takes an edge of the table;
      only admission takes a new attempt, and it takes the next one or an old number. */
  predicate JobStep(j: Job, j': Job) {
    && SameIdentity(j, j')
    && (j'.state != j.state ==> Legal(j.state, j'.state))
    && (j'.attempt != j.attempt ==> j.state.Queued? && j'.state.Admitted?)
  }

  /** The rows are the same and still say the same about who belongs to whom; epochs only grow. */
  predicate SameSkeleton(db: Db, db': Db) {
    && db'.jobs.Keys == db.jobs.Keys
    && (forall j :: j in db.jobs ==> db'.jobs[j].attempt == db.jobs[j].attempt && SameIdentity(db.jobs[j], db'.jobs[j]))
    && db'.attempts.Keys == db.attempts.Keys
    && (forall a :: a in db.attempts ==>
          db'.attempts[a].job == db.attempts[a].job && db'.attempts[a].number == db.attempts[a].number)
    && db'.intents.Keys == db.intents.Keys
    && (forall i :: i in db.intents ==>
          db'.intents[i].attempt == db.intents[i].attempt && db.intents[i].epoch <= db'.intents[i].epoch)
  }

  /** No intent, attempt or job but these is written. */
  predicate OnlyWrites(db: Db, db': Db, i: IntentId, a: AttemptId, j: JobId) {
    && (forall k :: k in db.jobs && k != j ==> k in db'.jobs && db'.jobs[k] == db.jobs[k])
    && (forall b :: b in db.attempts && b != a ==> b in db'.attempts && db'.attempts[b] == db.attempts[b])
    && (forall k :: k in db.intents && k != i ==> k in db'.intents && db'.intents[k] == db.intents[k])
  }

  /** No job but this one is written, and no attempt or intent. */
  predicate OnlyWritesJob(db: Db, db': Db, j: JobId) {
    && (forall k :: k in db.jobs && k != j ==> k in db'.jobs && db'.jobs[k] == db.jobs[k])
    && db'.attempts == db.attempts && db'.intents == db.intents
  }

  predicate LegalMoves(db: Db, db': Db) {
    forall j :: j in db.jobs ==> j in db'.jobs && JobStep(db.jobs[j], db'.jobs[j])
  }

  lemma CancelMoves(db: Db, job: JobId, now: int)
    ensures SameSkeleton(db, CancelTx(db, job, now)) && LegalMoves(db, CancelTx(db, job, now))
    ensures OnlyWritesJob(db, CancelTx(db, job, now), job)
  {
  }

  lemma ClaimMoves(db: Db, iid: IntentId, worker: WorkerId, lease: int, now: int)
    requires Claimable(db, iid)
    ensures var db' := ClaimTx(db, iid, worker, lease, now);
            && SameSkeleton(db, db') && LegalMoves(db, db')
            && OnlyWrites(db, db', iid, db.intents[iid].attempt, db.attempts[db.intents[iid].attempt].job)
  {
  }

  lemma RenewMoves(db: Db, t: Token, extension: int, now: int)
    ensures SameSkeleton(db, RenewTx(db, t, extension, now)) && LegalMoves(db, RenewTx(db, t, extension, now))
  {
  }

  lemma RunningMoves(db: Db, t: Token, now: int)
    ensures SameSkeleton(db, RunningTx(db, t, now)) && LegalMoves(db, RunningTx(db, t, now))
    ensures OnlyWrites(db, RunningTx(db, t, now), t.intent, t.attempt, t.job)
  {
  }

  lemma SucceededMoves(db: Db, t: Token, pick: Option<ReservationId>, now: int)
    ensures SameSkeleton(db, SucceededTx(db, t, pick, now)) && LegalMoves(db, SucceededTx(db, t, pick, now))
    ensures OnlyWrites(db, SucceededTx(db, t, pick, now), t.intent, t.attempt, t.job)
  {
    if t.job in db.jobs {
      CaseUpdatesAreLegal(db.jobs[t.job].state, true);
    }
  }

  lemma FailedMoves(db: Db, t: Token, reason: string, exitCode: int, shouldRetry: bool, pick: Option<ReservationId>,
                    now: int)
    ensures var db' := FailedTx(db, t, reason, exitCode, shouldRetry, pick, now);
            SameSkeleton(db, db') && LegalMoves(db, db') && OnlyWrites(db, db', t.intent, t.attempt, t.job)
  {
    if t.job in db.jobs {
      CaseUpdatesAreLegal(db.jobs[t.job].state, shouldRetry);
    }
  }

  lemma CancelledMoves(db: Db, t: Token, pick: Option<ReservationId>, now: int)
    ensures SameSkeleton(db, CancelledTx(db, t, pick, now)) && LegalMoves(db, CancelledTx(db, t, pick, now))
    ensures OnlyWrites(db, CancelledTx(db, t, pick, now), t.intent, t.attempt, t.job)
  {
    if t.job in db.jobs {
      CaseUpdatesAreLegal(db.jobs[t.job].state, true);
    }
  }

  lemma BeginMoves(db: Db, it: RecoveryItem, now: int)
    ensures SameSkeleton(db, BeginTx(db, it, now)) && LegalMoves(db, BeginTx(db, it, now))
  {
  }

  lemma BeginWrites(db: Db, it: RecoveryItem, now: int)
    ensures OnlyWrites(db, BeginTx(db, it, now), it.intent, it.attempt, it.job)
  {
  }

  lemma ConfirmMoves(db: Db, job: JobId, shouldRetry: bool, isCancel: bool, cur: Option<AttemptId>,
                     pick: Option<ReservationId>, now: int)
    ensures var db' := ConfirmTx(db, job, shouldRetry, isCancel, cur, pick, now);
            SameSkeleton(db, db') && LegalMoves(db, db') && OnlyWritesJob(db, db', job)
  {
  }

  lemma RequeueMoves(db: Db, job: JobId, now: int)
    ensures SameSkeleton(db, RequeueTx(db, job, now)) && LegalMoves(db, RequeueTx(db, job, now))
    ensures OnlyWritesJob(db, RequeueTx(db, job, now), job)
  {
  }

  lemma AdmitMoves(db: Db, row: UnadmittedJob, aid: AttemptId, iid: IntentId, rid: ReservationId, now: int)
    ensures LegalMoves(db, AdmitTx(db, row, aid, iid, rid, now))
  {
  }

  /** Apart from submission and admission, every operation keeps the rows and moves jobs along legal edges. */
  lemma ClaimsMove(w: World, op: Op)
    requires op.Claim? || op.Renew? || op.MarkRunning?
    ensures SameSkeleton(w.db, NextDb(w, op)) && LegalMoves(w.db, NextDb(w, op))
  {
    match op
    case Claim(iid, worker, lease) =>
      if Claimable(w.db, iid) {
        ClaimMoves(w.db, iid, worker, lease, w.now);
      }
    case Renew(t, extension) => RenewMoves(w.db, t, extension, w.now);
    case MarkRunning(t) => RunningMoves(w.db, t, w.now);
  }

  lemma ReportsMove(w: World, op: Op)
    requires op.MarkSucceeded? || op.MarkFailed? || op.MarkCancelled?
    ensures SameSkeleton(w.db, NextDb(w, op)) && LegalMoves(w.db, NextDb(w, op))
  {
    match op
    case MarkSucceeded(t, pick) => SucceededMoves(w.db, t, pick, w.now);
    case MarkFailed(t, reason, exitCode, shouldRetry, pick) =>
      FailedMoves(w.db, t, reason, exitCode, shouldRetry, pick, w.now);
    case MarkCancelled(t, pick) => CancelledMoves(w.db, t, pick, w.now);
  }

  lemma OtherOpsMove(w: World, op: Op)
    requires !op.Claim? && !op.Renew? && !op.MarkRunning? && !op.MarkSucceeded? && !op.MarkFailed? && !op.MarkCancelled?
    requires !op.Submit? && !op.Admit?
    ensures SameSkeleton(w.db, NextDb(w, op)) && LegalMoves(w.db, NextDb(w, op))
  {
    match op
    case RequestCancel(job) => CancelMoves(w.db, job, w.now);
    case Begin(it) => BeginMoves(w.db, it, w.now);
    case Confirm(job, shouldRetry, isCancel, cur, pick) =>
      ConfirmMoves(w.db, job, shouldRetry, isCancel, cur, pick, w.now);
    case Requeue(job, at) => RequeueMoves(w.db, job, at);
    case _ =>
  }

  lemma OnlyAdmissionAndSubmissionChangeTheSkeleton(w: World, op: Op)
    requires !op.Submit? && !op.Admit?
    ensures SameSkeleton(w.db, Apply(w, op).db) && LegalMoves(w.db, Apply(w, op).db)
  {
    if op.Claim? || op.Renew? || op.MarkRunning? {
      ClaimsMove(w, op);
    } else if op.MarkSucceeded? || op.MarkFailed? || op.MarkCancelled? {
      ReportsMove(w, op);
    } else {
      OtherOpsMove(w, op);
    }
  }

  /**
   Refinement of the transition table: whatever operation runs, on whatever tables and with
   whatever snapshots, every job that changes state moves along a legal edge.
   */
  lemma StepIsLegal(w: World, op: Op, job: JobId)
    requires job in w.db.jobs
    ensures job in Apply(w, op).db.jobs
    ensures JobStep(w.db.jobs[job], Apply(w, op).db.jobs[job])
  {
    if op.Admit? {
      AdmitMoves(w.db, op.row, op.aid, op.iid, op.rid, w.now);
    } else if !op.Submit? {
      OnlyAdmissionAndSubmissionChangeTheSkeleton(w, op);
    }
  }

  /** A job appears only by submission, queued and without attempts. */
  lemma NewJobsAreSubmitted(w: World, op: Op, job: JobId)
    requires job !in w.db.jobs && job in Apply(w, op).db.jobs
    ensures Apply(w, op).db.jobs[job].state.Queued? && Apply(w, op).db.jobs[job].attempt == 0
  {
  }

  /** There are two ways into RETRY_WAIT: a worker's failure report and a confirmed recovery. */
  lemma IntoRetryWait(w: World, op: Op, job: JobId)
    requires job in w.db.jobs && !w.db.jobs[job].state.RetryWait?
    requires job in Apply(w, op).db.jobs && Apply(w, op).db.jobs[job].state.RetryWait?
    ensures || (op.MarkFailed? && op.token in w.tokens && op.token.job == job && op.shouldRetry &&
                FailedOk(w.db, op.token))
            || (op.Confirm? && op.job == job && op.shouldRetry && !op.isCancel && ConfirmOk(w.db, job, true, false))
    ensures Apply(w, op).db.jobs[job].attempt == w.db.jobs[job].attempt
  {
  }

  /** Terminal states are absorbing over whole runs, and a finished job takes no new attempt. */
  lemma {:induction false} TerminalIsAbsorbing(w: World, ops: seq<Op>, job: JobId)
    requires job in w.db.jobs && w.db.jobs[job].state.IsTerminal()
    ensures job in Run(w, ops).db.jobs
    ensures Run(w, ops).db.jobs[job].state == w.db.jobs[job].state
    ensures Run(w, ops).db.jobs[job].attempt == w.db.jobs[job].attempt
    decreases |ops|
  {
    if ops != [] {
      StepIsLegal(w, ops[0], job);
      TerminalIsAbsorbing(Apply(w, ops[0]), ops[1..], job);
    }
  }

  /**
   After a cancellation request the only other state a job can ever reach is CANCELLED, and no further
   attempt is ever created, whatever workers and schedulers still do.
   */
  lemma {:induction false} CancellationIsFinal(w: World, ops: seq<Op>, job: JobId)
    requires job in w.db.jobs && w.db.jobs[job].state.CancelRequested?
    ensures job in Run(w, ops).db.jobs
    ensures Run(w, ops).db.jobs[job].state in {CancelRequested, Cancelled}
    ensures Run(w, ops).db.jobs[job].attempt == w.db.jobs[job].attempt
    decreases |ops|
  {
    if ops != [] {
      StepIsLegal(w, ops[0], job);
      var w' := Apply(w, ops[0]);
      if w'.db.jobs[job].state.CancelRequested? {
        CancellationIsFinal(w', ops[1..], job);
      } else {
        TerminalIsAbsorbing(w', ops[1..], job);
      }
    }
  }
}
