/**
 The protocol with one scheduler, whose passes do not overlap: `Scheduler.Start` runs
 `RunOnce` in sequence.  Executors and API clients still act at any point, also between
 two transactions of one pass, so the scheduler works with stale rows.
 */
module SchedulerModel {
  import opened Options
  import opened JobTables
  import opened JobProtocol
  import opened FairScan

  /** How far `RecoverExpiredJobIntents` is with the item at the head of its list. */
  datatype Phase = Fresh | Begun | Confirming(shouldRetry: bool)

  /** Where the scheduler is, with the rows it still holds. */
  datatype Pc =
    | Idle
    | Recovering(todo: seq<RecoveryItem>, phase: Phase)
    | Admitting(rows: seq<UnadmittedJob>)

  /**
   `stopped` records the attempts whose worker reported their end or whose workload was
   confirmed deleted.  `hasDeleter` says whether the scheduler has a deleter that deletes.  Without
   one, or with the NoopJobDeleter that the scheduler falls back to when the cluster is unavailable, every
   deletion counts as confirmed although nothing was deleted.
   */
  datatype System = System(
    w: World,
    pc: Pc,
    stopped: set<AttemptId>,
    hasDeleter: bool,
    cap: nat)

  function Start(hasDeleter: bool, cap: nat): System {
    System(INIT, Idle, {}, hasDeleter, cap)
  }

  datatype SysOp =
    | Env(op: Op)
    | StartRecovery(intents: seq<IntentId>)
    | BeginHead
    | DeleteHead(deleted: bool)
    | ConfirmHead(current: Option<AttemptId>, pick: Option<ReservationId>)
    | RequeueOne(job: JobId, at: int)
    | StartAdmission(limit: nat, rank: map<JobId, nat>, jobs: seq<JobId>)
    | AdmitHead(aid: AttemptId, iid: IntentId, rid: ReservationId)
    | CrashScheduler

  /** What clients and workers do; a worker retries exactly while the budget lasts. */
  predicate EnvOp(op: Op) {
    match op
    case Tick(_) => true
    case Submit(_, _, _, _) => true
    case RequestCancel(_) => true
    case Claim(_, _, _) => true
    case Renew(_, _) => true
    case MarkRunning(_) => true
    case MarkSucceeded(_, _) => true
    case MarkFailed(t, _, _, shouldRetry, _) => shouldRetry == (t.number <= t.maxRetries)
    case MarkCancelled(_, _) => true
    case Expire(_) => true
    case _ => false
  }

  predicate IsCancel(it: RecoveryItem) {
    it.jobState.CancelRequested?
  }

  function AllExpired(db: Db, intents: seq<IntentId>, now: int): seq<RecoveryItem>
    requires forall i :: i in intents ==> NeedsRecovery(db, i, now)
  {
    seq(|intents|, k requires 0 <= k < |intents| => SnapshotExpired(db, intents[k], now))
  }

  function AllQueued(db: Db, jobs: seq<JobId>): seq<UnadmittedJob>
    requires forall k :: 0 <= k < |jobs| ==> jobs[k] in db.jobs
  {
    seq(|jobs|, k requires 0 <= k < |jobs| => SnapshotJob(db, jobs[k]))
  }

  /** Whether the scheduler or the environment can take this step here. */
  predicate Enabled(s: System, op: SysOp) {
    match op
    case Env(e) => EnvOp(e)
    case StartRecovery(intents) => s.pc.Idle? && forall i :: i in intents ==> NeedsRecovery(s.w.db, i, s.w.now)
    case BeginHead => s.pc.Recovering? && s.pc.todo != [] && s.pc.phase.Fresh?
    case DeleteHead(_) => s.pc.Recovering? && s.pc.todo != [] && s.pc.phase.Begun?
    case ConfirmHead(cur, _) =>
      && s.pc.Recovering? && s.pc.todo != [] && s.pc.phase.Confirming?
      && CurrentRowOk(s.w.db, s.pc.todo[0].job, cur)
    case RequeueOne(_, _) => s.pc.Idle?
    case StartAdmission(limit, rank, jobs) => s.pc.Idle? && IsScan(s.w.db, s.cap, limit, rank, jobs)
    case AdmitHead(_, _, _) => s.pc.Admitting? && s.pc.rows != []
    case CrashScheduler => true
  }

  /** The protocol operation behind a step. */
  function Lower(s: System, op: SysOp): Op
    requires Enabled(s, op)
  {
    match op
    case Env(e) => e
    case StartRecovery(intents) => FindExpired(intents)
    case BeginHead => if s.pc.todo[0].needsBegin then Begin(s.pc.todo[0]) else Tick(0)
    case ConfirmHead(cur, pick) => Confirm(s.pc.todo[0].job, s.pc.phase.shouldRetry, IsCancel(s.pc.todo[0]), cur, pick)
    case RequeueOne(job, at) => Requeue(job, at)
    case StartAdmission(_, _, jobs) => Scan(jobs)
    case AdmitHead(aid, iid, rid) => Admit(s.pc.rows[0], aid, iid, rid)
    case _ => Tick(0)
  }

  function NextItem(todo: seq<RecoveryItem>): Pc
    requires todo != []
  {
    if |todo| == 1 then Idle else Recovering(todo[1..], Fresh)
  }

  lemma ScannedAreQueued(db: Db, cap: nat, limit: nat, rank: map<JobId, nat>, jobs: seq<JobId>)
    requires IsScan(db, cap, limit, rank, jobs)
    ensures forall p :: 0 <= p < |jobs| ==> jobs[p] in db.jobs && QueuedRow(db, jobs[p])
  {
    forall p | 0 <= p < |jobs| ensures jobs[p] in db.jobs && QueuedRow(db, jobs[p]) {
      assert Eligible(db, cap, rank, jobs[p]);
    }
  }

  /**
   The item loop of `RecoverExpiredJobIntents`: begin, delete, confirm; a failed begin or an unconfirmed
   deletion that has not timed out skips to the next item.
   */
  function NextPc(s: System, op: SysOp): Pc
    requires Enabled(s, op)
  {
    match op
    case Env(_) => s.pc
    case StartRecovery(intents) =>
      if intents == [] then Idle else Recovering(AllExpired(s.w.db, intents, s.w.now), Fresh)
    case BeginHead =>
      var it := s.pc.todo[0];
      if it.needsBegin && !BeginOk(s.w.db, it, s.w.now) then NextItem(s.pc.todo) else Recovering(s.pc.todo, Begun)
    case DeleteHead(deleted) =>
      var it := s.pc.todo[0];
      if !s.hasDeleter || deleted then
        Recovering(s.pc.todo, Confirming(!IsCancel(it) && it.number <= it.maxRetries))
      else if s.w.now - it.jobUpdatedAt >= RECOVERY_TIMEOUT then
        Recovering(s.pc.todo, Confirming(false))
      else
        NextItem(s.pc.todo)
    case ConfirmHead(_, _) => NextItem(s.pc.todo)
    case RequeueOne(_, _) => s.pc
    case StartAdmission(limit, rank, jobs) =>
      ScannedAreQueued(s.w.db, s.cap, limit, rank, jobs);
      if jobs == [] then Idle else Admitting(AllQueued(s.w.db, jobs))
    case AdmitHead(_, _, _) => if |s.pc.rows| == 1 then Idle else Admitting(s.pc.rows[1..])
    case CrashScheduler => Idle
  }

  /** The attempt a worker reports finished with this operation, if the report commits. */
  function ReportedBy(w: World, op: Op): set<AttemptId> {
    match op
    case MarkSucceeded(t, pick) => if t in w.tokens && SucceededOk(w.db, t) then {t.attempt} else {}
    case MarkFailed(t, _, _, _, pick) => if t in w.tokens && FailedOk(w.db, t) then {t.attempt} else {}
    case MarkCancelled(t, pick) => if t in w.tokens && CancelledOk(w.db, t) then {t.attempt} else {}
    case _ => {}
  }

  function NextStopped(s: System, op: SysOp): set<AttemptId>
    requires Enabled(s, op)
  {
    match op
    case Env(e) => s.stopped + ReportedBy(s.w, e)
    case DeleteHead(deleted) => if s.hasDeleter && deleted then s.stopped + {s.pc.todo[0].attempt} else s.stopped
    case _ => s.stopped
  }

  function Step(s: System, op: SysOp): System {
    if !Enabled(s, op) then s
    else s.(w := Apply(s.w, Lower(s, op)), pc := NextPc(s, op), stopped := NextStopped(s, op))
  }

  function Exec(s: System, ops: seq<SysOp>): System
    decreases |ops|
  {
    if ops == [] then s else Exec(Step(s, ops[0]), ops[1..])
  }

  lemma {:induction false} ExecConcat(s: System, a: seq<SysOp>, b: seq<SysOp>)
    ensures Exec(s, a + b) == Exec(Exec(s, a), b)
    decreases |a|
  {
    if a == [] {
      assert a + b == b;
    } else {
      assert (a + b)[1..] == a[1..] + b;
      ExecConcat(Step(s, a[0]), a[1..], b);
    }
  }

  /** The protocol run that a single-scheduler run amounts to. */
  function Trace(s: System, ops: seq<SysOp>): seq<Op>
    decreases |ops|
  {
    if ops == [] then []
    else (if Enabled(s, ops[0]) then [Lower(s, ops[0])] else []) + Trace(Step(s, ops[0]), ops[1..])
  }

  /** A run with one scheduler is a run of the protocol, so whatever holds for any number of schedulers holds here. */
  lemma {:induction false} ExecIsRun(s: System, ops: seq<SysOp>)
    ensures Exec(s, ops).w == Run(s.w, Trace(s, ops))
    decreases |ops|
  {
    if ops != [] {
      ExecIsRun(Step(s, ops[0]), ops[1..]);
      var rest := Trace(Step(s, ops[0]), ops[1..]);
      if Enabled(s, ops[0]) {
        assert ([Lower(s, ops[0])] + rest)[1..] == rest;
      } else {
        assert [] + rest == rest;
      }
    }
  }
}
