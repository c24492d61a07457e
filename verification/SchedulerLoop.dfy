/**
 `Scheduler.RunOnce` with the loops of `RecoverExpiredJobIntents` and `RequeueRetryWaitJobs`,
 run against the store while other processes act between any two of its transactions.
 Every pass is proved to be a run of the single-scheduler model, so what holds in
 every reachable state of the model holds after every pass.
 */
module SchedulerLoop {
  import opened JobStates
  import opened JobTables
  import opened JobEffects
  import opened JobProtocol
  import opened SchedulerModel
  import opened JointInvariant
  import opened SchedulerGuarantees
  import opened SchedulerPass
  import opened PostgresStore
  import opened FairScan
  import opened AdmissionScan
  import opened Queries

  method FreshId(ids: set<nat>) returns (n: nat)
    ensures n !in ids
  {
    n := 0;
    var seen: set<nat> := {};
    while n in ids
      invariant seen == set k: nat | k in ids && k < n
      decreases ids - seen
    {
      seen := seen + {n};
      n := n + 1;
    }
  }

  /**
   The query of `FindExpiredJobIntents`: every intent that needs recovery, with its job and attempt as they are now.
   */
  method SelectExpired(db: Db, now: int) returns (rows: seq<IntentId>, items: seq<RecoveryItem>)
    ensures IsExpiredList(db, now, rows) && items == AllExpired(db, rows, now)
  {
    var ids := set i | i in db.intents && NeedsRecovery(db, i, now);
    rows := SelectOrdered(ids, map i | i in ids :: SortKey(0, 0), |ids|);
    forall i | i in db.intents && NeedsRecovery(db, i, now) ensures i in rows {
      assert i in ids;
    }
    items := AllExpired(db, rows, now);
  }

  /** The query of `RequeueRetryWaitJobs`. */
  method SelectWaiting(jobs: map<JobId, Job>, limit: nat) returns (rows: seq<JobId>)
    ensures FirstWaiting(jobs, rows, limit)
  {
    var waiting := set j | j in jobs && jobs[j].state == RetryWait;
    var key := map j | j in waiting :: SortKey(jobs[j].updatedAt, 0);
    rows := SelectOrdered(waiting, key, limit);
    forall j | j in jobs && jobs[j].state == RetryWait && j !in rows
      ensures |rows| == limit && forall r :: r in rows ==> jobs[r].updatedAt <= jobs[j].updatedAt
    {
      assert j in waiting;
      forall r | r in rows ensures jobs[r].updatedAt <= jobs[j].updatedAt {
        var p :| 0 <= p < |rows| && rows[p] == r;
        assert key[rows[p]].AtMost(key[j]);
      }
    }
  }

  /** The store, the clock, and the claims and rows that processes were given. */
  class Cluster {
    const store: Store
    const hasDeleter: bool
    const cap: nat
    var now: int
    var claims: set<Token>
    var scans: set<UnadmittedJob>
    var found: set<RecoveryItem>

    constructor (hasDeleter: bool, cap: nat)
      ensures fresh(store) && State() == INIT && this.hasDeleter == hasDeleter && this.cap == cap
    {
      store := new Store();
      this.hasDeleter, this.cap := hasDeleter, cap;
      now, claims, scans, found := 0, {}, {}, {};
    }

    function State(): World
      reads this, store
    {
      World(store.Tables(), now, claims, scans, found)
    }

    /** The cluster is where the model is. */
    ghost predicate At(s: System)
      reads this, store
    {
      s.w == State() && s.hasDeleter == hasDeleter && s.cap == cap
    }

    /** Other processes take these steps, one after the other. */
    method Perform(ops: seq<Op>)
      modifies this, store
      ensures State() == Run(old(State()), ops)
    {
      ghost var w0 := State();
      for n := 0 to |ops|
        invariant State() == Run(w0, ops[..n])
      {
        var w := Apply(State(), ops[n]);
        store.Commit(w.db);
        now, claims, scans, found := w.now, w.tokens, w.scans, w.items;
        RunOne(w0, ops[..n], ops[n]);
        assert ops[..n + 1] == ops[..n] + [ops[n]];
      }
      assert ops[..|ops|] == ops;
    }

    /** What executors, clients and the clock do between two transactions of the scheduler. */
    method LetOthersAct(ops: seq<Op>, ghost s: System) returns (ghost s': System)
      requires AllEnv(ops) && At(s)
      modifies this, store
      ensures s' == Exec(s, EnvOps(ops)) && At(s') && s'.pc == s.pc
      ensures found >= old(found) && scans >= old(scans) && store.attempts.Keys == old(store.attempts.Keys)
    {
      Perform(ops);
      RowsStay(s.w, ops);
      EnvAddsNoAttempts(s.w, ops);
      EnvExec(s, ops);
      s' := Exec(s, EnvOps(ops));
    }

    // -------------------------------------------------------------- recovery

    /** Begin the recovery of the item, unless an earlier pass did; false means the item is skipped. */
    method BeginItem(it: RecoveryItem, ghost s: System) returns (begun: bool, ghost s': System)
      requires At(s) && Enabled(s, BeginHead) && s.pc.todo[0] == it && it in found
      modifies store
      ensures s' == Step(s, BeginHead) && At(s') && store.attempts.Keys == old(store.attempts.Keys)
      ensures s'.pc == if begun then Recovering(s.pc.todo, Begun) else NextItem(s.pc.todo)
    {
      begun := true;
      if it.needsBegin {
        begun := store.BeginJobRecovery(it, now);
      }
      s' := Step(s, BeginHead);
    }

    /** Delete the workload; without confirmation the item waits for the next pass until the timeout forces FAILED. */
    method DeleteItem(it: RecoveryItem, deleted: bool, ghost s: System)
      returns (confirm: bool, shouldRetry: bool, ghost s': System)
      requires At(s) && Enabled(s, DeleteHead(deleted)) && s.pc.todo[0] == it
      ensures s' == Step(s, DeleteHead(deleted)) && At(s')
      ensures s'.pc == if confirm then Recovering(s.pc.todo, Confirming(shouldRetry)) else NextItem(s.pc.todo)
      ensures confirm <==> deleted || !hasDeleter || IsLate(it, now)
      ensures confirm ==>
              (shouldRetry <==>
               (deleted || !hasDeleter) && it.jobState != CancelRequested && it.number <= it.maxRetries)
    {
      var isCancel := it.jobState.CancelRequested?;
      shouldRetry := !isCancel && it.number <= it.maxRetries;
      confirm := true;
      var deleteConfirmed := true;
      if hasDeleter {
        deleteConfirmed := deleted;
      }
      if !deleteConfirmed {
        if now - it.jobUpdatedAt >= RECOVERY_TIMEOUT {
          shouldRetry := false;
        } else {
          confirm := false;
        }
      }
      s' := Step(s, DeleteHead(deleted));
    }

    method ConfirmItem(it: RecoveryItem, shouldRetry: bool, locked: set<ReservationId>, ghost s: System)
      returns (ok: bool, ghost op: SysOp, ghost s': System)
      requires At(s)
      requires s.pc.Recovering? && s.pc.todo != [] && s.pc.todo[0] == it && s.pc.phase == Confirming(shouldRetry)
      modifies store
      ensures op.ConfirmHead? && s' == Step(s, op) && At(s') && s'.pc == NextItem(s.pc.todo)
      ensures ok <==> it.job in old(store.jobs)
                      && if it.jobState == CancelRequested then old(store.jobs)[it.job].state == CancelRequested
                         else old(store.jobs)[it.job].state in {Starting, Running, RecoveryPending}
      ensures store.attempts.Keys == old(store.attempts.Keys)
    {
      ghost var cur, pick;
      ok, cur, pick := store.ConfirmJobRecovery(it.job, shouldRetry, it.jobState.CancelRequested?, now, locked);
      op := ConfirmHead(cur, pick);
      s' := Step(s, op);
    }

    /** One turn of the recovery loop, with others acting before each of its transactions. */
    method RecoverItem(it: RecoveryItem, deleted: bool, locked: set<ReservationId>, before: seq<Op>, between: seq<Op>,
                       after: seq<Op>, ghost s: System)
      returns (recovered: bool, ghost turn: seq<SysOp>, ghost s': System)
      requires AllEnv(before) && AllEnv(between) && AllEnv(after) && At(s)
      requires Enabled(s, BeginHead) && s.pc.todo[0] == it && it in found
      modifies this, store
      ensures s' == Exec(s, turn) && At(s') && ItemTurnAt(s, turn, deleted, before, between, after)
      ensures found >= old(found) && store.attempts.Keys == old(store.attempts.Keys)
    {
      recovered := false;
      s' := LetOthersAct(before, s);
      var begun;
      EnvThenStep(s, before, BeginHead);
      begun, s' := BeginItem(it, s');
      turn := EnvOps(before) + [BeginHead];
      if begun {
        var confirm, shouldRetry;
        MoreSteps(s, turn, between, DeleteHead(deleted));
        s' := LetOthersAct(between, s');
        confirm, shouldRetry, s' := DeleteItem(it, deleted, s');
        turn := turn + EnvOps(between) + [DeleteHead(deleted)];
        if confirm {
          s' := LetOthersAct(after, s');
          ghost var op;
          recovered, op, s' := ConfirmItem(it, shouldRetry, locked, s');
          MoreSteps(s, turn, after, op);
          turn := turn + EnvOps(after) + [op];
        }
      }
    }

    /** The turn of item `n` in the loop. */
    method RecoverNth(it: RecoveryItem, n: nat, deleted: nat -> bool, locked: nat -> set<ReservationId>,
                      others: nat -> seq<Op>, ghost s: System)
      returns (recovered: bool, ghost turn: seq<SysOp>, ghost s': System)
      requires (forall k :: AllEnv(others(k))) && At(s) && Enabled(s, BeginHead) && s.pc.todo[0] == it && it in found
      modifies this, store
      ensures s' == Exec(s, turn) && At(s') && RecoveryTurn(s, turn, n, deleted, others)
      ensures s'.pc == NextItem(s.pc.todo)
      ensures found >= old(found) && store.attempts.Keys == old(store.attempts.Keys)
    {
      recovered, turn, s' := RecoverItem(it, deleted(n), locked(n), others(3 * n), others(3 * n + 1), others(3 * n + 2),
                                         s);
    }

    method FindExpiredJobIntents(ghost s: System)
      returns (items: seq<RecoveryItem>, ghost rows: seq<IntentId>, ghost s': System)
      requires At(s) && s.pc.Idle?
      modifies this`found
      ensures s' == Step(s, StartRecovery(rows)) && At(s')
      ensures s'.pc == if items == [] then Idle else Recovering(items, Fresh)
      ensures forall k :: 0 <= k < |items| ==> items[k] in found
      ensures IsExpiredList(store.Tables(), now, rows) && |items| == |rows|
    {
      var ids;
      ids, items := SelectExpired(store.Tables(), now);
      rows := ids;
      found := found + ExpiredRows(store.Tables(), ids, now);
      s' := Step(s, StartRecovery(rows));
      forall k | 0 <= k < |items| ensures items[k] in found {
        assert ids[k] in ids;
      }
    }

    /**
     `RecoverExpiredJobIntents`: `deleted(n)` says whether the deletion for item n was confirmed, `locked(n)` which
     reservations others hold when it is confirmed.  Every intent that needs recovery gets its turn.
     */
    method RecoverExpiredJobIntents(deleted: nat -> bool, locked: nat -> set<ReservationId>, others: nat -> seq<Op>,
                                    ghost s: System)
      returns (recovered: nat, ghost rows: seq<IntentId>, ghost turns: seq<seq<SysOp>>, ghost s': System)
      requires (forall n :: AllEnv(others(n))) && At(s) && s.pc.Idle?
      modifies this, store
      ensures IsExpiredList(old(store.Tables()), old(now), rows) && |turns| == |rows|
      ensures s' == Exec(Step(s, StartRecovery(rows)), Flat(turns)) && At(s') && s'.pc.Idle?
      ensures IsRecovery(Step(s, StartRecovery(rows)), turns, deleted, others)
      ensures store.attempts.Keys == old(store.attempts.Keys)
    {
      recovered := 0;
      var items;
      items, rows, s' := FindExpiredJobIntents(s);
      turns := [];
      ghost var s1 := s';
      for n := 0 to |items|
        invariant At(s') && s'.pc == if n == |items| then Idle else Recovering(items[n..], Fresh)
        invariant forall k :: 0 <= k < |items| ==> items[k] in found
        invariant store.attempts.Keys == old(store.attempts.Keys)
        invariant |turns| == n && s' == Exec(s1, Flat(turns)) && IsRecovery(s1, turns, deleted, others)
      {
        var ok;
        ghost var turn;
        ok, turn, s' := RecoverNth(items[n], n, deleted, locked, others, s');
        RecoveryGrows(s1, turns, turn, deleted, others);
        turns := turns + [turn];
        if ok {
          recovered := recovered + 1;
        }
      }
    }

    // -------------------------------------------------------------- requeue

    /** One job of `RequeueRetryWaitJobs`, as the query saw it. */
    method RequeueIfDue(job: JobId, attempt: nat, updatedAt: int, base: nat, at: int, ghost s: System)
      returns (requeued: nat, ghost steps: seq<SysOp>, ghost s': System)
      requires At(s) && s.pc.Idle?
      modifies store
      ensures s' == Exec(s, steps) && At(s') && s'.pc.Idle?
      ensures steps == if at - updatedAt >= RetryBackoff(base, attempt) then [RequeueOne(job, at)] else []
      ensures requeued == if at - updatedAt >= RetryBackoff(base, attempt)
                             && job in old(store.jobs) && old(store.jobs)[job].state == RetryWait then 1 else 0
      ensures store.attempts == old(store.attempts)
    {
      requeued, steps, s' := 0, [], s;
      var shift: int := attempt - 1;
      if shift < 0 {
        shift := 0;
      }
      if shift > 5 {
        shift := 5;
      }
      var backoff := base * Shifted(shift);
      if backoff > 60 {
        backoff := 60;
      }
      if at - updatedAt >= backoff {
        requeued := store.RequeueJob(job, at);
        steps := [RequeueOne(job, at)];
        ExecOne(s, RequeueOne(job, at));
        s' := Step(s, RequeueOne(job, at));
      }
    }

    /** One turn of the requeue loop, on a row as the query saw it. */
    method RequeueTurn(job: JobId, row: Job, base: nat, at: int, ops: seq<Op>, ghost s: System)
      returns (requeued: nat, ghost turn: seq<SysOp>, ghost s': System)
      requires AllEnv(ops) && At(s) && s.pc.Idle?
      modifies this, store
      ensures s' == Exec(s, turn) && At(s') && s'.pc.Idle?
      ensures turn == EnvOps(ops) + if at - row.updatedAt >= RetryBackoff(base, row.attempt) then [RequeueOne(job, at)]
                                    else []
      ensures store.attempts.Keys == old(store.attempts.Keys)
    {
      ghost var steps;
      s' := LetOthersAct(ops, s);
      requeued, steps, s' := RequeueIfDue(job, row.attempt, row.updatedAt, base, at, s');
      turn := EnvOps(ops) + steps;
      ExecConcat(s, EnvOps(ops), steps);
    }

    /**
     `RequeueRetryWaitJobs`: of the jobs that have waited longest, those whose delay has elapsed are requeued, each in
     its turn, and no others.
     */
    method RequeueRetryWaitJobs(base: nat, limit: nat, others: nat -> seq<Op>, ghost s: System)
      returns (requeued: nat, ghost rows: seq<JobId>, ghost turns: seq<seq<SysOp>>, ghost s': System)
      requires (forall n :: AllEnv(others(n))) && At(s) && s.pc.Idle?
      modifies this, store
      ensures s' == Exec(s, Flat(turns)) && At(s') && s'.pc.Idle? && requeued <= |rows|
      ensures FirstWaiting(old(store.jobs), rows, limit)
      ensures IsRequeue(turns, old(store.jobs), rows, base, old(now), others)
      ensures store.attempts.Keys == old(store.attempts.Keys)
    {
      requeued, s' := 0, s;
      var seen, at := store.jobs, now;
      var ids := SelectWaiting(seen, limit);
      rows, turns := ids, [];
      for n := 0 to |ids|
        invariant At(s') && s'.pc.Idle? && requeued <= n && s' == Exec(s, Flat(turns))
        invariant store.attempts.Keys == old(store.attempts.Keys)
        invariant IsRequeue(turns, seen, ids[..n], base, at, others)
      {
        assert ids[n] in ids;
        ghost var turn;
        var more;
        more, turn, s' := RequeueTurn(ids[n], seen[ids[n]], base, at, others(n), s');
        AddTurn(s, turns, turn);
        RequeueGrows(turns, turn, seen, ids, n, base, at, others);
        turns := turns + [turn];
        if more > 0 {
          requeued := requeued + 1;
        }
      }
      assert ids[..|ids|] == ids;
    }

    // -------------------------------------------------------------- admission

    method ScanJobs(limit: nat, ghost s: System)
      returns (rows: seq<UnadmittedJob>, ghost rank: map<JobId, nat>, ghost ids: seq<JobId>, ghost s': System)
      requires At(s) && s.pc.Idle?
      modifies this`scans
      ensures IsScan(store.Tables(), cap, limit, rank, ids) && |rows| == |ids|
      ensures s' == Step(s, StartAdmission(limit, rank, ids)) && At(s')
      ensures s'.pc == if rows == [] then Idle else Admitting(rows)
      ensures forall k :: 0 <= k < |rows| ==> rows[k] in scans
      ensures forall k :: 0 <= k < |rows| ==>
                && ids[k] in store.jobs
                && var j := store.jobs[ids[k]];
                   rows[k] == UnadmittedJob(ids[k], j.workspace, j.maxRetries, j.attempt, j.timeoutSeconds)
    {
      var db := store.Tables();
      var jobs, ranks := ScanUnadmittedJobs(db, cap, limit);
      ids, rank := jobs, ranks;
      ScannedAreQueued(db, cap, limit, rank, ids);
      rows := AllQueued(db, jobs);
      scans := scans + ScanRows(db, jobs);
      s' := Step(s, StartAdmission(limit, rank, ids));
      forall k | 0 <= k < |rows| ensures rows[k] in scans {
        assert jobs[k] in jobs;
      }
    }

    method AdmitRow(row: UnadmittedJob, ghost s: System) returns (admitted: bool, ghost head: SysOp, ghost s': System)
      requires At(s) && s.pc.Admitting? && s.pc.rows != [] && s.pc.rows[0] == row && row in scans
      modifies store
      ensures head.AdmitHead? && s' == Step(s, head) && At(s')
      ensures s'.pc == if |s.pc.rows| == 1 then Idle else Admitting(s.pc.rows[1..])
      ensures head.aid !in s.w.db.attempts && head.iid !in s.w.db.intents && head.rid !in s.w.db.reservations
      ensures admitted <==> Admissible(old(store.Tables()), row)
      ensures |store.attempts| == |old(store.attempts)| + if admitted then 1 else 0
    {
      var aid := FreshId(store.attempts.Keys);
      var iid := FreshId(store.intents.Keys);
      var rid := FreshId(store.reservations.Keys);
      admitted := store.CreateJobAttemptIntent(row, aid, iid, rid, now);
      head := AdmitHead(aid, iid, rid);
      s' := Step(s, head);
    }

    /** The admission loop of `RunOnce` on the rows of one scan: every row gets its turn. */
    method AdmitScanned(rows: seq<UnadmittedJob>, others: nat -> seq<Op>, ghost s: System)
      returns (admitted: nat, ghost turns: seq<seq<SysOp>>, ghost s': System)
      requires (forall n :: AllEnv(others(n))) && At(s)
      requires s.pc == if rows == [] then Idle else Admitting(rows)
      requires forall k :: 0 <= k < |rows| ==> rows[k] in scans
      modifies this, store
      ensures s' == Exec(s, Flat(turns)) && At(s') && s'.pc.Idle?
      ensures |turns| == |rows| && IsAdmission(s, turns, others)
      ensures |store.attempts| == |old(store.attempts)| + admitted
    {
      admitted, turns, s' := 0, [], s;
      for n := 0 to |rows|
        invariant At(s') && s'.pc == if n == |rows| then Idle else Admitting(rows[n..])
        invariant forall k :: 0 <= k < |rows| ==> rows[k] in scans
        invariant |store.attempts| == |old(store.attempts)| + admitted
        invariant |turns| == n && s' == Exec(s, Flat(turns)) && IsAdmission(s, turns, others)
      {
        ghost var keys, s1 := store.attempts, s';
        ghost var head;
        var ok;
        s' := LetOthersAct(others(n), s');
        SameKeysSameSize(keys, store.attempts);
        ok, head, s' := AdmitRow(rows[n], s');
        EnvThenStep(s1, others(n), head);
        AdmissionGrows(s, turns, EnvOps(others(n)) + [head], others);
        turns := turns + [EnvOps(others(n)) + [head]];
        if ok {
          admitted := admitted + 1;
        }
      }
    }

    /** Recover, requeue, scan, admit. */
    method TakePass(deleted: nat -> bool, locked: nat -> set<ReservationId>,
                    duringRecovery: nat -> seq<Op>, duringRequeue: nat -> seq<Op>, duringAdmission: nat -> seq<Op>,
                    ghost s: System)
      returns (admitted: nat, ghost pass: Pass, ghost s': System)
      requires forall n :: AllEnv(duringRecovery(n)) && AllEnv(duringRequeue(n)) && AllEnv(duringAdmission(n))
      requires At(s) && s.pc.Idle?
      modifies this, store
      ensures IsPass(s, pass, deleted, duringRecovery, duringRequeue, duringAdmission)
      ensures s' == Exec(Scanned(s, pass), Flat(pass.admission)) && At(s') && s'.pc.Idle?
      ensures |store.attempts| == |old(store.attempts)| + admitted
      ensures |Requeued(s, pass).w.db.attempts| == |old(store.attempts)|
    {
      var recovered, requeued, rows;
      ghost var lost, recovery, waiting, requeue, rank, scan, admission;
      recovered, lost, recovery, s' := RecoverExpiredJobIntents(deleted, locked, duringRecovery, s);
      requeued, waiting, requeue, s' := RequeueRetryWaitJobs(5, RETRY_LIMIT, duringRequeue, s');
      SameKeysSameSize(old(store.attempts), store.attempts);
      rows, rank, scan, s' := ScanJobs(SCAN_LIMIT, s');
      admitted, admission, s' := AdmitScanned(rows, duringAdmission, s');
      pass := Pass(lost, recovery, waiting, requeue, rank, scan, admission);
    }

    /**
     `RunOnce`: recover, requeue, scan, admit.  Whatever other processes do in between, what the scheduler did is a
     pass: every intent that needs recovery, every job that may be due and every job of the scan gets its turn.  The
     pass is a run of the single-scheduler model that ends idle; the count it returns is the number of attempts
     created; and if the tables agreed before, they agree after.

     If nobody acts in between, lost work is recovered, due jobs are requeued, and every job of the fair scan over the
     result is admitted with its next attempt; the count is the number of these jobs.
     */
    method RunOnce(stopAdmission: bool, deleted: nat -> bool, locked: nat -> set<ReservationId>,
                   duringRecovery: nat -> seq<Op>, duringRequeue: nat -> seq<Op>, duringAdmission: nat -> seq<Op>,
                   ghost s: System)
      returns (admitted: nat, ghost pass: Pass, ghost s': System)
      requires forall n :: AllEnv(duringRecovery(n)) && AllEnv(duringRequeue(n)) && AllEnv(duringAdmission(n))
      requires At(s) && s.pc.Idle?
      modifies this, store
      ensures stopAdmission ==> admitted == 0 && s' == s
      ensures !stopAdmission ==>
                s' == Exec(s, PassSteps(pass))
                && IsPass(s, pass, deleted, duringRecovery, duringRequeue, duringAdmission)
      ensures At(s') && s'.pc.Idle?
      ensures |store.attempts| == |old(store.attempts)| + admitted
      ensures SystemOk(s) ==> SystemOk(s') && Joint(store.Tables())
      ensures !stopAdmission && SystemOk(s) && BudgetKept(s) &&
              Quiet(duringRecovery, duringRequeue, duringAdmission) ==>
                PassDone(s, pass, deleted) && admitted == |pass.scan|
    {
      admitted, s', pass := 0, s, Pass([], [], [], [], map[], [], []);
      if stopAdmission {
        return;
      }
      admitted, pass, s' := TakePass(deleted, locked, duringRecovery, duringRequeue, duringAdmission, s);
      PassStepsLead(s, pass);
      PassKeeps(s, pass, deleted, duringRecovery, duringRequeue, duringAdmission);
    }
  }

  /** The two theorems about passes, as `RunOnce` uses them. */
  lemma PassKeeps(s: System, p: Pass, deleted: nat -> bool, duringRecovery: nat -> seq<Op>,
                  duringRequeue: nat -> seq<Op>, duringAdmission: nat -> seq<Op>)
    requires s.pc.Idle? && IsPass(s, p, deleted, duringRecovery, duringRequeue, duringAdmission)
    ensures SystemOk(s) ==> SystemOk(Exec(s, PassSteps(p))) && Joint(Exec(s, PassSteps(p)).w.db)
    ensures SystemOk(s) && BudgetKept(s) && Quiet(duringRecovery, duringRequeue, duringAdmission) ==>
              PassDone(s, p, deleted)
  {
    if SystemOk(s) {
      ExecKeepsSystem(s, PassSteps(p));
      if BudgetKept(s) && Quiet(duringRecovery, duringRequeue, duringAdmission) {
        PassCompletes(s, p, deleted, duringRecovery, duringRequeue, duringAdmission);
      }
    }
  }

  /** More steps at the end of a turn. */
  lemma MoreSteps(s: System, turn: seq<SysOp>, ops: seq<Op>, op: SysOp)
    ensures Exec(s, turn + EnvOps(ops) + [op]) == Step(Exec(Exec(s, turn), EnvOps(ops)), op)
  {
    ExecConcat(s, turn, EnvOps(ops));
    ExecConcat(s, turn + EnvOps(ops), [op]);
    ExecOne(Exec(Exec(s, turn), EnvOps(ops)), op);
  }

  lemma RecoveryGrows(s: System, turns: seq<seq<SysOp>>, turn: seq<SysOp>, deleted: nat -> bool, others: nat -> seq<Op>)
    requires IsRecovery(s, turns, deleted, others)
    requires RecoveryTurn(Exec(s, Flat(turns)), turn, |turns|, deleted, others)
    ensures IsRecovery(s, turns + [turn], deleted, others)
    ensures Exec(s, Flat(turns + [turn])) == Exec(Exec(s, Flat(turns)), turn)
  {
    AddTurn(s, turns, turn);
    WholeLoop(s, turns);
    forall n | 0 <= n <= |turns|
      ensures RecoveryTurn(StateAt(s, turns + [turn], n), (turns + [turn])[n], n, deleted, others)
    {
      assert StateAt(s, turns + [turn], n) == StateAt(s, turns, n);
    }
  }

  lemma RequeueGrows(turns: seq<seq<SysOp>>, turn: seq<SysOp>, jobs: map<JobId, Job>, rows: seq<JobId>, n: nat,
                     base: nat, at: int, others: nat -> seq<Op>)
    requires n < |rows| && IsRequeue(turns, jobs, rows[..n], base, at, others)
    requires turn == EnvOps(others(n)) + if RetryIsDue(jobs, base, rows[n], at) then [RequeueOne(rows[n], at)] else []
    ensures IsRequeue(turns + [turn], jobs, rows[..n + 1], base, at, others)
  {
    assert rows[..n + 1] == rows[..n] + [rows[n]];
  }

  lemma AdmissionGrows(s: System, turns: seq<seq<SysOp>>, turn: seq<SysOp>, others: nat -> seq<Op>)
    requires IsAdmission(s, turns, others) && AdmitTurnAt(Exec(s, Flat(turns)), turn, others(|turns|))
    ensures IsAdmission(s, turns + [turn], others)
    ensures Exec(s, Flat(turns + [turn])) == Exec(Exec(s, Flat(turns)), turn)
  {
    AddTurn(s, turns, turn);
    WholeLoop(s, turns);
    forall n | 0 <= n <= |turns| ensures AdmitTurnAt(StateAt(s, turns + [turn], n), (turns + [turn])[n], others(n)) {
      assert StateAt(s, turns + [turn], n) == StateAt(s, turns, n);
    }
  }

  lemma SameKeysSameSize(a: map<AttemptId, Attempt>, b: map<AttemptId, Attempt>)
    requires a.Keys == b.Keys
    ensures |a| == |b|
  {
    assert |a| == |a.Keys| && |b| == |b.Keys|;
  }

  /** Only the scheduler creates attempts. */
  lemma {:induction false} EnvAddsNoAttempts(w: World, ops: seq<Op>)
    requires AllEnv(ops)
    ensures Run(w, ops).db.attempts.Keys == w.db.attempts.Keys
    decreases |ops|
  {
    if ops != [] {
      assert EnvOp(ops[0]);
      if !ops[0].Submit? {
        OnlyAdmissionAndSubmissionChangeTheSkeleton(w, ops[0]);
      }
      EnvAddsNoAttempts(Apply(w, ops[0]), ops[1..]);
    }
  }

  /** Rows that were handed out are never forgotten. */
  lemma {:induction false} RowsStay(w: World, ops: seq<Op>)
    ensures w.items <= Run(w, ops).items && w.scans <= Run(w, ops).scans
    decreases |ops|
  {
    if ops != [] {
      RowsStay(Apply(w, ops[0]), ops[1..]);
    }
  }
}
