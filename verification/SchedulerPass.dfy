/**
 What a scheduler pass consists of, turn by turn, and what its three parts do to the tables when nobody else acts in
 between: which jobs are recovered and how, which are requeued, and which are admitted.
 */
module SchedulerPass {
  import opened Options
  import opened Rows
  import opened JobStates
  import opened JobTables
  import opened JobEffects
  import opened JobProtocol
  import opened AttemptNumbering
  import opened SchedulerModel
  import opened JointInvariant
  import opened SchedulerGuarantees
  import opened FairScan
  import opened Queries

  const RETRY_LIMIT := 50
  const SCAN_LIMIT := 50

  // ---------------------------------------------------------------- turns

  function EnvOps(ops: seq<Op>): seq<SysOp> {
    seq(|ops|, k requires 0 <= k < |ops| => Env(ops[k]))
  }

  predicate AllEnv(ops: seq<Op>) {
    forall k :: 0 <= k < |ops| ==> EnvOp(ops[k])
  }

  lemma ExecOne(s: System, op: SysOp)
    ensures Exec(s, [op]) == Step(s, op)
  {
    assert [op][1..] == [];
  }

  /** The environment moves the world and leaves the scheduler where it is. */
  lemma {:induction false} EnvExec(s: System, ops: seq<Op>)
    requires AllEnv(ops)
    ensures var s' := Exec(s, EnvOps(ops));
            s'.w == Run(s.w, ops) && s'.pc == s.pc && s'.hasDeleter == s.hasDeleter && s'.cap == s.cap
    decreases |ops|
  {
    if ops != [] {
      assert EnvOps(ops)[0] == Env(ops[0]) && EnvOps(ops)[1..] == EnvOps(ops[1..]);
      EnvExec(Step(s, Env(ops[0])), ops[1..]);
    }
  }

  /** The turns of a loop, one after the other. */
  function Flat(turns: seq<seq<SysOp>>): seq<SysOp> {
    if turns == [] then [] else Flat(turns[..|turns| - 1]) + turns[|turns| - 1]
  }

  /** Where the model is before turn `n`. */
  function StateAt(s: System, turns: seq<seq<SysOp>>, n: nat): System
    requires n <= |turns|
  {
    Exec(s, Flat(turns[..n]))
  }

  lemma NextTurn(s: System, turns: seq<seq<SysOp>>, n: nat)
    requires n < |turns|
    ensures StateAt(s, turns, n + 1) == Exec(StateAt(s, turns, n), turns[n])
  {
    assert turns[..n + 1][..n] == turns[..n];
    ExecConcat(s, Flat(turns[..n]), turns[n]);
  }

  lemma AddTurn(s: System, turns: seq<seq<SysOp>>, turn: seq<SysOp>)
    ensures Exec(s, Flat(turns + [turn])) == Exec(Exec(s, Flat(turns)), turn)
    ensures forall n :: 0 <= n <= |turns| ==> (turns + [turn])[..n] == turns[..n]
  {
    assert (turns + [turn])[..|turns|] == turns;
    ExecConcat(s, Flat(turns), turn);
  }

  /** Others act, then the scheduler takes one step. */
  lemma EnvThenStep(s: System, ops: seq<Op>, op: SysOp)
    ensures Exec(s, EnvOps(ops) + [op]) == Step(Exec(s, EnvOps(ops)), op)
  {
    ExecConcat(s, EnvOps(ops), [op]);
    ExecOne(Exec(s, EnvOps(ops)), op);
  }

  /** One item of the recovery loop: begin, delete, confirm, as far as it gets, with others acting before each. */
  predicate IsItemTurn(turn: seq<SysOp>, deleted: bool, before: seq<Op>, between: seq<Op>, after: seq<Op>) {
    var begin := EnvOps(before) + [BeginHead];
    var delete := begin + EnvOps(between) + [DeleteHead(deleted)];
    || turn == begin
    || turn == delete
    || (turn != [] && turn[|turn| - 1].ConfirmHead? && turn == delete + EnvOps(after) + [turn[|turn| - 1]])
  }

  /** The turn deals with the item at the head of the list and ends at the next one. */
  ghost predicate ItemTurnAt(s: System, turn: seq<SysOp>, deleted: bool, before: seq<Op>, between: seq<Op>,
                             after: seq<Op>) {
    && s.pc.Recovering? && s.pc.phase.Fresh? && s.pc.todo != []
    && IsItemTurn(turn, deleted, before, between, after) && Exec(s, turn).pc == NextItem(s.pc.todo)
  }

  /** The turn of item `n`, with what others do before each of its three transactions. */
  ghost predicate RecoveryTurn(s: System, turn: seq<SysOp>, n: nat, deleted: nat -> bool, others: nat -> seq<Op>) {
    ItemTurnAt(s, turn, deleted(n), others(3 * n), others(3 * n + 1), others(3 * n + 2))
  }

  ghost predicate IsRecovery(s: System, turns: seq<seq<SysOp>>, deleted: nat -> bool, others: nat -> seq<Op>) {
    forall n :: 0 <= n < |turns| ==> RecoveryTurn(StateAt(s, turns, n), turns[n], n, deleted, others)
  }

  predicate IsRequeue(turns: seq<seq<SysOp>>, jobs: map<JobId, Job>, rows: seq<JobId>, base: nat, at: int,
                      others: nat -> seq<Op>) {
    && |turns| == |rows|
    && forall n :: 0 <= n < |turns| ==>
         turns[n] == EnvOps(others(n)) + if RetryIsDue(jobs, base, rows[n], at) then [RequeueOne(rows[n], at)] else []
  }

  /** Others act, then the row at the head of the list is admitted under ids that are not taken. */
  ghost predicate AdmitTurnAt(s: System, turn: seq<SysOp>, ops: seq<Op>) {
    && turn != [] && turn == EnvOps(ops) + [turn[|turn| - 1]]
    && var head, db := turn[|turn| - 1], Exec(s, EnvOps(ops)).w.db;
       head.AdmitHead? && head.aid !in db.attempts && head.iid !in db.intents && head.rid !in db.reservations
  }

  ghost predicate IsAdmission(s: System, turns: seq<seq<SysOp>>, others: nat -> seq<Op>) {
    forall n :: 0 <= n < |turns| ==> AdmitTurnAt(StateAt(s, turns, n), turns[n], others(n))
  }

  /** `rows` are the intents that need recovery, each once. */
  ghost predicate IsExpiredList(db: Db, now: int, rows: seq<IntentId>) {
    && Queries.NoRepeats(rows)
    && (forall i :: i in rows ==> NeedsRecovery(db, i, now))
    && (forall i :: i in db.intents && NeedsRecovery(db, i, now) ==> i in rows)
  }

  // ---------------------------------------------------------------- retry delays

  /** 5 s shifted by the attempt number, capped: `backoff` in seconds. */
  function RetryBackoff(base: nat, attempt: nat): nat {
    var shift := if attempt == 0 then 0 else attempt - 1;
    var capped := if shift > 5 then 5 else shift;
    var backoff := base * Shifted(capped);
    if backoff > 60 then 60 else backoff
  }

  function Shifted(n: nat): nat {
    if n == 0 then 1 else 2 * Shifted(n - 1)
  }

  /** With the scheduler's base of 5 s the delays are 5, 10, 20, 40 and from the fifth attempt on 60 seconds. */
  lemma {:induction false} RetryDelays(attempt: nat)
    ensures attempt <= 1 ==> RetryBackoff(5, attempt) == 5
    ensures 1 <= attempt <= 3 ==> RetryBackoff(5, attempt + 1) == 2 * RetryBackoff(5, attempt)
    ensures attempt >= 5 ==> RetryBackoff(5, attempt) == 60
  {
    assert Shifted(0) == 1 && Shifted(1) == 2 && Shifted(2) == 4;
    assert Shifted(3) == 8 && Shifted(4) == 16 && Shifted(5) == 32;
  }

  /** The job waited for its retry and its delay has elapsed. */
  predicate RetryIsDue(jobs: map<JobId, Job>, base: nat, job: JobId, at: int) {
    job in jobs && jobs[job].state.RetryWait? && at - jobs[job].updatedAt >= RetryBackoff(base, jobs[job].attempt)
  }

  /** The first `limit` waiting jobs, longest waiting first. */
  predicate FirstWaiting(jobs: map<JobId, Job>, rows: seq<JobId>, limit: nat) {
    && Queries.NoRepeats(rows) && |rows| <= limit
    && (forall j :: j in rows ==> j in jobs && jobs[j].state == RetryWait)
    && (forall j :: j in jobs && jobs[j].state == RetryWait && j !in rows ==>
          |rows| == limit && forall r :: r in rows ==> jobs[r].updatedAt <= jobs[j].updatedAt)
  }

  /** Of the first `n` rows those that are due are QUEUED, and no other job was written. */
  predicate RequeuedUpTo(jobs: map<JobId, Job>, jobs': map<JobId, Job>, rows: seq<JobId>, n: nat, base: nat, at: int)
    requires n <= |rows|
  {
    && jobs'.Keys == jobs.Keys
    && (forall k :: 0 <= k < n && RetryIsDue(jobs, base, rows[k], at) ==>
          rows[k] in jobs && jobs'[rows[k]] == jobs[rows[k]].(state := Queued, updatedAt := at))
    && (forall j :: j in jobs && (j !in rows[..n] || !RetryIsDue(jobs, base, j, at)) ==> jobs'[j] == jobs[j])
  }

  lemma OneMoreRequeue(jobs: map<JobId, Job>, now0: map<JobId, Job>, now1: map<JobId, Job>, rows: seq<JobId>, n: nat,
                       base: nat, at: int)
    requires n < |rows| && Queries.NoRepeats(rows) && rows[n] in jobs && RequeuedUpTo(jobs, now0, rows, n, base, at)
    requires now1 == if RetryIsDue(jobs, base, rows[n], at)
                     then now0[rows[n] := now0[rows[n]].(state := Queued, updatedAt := at)] else now0
    ensures RequeuedUpTo(jobs, now1, rows, n + 1, base, at)
  {
    assert rows[..n + 1] == rows[..n] + [rows[n]];
    assert rows[n] !in rows[..n];
  }

  // ---------------------------------------------------------------- recovery

  /** The item says what the tables say. */
  predicate FreshItem(db: Db, it: RecoveryItem, now: int) {
    NeedsRecovery(db, it.intent, now) && it == SnapshotExpired(db, it.intent, now)
  }

  /**
   Where recovery takes the item's job.  `gone` means that its workload is known to be deleted, `late` that the deletion
   has been waited for long enough.
   */
  function RecoveredState(it: RecoveryItem, gone: bool, late: bool): JobState {
    if it.jobState == CancelRequested then (if gone || late then Cancelled else CancelRequested)
    else if gone then (if it.number <= it.maxRetries then RetryWait else Failed)
    else if late then Failed
    else if it.needsBegin && it.jobState == Running then RecoveryPending
    else it.jobState
  }

  predicate IsLate(it: RecoveryItem, now: int) {
    now - it.jobUpdatedAt >= 300
  }

  /** Only the item's own job, attempt and intent are written. */
  predicate OnlyItem(db: Db, db': Db, it: RecoveryItem) {
    OnlyRow(db.jobs, db'.jobs, it.job) && OnlyRow(db.attempts, db'.attempts, it.attempt)
    && OnlyRow(db.intents, db'.intents, it.intent)
  }

  predicate SameRows(db: Db, db': Db, it: RecoveryItem) {
    && it.job in db.jobs && it.job in db'.jobs && db'.jobs[it.job] == db.jobs[it.job]
    && it.attempt in db.attempts && it.attempt in db'.attempts && db'.attempts[it.attempt] == db.attempts[it.attempt]
    && it.intent in db.intents && it.intent in db'.intents && db'.intents[it.intent] == db.intents[it.intent]
  }

  lemma SameRowsStayFresh(db: Db, db': Db, it: RecoveryItem, now: int)
    requires FreshItem(db, it, now) && SameRows(db, db', it)
    ensures FreshItem(db', it, now)
  {
  }

  /** Items about different intents concern different jobs and attempts. */
  lemma ItemsAreApart(db: Db, a: RecoveryItem, b: RecoveryItem, now: int)
    requires Structure(db) && Joint(db) && FreshItem(db, a, now) && FreshItem(db, b, now) && a.intent != b.intent
    ensures a.job != b.job && a.attempt != b.attempt
  {
    assert Linked(db, a.intent) && Linked(db, b.intent);
    if a.job == b.job {
      CurrentIsUnique(db, a.intent, b.intent);
    }
    if a.attempt == b.attempt {
      SharedAttemptIsSameIntent(db, a.intent, b.intent);
    }
  }

  /** What is left after the begin step. */
  function BegunTables(db: Db, it: RecoveryItem, now: int): Db {
    if it.needsBegin then BeginTx(db, it, now) else db
  }

  /** In tables that agree, the begin step of a fresh item always succeeds. */
  lemma FreshItemBegins(db: Db, it: RecoveryItem, now: int)
    requires Joint(db) && FreshItem(db, it, now)
    ensures it.needsBegin ==> BeginOk(db, it, now)
    ensures var db' := BegunTables(db, it, now);
            && OnlyItem(db, db', it) && it.job in db'.jobs
            && db'.jobs[it.job].state == RecoveredState(it, false, false)
  {
    assert Linked(db, it.intent) && IntentAgrees(db, it.intent);
    BeginMeans(db, it, now);
  }

  /** And the confirmation is never refused. */
  lemma FreshItemConfirms(db: Db, it: RecoveryItem, now: int, gone: bool, cur: Option<AttemptId>,
                          pick: Option<ReservationId>)
    requires Joint(db) && FreshItem(db, it, now) && (gone || IsLate(it, now))
    requires CurrentRowOk(BegunTables(db, it, now), it.job, cur)
    ensures var retry := gone && !IsCancel(it) && it.number <= it.maxRetries;
            var db1 := BegunTables(db, it, now);
            var db2 := ConfirmTx(db1, it.job, retry, IsCancel(it), cur, pick, now);
            && ConfirmOk(db1, it.job, retry, IsCancel(it))
            && OnlyItem(db, db2, it) && it.job in db2.jobs
            && db2.jobs[it.job].state == RecoveredState(it, gone, IsLate(it, now))
  {
    FreshItemBegins(db, it, now);
    var retry := gone && !IsCancel(it) && it.number <= it.maxRetries;
    ConfirmMeans(BegunTables(db, it, now), it.job, retry, IsCancel(it), cur, pick, now);
  }

  predicate IntentsDiffer(items: seq<RecoveryItem>) {
    forall i, k :: 0 <= i < k < |items| ==> items[i].intent != items[k].intent
  }

  predicate AllFresh(db: Db, items: seq<RecoveryItem>, now: int) {
    forall k :: 0 <= k < |items| ==> FreshItem(db, items[k], now)
  }

  /** The first `n` items are dealt with, the others are as they were, and no other job was written. */
  predicate RecoveredUpTo(db0: Db, db: Db, items: seq<RecoveryItem>, n: nat, deleted: nat -> bool, hasDeleter: bool,
                          now: int)
    requires n <= |items|
  {
    && db.jobs.Keys == db0.jobs.Keys
    && (forall k :: 0 <= k < n ==>
          && items[k].job in db.jobs
          && db.jobs[items[k].job].state == RecoveredState(items[k], deleted(k) || !hasDeleter, IsLate(items[k], now)))
    && (forall k :: n <= k < |items| ==> SameRows(db0, db, items[k]))
    && (forall j :: j in db0.jobs && (forall k :: 0 <= k < |items| ==> items[k].job != j) ==> db.jobs[j] == db0.jobs[j])
  }

  lemma NoItemsYet(db: Db, items: seq<RecoveryItem>, deleted: nat -> bool, hasDeleter: bool, now: int)
    requires AllFresh(db, items, now)
    ensures RecoveredUpTo(db, db, items, 0, deleted, hasDeleter, now)
  {
    forall k | 0 <= k < |items| ensures SameRows(db, db, items[k]) {
      assert FreshItem(db, items[k], now);
    }
  }

  /** No two items share a job, an attempt or an intent. */
  predicate AllApart(items: seq<RecoveryItem>) {
    forall i, k :: 0 <= i < |items| && 0 <= k < |items| && i != k ==>
      items[i].job != items[k].job && items[i].attempt != items[k].attempt && items[i].intent != items[k].intent
  }

  lemma FreshItemsAreApart(db: Db, items: seq<RecoveryItem>, now: int)
    requires Structure(db) && Joint(db) && AllFresh(db, items, now) && IntentsDiffer(items)
    ensures AllApart(items)
  {
    forall i, k | 0 <= i < |items| && 0 <= k < |items| && i != k
      ensures items[i].job != items[k].job && items[i].attempt != items[k].attempt && items[i].intent != items[k].intent
    {
      assert items[i].intent != items[k].intent;
      ItemsAreApart(db, items[i], items[k], now);
    }
  }

  lemma OneMoreItem(db0: Db, db: Db, db': Db, items: seq<RecoveryItem>, n: nat, deleted: nat -> bool, hasDeleter: bool,
                    now: int)
    requires n < |items| && AllApart(items) && RecoveredUpTo(db0, db, items, n, deleted, hasDeleter, now)
    requires OnlyItem(db, db', items[n])
    requires items[n].job in db'.jobs
    requires db'.jobs[items[n].job].state ==
             RecoveredState(items[n], deleted(n) || !hasDeleter, IsLate(items[n], now))
    ensures RecoveredUpTo(db0, db', items, n + 1, deleted, hasDeleter, now)
  {
    forall k | n + 1 <= k < |items| ensures SameRows(db0, db', items[k]) {
      assert SameRows(db0, db, items[k]);
    }
  }

  // ---------------------------------------------------------------- admission

  /** The job has the attempt that the row asked for, with an intent that waits for a worker. */
  predicate IsAdmitted(db: Db, row: UnadmittedJob) {
    && row.job in db.jobs && db.jobs[row.job].state == Admitted && db.jobs[row.job].attempt == row.attempt + 1
    && exists a, i :: a in db.attempts && db.attempts[a] == Attempt(row.job, row.attempt + 1, Admitted, 0, None, None)
                      && i in db.intents && db.intents[i] == Intent(a, Pending, 0, None, None)
  }

  /** The rows are distinct queued jobs as the tables have them. */
  predicate AllQueuedNow(db: Db, rows: seq<UnadmittedJob>) {
    && (forall k :: 0 <= k < |rows| ==> QueuedRow(db, rows[k].job) && rows[k] == SnapshotJob(db, rows[k].job))
    && (forall i, k :: 0 <= i < k < |rows| ==> rows[i].job != rows[k].job)
  }

  /** The first `n` rows are admitted, and no other job was written. */
  predicate AdmittedUpTo(db0: Db, db: Db, rows: seq<UnadmittedJob>, n: nat)
    requires n <= |rows|
  {
    && db.jobs.Keys == db0.jobs.Keys
    && (forall k :: 0 <= k < n ==> IsAdmitted(db, rows[k]))
    && (forall j :: j in db0.jobs && (forall k :: 0 <= k < n ==> rows[k].job != j) ==> db.jobs[j] == db0.jobs[j])
  }

  /** A row that is still as it was when it was scanned can be admitted. */
  lemma QueuedRowIsAdmissible(db: Db, row: UnadmittedJob)
    requires AttemptsInRange(db) && QueuedRow(db, row.job) && row == SnapshotJob(db, row.job) &&
             row.attempt <= row.maxRetries
    ensures Admissible(db, row)
  {
    forall a | a in db.attempts ensures !(db.attempts[a].job == row.job && db.attempts[a].number == row.attempt + 1) {
    }
  }

  lemma AdmittedStays(db: Db, db': Db, s: UnadmittedJob, aid: AttemptId, iid: IntentId, now: int, row: UnadmittedJob)
    requires AdmissionLeaves(db, db', s, aid, iid, now) && aid !in db.attempts && iid !in db.intents
    requires IsAdmitted(db, row) && row.job != s.job
    ensures IsAdmitted(db', row)
  {
    var a, i :| a in db.attempts && db.attempts[a] == Attempt(row.job, row.attempt + 1, Admitted, 0, None, None)
                && i in db.intents && db.intents[i] == Intent(a, Pending, 0, None, None);
    assert a in db'.attempts && db'.attempts[a] == db.attempts[a];
    assert i in db'.intents && db'.intents[i] == db.intents[i];
  }

  lemma OneMoreRow(db0: Db, db: Db, db': Db, rows: seq<UnadmittedJob>, n: nat, aid: AttemptId, iid: IntentId, now: int)
    requires AllQueuedNow(db0, rows) && n < |rows| && AdmittedUpTo(db0, db, rows, n)
    requires AdmissionLeaves(db, db', rows[n], aid, iid, now) && aid !in db.attempts && iid !in db.intents
    ensures AdmittedUpTo(db0, db', rows, n + 1)
  {
    forall k | 0 <= k < n ensures IsAdmitted(db', rows[k]) {
      AdmittedStays(db, db', rows[n], aid, iid, now, rows[k]);
    }
    assert aid in db'.attempts;
    assert db'.attempts[aid] == Attempt(rows[n].job, rows[n].attempt + 1, Admitted, 0, None, None);
    assert iid in db'.intents && db'.intents[iid] == Intent(aid, Pending, 0, None, None);
  }

  // ---------------------------------------------------------------- a pass that nobody interrupts

  lemma ExpiredAreFresh(db: Db, now: int, rows: seq<IntentId>)
    requires IsExpiredList(db, now, rows)
    ensures AllFresh(db, AllExpired(db, rows, now), now) && IntentsDiffer(AllExpired(db, rows, now))
  {
  }

  /** The tables agree before every turn. */
  ghost predicate AgreesThroughout(s: System, turns: seq<seq<SysOp>>) {
    forall n :: 0 <= n <= |turns| ==> Joint(StateAt(s, turns, n).w.db) && AttemptsInRange(StateAt(s, turns, n).w.db)
  }

  lemma SystemAgrees(s: System, turns: seq<seq<SysOp>>)
    requires SystemOk(s)
    ensures AgreesThroughout(s, turns)
  {
    forall n | 0 <= n <= |turns|
      ensures Joint(StateAt(s, turns, n).w.db) && AttemptsInRange(StateAt(s, turns, n).w.db)
    {
      ExecKeepsSystem(s, Flat(turns[..n]));
    }
  }

  predicate Gone(s: System, deleted: bool) {
    deleted || !s.hasDeleter
  }

  /** The model after the steps of an item, one by one. */
  lemma ExecTwo(s: System, a: SysOp, b: SysOp)
    ensures Exec(s, [a, b]) == Step(Step(s, a), b)
  {
    ExecConcat(s, [a], [b]);
    ExecOne(s, a);
    ExecOne(Step(s, a), b);
    assert [a] + [b] == [a, b];
  }

  lemma ExecThree(s: System, a: SysOp, b: SysOp, c: SysOp)
    ensures Exec(s, [a, b, c]) == Step(Step(Step(s, a), b), c)
  {
    ExecConcat(s, [a, b], [c]);
    ExecTwo(s, a, b);
    ExecOne(Step(Step(s, a), b), c);
    assert [a, b] + [c] == [a, b, c];
  }

  /** Without others an item has one, two or three steps. */
  lemma QuietTurn(turn: seq<SysOp>, deleted: bool)
    requires IsItemTurn(turn, deleted, [], [], [])
    ensures turn == [BeginHead] || turn == [BeginHead, DeleteHead(deleted)]
            || (|turn| == 3 && turn == [BeginHead, DeleteHead(deleted), turn[2]] && turn[2].ConfirmHead?)
  {
    assert EnvOps([]) == [];
  }

  /** The item at the head is dealt with. */
  predicate ItemDone(s: System, w': World, deleted: bool)
    requires s.pc.Recovering? && s.pc.todo != []
  {
    var it := s.pc.todo[0];
    && w'.now == s.w.now && w'.items == s.w.items && OnlyItem(s.w.db, w'.db, it) && it.job in w'.db.jobs
    && w'.db.jobs[it.job].state == RecoveredState(it, Gone(s, deleted), IsLate(it, s.w.now))
  }

  predicate FreshHead(s: System) {
    && s.pc.Recovering? && s.pc.phase.Fresh? && s.pc.todo != []
    && FreshItem(s.w.db, s.pc.todo[0], s.w.now) && s.pc.todo[0] in s.w.items
  }

  /** Where the scheduler is after the deletion of the head's workload was asked for. */
  function DeletedPc(s: System, deleted: bool): Pc
    requires s.pc.Recovering? && s.pc.todo != []
  {
    var it := s.pc.todo[0];
    if Gone(s, deleted) then Recovering(s.pc.todo, Confirming(!IsCancel(it) && it.number <= it.maxRetries))
    else if IsLate(it, s.w.now) then Recovering(s.pc.todo, Confirming(false))
    else NextItem(s.pc.todo)
  }

  function BegunWorld(s: System): World
    requires s.pc.Recovering? && s.pc.todo != []
  {
    s.w.(db := BegunTables(s.w.db, s.pc.todo[0], s.w.now))
  }

  lemma QuietBegin(s: System)
    requires FreshHead(s) && Joint(s.w.db)
    ensures Step(s, BeginHead) == s.(w := BegunWorld(s), pc := Recovering(s.pc.todo, Begun))
  {
    FreshItemBegins(s.w.db, s.pc.todo[0], s.w.now);
  }

  lemma QuietDelete(s: System, s1: System, deleted: bool)
    requires s.pc.Recovering? && s.pc.todo != [] && s1 == s.(w := BegunWorld(s), pc := Recovering(s.pc.todo, Begun))
    ensures Step(s1, DeleteHead(deleted)).w == BegunWorld(s) &&
            Step(s1, DeleteHead(deleted)).pc == DeletedPc(s, deleted)
  {
  }

  lemma QuietConfirm(s: System, s2: System, op: SysOp, deleted: bool)
    requires FreshHead(s) && Joint(s.w.db) && op.ConfirmHead? && Enabled(s2, op)
    requires s2.w == BegunWorld(s) && s2.pc == DeletedPc(s, deleted) && s2.pc.Recovering? && s2.pc.phase.Confirming?
    ensures ItemDone(s, Step(s2, op).w, deleted)
  {
    var it := s.pc.todo[0];
    FreshItemConfirms(s.w.db, it, s.w.now, Gone(s, deleted), op.current, op.pick);
  }

  lemma QuietItem(s: System, turn: seq<SysOp>, deleted: bool)
    requires ItemTurnAt(s, turn, deleted, [], [], []) && FreshHead(s) && Joint(s.w.db)
    ensures ItemDone(s, Exec(s, turn).w, deleted)
  {
    QuietTurn(turn, deleted);
    QuietBegin(s);
    var s1 := Step(s, BeginHead);
    QuietDelete(s, s1, deleted);
    var s2 := Step(s1, DeleteHead(deleted));
    if |turn| == 1 {
      ExecOne(s, BeginHead);
    } else if |turn| == 2 {
      ExecTwo(s, BeginHead, DeleteHead(deleted));
      FreshItemBegins(s.w.db, s.pc.todo[0], s.w.now);
    } else {
      ExecThree(s, BeginHead, DeleteHead(deleted), turn[2]);
      if Enabled(s2, turn[2]) && s2.pc.phase.Confirming? {
        QuietConfirm(s, s2, turn[2], deleted);
      } else {
        FreshItemBegins(s.w.db, s.pc.todo[0], s.w.now);
      }
    }
  }

  lemma {:induction false} ExecKeepsDeleter(s: System, ops: seq<SysOp>)
    ensures Exec(s, ops).hasDeleter == s.hasDeleter && Exec(s, ops).cap == s.cap
    decreases |ops|
  {
    if ops != [] {
      ExecKeepsDeleter(Step(s, ops[0]), ops[1..]);
    }
  }

  /** `s1` is before turn `n` of a recovery that started in `s`. */
  predicate RecoveringAt(s: System, s1: System, items: seq<RecoveryItem>, deleted: nat -> bool, n: nat)
    requires n <= |items|
  {
    && s1.w.now == s.w.now && s1.w.items == s.w.items && s1.hasDeleter == s.hasDeleter
    && s1.pc == (if n == |items| then Idle else Recovering(items[n..], Fresh))
    && RecoveredUpTo(s.w.db, s1.w.db, items, n, deleted, s.hasDeleter, s.w.now)
  }

  lemma RecoveryStep(s: System, s1: System, items: seq<RecoveryItem>, turn: seq<SysOp>, deleted: nat -> bool, n: nat)
    requires n < |items| && RecoveringAt(s, s1, items, deleted, n) && Joint(s1.w.db) && AllApart(items)
    requires FreshItem(s.w.db, items[n], s.w.now) && items[n] in s.w.items
    requires ItemTurnAt(s1, turn, deleted(n), [], [], [])
    ensures RecoveringAt(s, Exec(s1, turn), items, deleted, n + 1)
  {
    var (it, s2) := (items[n], Exec(s1, turn));
    assert SameRows(s.w.db, s1.w.db, it);
    SameRowsStayFresh(s.w.db, s1.w.db, it, s.w.now);
    assert s1.pc.todo[0] == it;
    QuietItem(s1, turn, deleted(n));
    ExecKeepsDeleter(s1, turn);
    assert s2.pc == (if n + 1 == |items| then Idle else Recovering(items[n + 1..], Fresh)) by {
      assert s1.pc.todo[1..] == items[n..][1..] == items[n + 1..];
    }
    assert OnlyItem(s1.w.db, s2.w.db, it) && it.job in s2.w.db.jobs;
    OneMoreItem(s.w.db, s1.w.db, s2.w.db, items, n, deleted, s.hasDeleter, s.w.now);
  }

  lemma {:induction false} QuietRecovery(s: System, items: seq<RecoveryItem>, turns: seq<seq<SysOp>>,
                                         deleted: nat -> bool, others: nat -> seq<Op>, n: nat)
    requires s.pc == (if items == [] then Idle else Recovering(items, Fresh)) && n <= |items| == |turns|
    requires IsRecovery(s, turns, deleted, others) && AgreesThroughout(s, turns) && (forall k :: others(k) == [])
    requires AllApart(items) && AllFresh(s.w.db, items, s.w.now)
    requires forall k :: 0 <= k < |items| ==> items[k] in s.w.items
    ensures RecoveringAt(s, StateAt(s, turns, n), items, deleted, n)
    decreases n
  {
    if n == 0 {
      assert StateAt(s, turns, 0) == s;
      NoItemsYet(s.w.db, items, deleted, s.hasDeleter, s.w.now);
    } else {
      QuietRecovery(s, items, turns, deleted, others, n - 1);
      NextTurn(s, turns, n - 1);
      assert Joint(StateAt(s, turns, n - 1).w.db);
      assert RecoveryTurn(StateAt(s, turns, n - 1), turns[n - 1], n - 1, deleted, others);
      RecoveryStep(s, StateAt(s, turns, n - 1), items, turns[n - 1], deleted, n - 1);
    }
  }

  lemma {:induction false} QuietRequeue(s: System, rows: seq<JobId>, turns: seq<seq<SysOp>>, base: nat, at: int,
                                        others: nat -> seq<Op>, n: nat)
    requires s.pc.Idle? && n <= |rows| == |turns| && IsRequeue(turns, s.w.db.jobs, rows, base, at, others)
    requires (forall k :: others(k) == []) && Queries.NoRepeats(rows) && forall j :: j in rows ==> j in s.w.db.jobs
    ensures var s1 := StateAt(s, turns, n);
            s1.pc.Idle? && s1.w.now == s.w.now && RequeuedUpTo(s.w.db.jobs, s1.w.db.jobs, rows, n, base, at)
    decreases n
  {
    if n == 0 {
      assert StateAt(s, turns, 0) == s;
    } else {
      QuietRequeue(s, rows, turns, base, at, others, n - 1);
      NextTurn(s, turns, n - 1);
      var s1, job := StateAt(s, turns, n - 1), rows[n - 1];
      assert job in rows && others(n - 1) == [];
      RequeueStep(s1, turns[n - 1], job, at, RetryIsDue(s.w.db.jobs, base, job, at));
      OneMoreRequeue(s.w.db.jobs, s1.w.db.jobs, Exec(s1, turns[n - 1]).w.db.jobs, rows, n - 1, base, at);
    }
  }

  lemma RequeueStep(s: System, turn: seq<SysOp>, job: JobId, at: int, due: bool)
    requires s.pc.Idle? && turn == EnvOps([]) + (if due then [RequeueOne(job, at)] else [])
    requires job in s.w.db.jobs && (due ==> s.w.db.jobs[job].state == RetryWait)
    ensures var s' := Exec(s, turn);
            && s'.pc.Idle? && s'.w.now == s.w.now
            && s'.w.db.jobs == if due then s.w.db.jobs[job := s.w.db.jobs[job].(state := Queued, updatedAt := at)]
                               else s.w.db.jobs
  {
    if due {
      assert turn == [RequeueOne(job, at)];
      ExecOne(s, RequeueOne(job, at));
    } else {
      assert turn == [];
    }
  }

  /** `s1` is before turn `n` of an admission loop that started in `s`. */
  predicate AdmittingAt(s: System, s1: System, rows: seq<UnadmittedJob>, n: nat)
    requires n <= |rows|
  {
    && s1.w.scans == s.w.scans && |s1.w.db.attempts| == |s.w.db.attempts| + n
    && s1.pc == (if n == |rows| then Idle else Admitting(rows[n..]))
    && AdmittedUpTo(s.w.db, s1.w.db, rows, n)
  }

  /** One admission by the model, for a row that can be admitted. */
  lemma HeadIsAdmitted(s: System, head: SysOp)
    requires s.pc.Admitting? && s.pc.rows != [] && head.AdmitHead? && s.pc.rows[0] in s.w.scans
    requires head.aid !in s.w.db.attempts && head.iid !in s.w.db.intents && head.rid !in s.w.db.reservations
    requires Admissible(s.w.db, s.pc.rows[0])
    ensures var s' := Step(s, head);
            && s'.w.scans == s.w.scans && s'.pc == (if |s.pc.rows| == 1 then Idle else Admitting(s.pc.rows[1..]))
            && AdmissionLeaves(s.w.db, s'.w.db, s.pc.rows[0], head.aid, head.iid, s.w.now)
            && |s'.w.db.attempts| == |s.w.db.attempts| + 1
  {
    AdmissionMeans(s.w.db, s.pc.rows[0], head.aid, head.iid, head.rid, s.w.now);
  }

  lemma AdmissionStep(s: System, s1: System, rows: seq<UnadmittedJob>, turn: seq<SysOp>, n: nat)
    requires n < |rows| && AdmittingAt(s, s1, rows, n) && AttemptsInRange(s1.w.db) && AllQueuedNow(s.w.db, rows)
    requires rows[n] in s.w.scans && rows[n].attempt <= rows[n].maxRetries && AdmitTurnAt(s1, turn, [])
    ensures AdmittingAt(s, Exec(s1, turn), rows, n + 1)
  {
    assert EnvOps([]) == [] && turn == [turn[0]];
    var head, row := turn[0], rows[n];
    ExecOne(s1, head);
    assert QueuedRow(s1.w.db, row.job) && row == SnapshotJob(s1.w.db, row.job) by {
      assert QueuedRow(s.w.db, row.job) && s1.w.db.jobs[row.job] == s.w.db.jobs[row.job];
    }
    QueuedRowIsAdmissible(s1.w.db, row);
    assert s1.pc.rows[0] == row && s1.pc.rows[1..] == rows[n + 1..];
    HeadIsAdmitted(s1, head);
    OneMoreRow(s.w.db, s1.w.db, Step(s1, head).w.db, rows, n, head.aid, head.iid, s1.w.now);
  }

  lemma {:induction false} QuietAdmission(s: System, rows: seq<UnadmittedJob>, turns: seq<seq<SysOp>>,
                                          others: nat -> seq<Op>, n: nat)
    requires s.pc == (if rows == [] then Idle else Admitting(rows)) && n <= |rows| == |turns|
    requires IsAdmission(s, turns, others) && AgreesThroughout(s, turns) && (forall k :: others(k) == [])
    requires AllQueuedNow(s.w.db, rows)
    requires forall k :: 0 <= k < |rows| ==> rows[k] in s.w.scans && rows[k].attempt <= rows[k].maxRetries
    ensures AdmittingAt(s, StateAt(s, turns, n), rows, n)
    decreases n
  {
    if n == 0 {
      assert StateAt(s, turns, 0) == s;
    } else {
      QuietAdmission(s, rows, turns, others, n - 1);
      NextTurn(s, turns, n - 1);
      assert AttemptsInRange(StateAt(s, turns, n - 1).w.db);
      assert AdmitTurnAt(StateAt(s, turns, n - 1), turns[n - 1], []);
      AdmissionStep(s, StateAt(s, turns, n - 1), rows, turns[n - 1], n - 1);
    }
  }

  // ---------------------------------------------------------------- the whole pass

  /** What the three queries of a pass returned, and the turns of its three loops. */
  datatype Pass = Pass(
    lost: seq<IntentId>,
    recovery: seq<seq<SysOp>>,
    waiting: seq<JobId>,
    requeue: seq<seq<SysOp>>,
    rank: map<JobId, nat>,
    scan: seq<JobId>,
    admission: seq<seq<SysOp>>)

  function Found(s: System, p: Pass): System {
    Step(s, StartRecovery(p.lost))
  }

  function Recovered(s: System, p: Pass): System {
    Exec(Found(s, p), Flat(p.recovery))
  }

  function Requeued(s: System, p: Pass): System {
    Exec(Recovered(s, p), Flat(p.requeue))
  }

  function Scanned(s: System, p: Pass): System {
    Step(Requeued(s, p), StartAdmission(SCAN_LIMIT, p.rank, p.scan))
  }

  function PassSteps(p: Pass): seq<SysOp> {
    [StartRecovery(p.lost)] + Flat(p.recovery) + Flat(p.requeue) + [StartAdmission(SCAN_LIMIT, p.rank, p.scan)]
    + Flat(p.admission)
  }

  /**
   A pass: a turn for every intent that needs recovery, then one for each of the 50 jobs that have waited longest,
   then one for each job of a fair scan of at most 50 over what the tables are by then.
   */
  ghost predicate IsPass(s: System, p: Pass, deleted: nat -> bool, duringRecovery: nat -> seq<Op>,
                         duringRequeue: nat -> seq<Op>, duringAdmission: nat -> seq<Op>) {
    && IsExpiredList(s.w.db, s.w.now, p.lost) && |p.recovery| == |p.lost|
    && IsRecovery(Found(s, p), p.recovery, deleted, duringRecovery)
    && Recovered(s, p).pc.Idle? && FirstWaiting(Recovered(s, p).w.db.jobs, p.waiting, 50)
    && IsRequeue(p.requeue, Recovered(s, p).w.db.jobs, p.waiting, 5, Recovered(s, p).w.now, duringRequeue)
    && Requeued(s, p).pc.Idle? && |p.admission| == |p.scan|
    && IsScan(Requeued(s, p).w.db, Requeued(s, p).cap, 50, p.rank, p.scan)
    && IsAdmission(Scanned(s, p), p.admission, duringAdmission)
  }

  lemma PassStepsLead(s: System, p: Pass)
    ensures Exec(s, PassSteps(p)) == Exec(Scanned(s, p), Flat(p.admission))
  {
    var a, d := [StartRecovery(p.lost)], [StartAdmission(SCAN_LIMIT, p.rank, p.scan)];
    ExecConcat(s, a, Flat(p.recovery));
    ExecOne(s, a[0]);
    ExecConcat(s, a + Flat(p.recovery), Flat(p.requeue));
    ExecConcat(s, a + Flat(p.recovery) + Flat(p.requeue), d);
    ExecOne(Requeued(s, p), d[0]);
    ExecConcat(s, a + Flat(p.recovery) + Flat(p.requeue) + d, Flat(p.admission));
  }

  /** The intent has its attempt, and that its job. */
  predicate HasRows(db: Db, i: IntentId) {
    && i in db.intents && db.intents[i].attempt in db.attempts && db.attempts[db.intents[i].attempt].job in db.jobs
  }

  function LostJob(db: Db, i: IntentId): JobId
    requires HasRows(db, i)
  {
    db.attempts[db.intents[i].attempt].job
  }

  /**
   Where recovery takes the job of an intent, told from the tables: CANCELLED if that was requested, a retry if the
   workload is gone and the budget lasts, FAILED if the budget is spent or the deletion has been waited for for 300 s.
   Otherwise the job waits, a running one set aside.
   */
  function RecoveredFrom(db: Db, i: IntentId, gone: bool, now: int): JobState
    requires HasRows(db, i)
  {
    var j := db.jobs[LostJob(db, i)];
    var late := now - j.updatedAt >= 300;
    if j.state == CancelRequested then (if gone || late then Cancelled else CancelRequested)
    else if gone then (if j.attempt <= j.maxRetries then RetryWait else Failed)
    else if late then Failed
    else if j.state == Running && db.intents[i].status == Claimed then RecoveryPending
    else j.state
  }

  lemma FreshItemTellsRows(db: Db, it: RecoveryItem, gone: bool, now: int)
    requires FreshItem(db, it, now)
    ensures HasRows(db, it.intent) && it.job == LostJob(db, it.intent)
    ensures RecoveredState(it, gone, IsLate(it, now)) == RecoveredFrom(db, it.intent, gone, now)
  {
  }

  /** The jobs of all intents that needed recovery are where recovery takes them, and no other job was written. */
  ghost predicate RecoveryDone(db: Db, db': Db, lost: seq<IntentId>, deleted: nat -> bool, hasDeleter: bool, now: int) {
    && IsExpiredList(db, now, lost) && db'.jobs.Keys == db.jobs.Keys
    && (forall k :: 0 <= k < |lost| ==> HasRows(db, lost[k]))
    && (forall k :: 0 <= k < |lost| ==>
          db'.jobs[LostJob(db, lost[k])].state == RecoveredFrom(db, lost[k], deleted(k) || !hasDeleter, now))
    && (forall j :: j in db.jobs && (forall k :: 0 <= k < |lost| ==> LostJob(db, lost[k]) != j) ==>
         db'.jobs[j] == db.jobs[j])
  }

  lemma ItemsTellRows(db: Db, db': Db, lost: seq<IntentId>, deleted: nat -> bool, hasDeleter: bool, now: int)
    requires IsExpiredList(db, now, lost)
    requires RecoveredUpTo(db, db', AllExpired(db, lost, now), |lost|, deleted, hasDeleter, now)
    ensures RecoveryDone(db, db', lost, deleted, hasDeleter, now)
  {
    var items := AllExpired(db, lost, now);
    ExpiredAreFresh(db, now, lost);
    forall k | 0 <= k < |lost|
      ensures HasRows(db, lost[k]) && items[k].job == LostJob(db, lost[k])
      ensures RecoveredState(items[k], deleted(k) || !hasDeleter, IsLate(items[k], now))
              == RecoveredFrom(db, lost[k], deleted(k) || !hasDeleter, now)
    {
      assert FreshItem(db, items[k], now);
      FreshItemTellsRows(db, items[k], deleted(k) || !hasDeleter, now);
    }
  }

  /** The jobs that had waited longest are QUEUED if their delay has elapsed, and no other job was written. */
  predicate RequeueDone(db: Db, db': Db, waiting: seq<JobId>, at: int) {
    FirstWaiting(db.jobs, waiting, RETRY_LIMIT) && RequeuedUpTo(db.jobs, db'.jobs, waiting, |waiting|, 5, at)
  }

  /** The job is ADMITTED with its next attempt, for which an intent waits for a worker. */
  predicate HasNextAttempt(db: Db, db': Db, job: JobId) {
    && job in db.jobs && job in db'.jobs && db'.jobs[job].state == Admitted
    && db'.jobs[job].attempt == db.jobs[job].attempt + 1
    && exists a, i :: a in db'.attempts && i in db'.intents && db'.intents[i] == Intent(a, Pending, 0, None, None)
                      && db'.attempts[a] == Attempt(job, db.jobs[job].attempt + 1, Admitted, 0, None, None)
  }

  /** The scanned jobs have their next attempt, and no other job was written. */
  predicate AdmissionDone(db: Db, db': Db, scan: seq<JobId>) {
    && db'.jobs.Keys == db.jobs.Keys
    && (forall k :: 0 <= k < |scan| ==> HasNextAttempt(db, db', scan[k]))
    && (forall j :: j in db.jobs && j !in scan ==> db'.jobs[j] == db.jobs[j])
  }

  lemma RowsTellJobs(db: Db, db': Db, scan: seq<JobId>)
    requires forall k :: 0 <= k < |scan| ==> scan[k] in db.jobs
    requires AdmittedUpTo(db, db', AllQueued(db, scan), |scan|)
    ensures AdmissionDone(db, db', scan)
  {
    var rows := AllQueued(db, scan);
    forall k | 0 <= k < |scan| ensures HasNextAttempt(db, db', scan[k]) {
      assert IsAdmitted(db', rows[k]);
      var a, i :| a in db'.attempts
                  && db'.attempts[a] == Attempt(rows[k].job, rows[k].attempt + 1, Admitted, 0, None, None)
                  && i in db'.intents && db'.intents[i] == Intent(a, Pending, 0, None, None);
      assert rows[k].job == scan[k] && rows[k].attempt == db.jobs[scan[k]].attempt;
    }
    forall j | j in db.jobs && j !in scan ensures db'.jobs[j] == db.jobs[j] {
      assert forall k :: 0 <= k < |rows| ==> rows[k].job != j;
    }
  }

  lemma WholeLoop(s: System, turns: seq<seq<SysOp>>)
    ensures StateAt(s, turns, |turns|) == Exec(s, Flat(turns))
  {
    assert turns[..|turns|] == turns;
  }

  /** The query hands the scheduler its items and changes no table. */
  lemma RecoveryStarts(s: System, lost: seq<IntentId>)
    requires s.pc.Idle? && IsExpiredList(s.w.db, s.w.now, lost)
    ensures var s1, items := Step(s, StartRecovery(lost)), AllExpired(s.w.db, lost, s.w.now);
            && s1.w.db == s.w.db && s1.w.now == s.w.now && s1.hasDeleter == s.hasDeleter
            && s1.pc == (if items == [] then Idle else Recovering(items, Fresh))
            && forall k :: 0 <= k < |items| ==> items[k] in s1.w.items
  {
    var items := AllExpired(s.w.db, lost, s.w.now);
    forall k | 0 <= k < |items| ensures items[k] in ExpiredRows(s.w.db, lost, s.w.now) {
      assert lost[k] in lost;
    }
  }

  lemma ItemsAgree(s: System, lost: seq<IntentId>, turns: seq<seq<SysOp>>)
    requires SystemOk(s) && IsExpiredList(s.w.db, s.w.now, lost)
    ensures var items := AllExpired(s.w.db, lost, s.w.now);
            AllFresh(s.w.db, items, s.w.now) && AllApart(items)
    ensures AgreesThroughout(Step(s, StartRecovery(lost)), turns)
  {
    ExpiredAreFresh(s.w.db, s.w.now, lost);
    FreshItemsAreApart(s.w.db, AllExpired(s.w.db, lost, s.w.now), s.w.now);
    StepKeepsSystem(s, StartRecovery(lost));
    SystemAgrees(Step(s, StartRecovery(lost)), turns);
  }

  lemma PassRecovers(s: System, p: Pass, deleted: nat -> bool, others: nat -> seq<Op>)
    requires s.pc.Idle? && IsExpiredList(s.w.db, s.w.now, p.lost) && |p.recovery| == |p.lost|
    requires var items := AllExpired(s.w.db, p.lost, s.w.now);
             AllFresh(s.w.db, items, s.w.now) && AllApart(items) && AgreesThroughout(Found(s, p), p.recovery)
    requires IsRecovery(Found(s, p), p.recovery, deleted, others) && forall n :: others(n) == []
    ensures RecoveryDone(s.w.db, Recovered(s, p).w.db, p.lost, deleted, s.hasDeleter, s.w.now)
    ensures Recovered(s, p).w.now == s.w.now
  {
    RecoveryStarts(s, p.lost);
    QuietRecovery(Found(s, p), AllExpired(s.w.db, p.lost, s.w.now), p.recovery, deleted, others, |p.lost|);
    WholeLoop(Found(s, p), p.recovery);
    ItemsTellRows(s.w.db, Recovered(s, p).w.db, p.lost, deleted, s.hasDeleter, s.w.now);
  }

  lemma PassRequeues(s: System, p: Pass, others: nat -> seq<Op>)
    requires var s1 := Recovered(s, p);
             && s1.pc.Idle? && FirstWaiting(s1.w.db.jobs, p.waiting, RETRY_LIMIT) && (forall n :: others(n) == [])
             && IsRequeue(p.requeue, s1.w.db.jobs, p.waiting, 5, s1.w.now, others)
    ensures RequeueDone(Recovered(s, p).w.db, Requeued(s, p).w.db, p.waiting, Recovered(s, p).w.now)
  {
    QuietRequeue(Recovered(s, p), p.waiting, p.requeue, 5, Recovered(s, p).w.now, others, |p.waiting|);
    WholeLoop(Recovered(s, p), p.requeue);
  }

  /** The rows of a scan are queued jobs with budget, and the scheduler knows them. */
  lemma ScanIsAdmissible(s: System, rank: map<JobId, nat>, scan: seq<JobId>)
    requires BudgetKept(s) && s.pc.Idle? && IsScan(s.w.db, s.cap, SCAN_LIMIT, rank, scan)
    ensures forall k :: 0 <= k < |scan| ==> scan[k] in s.w.db.jobs
    ensures var s1, rows := Step(s, StartAdmission(SCAN_LIMIT, rank, scan)), AllQueued(s.w.db, scan);
            && s1.w.db == s.w.db && s1.pc == (if rows == [] then Idle else Admitting(rows))
            && AllQueuedNow(s.w.db, rows)
            && forall k :: 0 <= k < |rows| ==> rows[k] in s1.w.scans && rows[k].attempt <= rows[k].maxRetries
  {
    ScannedAreQueued(s.w.db, s.cap, SCAN_LIMIT, rank, scan);
    forall k | 0 <= k < |scan| ensures SnapshotJob(s.w.db, scan[k]) in ScanRows(s.w.db, scan) {
      assert scan[k] in scan;
    }
  }

  lemma PassAdmits(s: System, p: Pass, others: nat -> seq<Op>)
    requires SystemOk(Requeued(s, p)) && BudgetKept(Requeued(s, p)) && Requeued(s, p).pc.Idle?
    requires IsScan(Requeued(s, p).w.db, Requeued(s, p).cap, SCAN_LIMIT, p.rank, p.scan) && |p.admission| == |p.scan|
    requires IsAdmission(Scanned(s, p), p.admission, others) && forall n :: others(n) == []
    ensures var s2, s3 := Requeued(s, p), Exec(Scanned(s, p), Flat(p.admission));
            AdmissionDone(s2.w.db, s3.w.db, p.scan) && |s3.w.db.attempts| == |s2.w.db.attempts| + |p.scan|
  {
    var s2 := Requeued(s, p);
    ScanIsAdmissible(s2, p.rank, p.scan);
    StepKeepsSystem(s2, StartAdmission(SCAN_LIMIT, p.rank, p.scan));
    SystemAgrees(Scanned(s, p), p.admission);
    QuietAdmission(Scanned(s, p), AllQueued(s2.w.db, p.scan), p.admission, others, |p.scan|);
    WholeLoop(Scanned(s, p), p.admission);
    RowsTellJobs(s2.w.db, Exec(Scanned(s, p), Flat(p.admission)).w.db, p.scan);
  }

  lemma RequeuedKeeps(s: System, p: Pass)
    requires SystemOk(s) && BudgetKept(s)
    ensures SystemOk(Requeued(s, p)) && BudgetKept(Requeued(s, p))
  {
    var a := [StartRecovery(p.lost)];
    ExecConcat(s, a, Flat(p.recovery));
    ExecOne(s, a[0]);
    ExecConcat(s, a + Flat(p.recovery), Flat(p.requeue));
    ExecKeepsSystem(s, a + Flat(p.recovery) + Flat(p.requeue));
    ExecKeepsBudget(s, a + Flat(p.recovery) + Flat(p.requeue));
  }

  /**
   What a pass achieves if nobody interferes: every lost attempt is recovered, every due job among those that waited
   longest is requeued, and every job of the fair scan over the result is admitted with its next attempt.
   */
  ghost predicate PassDone(s: System, p: Pass, deleted: nat -> bool) {
    var s1, s2, s3 := Recovered(s, p), Requeued(s, p), Exec(s, PassSteps(p));
    && RecoveryDone(s.w.db, s1.w.db, p.lost, deleted, s.hasDeleter, s.w.now)
    && RequeueDone(s1.w.db, s2.w.db, p.waiting, s.w.now)
    && IsScan(s2.w.db, s2.cap, SCAN_LIMIT, p.rank, p.scan) && AdmissionDone(s2.w.db, s3.w.db, p.scan)
    && |s3.w.db.attempts| == |s2.w.db.attempts| + |p.scan|
  }

  /** Nobody else acts. */
  ghost predicate Quiet(duringRecovery: nat -> seq<Op>, duringRequeue: nat -> seq<Op>,
                        duringAdmission: nat -> seq<Op>) {
    forall n :: duringRecovery(n) == duringRequeue(n) == duringAdmission(n) == []
  }

  /** In every reachable state a pass that nobody interrupts achieves all it is for. */
  lemma PassCompletes(s: System, p: Pass, deleted: nat -> bool, duringRecovery: nat -> seq<Op>,
                      duringRequeue: nat -> seq<Op>, duringAdmission: nat -> seq<Op>)
    requires SystemOk(s) && BudgetKept(s) && s.pc.Idle? && Quiet(duringRecovery, duringRequeue, duringAdmission)
    requires IsPass(s, p, deleted, duringRecovery, duringRequeue, duringAdmission)
    ensures PassDone(s, p, deleted)
  {
    ItemsAgree(s, p.lost, p.recovery);
    PassRecovers(s, p, deleted, duringRecovery);
    PassRequeues(s, p, duringRequeue);
    RequeuedKeeps(s, p);
    PassAdmits(s, p, duringAdmission);
    PassStepsLead(s, p);
  }
}
