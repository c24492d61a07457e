/**
 The concurrency cap: with one scheduler a workspace never has more live attempts than the
 configured maximum, although jobs are admitted one at a time from a scan that may be stale.
 */
module ConcurrencyCap {
  import opened Counting
  import opened JobTables
  import opened JobProtocol
  import opened AttemptNumbering
  import opened QuotaReservations
  import opened FairScan
  import opened SchedulerModel
  import opened JointInvariant

  /** The workspace's intents in PENDING or CLAIMED. */
  function LiveIn(db: Db, ws: WorkspaceId): set<IntentId> {
    set i | i in db.intents && Linked(db, i) && db.intents[i].Live() && db.jobs[JobOf(db, i)].workspace == ws
  }

  predicate RowInHand(rows: seq<UnadmittedJob>, ws: WorkspaceId, job: JobId) {
    exists k :: 0 <= k < |rows| && rows[k].workspace == ws && rows[k].job == job
  }

  /** The workspace's jobs that the scheduler has scanned and not yet tried to admit. */
  function InHand(s: System, ws: WorkspaceId): set<JobId> {
    if s.pc.Admitting?
    then set j | j in s.w.db.jobs && RowInHand(s.pc.rows, ws, j)
    else {}
  }

  predicate RowsDistinct(s: System) {
    s.pc.Admitting? ==> forall p, q :: 0 <= p < q < |s.pc.rows| ==> s.pc.rows[p].job != s.pc.rows[q].job
  }

  /** Live attempts and rows still to be admitted fit under the cap together. */
  ghost predicate FitsCap(s: System) {
    && RowsDistinct(s)
    && forall ws :: |LiveIn(s.w.db, ws)| + |InHand(s, ws)| <= s.cap
  }

  function JobsOf(db: Db, live: set<IntentId>): set<JobId>
    requires forall i :: i in live ==> Linked(db, i)
  {
    set i | i in live :: JobOf(db, i)
  }

  /** Live intents belong to different jobs, so there are no more of them than jobs. */
  lemma {:induction false} LiveIntentsHaveDistinctJobs(db: Db, live: set<IntentId>)
    requires Structure(db) && Joint(db)
    requires forall i :: i in live ==> i in db.intents && Linked(db, i) && db.intents[i].Live()
    ensures |live| == |JobsOf(db, live)|
    decreases live
  {
    if live != {} {
      var i :| i in live;
      var rest := live - {i};
      LiveIntentsHaveDistinctJobs(db, rest);
      forall k | k in rest ensures JobOf(db, k) != JobOf(db, i) {
        assert IntentAgrees(db, k) && IntentAgrees(db, i);
        if JobOf(db, k) == JobOf(db, i) {
          CurrentIsUnique(db, i, k);
        }
      }
      assert JobsOf(db, live) == JobsOf(db, rest) + {JobOf(db, i)};
    }
  }

  /** Every live attempt's job occupies a slot. */
  lemma LiveAtMostOccupying(db: Db, ws: WorkspaceId)
    requires Structure(db) && Joint(db)
    ensures |LiveIn(db, ws)| <= |Occupying(db, ws)|
  {
    var live := LiveIn(db, ws);
    LiveIntentsHaveDistinctJobs(db, live);
    forall j | j in JobsOf(db, live) ensures j in Occupying(db, ws) {
      var i :| i in live && JobOf(db, i) == j;
      assert IntentAgrees(db, i);
    }
    SubsetIsNoLarger(JobsOf(db, live), Occupying(db, ws));
  }

  /** Only admission creates a live intent, and it creates one. */
  lemma LiveGrowsByAdmission(w: World, op: Op, ws: WorkspaceId)
    requires WorldOk(w)
    ensures !op.Admit? ==> LiveIn(Apply(w, op).db, ws) <= LiveIn(w.db, ws)
    ensures op.Admit? ==>
            LiveIn(Apply(w, op).db, ws) <= LiveIn(w.db, ws) + (if op.row.workspace == ws then {op.iid} else {})
  {
    var db, db' := w.db, Apply(w, op).db;
    forall i | i in LiveIn(db', ws) && i in db.intents ensures i in LiveIn(db, ws) {
      StepGrows(w, op);
      assert IntentsOfAttempts(db) && AttemptsInRange(db);
      LiveWasLive(w, op, i);
    }
    forall i | i in LiveIn(db', ws) && i !in db.intents ensures op.Admit? && i == op.iid && op.row.workspace == ws {
      NewIntentIsAdmitted(w, op, i);
    }
  }

  lemma LiveWasLive(w: World, op: Op, i: IntentId)
    requires i in w.db.intents && i in Apply(w, op).db.intents && Apply(w, op).db.intents[i].Live()
    ensures w.db.intents[i].Live()
  {
  }

  lemma NewIntentIsAdmitted(w: World, op: Op, i: IntentId)
    requires WorldOk(w) && i !in w.db.intents && Linked(Apply(w, op).db, i)
    ensures op.Admit? && i == op.iid
    ensures Apply(w, op).db.jobs[JobOf(Apply(w, op).db, i)].workspace == op.row.workspace
  {
    if op.Admit? && op.row in w.scans {
      assert ScanOk(w.db, op.row);
    }
  }

  lemma HandIsWhatWasScanned(s: System, op: SysOp, ws: WorkspaceId)
    requires op.StartAdmission? && Enabled(s, op)
    ensures InHand(Step(s, op), ws) <= RowsOf(s.w.db, op.jobs, ws)
  {
    ScannedAreQueued(s.w.db, s.cap, op.limit, op.rank, op.jobs);
    var s' := Step(s, op);
    forall j | j in InHand(s', ws) ensures j in RowsOf(s.w.db, op.jobs, ws) {
      var k :| 0 <= k < |s'.pc.rows| && s'.pc.rows[k].workspace == ws && s'.pc.rows[k].job == j;
      assert s'.pc.rows[k] == SnapshotJob(s.w.db, op.jobs[k]);
    }
  }

  lemma ScanKeepsFit(s: System, op: SysOp, ws: WorkspaceId)
    requires SystemOk(s) && FitsCap(s) && op.StartAdmission? && Enabled(s, op)
    ensures |LiveIn(Step(s, op).w.db, ws)| + |InHand(Step(s, op), ws)| <= s.cap
  {
    assert Step(s, op).w.db == s.w.db;
    ScanFitsUnderCap(s.w.db, s.cap, op.limit, op.rank, op.jobs, ws);
    LiveAtMostOccupying(s.w.db, ws);
    HandIsWhatWasScanned(s, op, ws);
    HandFits(s, InHand(Step(s, op), ws), RowsOf(s.w.db, op.jobs, ws), ws);
  }

  lemma HandFits(s: System, hand: set<JobId>, rows: set<JobId>, ws: WorkspaceId)
    requires FitsCap(s) && hand <= rows && |LiveIn(s.w.db, ws)| <= |Occupying(s.w.db, ws)|
    requires rows == {} || |Occupying(s.w.db, ws)| + |rows| <= s.cap
    ensures |LiveIn(s.w.db, ws)| + |hand| <= s.cap
  {
    SubsetIsNoLarger(hand, rows);
  }

  /** Trying to admit a row takes it out of hand, whether or not it is admitted. */
  lemma HandShrinks(s: System, op: SysOp, ws: WorkspaceId)
    requires SystemOk(s) && RowsDistinct(s) && op.AdmitHead? && Enabled(s, op)
    ensures var row := s.pc.rows[0];
            && |InHand(Step(s, op), ws)| + (if row.workspace == ws then 1 else 0) <= |InHand(s, ws)|
  {
    var s', row := Step(s, op), s.pc.rows[0];
    assert row in s.w.scans && ScanOk(s.w.db, row);
    forall j | j in InHand(s', ws) ensures j in InHand(s, ws) && j != row.job {
      var k :| 0 <= k < |s'.pc.rows| && s'.pc.rows[k].workspace == ws && s'.pc.rows[k].job == j;
      assert s'.pc.rows[k] == s.pc.rows[k + 1];
      NewJobsComeFromSubmit(s.w, Lower(s, op), j);
    }
    if row.workspace == ws {
      assert row.job in InHand(s, ws);
      assert InHand(s', ws) <= InHand(s, ws) - {row.job};
      SubsetIsNoLarger(InHand(s', ws), InHand(s, ws) - {row.job});
    } else {
      SubsetIsNoLarger(InHand(s', ws), InHand(s, ws));
    }
  }

  lemma NewJobsComeFromSubmit(w: World, op: Op, job: JobId)
    requires job in Apply(w, op).db.jobs && !op.Submit?
    ensures job in w.db.jobs
  {
  }

  lemma AdmitKeepsFit(s: System, op: SysOp, ws: WorkspaceId)
    requires SystemOk(s) && FitsCap(s) && op.AdmitHead? && Enabled(s, op)
    ensures |LiveIn(Step(s, op).w.db, ws)| + |InHand(Step(s, op), ws)| <= s.cap
  {
    var row := s.pc.rows[0];
    HandShrinks(s, op, ws);
    LiveGrowsByAdmission(s.w, Lower(s, op), ws);
    var more := if row.workspace == ws then {op.iid} else {};
    SubsetIsNoLarger(LiveIn(Step(s, op).w.db, ws), LiveIn(s.w.db, ws) + more);
    SubsetIsNoLarger(LiveIn(s.w.db, ws) + more, LiveIn(s.w.db, ws) + (more - LiveIn(s.w.db, ws)));
    assert |more - LiveIn(s.w.db, ws)| <= |more|;
  }

  /** What is in hand stays what it is while the scheduler does not scan or admit. */
  lemma HandOnlyShrinks(s: System, op: SysOp, ws: WorkspaceId)
    requires SystemOk(s) && Enabled(s, op) && !op.AdmitHead? && !op.StartAdmission?
    ensures InHand(Step(s, op), ws) <= InHand(s, ws)
  {
    var s' := Step(s, op);
    forall j | j in InHand(s', ws) ensures j in InHand(s, ws) {
      var k :| 0 <= k < |s'.pc.rows| && s'.pc.rows[k].workspace == ws && s'.pc.rows[k].job == j;
      assert s.pc == s'.pc;
      assert s.pc.rows[k] in s.w.scans && ScanOk(s.w.db, s.pc.rows[k]);
    }
  }

  lemma AdmitsOnlyAsScheduler(s: System, op: SysOp)
    requires Enabled(s, op) && Lower(s, op).Admit?
    ensures op.AdmitHead?
  {
  }

  lemma OtherStepsKeepFit(s: System, op: SysOp, ws: WorkspaceId)
    requires SystemOk(s) && FitsCap(s) && Enabled(s, op) && !op.AdmitHead? && !op.StartAdmission?
    ensures |LiveIn(Step(s, op).w.db, ws)| + |InHand(Step(s, op), ws)| <= s.cap
  {
    if Lower(s, op).Admit? {
      AdmitsOnlyAsScheduler(s, op);
    }
    LiveGrowsByAdmission(s.w, Lower(s, op), ws);
    HandOnlyShrinks(s, op, ws);
    SubsetIsNoLarger(LiveIn(Step(s, op).w.db, ws), LiveIn(s.w.db, ws));
    SubsetIsNoLarger(InHand(Step(s, op), ws), InHand(s, ws));
  }

  lemma StepKeepsRowsDistinct(s: System, op: SysOp)
    requires SystemOk(s) && RowsDistinct(s)
    ensures RowsDistinct(Step(s, op))
  {
    if Enabled(s, op) && op.StartAdmission? {
      ScannedAreQueued(s.w.db, s.cap, op.limit, op.rank, op.jobs);
      var s' := Step(s, op);
      forall p, q | s'.pc.Admitting? && 0 <= p < q < |s'.pc.rows| ensures s'.pc.rows[p].job != s'.pc.rows[q].job {
        assert s'.pc.rows[p] == SnapshotJob(s.w.db, op.jobs[p]) && s'.pc.rows[q] == SnapshotJob(s.w.db, op.jobs[q]);
      }
    }
  }

  lemma StepKeepsFit(s: System, op: SysOp)
    requires SystemOk(s) && FitsCap(s)
    ensures FitsCap(Step(s, op))
  {
    StepKeepsRowsDistinct(s, op);
    if Enabled(s, op) {
      forall ws ensures |LiveIn(Step(s, op).w.db, ws)| + |InHand(Step(s, op), ws)| <= s.cap {
        if op.StartAdmission? {
          ScanKeepsFit(s, op, ws);
        } else if op.AdmitHead? {
          AdmitKeepsFit(s, op, ws);
        } else {
          OtherStepsKeepFit(s, op, ws);
        }
      }
    }
  }

  lemma {:induction false} ExecKeepsFit(s: System, ops: seq<SysOp>)
    requires SystemOk(s) && FitsCap(s)
    ensures FitsCap(Exec(s, ops)) && Exec(s, ops).cap == s.cap
    decreases |ops|
  {
    if ops != [] {
      StepKeepsFit(s, ops[0]);
      StepKeepsSystem(s, ops[0]);
      ExecKeepsFit(Step(s, ops[0]), ops[1..]);
    }
  }

  /** In every reachable state each workspace has at most `cap` attempts with a PENDING or CLAIMED intent. */
  lemma CapIsNeverExceeded(hasDeleter: bool, cap: nat, ops: seq<SysOp>, ws: WorkspaceId)
    ensures |LiveIn(Exec(Start(hasDeleter, cap), ops).w.db, ws)| <= cap
  {
    var s := Start(hasDeleter, cap);
    forall ws ensures |LiveIn(s.w.db, ws)| + |InHand(s, ws)| <= s.cap {
      assert LiveIn(s.w.db, ws) == {};
    }
    ExecKeepsFit(s, ops);
  }
}
