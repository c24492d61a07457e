/**
 Reservation accounting: how far a workspace's ACTIVE CONCURRENT_JOB reservations can exceed the
 jobs that occupy a slot.  A finishing job releases some row of its workspace rather than its
 own, rows expire by themselves, and a release skips the rows that others have locked.
 */
module QuotaReservations {
  import opened Options
  import opened Counting
  import opened JobStates
  import opened JobTables
  import opened JobProtocol
  import opened AttemptNumbering

  /** The states that `ScanUnadmittedJobs` counts as occupying a slot. */
  predicate Occupies(s: JobState) {
    s.Admitted? || s.Starting? || s.Running? || s.CancelRequested? || s.RecoveryPending?
  }

  function Occupying(db: Db, ws: WorkspaceId): set<JobId> {
    set j | j in db.jobs && db.jobs[j].workspace == ws && Occupies(db.jobs[j].state)
  }

  function ActiveRows(rs: map<ReservationId, Reservation>, ws: WorkspaceId): set<ReservationId> {
    set r | r in rs && IsActiveIn(rs, ws, r)
  }

  /** ACTIVE rows number at most the occupying jobs and `extra` more. */
  predicate Within(db: Db, ws: WorkspaceId, extra: nat) {
    |ActiveRows(db.reservations, ws)| <= |Occupying(db, ws)| + extra
  }

  // ---------------------------------------------------------------- releases

  /** The job whose slot an operation gives up together with a release, if the operation commits. */
  function LeavingJob(w: World, op: Op): Option<JobId> {
    match op
    case MarkSucceeded(t, _) => if t in w.tokens && SucceededOk(w.db, t) then Some(t.job) else None
    case MarkFailed(t, _, _, _, _) => if t in w.tokens && FailedOk(w.db, t) then Some(t.job) else None
    case MarkCancelled(t, _) => if t in w.tokens && CancelledOk(w.db, t) then Some(t.job) else None
    case Confirm(job, shouldRetry, isCancel, cur, _) =>
      if ConfirmOk(w.db, job, shouldRetry, isCancel) && CurrentRowOk(w.db, job, cur) then Some(job) else None
    case _ => None
  }

  predicate Releases(w: World, op: Op, ws: WorkspaceId) {
    var job := LeavingJob(w, op);
    job.Some? && job.value in w.db.jobs && w.db.jobs[job.value].workspace == ws
  }

  /** The release finds no row although the workspace has ACTIVE ones: others hold locks on all of them. */
  predicate Skips(w: World, op: Op, ws: WorkspaceId) {
    && Releases(w, op, ws)
    && ActiveRows(w.db.reservations, ws) != {}
    && !FindsRow(w.db.reservations, ws, op.pick)
  }

  ghost function SkippedReleases(w: World, ops: seq<Op>, ws: WorkspaceId): nat
    decreases |ops|
  {
    if ops == [] then 0
    else (if Skips(w, ops[0], ws) then 1 else 0) + SkippedReleases(Apply(w, ops[0]), ops[1..], ws)
  }

  /** A release takes one ACTIVE row of the workspace away, unless it finds none. */
  lemma ReleasedRows(rs: map<ReservationId, Reservation>, ws: WorkspaceId, pick: Option<ReservationId>)
    ensures |ActiveRows(ReleaseOne(rs, ws, pick), ws)| == |ActiveRows(rs, ws)| - if FindsRow(rs, ws, pick) then 1 else 0
  {
    if FindsRow(rs, ws, pick) {
      assert pick.value in ActiveRows(rs, ws);
      assert ActiveRows(ReleaseOne(rs, ws, pick), ws) == ActiveRows(rs, ws) - {pick.value};
    }
  }

  lemma OtherWorkspacesKeepRows(rs: map<ReservationId, Reservation>, ws: WorkspaceId, other: WorkspaceId,
                                pick: Option<ReservationId>)
    requires other != ws
    ensures ActiveRows(ReleaseOne(rs, ws, pick), other) == ActiveRows(rs, other)
  {
  }

  /** The states from which a report or a confirmation moves a job occupy a slot, and its target does not. */
  lemma LeavingMovesOut(w: World, op: Op)
    requires LeavingJob(w, op).Some?
    ensures var job, db' := LeavingJob(w, op).value, Apply(w, op).db;
            && job in w.db.jobs && Occupies(w.db.jobs[job].state)
            && job in db'.jobs && !Occupies(db'.jobs[job].state) && db'.jobs == w.db.jobs[job := db'.jobs[job]]
            && db'.jobs[job].workspace == w.db.jobs[job].workspace
            && db'.reservations == ReleaseOne(w.db.reservations, w.db.jobs[job].workspace, op.pick)
  {
    var job := LeavingJob(w, op).value;
    CaseUpdatesAreLegal(w.db.jobs[job].state, true);
    CaseUpdatesAreLegal(w.db.jobs[job].state, false);
  }

  /** A committed release gives up exactly one slot, and one row unless it found none. */
  lemma ReleaseIsExact(w: World, op: Op, ws: WorkspaceId)
    requires Releases(w, op, ws)
    ensures var db, db' := w.db, Apply(w, op).db;
            && |Occupying(db', ws)| == |Occupying(db, ws)| - 1
            && |ActiveRows(db'.reservations, ws)| ==
               |ActiveRows(db.reservations, ws)| - if FindsRow(db.reservations, ws, op.pick) then 1 else 0
  {
    var job := LeavingJob(w, op).value;
    LeavingMovesOut(w, op);
    assert job in Occupying(w.db, ws);
    assert Occupying(Apply(w, op).db, ws) == Occupying(w.db, ws) - {job};
    ReleasedRows(w.db.reservations, ws, op.pick);
  }

  /** A release in another workspace changes neither count. */
  lemma ReleaseElsewhere(w: World, op: Op, ws: WorkspaceId)
    requires LeavingJob(w, op).Some? && !Releases(w, op, ws)
    ensures Occupying(Apply(w, op).db, ws) == Occupying(w.db, ws)
    ensures ActiveRows(Apply(w, op).db.reservations, ws) == ActiveRows(w.db.reservations, ws)
  {
    LeavingMovesOut(w, op);
    var job := LeavingJob(w, op).value;
    OtherWorkspacesKeepRows(w.db.reservations, w.db.jobs[job].workspace, ws, op.pick);
  }

  // ---------------------------------------------------------------- other steps

  /** Admission puts the job into a slot of the row's workspace and adds one row there. */
  lemma AdmissionTakesSlot(db: Db, row: UnadmittedJob, aid: AttemptId, iid: IntentId, rid: ReservationId, now: int,
                           ws: WorkspaceId)
    requires ScanOk(db, row) && AdmitOk(db, row, aid, iid, rid)
    ensures var db' := AdmitTx(db, row, aid, iid, rid, now);
            var mine := ws == row.workspace;
            && row.job !in Occupying(db, ws)
            && Occupying(db', ws) == Occupying(db, ws) + (if mine then {row.job} else {})
            && ActiveRows(db'.reservations, ws) <= ActiveRows(db.reservations, ws) + (if mine then {rid} else {})
  {
  }

  /** Neither count moves the wrong way. */
  lemma FewerRows(db: Db, db': Db, ws: WorkspaceId, extra: nat)
    requires Within(db, ws, extra)
    requires ActiveRows(db'.reservations, ws) <= ActiveRows(db.reservations, ws)
    requires Occupying(db, ws) <= Occupying(db', ws)
    ensures Within(db', ws, extra)
  {
    SubsetIsNoLarger(ActiveRows(db'.reservations, ws), ActiveRows(db.reservations, ws));
    SubsetIsNoLarger(Occupying(db, ws), Occupying(db', ws));
  }

  /** One job takes a slot and at most one row is added. */
  lemma RowForSlot(db: Db, db': Db, ws: WorkspaceId, job: JobId, rid: ReservationId, extra: nat)
    requires Within(db, ws, extra)
    requires ActiveRows(db'.reservations, ws) <= ActiveRows(db.reservations, ws) + {rid}
    requires job !in Occupying(db, ws) && Occupying(db', ws) == Occupying(db, ws) + {job}
    ensures Within(db', ws, extra)
  {
    var rows := ActiveRows(db.reservations, ws);
    SubsetIsNoLarger(ActiveRows(db'.reservations, ws), rows + {rid});
    SubsetIsNoLarger(rows + {rid}, rows + ({rid} - rows));
  }

  lemma AdmitKeepsBound(w: World, op: Op, ws: WorkspaceId, extra: nat)
    requires WorldOk(w) && op.Admit? && Within(w.db, ws, extra)
    ensures Within(Apply(w, op).db, ws, extra)
  {
    var db, db' := w.db, Apply(w, op).db;
    if op.row in w.scans && AdmitOk(db, op.row, op.aid, op.iid, op.rid) {
      assert ScanOk(db, op.row);
      AdmissionTakesSlot(db, op.row, op.aid, op.iid, op.rid, w.now, ws);
      if ws == op.row.workspace {
        RowForSlot(db, db', ws, op.row.job, op.rid, extra);
      } else {
        FewerRows(db, db', ws, extra);
      }
    }
  }

  /** The operations that neither admit nor release. */
  lemma QuietRows(w: World, op: Op, ws: WorkspaceId)
    requires LeavingJob(w, op).None? && !op.Admit?
    ensures ActiveRows(Apply(w, op).db.reservations, ws) <= ActiveRows(w.db.reservations, ws)
    ensures op.MarkSucceeded? || op.MarkFailed? || op.MarkCancelled? || op.Confirm? ==> Apply(w, op).db == w.db
  {
  }

  lemma QuietStepsKeepBound(w: World, op: Op, ws: WorkspaceId, extra: nat)
    requires LeavingJob(w, op).None? && !op.Admit? && Within(w.db, ws, extra)
    ensures Within(Apply(w, op).db, ws, extra)
  {
    QuietRows(w, op, ws);
    if !(op.MarkSucceeded? || op.MarkFailed? || op.MarkCancelled? || op.Confirm?) {
      forall j | j in Occupying(w.db, ws) ensures j in Occupying(Apply(w, op).db, ws) {
        StaysInSlot(w, op, j);
      }
      FewerRows(w.db, Apply(w, op).db, ws, extra);
    }
  }

  /** Only a release moves a job out of its slot. */
  lemma StaysInSlot(w: World, op: Op, job: JobId)
    requires !op.MarkSucceeded? && !op.MarkFailed? && !op.MarkCancelled? && !op.Confirm?
    requires job in w.db.jobs && Occupies(w.db.jobs[job].state)
    ensures job in Apply(w, op).db.jobs && Occupies(Apply(w, op).db.jobs[job].state)
    ensures Apply(w, op).db.jobs[job].workspace == w.db.jobs[job].workspace
  {
    StepIsLegal(w, op, job);
  }

  // ---------------------------------------------------------------- over whole runs

  lemma StepKeepsBound(w: World, op: Op, ws: WorkspaceId, extra: nat)
    requires WorldOk(w) && Within(w.db, ws, extra)
    ensures Within(Apply(w, op).db, ws, extra + if Skips(w, op, ws) then 1 else 0)
  {
    if op.Admit? {
      AdmitKeepsBound(w, op, ws, extra);
    } else if LeavingJob(w, op).None? {
      QuietStepsKeepBound(w, op, ws, extra);
    } else if Releases(w, op, ws) {
      ReleaseIsExact(w, op, ws);
    } else {
      ReleaseElsewhere(w, op, ws);
    }
  }

  /**
   Exactly when a step breaks the accounting: with as many ACTIVE rows as occupying jobs at most, a step leads to
   more rows than jobs if and only if it is a release that found every row locked while the two counts were equal.
   */
  lemma BoundBreaksIff(w: World, op: Op, ws: WorkspaceId)
    requires WorldOk(w) && Within(w.db, ws, 0)
    ensures !Within(Apply(w, op).db, ws, 0) <==>
            Skips(w, op, ws) && |ActiveRows(w.db.reservations, ws)| == |Occupying(w.db, ws)|
  {
    StepKeepsBound(w, op, ws, 0);
    if Skips(w, op, ws) {
      ReleaseIsExact(w, op, ws);
    }
  }

  lemma {:induction false} RunKeepsBound(w: World, ops: seq<Op>, ws: WorkspaceId, extra: nat)
    requires WorldOk(w) && Within(w.db, ws, extra)
    ensures Within(Run(w, ops).db, ws, extra + SkippedReleases(w, ops, ws))
    decreases |ops|
  {
    if ops != [] {
      StepKeepsBound(w, ops[0], ws, extra);
      StepKeepsWorld(w, ops[0]);
      RunKeepsBound(Apply(w, ops[0]), ops[1..], ws, extra + if Skips(w, ops[0], ws) then 1 else 0);
    }
  }

  /**
   In every reachable state, for every workspace, ACTIVE reservations number at most the jobs that occupy a slot
   and the releases of the workspace that have found every row locked.
   */
  lemma OverCountIsSkippedReleases(ops: seq<Op>, ws: WorkspaceId)
    ensures var db := Run(INIT, ops).db;
            |ActiveRows(db.reservations, ws)| <= |Occupying(db, ws)| + SkippedReleases(INIT, ops, ws)
  {
    InitOk();
    assert ActiveRows(INIT.db.reservations, ws) == {};
    RunKeepsBound(INIT, ops, ws, 0);
  }

  /** As long as no release of the workspace was skipped, ACTIVE reservations number at most the occupying jobs. */
  lemma ReservationsNeverOverCount(ops: seq<Op>, ws: WorkspaceId)
    requires SkippedReleases(INIT, ops, ws) == 0
    ensures |ActiveRows(Run(INIT, ops).db.reservations, ws)| <= |Occupying(Run(INIT, ops).db, ws)|
  {
    OverCountIsSkippedReleases(ops, ws);
  }
}
