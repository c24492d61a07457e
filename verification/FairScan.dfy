/**
 Fair selection: what `ScanUnadmittedJobs` may return, whatever the ties in creation
 time, and why no workspace can starve another.
 */
module FairScan {
  import opened JobStates
  import opened JobTables
  import opened JobProtocol
  import opened QuotaReservations

  predicate SameWorkspace(db: Db, j: JobId, k: JobId)
    requires j in db.jobs && k in db.jobs
  {
    db.jobs[j].workspace == db.jobs[k].workspace
  }

  /** The rank `r` of workspace `ws` is taken by some job. */
  predicate RankTaken(db: Db, rank: map<JobId, nat>, ws: WorkspaceId, r: int) {
    exists k :: k in rank && k in db.jobs && db.jobs[k].workspace == ws && rank[k] == r
  }

  predicate RanksQueue(db: Db, rank: map<JobId, nat>) {
    && (forall j :: j in rank ==> QueuedRow(db, j))
    && (forall j :: j in db.jobs && QueuedRow(db, j) ==> j in rank)
  }

  /**
   `ROW_NUMBER() OVER (PARTITION BY workspace_id ORDER BY created_at)`: within each
   workspace the queued jobs are numbered 1, 2, ... in creation order, ties in any order.
   */
  predicate IsRanking(db: Db, rank: map<JobId, nat>) {
    && RanksQueue(db, rank)
    && (forall j, k :: j in rank && k in rank && j != k && SameWorkspace(db, j, k) ==> rank[j] != rank[k])
    && (forall j, k :: j in rank && k in rank && SameWorkspace(db, j, k)
          ==> (db.jobs[j].createdAt < db.jobs[k].createdAt ==> rank[j] < rank[k]))
    && (forall j :: j in rank ==> rank[j] >= 1)
    && (forall j, r :: j in rank && 1 <= r < rank[j] ==> RankTaken(db, rank, db.jobs[j].workspace, r))
  }

  predicate Eligible(db: Db, cap: nat, rank: map<JobId, nat>, j: JobId) {
    j in rank && j in db.jobs && |Occupying(db, db.jobs[j].workspace)| + rank[j] <= cap
  }

  /** `ORDER BY ws_rank ASC, created_at ASC`. */
  predicate Before(db: Db, rank: map<JobId, nat>, j: JobId, k: JobId)
    requires j in rank && k in rank && j in db.jobs && k in db.jobs
  {
    rank[j] < rank[k] || (rank[j] == rank[k] && db.jobs[j].createdAt < db.jobs[k].createdAt)
  }

  predicate Distinct(rows: seq<JobId>) {
    forall p, q :: 0 <= p < q < |rows| ==> rows[p] != rows[q]
  }

  /** `rows` is a result the scan may return with this ranking. */
  predicate IsScan(db: Db, cap: nat, limit: nat, rank: map<JobId, nat>, rows: seq<JobId>) {
    && IsRanking(db, rank)
    && Distinct(rows)
    && |rows| <= limit
    && (forall p :: 0 <= p < |rows| ==> Eligible(db, cap, rank, rows[p]))
    && (forall p, q :: 0 <= p < q < |rows| ==> !Before(db, rank, rows[q], rows[p]))
    && (forall j :: j in rank && Eligible(db, cap, rank, j) && j !in rows ==>
          |rows| == limit && forall p :: 0 <= p < |rows| ==> !Before(db, rank, j, rows[p]))
  }

  /**
   No starvation: when a job is returned, every eligible job of smaller rank, in any
   workspace, is returned before it.
   */
  lemma SmallerRanksComeFirst(db: Db, cap: nat, limit: nat, rank: map<JobId, nat>, rows: seq<JobId>, p: nat, j: JobId)
    requires IsScan(db, cap, limit, rank, rows) && p < |rows|
    requires Eligible(db, cap, rank, j) && rank[j] < rank[rows[p]]
    ensures j in rows[..p]
  {
    assert Eligible(db, cap, rank, rows[p]);
    assert Before(db, rank, j, rows[p]);
    assert j in rows;
    var q :| 0 <= q < |rows| && rows[q] == j;
    assert q < p;
    assert rows[..p][q] == j;
  }

  /** Among jobs of equal rank the older one comes first, in any workspace. */
  lemma OlderComesFirst(db: Db, cap: nat, limit: nat, rank: map<JobId, nat>, rows: seq<JobId>, p: nat, j: JobId)
    requires IsScan(db, cap, limit, rank, rows) && p < |rows| && rows[p] in db.jobs
    requires Eligible(db, cap, rank, j) && rank[j] == rank[rows[p]] && db.jobs[j].createdAt < db.jobs[rows[p]].createdAt
    ensures j in rows[..p]
  {
    assert Eligible(db, cap, rank, rows[p]);
    assert Before(db, rank, j, rows[p]);
    assert j in rows;
    var q :| 0 <= q < |rows| && rows[q] == j;
    assert q < p;
    assert rows[..p][q] == j;
  }

  /**
   Each workspace's returned jobs are a prefix of its queue: every queued job of the same workspace
   created earlier is returned too, and before it.
   */
  lemma EachWorkspaceGetsAPrefix(db: Db, cap: nat, limit: nat, rank: map<JobId, nat>, rows: seq<JobId>, p: nat,
                                 j: JobId)
    requires IsScan(db, cap, limit, rank, rows) && p < |rows|
    requires j in db.jobs && QueuedRow(db, j) && rows[p] in db.jobs && SameWorkspace(db, j, rows[p])
    requires db.jobs[j].createdAt < db.jobs[rows[p]].createdAt
    ensures j in rows[..p]
  {
    assert Eligible(db, cap, rank, rows[p]);
    SmallerRanksComeFirst(db, cap, limit, rank, rows, p, j);
  }

  /** The returned jobs of one workspace. */
  function RowsOf(db: Db, rows: seq<JobId>, ws: WorkspaceId): set<JobId> {
    set j | j in rows && j in db.jobs && db.jobs[j].workspace == ws
  }

  /** Distinct ranks between 1 and m can be held by at most m jobs. */
  lemma {:induction false} RanksBoundCount(rank: map<JobId, nat>, s: set<JobId>, m: nat)
    requires forall j :: j in s ==> j in rank && 1 <= rank[j] <= m
    requires forall j, k :: j in s && k in s && j != k ==> rank[j] != rank[k]
    ensures |s| <= m
    decreases m
  {
    if m == 0 {
      assert s == {};
    } else if exists j :: j in s && rank[j] == m {
      var j :| j in s && rank[j] == m;
      RanksBoundCount(rank, s - {j}, m - 1);
    } else {
      RanksBoundCount(rank, s, m - 1);
    }
  }

  /** Returned and occupying jobs of a workspace together fit under the cap. */
  lemma ScanFitsUnderCap(db: Db, cap: nat, limit: nat, rank: map<JobId, nat>, rows: seq<JobId>, ws: WorkspaceId)
    requires IsScan(db, cap, limit, rank, rows)
    ensures RowsOf(db, rows, ws) == {} || |Occupying(db, ws)| + |RowsOf(db, rows, ws)| <= cap
  {
    var s := RowsOf(db, rows, ws);
    if s != {} {
      forall j | j in s ensures j in rank && 1 <= rank[j] <= cap - |Occupying(db, ws)| {
        var p :| 0 <= p < |rows| && rows[p] == j;
        assert Eligible(db, cap, rank, rows[p]);
      }
      var j :| j in s;
      assert 1 <= rank[j] <= cap - |Occupying(db, ws)|;
      forall j, k | j in s && k in s && j != k ensures rank[j] != rank[k] {
        assert SameWorkspace(db, j, k);
      }
      RanksBoundCount(rank, s, cap - |Occupying(db, ws)|);
    }
  }

  /** The workspace's queued jobs, and those that hold one of its slots. */
  function QueuedOf(db: Db, ws: WorkspaceId): set<JobId> {
    set j | j in db.jobs && db.jobs[j].workspace == ws && db.jobs[j].state == Queued
  }

  function BusyOf(db: Db, ws: WorkspaceId): set<JobId> {
    set j | j in db.jobs && db.jobs[j].workspace == ws
            && db.jobs[j].state in {Admitted, Starting, Running, CancelRequested, RecoveryPending}
  }

  predicate HasRank(rank: map<JobId, nat>, s: set<JobId>, r: int) {
    exists j :: j in s && j in rank && rank[j] == r
  }

  /** If every rank from 1 to m is held in `s`, then `s` has at least m members. */
  lemma {:induction false} RanksNeedJobs(rank: map<JobId, nat>, s: set<JobId>, m: nat)
    requires forall r :: 1 <= r <= m ==> HasRank(rank, s, r)
    ensures |s| >= m
    decreases m
  {
    if m > 0 {
      assert HasRank(rank, s, m);
      var j :| j in s && j in rank && rank[j] == m;
      forall r | 1 <= r <= m - 1 ensures HasRank(rank, s - {j}, r) {
        assert HasRank(rank, s, r);
        var k :| k in s && k in rank && rank[k] == r;
        assert k in s - {j};
      }
      RanksNeedJobs(rank, s - {j}, m - 1);
    }
  }

  lemma RankUnderCapIsReturned(db: Db, cap: nat, limit: nat, rank: map<JobId, nat>, rows: seq<JobId>, j: JobId, r: nat)
    requires IsScan(db, cap, limit, rank, rows) && |rows| < limit && j in rank && j in db.jobs
    requires 1 <= r < rank[j] && |Occupying(db, db.jobs[j].workspace)| + r <= cap
    ensures HasRank(rank, RowsOf(db, rows, db.jobs[j].workspace), r)
  {
    var ws := db.jobs[j].workspace;
    assert RankTaken(db, rank, ws, r);
    var k :| k in rank && k in db.jobs && db.jobs[k].workspace == ws && rank[k] == r;
    assert Eligible(db, cap, rank, k);
    assert k in RowsOf(db, rows, ws);
  }

  /**
   No slot stays unused: a scan that did not reach its limit returns, for every workspace, all its queued jobs or so
   many that returned and busy ones together reach the cap.
   */
  lemma ScanFillsCap(db: Db, cap: nat, limit: nat, rank: map<JobId, nat>, rows: seq<JobId>, ws: WorkspaceId)
    requires IsScan(db, cap, limit, rank, rows) && |rows| < limit
    ensures QueuedOf(db, ws) == RowsOf(db, rows, ws) || |BusyOf(db, ws)| + |RowsOf(db, rows, ws)| >= cap
  {
    var s := RowsOf(db, rows, ws);
    assert BusyOf(db, ws) == Occupying(db, ws);
    forall j | j in s ensures j in rank && j in QueuedOf(db, ws) {
      var p :| 0 <= p < |rows| && rows[p] == j;
      assert Eligible(db, cap, rank, rows[p]);
    }
    if QueuedOf(db, ws) != s && |Occupying(db, ws)| < cap {
      var j :| j in QueuedOf(db, ws) && j !in s;
      assert QueuedRow(db, j) && j !in rows;
      assert !Eligible(db, cap, rank, j);
      var m := cap - |Occupying(db, ws)|;
      forall r | 1 <= r <= m ensures HasRank(rank, s, r) {
        RankUnderCapIsReturned(db, cap, limit, rank, rows, j, r);
      }
      RanksNeedJobs(rank, s, m);
    }
  }
}
