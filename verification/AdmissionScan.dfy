/**
 `ScanUnadmittedJobs`: its three stages (rank each workspace's queue, keep what fits under
 the cap, take the first rows) return a fair scan for every table and every limit.
 */
module AdmissionScan {
  import opened JobTables
  import opened JobProtocol
  import opened FairScan
  import opened Queries

  function Queue(db: Db): set<JobId> {
    set j | j in db.jobs && QueuedRow(db, j)
  }

  ghost predicate IsQueueOrder(db: Db, order: seq<JobId>) {
    && Queries.NoRepeats(order)
    && (forall j :: j in order <==> j in db.jobs && QueuedRow(db, j))
    && (forall p, q :: 0 <= p < q < |order| ==>
          order[p] in db.jobs && order[q] in db.jobs && db.jobs[order[p]].createdAt <= db.jobs[order[q]].createdAt)
  }

  /** The queued jobs in creation order. */
  method OrderQueue(db: Db) returns (order: seq<JobId>)
    ensures IsQueueOrder(db, order)
  {
    var queue := Queue(db);
    var key := map j | j in queue :: SortKey(db.jobs[j].createdAt, 0);
    order := SelectOrdered(queue, key, |queue|);
    forall p, q | 0 <= p < q < |order|
      ensures order[p] in db.jobs && order[q] in db.jobs && db.jobs[order[p]].createdAt <= db.jobs[order[q]].createdAt
    {
      assert order[p] in queue && order[q] in queue;
      assert key[order[p]].AtMost(key[order[q]]);
    }
    forall j ensures j in order <==> j in db.jobs && QueuedRow(db, j) {
      assert j in queue <==> j in db.jobs && QueuedRow(db, j);
    }
  }

  function Count(counts: map<WorkspaceId, nat>, ws: WorkspaceId): nat {
    if ws in counts then counts[ws] else 0
  }

  ghost predicate HasRanks(db: Db, order: seq<JobId>, n: nat, rank: map<JobId, nat>, counts: map<WorkspaceId, nat>)
    requires n <= |order| && forall j :: j in order ==> j in db.jobs
  {
    && (forall j :: j in rank <==> j in order[..n])
    && (forall p :: 0 <= p < n ==>
         order[p] in rank && 1 <= rank[order[p]] <= Count(counts, db.jobs[order[p]].workspace))
  }

  predicate RanksIncrease(db: Db, order: seq<JobId>, n: nat, rank: map<JobId, nat>)
    requires n <= |order| && forall j :: j in order ==> j in db.jobs
    requires forall p :: 0 <= p < n ==> order[p] in rank
  {
    forall p, q :: 0 <= p < q < n && SameWorkspace(db, order[p], order[q]) ==> rank[order[p]] < rank[order[q]]
  }

  predicate NoRankMissing(db: Db, rank: map<JobId, nat>, counts: map<WorkspaceId, nat>) {
    forall ws, r :: ws in counts && 1 <= r <= counts[ws] ==> RankTaken(db, rank, ws, r)
  }

  /** After the first `n` jobs: each has a rank, later ones of a workspace a larger one, without gaps. */
  ghost predicate RankedUpTo(db: Db, order: seq<JobId>, n: nat, rank: map<JobId, nat>, counts: map<WorkspaceId, nat>)
    requires n <= |order| && forall j :: j in order ==> j in db.jobs
  {
    HasRanks(db, order, n, rank, counts) && RanksIncrease(db, order, n, rank) && NoRankMissing(db, rank, counts)
  }

  lemma NextRankIsNext(db: Db, rank: map<JobId, nat>, counts: map<WorkspaceId, nat>, j: JobId, ws: WorkspaceId)
    requires NoRankMissing(db, rank, counts) && j in db.jobs && j !in rank && db.jobs[j].workspace == ws
    ensures var c := Count(counts, ws) + 1; NoRankMissing(db, rank[j := c], counts[ws := c])
  {
    var c := Count(counts, ws) + 1;
    var rank', counts' := rank[j := c], counts[ws := c];
    forall v, r | v in counts' && 1 <= r <= counts'[v] ensures RankTaken(db, rank', v, r) {
      if v == ws && r == c {
        assert j in rank' && rank'[j] == r;
      } else {
        assert RankTaken(db, rank, v, r);
        var k :| k in rank && k in db.jobs && db.jobs[k].workspace == v && rank[k] == r;
        assert k != j && k in rank' && rank'[k] == r;
      }
    }
  }

  lemma RanksGrow(db: Db, order: seq<JobId>, n: nat, rank: map<JobId, nat>, counts: map<WorkspaceId, nat>, c: nat)
    requires IsQueueOrder(db, order) && n < |order| && (forall j :: j in order ==> j in db.jobs)
    requires HasRanks(db, order, n, rank, counts) && c == Count(counts, db.jobs[order[n]].workspace) + 1
    ensures HasRanks(db, order, n + 1, rank[order[n] := c], counts[db.jobs[order[n]].workspace := c])
  {
    assert order[..n + 1] == order[..n] + [order[n]];
    assert order[n] !in order[..n];
  }

  lemma RankingGrows(db: Db, order: seq<JobId>, n: nat, rank: map<JobId, nat>, counts: map<WorkspaceId, nat>)
    requires IsQueueOrder(db, order) && n < |order|
    requires (forall j :: j in order ==> j in db.jobs) && RankedUpTo(db, order, n, rank, counts)
    ensures var j, ws := order[n], db.jobs[order[n]].workspace;
            var c := Count(counts, ws) + 1;
            RankedUpTo(db, order, n + 1, rank[j := c], counts[ws := c])
  {
    var ws := db.jobs[order[n]].workspace;
    RanksGrow(db, order, n, rank, counts, Count(counts, ws) + 1);
    NextRankIsNext(db, rank, counts, order[n], ws);
  }

  lemma RankedAll(db: Db, order: seq<JobId>, rank: map<JobId, nat>, counts: map<WorkspaceId, nat>)
    requires IsQueueOrder(db, order)
    requires (forall j :: j in order ==> j in db.jobs) && RankedUpTo(db, order, |order|, rank, counts)
    ensures IsRanking(db, rank)
  {
    assert order[..|order|] == order;
    forall j, k | j in rank && k in rank && j != k && SameWorkspace(db, j, k)
      ensures rank[j] != rank[k] && (db.jobs[j].createdAt < db.jobs[k].createdAt ==> rank[j] < rank[k])
    {
      var p :| 0 <= p < |order| && order[p] == j;
      var q :| 0 <= q < |order| && order[q] == k;
      assert p < q || q < p;
      assert p < q ==> SameWorkspace(db, order[p], order[q]);
      assert q < p ==> SameWorkspace(db, order[q], order[p]);
    }
    forall j, r | j in rank && 1 <= r < rank[j] ensures RankTaken(db, rank, db.jobs[j].workspace, r) {
      var p :| 0 <= p < |order| && order[p] == j;
      assert 1 <= rank[order[p]] <= Count(counts, db.jobs[order[p]].workspace);
    }
  }

  /** `ROW_NUMBER() OVER (PARTITION BY workspace_id ORDER BY created_at)`. */
  method RankQueue(db: Db) returns (rank: map<JobId, nat>)
    ensures IsRanking(db, rank)
  {
    var order := OrderQueue(db);
    rank := map[];
    var counts: map<WorkspaceId, nat> := map[];
    for n := 0 to |order|
      invariant RankedUpTo(db, order, n, rank, counts)
    {
      RankingGrows(db, order, n, rank, counts);
      var ws := db.jobs[order[n]].workspace;
      var c := Count(counts, ws) + 1;
      rank := rank[order[n] := c];
      counts := counts[ws := c];
    }
    RankedAll(db, order, rank, counts);
  }

  /** For every table, cap and limit the query returns a fair scan. */
  method ScanUnadmittedJobs(db: Db, cap: nat, limit: nat) returns (rows: seq<JobId>, rank: map<JobId, nat>)
    ensures IsScan(db, cap, limit, rank, rows)
  {
    rank := RankQueue(db);
    var eligible := set j | j in rank && Eligible(db, cap, rank, j);
    var key := map j | j in eligible :: SortKey(rank[j], db.jobs[j].createdAt);
    rows := SelectOrdered(eligible, key, limit);
    forall p | 0 <= p < |rows| ensures Eligible(db, cap, rank, rows[p]) {
      assert rows[p] in eligible;
    }
    forall p, q | 0 <= p < q < |rows| ensures !Before(db, rank, rows[q], rows[p]) {
      assert key[rows[p]].AtMost(key[rows[q]]);
    }
    forall j | j in rank && Eligible(db, cap, rank, j) && j !in rows
      ensures |rows| == limit && forall p :: 0 <= p < |rows| ==> !Before(db, rank, j, rows[p])
    {
      assert j in eligible;
      forall p | 0 <= p < |rows| ensures !Before(db, rank, j, rows[p]) {
        assert key[rows[p]].AtMost(key[j]);
      }
    }
  }
}
