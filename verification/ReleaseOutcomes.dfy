/**
 The rollout protocol seen from one release, one intent and one application: machines over a status alone, which say
 for every operation whether and where it moves.  All operations on all tables are proved to follow them, and
 over runs a release is HEALTHY, or failed, only if a worker reported so.
 */
module ReleaseOutcomes {
  import opened Options
  import opened ReleaseTables
  import opened ReleaseProtocol
  import opened ReleaseStore
  import Jobs = JobTables

  /** A worker reports with a claim that was handed out and is still in force. */
  predicate Reports(w: World, c: Claim) {
    c in w.claims && InForce(w.db.intents, c)
  }

  /** The intent can be claimed: unclaimed or with a lease that ran out, of a release that is not superseded. */
  predicate IsOpen(w: World, iid: IntentId) {
    && iid in w.db.intents
    && var i := w.db.intents[iid];
    && (i.status == Jobs.Pending || (i.status == Jobs.Claimed && i.leaseExpires.Some? && i.leaseExpires.value < w.now))
    && i.release in w.db.releases && w.db.releases[i.release].app in w.db.apps
    && w.db.releases[i.release].status != Superseded
  }

  // ---------------------------------------------------------------- releases

  /** Where the operation takes release `r`. */
  function NextStatus(w: World, op: Op, r: ReleaseId): ReleaseStatus
    requires r in w.db.releases
  {
    var rel := w.db.releases[r];
    match op
    case ClaimBuild(q) => if q == r && rel.status == Requested && rel.digest == "pending" then Building else rel.status
    case FinishBuild(q, _) =>
      if q == r && rel.status == Building && rel.app in w.db.apps then ImageReady else rel.status
    case FailBuild(q) => if q == r && rel.status == Building then BuildFailed else rel.status
    case Supersede =>
      if rel.status in {ImageReady, Requested} && HasNewerImage(w.db.releases, r) then Superseded else rel.status
    case ClaimIntent(iid, _, _) => if IsOpen(w, iid) && w.db.intents[iid].release == r then Deploying else rel.status
    case MarkHealthy(c) => if Reports(w, c) && c.release == r then Healthy else rel.status
    case MarkFailed(c) => if Reports(w, c) && c.release == r then DeployFailed else rel.status
    case _ => rel.status
  }

  /** Whatever operation runs, on whatever tables, every release moves exactly as the machine says. */
  lemma ReleaseFollowsMachine(w: World, op: Op, r: ReleaseId)
    requires r in w.db.releases
    ensures r in Apply(w, op).db.releases
    ensures Apply(w, op).db.releases[r].status == NextStatus(w, op, r)
  {
    OutdatedMeans(w.db, r);
  }

  /** A new release is IMAGE_READY if it brings its image and REQUESTED if that is still to be built. */
  lemma NewReleaseWaits(w: World, op: Op, r: ReleaseId)
    requires r !in w.db.releases && r in Apply(w, op).db.releases
    ensures Apply(w, op).db.releases[r].status == if op.Deploy? || op.Rollback? then ImageReady else Requested
    ensures (op.Deploy? || op.Rollback? || op.TriggerBuild? || op.Webhook?) && op.id == r
  {
  }

  // ---------------------------------------------------------------- what status a release can have, and why

  /** At step `k` of the run a worker's report on release `r` was accepted. */
  predicate ReportedHealthy(ops: seq<Op>, k: nat, r: ReleaseId)
    requires k < |ops|
  {
    ops[k].MarkHealthy? && ops[k].claim.release == r && Reports(Run(INIT, ops[..k]), ops[k].claim)
  }

  predicate ReportedFailed(ops: seq<Op>, k: nat, r: ReleaseId)
    requires k < |ops|
  {
    ops[k].MarkFailed? && ops[k].claim.release == r && Reports(Run(INIT, ops[..k]), ops[k].claim)
  }

  lemma {:induction false} RunOne(w: World, ops: seq<Op>, op: Op)
    ensures Run(w, ops + [op]) == Apply(Run(w, ops), op)
    decreases |ops|
  {
    if ops == [] {
      assert ([] + [op])[1..] == [];
    } else {
      assert (ops + [op])[1..] == ops[1..] + [op];
      RunOne(Apply(w, ops[0]), ops[1..], op);
    }
  }

  lemma LastStep(ops: seq<Op>)
    requires ops != []
    ensures Run(INIT, ops) == Apply(Run(INIT, ops[..|ops| - 1]), ops[|ops| - 1])
  {
    assert ops == ops[..|ops| - 1] + [ops[|ops| - 1]];
    RunOne(INIT, ops[..|ops| - 1], ops[|ops| - 1]);
  }

  /** In every run, a release that is HEALTHY was reported healthy by a worker whose claim was in force then. */
  lemma {:induction false} HealthyWasReported(ops: seq<Op>, r: ReleaseId) returns (k: nat)
    requires r in Run(INIT, ops).db.releases && Run(INIT, ops).db.releases[r].status == Healthy
    ensures k < |ops| && ReportedHealthy(ops, k, r)
    decreases |ops|
  {
    var n, before := |ops| - 1, ops[..|ops| - 1];
    LastStep(ops);
    var w := Run(INIT, before);
    if r in w.db.releases && w.db.releases[r].status == Healthy {
      k := HealthyWasReported(before, r);
      assert before[..k] == ops[..k];
    } else {
      if r in w.db.releases {
        ReleaseFollowsMachine(w, ops[n], r);
      } else {
        NewReleaseWaits(w, ops[n], r);
      }
      k := n;
    }
  }

  /** The same for a failed rollout. */
  lemma {:induction false} DeployFailedWasReported(ops: seq<Op>, r: ReleaseId) returns (k: nat)
    requires r in Run(INIT, ops).db.releases && Run(INIT, ops).db.releases[r].status == DeployFailed
    ensures k < |ops| && ReportedFailed(ops, k, r)
    decreases |ops|
  {
    var n, before := |ops| - 1, ops[..|ops| - 1];
    LastStep(ops);
    var w := Run(INIT, before);
    if r in w.db.releases && w.db.releases[r].status == DeployFailed {
      k := DeployFailedWasReported(before, r);
      assert before[..k] == ops[..k];
    } else {
      if r in w.db.releases {
        ReleaseFollowsMachine(w, ops[n], r);
      } else {
        NewReleaseWaits(w, ops[n], r);
      }
      k := n;
    }
  }

  // ---------------------------------------------------------------- applications

  /** The operation gives the application a release with an image. */
  predicate BringsImage(w: World, op: Op, app: AppId) {
    match op
    case Deploy(a, id, number, _) => a == app && LockedInsertOk(w.db, a, id, number)
    case Rollback(a, target, id, number) =>
      a == app && target in w.db.releases && w.db.releases[target].app == a && LockedInsertOk(w.db, a, id, number)
    case FinishBuild(r, _) => r in w.db.releases && w.db.releases[r].app == app && w.db.releases[r].status == Building
    case _ => false
  }

  /** The operation reports a release healthy whose generation is the one the application desires. */
  predicate Serves(w: World, op: Op, app: AppId)
    requires app in w.db.apps
  {
    && op.MarkHealthy? && op.claim.app == app && Reports(w, op.claim)
    && w.db.intents[op.claim.intent].generation == w.db.apps[app].desired
  }

  /**
   An application's generation rises by one exactly when it gets a release with an image, and what it serves changes
   exactly when a release of the desired generation is reported healthy.
   */
  lemma ApplicationFollowsMachine(w: World, op: Op, app: AppId)
    requires app in w.db.apps
    ensures app in Apply(w, op).db.apps
    ensures Apply(w, op).db.apps[app].desired == w.db.apps[app].desired + if BringsImage(w, op, app) then 1 else 0
    ensures Apply(w, op).db.apps[app].current ==
            if Serves(w, op, app) then Some(op.claim.release) else w.db.apps[app].current
  {
  }

  /** A new application desires its first generation and serves nothing. */
  lemma NewApplication(w: World, op: Op, app: AppId)
    requires app !in w.db.apps && app in Apply(w, op).db.apps
    ensures op == CreateApp(app) && Apply(w, op).db.apps[app] == App(1, None)
  {
  }

  // ---------------------------------------------------------------- intents

  /** Where the operation takes the intent. */
  function NextIntentStatus(w: World, op: Op, i: IntentId): Jobs.IntentStatus
    requires i in w.db.intents
  {
    var it := w.db.intents[i];
    match op
    case Supersede =>
      if it.status == Jobs.Pending && it.release in w.db.releases
         && NextStatus(w, Supersede, it.release) == Superseded then Jobs.Terminated else it.status
    case ClaimIntent(iid, _, _) => if iid == i && IsOpen(w, i) then Jobs.Claimed else it.status
    case MarkHealthy(c) => if Reports(w, c) && c.intent == i then Jobs.Applied else it.status
    case MarkFailed(c) => if Reports(w, c) && c.intent == i then Jobs.Terminated else it.status
    case _ => it.status
  }

  /** When the intent's lease runs out after the operation. */
  function NextLease(w: World, op: Op, i: IntentId): Option<int>
    requires i in w.db.intents
  {
    match op
    case ClaimIntent(iid, _, lease) =>
      if iid == i && IsOpen(w, i) then Some(w.now + lease) else w.db.intents[i].leaseExpires
    case Renew(c, extension) =>
      if Reports(w, c) && c.intent == i then Some(w.now + extension) else w.db.intents[i].leaseExpires
    case _ => w.db.intents[i].leaseExpires
  }

  /** Every intent moves exactly as the machines say, and its epoch rises by one exactly when it is claimed. */
  lemma IntentFollowsMachine(w: World, op: Op, i: IntentId)
    requires i in w.db.intents
    ensures i in Apply(w, op).db.intents
    ensures Apply(w, op).db.intents[i].status == NextIntentStatus(w, op, i)
    ensures Apply(w, op).db.intents[i].leaseExpires == NextLease(w, op, i)
    ensures Apply(w, op).db.intents[i].epoch ==
            w.db.intents[i].epoch + if op.ClaimIntent? && op.iid == i && IsOpen(w, i) then 1 else 0
  {
    if op.Supersede? && w.db.intents[i].release in w.db.releases {
      ReleaseFollowsMachine(w, op, w.db.intents[i].release);
    }
  }
}
