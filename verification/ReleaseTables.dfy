/**
 The tables of the release rollout protocol (applications, releases, service intents) and,
 for each store or API transaction on them, when it commits and what it leaves behind.
 */
module ReleaseTables {
  import opened Options
  import opened Decimals
  import Jobs = JobTables

  type AppId = string
  type ReleaseId = nat
  type IntentId = nat
  type WorkerId = nat

  datatype ReleaseStatus =
    | Requested
    | Building
    | ImageReady
    | Deploying
    | Healthy
    | BuildFailed
    | DeployFailed
    | Superseded

  const PENDING_DIGEST := "pending"

  datatype App = App(desired: nat, current: Option<ReleaseId>)

  datatype Release = Release(app: AppId, number: nat, digest: string, status: ReleaseStatus) {
    /** A release can be rolled out once its image digest is known. */
    predicate Deployable() {
      digest != PENDING_DIGEST
    }

    predicate Waiting() {
      status.ImageReady? || status.Requested?
    }
  }

  /** A SERVICE_RELEASE row of `execution_intents`. */
  datatype ServiceIntent = ServiceIntent(
    release: ReleaseId,
    generation: nat,
    status: Jobs.IntentStatus,
    epoch: nat,
    holder: Option<WorkerId>,
    leaseExpires: Option<int>)
  {
    predicate LeaseExpired(now: int) {
      leaseExpires.Some? && leaseExpires.value < now
    }

    predicate Finished() {
      status.Applied? || status.Terminated?
    }
  }

  datatype Db = Db(
    apps: map<AppId, App>,
    releases: map<ReleaseId, Release>,
    intents: map<IntentId, ServiceIntent>)

  const EMPTY_DB: Db := Db(map[], map[], map[])

  /** A row of `ScanUnadmittedReleases`; it may be stale when an intent is created from it. */
  datatype UnadmittedRelease = UnadmittedRelease(release: ReleaseId, app: AppId, number: nat, generation: nat)

  /** What an executor holds after `ClaimNextServiceRelease`. */
  datatype Claim = Claim(
    intent: IntentId,
    release: ReleaseId,
    app: AppId,
    generation: nat,
    epoch: nat,
    holder: WorkerId)

  predicate OfApp(db: Db, r: ReleaseId, app: AppId) {
    r in db.releases && db.releases[r].app == app
  }

  predicate NumberTaken(db: Db, app: AppId, number: int) {
    exists r :: r in db.releases && OfApp(db, r, app) && db.releases[r].number == number
  }

  /** `COALESCE(MAX(release_number), 0)` over the application's releases is `m`. */
  predicate IsMaxNumber(db: Db, app: AppId, m: nat) {
    && (forall r :: r in db.releases && OfApp(db, r, app) ==> db.releases[r].number <= m)
    && (m > 0 ==> NumberTaken(db, app, m))
  }

  /** The deployable release with the highest number. */
  predicate IsHead(db: Db, app: AppId, r: ReleaseId) {
    && OfApp(db, r, app) && db.releases[r].Deployable()
    && forall q :: q in db.releases && OfApp(db, q, app) && db.releases[q].Deployable() ==>
         db.releases[q].number <= db.releases[r].number
  }

  // ---------------------------------------------------------------- API transactions

  function CreateAppTx(db: Db, app: AppId): Db {
    if app in db.apps then db else db.(apps := db.apps[app := App(1, None)])
  }

  /** A release of a known application may be inserted under a fresh id with a free number. */
  predicate InsertOk(db: Db, app: AppId, id: ReleaseId, number: nat) {
    app in db.apps && id !in db.releases && !NumberTaken(db, app, number)
  }

  /** Under the application's row lock the next number is the maximum plus one. */
  predicate LockedInsertOk(db: Db, app: AppId, id: ReleaseId, number: nat) {
    InsertOk(db, app, id, number) && number > 0 && IsMaxNumber(db, app, number - 1)
  }

  function RaiseGeneration(db: Db, app: AppId): map<AppId, App>
    requires app in db.apps
  {
    db.apps[app := db.apps[app].(desired := db.apps[app].desired + 1)]
  }

  /** `deploy_release`: the digest is whatever the client sent. */
  function DeployTx(db: Db, app: AppId, id: ReleaseId, number: nat, digest: string): Db {
    if !LockedInsertOk(db, app, id, number) then db
    else db.(apps := RaiseGeneration(db, app),
             releases := db.releases[id := Release(app, number, digest, ImageReady)])
  }

  /** `rollback_release`: a new release with the target's digest, even if that is still pending. */
  function RollbackTx(db: Db, app: AppId, target: ReleaseId, id: ReleaseId, number: nat): Db {
    if !OfApp(db, target, app) then db
    else DeployTx(db, app, id, number, db.releases[target].digest)
  }

  /** `trigger_build` and the webhook: a release without an image; the generation stays. */
  function RequestBuildTx(db: Db, app: AppId, id: ReleaseId, number: nat): Db {
    if !InsertOk(db, app, id, number) then db
    else db.(releases := db.releases[id := Release(app, number, PENDING_DIGEST, Requested)])
  }

  // ---------------------------------------------------------------- builds

  function SetStatus(db: Db, r: ReleaseId, status: ReleaseStatus): map<ReleaseId, Release>
    requires r in db.releases
  {
    db.releases[r := db.releases[r].(status := status)]
  }

  function ClaimBuildTx(db: Db, r: ReleaseId): Db {
    if r in db.releases && db.releases[r].status.Requested? && !db.releases[r].Deployable()
    then db.(releases := SetStatus(db, r, Building))
    else db
  }

  predicate IsBuilding(db: Db, r: ReleaseId) {
    r in db.releases && db.releases[r].status.Building? && db.releases[r].app in db.apps
  }

  function BuildSucceededTx(db: Db, r: ReleaseId, digest: string): Db {
    if !IsBuilding(db, r) then db
    else db.(apps := RaiseGeneration(db, db.releases[r].app),
             releases := db.releases[r := db.releases[r].(status := ImageReady, digest := digest)])
  }

  function BuildFailedTx(db: Db, r: ReleaseId): Db {
    if r in db.releases && db.releases[r].status.Building? then db.(releases := SetStatus(db, r, BuildFailed)) else db
  }

  // ---------------------------------------------------------------- admission

  /** A newer release of the same application is deployable. */
  predicate Outdated(db: Db, r: ReleaseId)
    requires r in db.releases
  {
    exists q :: q in db.releases && OfApp(db, q, db.releases[r].app) && db.releases[q].Deployable()
      && db.releases[r].number < db.releases[q].number
  }

  function SupersedeReleases(db: Db): map<ReleaseId, Release> {
    map r | r in db.releases ::
      if db.releases[r].Waiting() && Outdated(db, r) then db.releases[r].(status := Superseded) else db.releases[r]
  }

  predicate OfSuperseded(releases: map<ReleaseId, Release>, i: ServiceIntent) {
    i.release in releases && releases[i.release].status.Superseded?
  }

  function TerminateIntents(intents: map<IntentId, ServiceIntent>,
                            releases: map<ReleaseId, Release>): map<IntentId, ServiceIntent> {
    map i | i in intents ::
      if intents[i].status.Pending? && OfSuperseded(releases, intents[i])
      then intents[i].(status := Jobs.Terminated) else intents[i]
  }

  /** The first transaction of `ScanUnadmittedReleases`. */
  function SupersedeTx(db: Db): Db {
    var releases := SupersedeReleases(db);
    db.(releases := releases, intents := TerminateIntents(db.intents, releases))
  }

  /** The release's rollout at this generation is under way or done. */
  predicate RolloutExists(db: Db, r: ReleaseId, generation: nat) {
    exists i :: i in db.intents && db.intents[i].release == r && db.intents[i].generation == generation
      && !db.intents[i].status.Terminated?
  }

  /** The WHERE clause of the scan: the head of its application, waiting, with no rollout at the desired generation. */
  predicate Unadmitted(db: Db, r: ReleaseId) {
    && r in db.releases && db.releases[r].app in db.apps
    && db.releases[r].Waiting()
    && IsHead(db, db.releases[r].app, r)
    && !RolloutExists(db, r, db.apps[db.releases[r].app].desired)
  }

  function SnapshotRelease(db: Db, r: ReleaseId): UnadmittedRelease
    requires Unadmitted(db, r)
  {
    var rel := db.releases[r];
    UnadmittedRelease(r, rel.app, rel.number, db.apps[rel.app].desired)
  }

  /** The unique constraint on (release, generation). */
  predicate TargetTaken(db: Db, r: ReleaseId, generation: nat) {
    exists i :: i in db.intents && db.intents[i].release == r && db.intents[i].generation == generation
  }

  /** `CreateServiceReleaseIntent`: no look at the release's status. */
  function CreateIntentTx(db: Db, s: UnadmittedRelease, iid: IntentId): Db {
    if iid in db.intents || s.release !in db.releases || TargetTaken(db, s.release, s.generation) then db
    else db.(intents := db.intents[iid := ServiceIntent(s.release, s.generation, Jobs.Pending, 0, None, None)])
  }

  // ---------------------------------------------------------------- claim, lease and outcome

  /** An intent that `ClaimNextServiceRelease` may select. */
  predicate Claimable(db: Db, iid: IntentId, now: int) {
    && iid in db.intents
    && var i := db.intents[iid];
    && (i.status.Pending? || (i.status.Claimed? && i.LeaseExpired(now)))
    && i.release in db.releases && db.releases[i.release].app in db.apps
    && !db.releases[i.release].status.Superseded?
  }

  function ClaimOf(db: Db, iid: IntentId, worker: WorkerId, now: int): Claim
    requires Claimable(db, iid, now)
  {
    var i := db.intents[iid];
    Claim(iid, i.release, db.releases[i.release].app, i.generation, i.epoch + 1, worker)
  }

  function ClaimTx(db: Db, iid: IntentId, worker: WorkerId, lease: int, now: int): Db
    requires Claimable(db, iid, now)
  {
    var i := db.intents[iid];
    db.(intents := db.intents[iid := i.(status := Jobs.Claimed, holder := Some(worker), epoch := i.epoch + 1,
                                        leaseExpires := Some(now + lease))],
        releases := SetStatus(db, i.release, Deploying))
  }

  /** The fence of every write by a claim holder. */
  predicate Holds(db: Db, c: Claim) {
    && c.epoch > 0 && c.intent in db.intents
    && db.intents[c.intent].epoch == c.epoch && db.intents[c.intent].status.Claimed?
  }

  function RenewTx(db: Db, c: Claim, extension: int, now: int): Db {
    if !Holds(db, c) then db
    else db.(intents := db.intents[c.intent := db.intents[c.intent].(leaseExpires := Some(now + extension))])
  }

  /** Promotion is decided by the generation alone. */
  predicate Promotes(db: Db, c: Claim) {
    Holds(db, c) && c.app in db.apps && db.apps[c.app].desired == db.intents[c.intent].generation
  }

  /** `MarkReleaseHealthy`: the release write is unguarded. */
  function HealthyTx(db: Db, c: Claim): Db {
    if !Holds(db, c) then db
    else db.(intents := db.intents[c.intent := db.intents[c.intent].(status := Jobs.Applied)],
             releases := if c.release in db.releases then SetStatus(db, c.release, Healthy) else db.releases,
             apps := if Promotes(db, c) then db.apps[c.app := db.apps[c.app].(current := Some(c.release))] else db.apps)
  }

  /** `MarkReleaseFailed`: the release write is unguarded. */
  function FailedTx(db: Db, c: Claim): Db {
    if !Holds(db, c) then db
    else db.(intents := db.intents[c.intent := db.intents[c.intent].(status := Jobs.Terminated)],
             releases := if c.release in db.releases then SetStatus(db, c.release, DeployFailed) else db.releases)
  }

  // ---------------------------------------------------------------- resource names

  /** `hc-svc-{app}-{generation}`. */
  function ResourceName(app: AppId, generation: nat): string {
    "hc-svc-" + app + "-" + Decimal(generation)
  }

  /** What follows the last dash is determined by the whole. */
  lemma LastDashSplits(a: string, x: string, b: string, y: string)
    requires a + "-" + x == b + "-" + y && '-' !in x && '-' !in y
    ensures a == b && x == y
  {
    var s := a + "-" + x;
    assert s[|a|] == '-' && s[|b|] == '-';
    assert |a| == |b|;
    assert a == s[..|a|] && b == s[..|b|];
    assert x == s[|a| + 1..] && y == s[|b| + 1..];
  }

  /** A resource name determines the application and the generation, whatever characters ids have. */
  lemma NamesAreDistinct(a: AppId, m: nat, b: AppId, n: nat)
    requires ResourceName(a, m) == ResourceName(b, n)
    ensures a == b && m == n
  {
    DecimalHasNoDash(m);
    DecimalHasNoDash(n);
    LastDashSplits("hc-svc-" + a, Decimal(m), "hc-svc-" + b, Decimal(n));
    assert a == ("hc-svc-" + a)[7..] && b == ("hc-svc-" + b)[7..];
    DecimalIsInjective(m, n);
  }
}
