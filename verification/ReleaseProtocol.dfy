/**
 Runs of the release rollout with any number of API clients, builders, schedulers and
 executors.  As in the job protocol an operation is one transaction with the
 environment's choices as arguments, a refused one changes nothing, and old scans, claims
 and unlocked reads can be used at any later time.
 */
module ReleaseProtocol {
  import opened ReleaseTables

  /** The maximum release number that a webhook read without a lock. */
  datatype MaxRead = MaxRead(app: AppId, max: nat)

  /** `served` records the generation at which an application's current release was last set. */
  datatype World = World(
    db: Db,
    now: int,
    claims: set<Claim>,
    scans: set<UnadmittedRelease>,
    maxReads: set<MaxRead>,
    served: map<AppId, nat>)

  const INIT: World := World(EMPTY_DB, 0, {}, {}, {}, map[])

  datatype Op =
    | Tick(elapsed: nat)
    | CreateApp(app: AppId)
    | Deploy(app: AppId, id: ReleaseId, number: nat, digest: string)
    | Rollback(app: AppId, target: ReleaseId, id: ReleaseId, number: nat)
    | TriggerBuild(app: AppId, id: ReleaseId, number: nat)
    | ReadMax(app: AppId, max: nat)
    | Webhook(app: AppId, id: ReleaseId, number: nat)
    | ClaimBuild(release: ReleaseId)
    | FinishBuild(release: ReleaseId, digest: string)
    | FailBuild(release: ReleaseId)
    | Supersede
    | Scan(release: ReleaseId)
    | CreateIntent(row: UnadmittedRelease, iid: IntentId)
    | ClaimIntent(iid: IntentId, worker: WorkerId, lease: int)
    | Renew(claim: Claim, extension: int)
    | MarkHealthy(claim: Claim)
    | MarkFailed(claim: Claim)

  function NextDb(w: World, op: Op): Db {
    match op
    case Tick(_) => w.db
    case CreateApp(app) => CreateAppTx(w.db, app)
    case Deploy(app, id, number, digest) => DeployTx(w.db, app, id, number, digest)
    case Rollback(app, target, id, number) => RollbackTx(w.db, app, target, id, number)
    case TriggerBuild(app, id, number) =>
      if LockedInsertOk(w.db, app, id, number) then RequestBuildTx(w.db, app, id, number) else w.db
    case ReadMax(_, _) => w.db
    case Webhook(app, id, number) =>
      if number > 0 && MaxRead(app, number - 1) in w.maxReads then RequestBuildTx(w.db, app, id, number) else w.db
    case ClaimBuild(r) => ClaimBuildTx(w.db, r)
    case FinishBuild(r, digest) => BuildSucceededTx(w.db, r, digest)
    case FailBuild(r) => BuildFailedTx(w.db, r)
    case Supersede => SupersedeTx(w.db)
    case Scan(_) => w.db
    case CreateIntent(row, iid) => if row in w.scans then CreateIntentTx(w.db, row, iid) else w.db
    case ClaimIntent(iid, worker, lease) =>
      if Claimable(w.db, iid, w.now) then ClaimTx(w.db, iid, worker, lease, w.now) else w.db
    case Renew(c, extension) => if c in w.claims then RenewTx(w.db, c, extension, w.now) else w.db
    case MarkHealthy(c) => if c in w.claims then HealthyTx(w.db, c) else w.db
    case MarkFailed(c) => if c in w.claims then FailedTx(w.db, c) else w.db
  }

  function Apply(w: World, op: Op): World {
    World(
      NextDb(w, op),
      if op.Tick? then w.now + op.elapsed else w.now,
      if op.ClaimIntent? && Claimable(w.db, op.iid, w.now) then w.claims + {ClaimOf(w.db, op.iid, op.worker, w.now)}
      else w.claims,
      if op.Scan? && Unadmitted(w.db, op.release) then w.scans + {SnapshotRelease(w.db, op.release)} else w.scans,
      if op.ReadMax? && IsMaxNumber(w.db, op.app, op.max) then w.maxReads + {MaxRead(op.app, op.max)} else w.maxReads,
      if op.MarkHealthy? && op.claim in w.claims && Promotes(w.db, op.claim)
      then w.served[op.claim.app := op.claim.generation] else w.served)
  }

  function Run(w: World, ops: seq<Op>): World
    decreases |ops|
  {
    if ops == [] then w else Run(Apply(w, ops[0]), ops[1..])
  }

  // ---------------------------------------------------------------- invariants of the tables

  predicate AppsKnown(db: Db) {
    forall r :: r in db.releases ==> db.releases[r].app in db.apps
  }

  predicate SameNumber(db: Db, r: ReleaseId, q: ReleaseId) {
    r in db.releases && q in db.releases && db.releases[r].app == db.releases[q].app &&
        db.releases[r].number == db.releases[q].number
  }

  predicate NumbersUnique(db: Db) {
    forall r, q :: r in db.releases && q in db.releases && SameNumber(db, r, q) ==> r == q
  }

  predicate NumbersGapFree(db: Db) {
    && (forall r :: r in db.releases ==> db.releases[r].number >= 1)
    && (forall r, n :: r in db.releases && 1 <= n < db.releases[r].number ==> NumberTaken(db, db.releases[r].app, n))
  }

  predicate BuildingHasNoImage(db: Db) {
    forall r :: r in db.releases && db.releases[r].status.Building? ==> !db.releases[r].Deployable()
  }

  predicate IntentsKnown(db: Db) {
    forall i :: i in db.intents ==> db.intents[i].release in db.releases
  }

  /** The statuses a release can have once an intent of it was claimed. */
  predicate RolledOut(s: ReleaseStatus) {
    s.Deploying? || s.Healthy? || s.DeployFailed?
  }

  predicate ClaimedIsRolledOut(db: Db, i: IntentId)
    requires i in db.intents
  {
    && (db.intents[i].status.Claimed? || db.intents[i].status.Applied? ==> db.intents[i].epoch > 0)
    && (db.intents[i].epoch > 0 ==>
         db.intents[i].release in db.releases && RolledOut(db.releases[db.intents[i].release].status))
  }

  predicate ClaimedAreRolledOut(db: Db) {
    forall i :: i in db.intents ==> ClaimedIsRolledOut(db, i)
  }

  predicate TablesOk(db: Db) {
    && AppsKnown(db) && NumbersUnique(db) && NumbersGapFree(db) && BuildingHasNoImage(db)
    && IntentsKnown(db) && ClaimedAreRolledOut(db)
  }

  // ---------------------------------------------------------------- invariants of snapshots and claims

  /** A scan's generation is past, or it is the desired one and the scanned release is still the head. */
  predicate ScanOk(db: Db, s: UnadmittedRelease) {
    && OfApp(db, s.release, s.app) && db.releases[s.release].number == s.number && s.app in db.apps
    && s.generation <= db.apps[s.app].desired
    && (s.generation == db.apps[s.app].desired ==> IsHead(db, s.app, s.release))
  }

  predicate ScansOk(w: World) {
    forall s :: s in w.scans ==> ScanOk(w.db, s)
  }

  predicate SameTarget(s: UnadmittedRelease, t: UnadmittedRelease) {
    s.app == t.app && s.generation == t.generation
  }

  predicate ScansAgree(w: World) {
    forall s, t :: s in w.scans && t in w.scans && SameTarget(s, t) ==> s.release == t.release
  }

  predicate CameFromScan(w: World, i: IntentId)
    requires i in w.db.intents
  {
    exists s :: s in w.scans && s.release == w.db.intents[i].release && s.generation == w.db.intents[i].generation
  }

  predicate IntentsCameFromScans(w: World) {
    forall i :: i in w.db.intents ==> CameFromScan(w, i)
  }

  predicate ClaimOk(db: Db, c: Claim) {
    && c.intent in db.intents
    && db.intents[c.intent].release == c.release && db.intents[c.intent].generation == c.generation
    && OfApp(db, c.release, c.app)
    && 0 < c.epoch <= db.intents[c.intent].epoch
  }

  predicate ClaimsOk(w: World) {
    forall c :: c in w.claims ==> ClaimOk(w.db, c)
  }

  predicate ReadOk(db: Db, m: MaxRead) {
    m.max > 0 ==> NumberTaken(db, m.app, m.max)
  }

  predicate ReadsOk(w: World) {
    forall m :: m in w.maxReads ==> ReadOk(w.db, m)
  }

  predicate WorldOk(w: World) {
    TablesOk(w.db) && ScansOk(w) && ScansAgree(w) && IntentsCameFromScans(w) && ClaimsOk(w) && ReadsOk(w)
  }

  // ---------------------------------------------------------------- how the tables evolve

  predicate AppsGrow(db: Db, db': Db) {
    forall a :: a in db.apps ==> a in db'.apps && db.apps[a].desired <= db'.apps[a].desired
  }

  predicate SameRelease(r: Release, r': Release) {
    r'.app == r.app && r'.number == r.number && (r.Deployable() ==> r'.Deployable()) &&
        (r.status.Superseded? ==> r'.status.Superseded?)
  }

  predicate ReleasesGrow(db: Db, db': Db) {
    forall r :: r in db.releases ==> r in db'.releases && SameRelease(db.releases[r], db'.releases[r])
  }

  predicate SameIntent(i: ServiceIntent, i': ServiceIntent) {
    i'.release == i.release && i'.generation == i.generation && i.epoch <= i'.epoch &&
        (i.Finished() ==> i'.status == i.status)
  }

  predicate IntentsGrow(db: Db, db': Db) {
    forall i :: i in db.intents ==> i in db'.intents && SameIntent(db.intents[i], db'.intents[i])
  }

  predicate NewGeneration(db: Db, db': Db, app: AppId) {
    app in db.apps ==> app in db'.apps && db.apps[app].desired < db'.apps[app].desired
  }

  /** A release becomes deployable only in a transaction that raises its application's generation. */
  predicate HeadsMoveWithGeneration(db: Db, db': Db) {
    forall r :: r in db'.releases && db'.releases[r].Deployable() ==>
      (r in db.releases && db.releases[r].Deployable()) || NewGeneration(db, db', db'.releases[r].app)
  }

  predicate Evolves(db: Db, db': Db) {
    AppsGrow(db, db') && ReleasesGrow(db, db') && IntentsGrow(db, db') && HeadsMoveWithGeneration(db, db')
  }

  lemma CreateAppEvolves(db: Db, app: AppId)
    ensures Evolves(db, CreateAppTx(db, app))
  {
  }

  lemma DeployEvolves(db: Db, app: AppId, id: ReleaseId, number: nat, digest: string)
    ensures Evolves(db, DeployTx(db, app, id, number, digest))
  {
  }

  lemma RequestBuildEvolves(db: Db, app: AppId, id: ReleaseId, number: nat)
    ensures Evolves(db, RequestBuildTx(db, app, id, number))
  {
  }

  lemma ClaimBuildEvolves(db: Db, r: ReleaseId)
    ensures Evolves(db, ClaimBuildTx(db, r))
  {
  }

  lemma FinishBuildEvolves(db: Db, r: ReleaseId, digest: string)
    requires BuildingHasNoImage(db)
    ensures Evolves(db, BuildSucceededTx(db, r, digest))
  {
  }

  lemma FailBuildEvolves(db: Db, r: ReleaseId)
    ensures Evolves(db, BuildFailedTx(db, r))
  {
  }

  lemma SupersedeEvolves(db: Db)
    ensures Evolves(db, SupersedeTx(db))
  {
  }

  lemma CreateIntentEvolves(db: Db, s: UnadmittedRelease, iid: IntentId)
    ensures Evolves(db, CreateIntentTx(db, s, iid))
  {
  }

  lemma ClaimEvolves(db: Db, iid: IntentId, worker: WorkerId, lease: int, now: int)
    requires Claimable(db, iid, now)
    ensures Evolves(db, ClaimTx(db, iid, worker, lease, now))
  {
  }

  lemma RenewEvolves(db: Db, c: Claim, extension: int, now: int)
    ensures Evolves(db, RenewTx(db, c, extension, now))
  {
  }

  /** The unguarded release writes are safe because a held intent's release is never SUPERSEDED. */
  lemma HeldIsRolledOut(db: Db, c: Claim)
    requires ClaimedAreRolledOut(db) && ClaimOk(db, c) && Holds(db, c)
    ensures c.release in db.releases && RolledOut(db.releases[c.release].status)
  {
    assert ClaimedIsRolledOut(db, c.intent);
  }

  lemma HealthyEvolves(db: Db, c: Claim)
    requires ClaimedAreRolledOut(db) && ClaimOk(db, c)
    ensures Evolves(db, HealthyTx(db, c))
  {
    if Holds(db, c) {
      HeldIsRolledOut(db, c);
    }
  }

  lemma FailedEvolves(db: Db, c: Claim)
    requires ClaimedAreRolledOut(db) && ClaimOk(db, c)
    ensures Evolves(db, FailedTx(db, c))
  {
    if Holds(db, c) {
      HeldIsRolledOut(db, c);
    }
  }

  lemma RequestsEvolve(w: World, op: Op)
    requires op.CreateApp? || op.Deploy? || op.Rollback? || op.TriggerBuild? || op.Webhook?
    ensures Evolves(w.db, NextDb(w, op))
  {
    match op
    case CreateApp(app) => CreateAppEvolves(w.db, app);
    case Deploy(app, id, number, digest) => DeployEvolves(w.db, app, id, number, digest);
    case Rollback(app, target, id, number) =>
      if OfApp(w.db, target, app) {
        DeployEvolves(w.db, app, id, number, w.db.releases[target].digest);
      }
    case TriggerBuild(app, id, number) => RequestBuildEvolves(w.db, app, id, number);
    case Webhook(app, id, number) => RequestBuildEvolves(w.db, app, id, number);
  }

  lemma ClaimsEvolve(w: World, op: Op)
    requires op.ClaimIntent? || op.Renew?
    ensures Evolves(w.db, NextDb(w, op))
  {
    match op
    case ClaimIntent(iid, worker, lease) =>
      if Claimable(w.db, iid, w.now) {
        ClaimEvolves(w.db, iid, worker, lease, w.now);
      }
    case Renew(c, extension) => RenewEvolves(w.db, c, extension, w.now);
  }

  lemma ReportsEvolve(w: World, op: Op)
    requires (op.MarkHealthy? || op.MarkFailed?) && ClaimedAreRolledOut(w.db)
    requires op.claim in w.claims ==> ClaimOk(w.db, op.claim)
    ensures Evolves(w.db, NextDb(w, op))
  {
    if op.claim in w.claims {
      if op.MarkHealthy? {
        HealthyEvolves(w.db, op.claim);
      } else {
        FailedEvolves(w.db, op.claim);
      }
    }
  }

  lemma StepEvolves(w: World, op: Op)
    requires WorldOk(w)
    ensures Evolves(w.db, NextDb(w, op))
  {
    if op.CreateApp? || op.Deploy? || op.Rollback? || op.TriggerBuild? || op.Webhook? {
      RequestsEvolve(w, op);
    } else if op.ClaimIntent? || op.Renew? {
      ClaimsEvolve(w, op);
    } else if op.MarkHealthy? || op.MarkFailed? {
      ReportsEvolve(w, op);
    } else {
      match op
      case ClaimBuild(r) => ClaimBuildEvolves(w.db, r);
      case FinishBuild(r, digest) => FinishBuildEvolves(w.db, r, digest);
      case FailBuild(r) => FailBuildEvolves(w.db, r);
      case Supersede => SupersedeEvolves(w.db);
      case CreateIntent(row, iid) => CreateIntentEvolves(w.db, row, iid);
      case _ =>
    }
  }

  // ---------------------------------------------------------------- the tables stay in order

  lemma DeployKeepsTables(db: Db, app: AppId, id: ReleaseId, number: nat, digest: string)
    requires TablesOk(db)
    ensures TablesOk(DeployTx(db, app, id, number, digest))
  {
    if LockedInsertOk(db, app, id, number) {
      InsertKeepsNumbers(db, DeployTx(db, app, id, number, digest), app, id, number);
    }
  }

  lemma RequestBuildKeepsTables(db: Db, app: AppId, id: ReleaseId, number: nat)
    requires TablesOk(db) && LockedInsertOk(db, app, id, number)
    ensures TablesOk(RequestBuildTx(db, app, id, number))
  {
    InsertKeepsNumbers(db, RequestBuildTx(db, app, id, number), app, id, number);
  }

  /** Inserting the number after the maximum keeps an application's numbers 1, 2, ... */
  lemma InsertKeepsNumbers(db: Db, db': Db, app: AppId, id: ReleaseId, number: nat)
    requires NumbersUnique(db) && NumbersGapFree(db) && LockedInsertOk(db, app, id, number)
    requires exists rel: Release :: rel.app == app && rel.number == number && db'.releases == db.releases[id := rel]
    ensures NumbersUnique(db') && NumbersGapFree(db')
  {
    forall r, q | r in db'.releases && q in db'.releases && SameNumber(db', r, q) ensures r == q {
      if r != id && q != id {
        assert SameNumber(db, r, q);
      } else if r != id {
        assert OfApp(db, r, app);
      } else if q != id {
        assert OfApp(db, q, app);
      }
    }
    forall r, n | r in db'.releases && 1 <= n < db'.releases[r].number
      ensures NumberTaken(db', db'.releases[r].app, n)
    {
      if r == id {
        BelowMaxIsTaken(db, app, number - 1, n);
      }
      assert NumberTaken(db, db'.releases[r].app, n);
      var q :| q in db.releases && OfApp(db, q, db'.releases[r].app) && db.releases[q].number == n;
      assert OfApp(db', q, db'.releases[r].app);
    }
  }

  lemma BelowMaxIsTaken(db: Db, app: AppId, m: nat, n: nat)
    requires NumbersGapFree(db) && IsMaxNumber(db, app, m) && 1 <= n <= m
    ensures NumberTaken(db, app, n)
  {
    var r :| r in db.releases && OfApp(db, r, app) && db.releases[r].number == m;
    assert n < m ==> NumberTaken(db, db.releases[r].app, n);
  }

  /** The status and digest of releases do not matter for their numbers. */
  lemma SameNumbersStay(db: Db, db': Db)
    requires NumbersUnique(db) && NumbersGapFree(db) && db'.releases.Keys == db.releases.Keys
    requires ReleasesGrow(db, db')
    ensures NumbersUnique(db') && NumbersGapFree(db')
  {
    forall r, q | r in db'.releases && q in db'.releases && SameNumber(db', r, q) ensures r == q {
      assert SameNumber(db, r, q);
    }
    forall r, n | r in db'.releases && 1 <= n < db'.releases[r].number
      ensures NumberTaken(db', db'.releases[r].app, n)
    {
      assert NumberTaken(db, db.releases[r].app, n);
      var q :| q in db.releases && OfApp(db, q, db.releases[r].app) && db.releases[q].number == n;
      assert OfApp(db', q, db'.releases[r].app);
    }
  }

  /** Without new releases or intents only statuses and digests can get out of order. */
  lemma SameRowsKeepTables(db: Db, db': Db)
    requires TablesOk(db) && Evolves(db, db')
    requires db'.releases.Keys == db.releases.Keys && db'.intents.Keys == db.intents.Keys
    requires BuildingHasNoImage(db') && ClaimedAreRolledOut(db')
    ensures TablesOk(db')
  {
    SameNumbersStay(db, db');
  }

  lemma ClaimBuildKeepsTables(db: Db, r: ReleaseId)
    requires TablesOk(db)
    ensures TablesOk(ClaimBuildTx(db, r))
  {
    var db' := ClaimBuildTx(db, r);
    ClaimBuildEvolves(db, r);
    forall i | i in db'.intents ensures ClaimedIsRolledOut(db', i) {
      assert ClaimedIsRolledOut(db, i);
    }
    SameRowsKeepTables(db, db');
  }

  lemma FinishBuildKeepsTables(db: Db, r: ReleaseId, digest: string)
    requires TablesOk(db)
    ensures TablesOk(BuildSucceededTx(db, r, digest))
  {
    var db' := BuildSucceededTx(db, r, digest);
    FinishBuildEvolves(db, r, digest);
    forall i | i in db'.intents ensures ClaimedIsRolledOut(db', i) {
      assert ClaimedIsRolledOut(db, i);
    }
    SameRowsKeepTables(db, db');
  }

  lemma FailBuildKeepsTables(db: Db, r: ReleaseId)
    requires TablesOk(db)
    ensures TablesOk(BuildFailedTx(db, r))
  {
    var db' := BuildFailedTx(db, r);
    FailBuildEvolves(db, r);
    forall i | i in db'.intents ensures ClaimedIsRolledOut(db', i) {
      assert ClaimedIsRolledOut(db, i);
    }
    SameRowsKeepTables(db, db');
  }

  lemma SupersedeKeepsTables(db: Db)
    requires TablesOk(db)
    ensures TablesOk(SupersedeTx(db))
  {
    var db' := SupersedeTx(db);
    SupersedeEvolves(db);
    forall i | i in db'.intents ensures ClaimedIsRolledOut(db', i) {
      assert ClaimedIsRolledOut(db, i);
    }
    SameRowsKeepTables(db, db');
  }

  lemma ClaimKeepsTables(db: Db, iid: IntentId, worker: WorkerId, lease: int, now: int)
    requires TablesOk(db) && Claimable(db, iid, now)
    ensures TablesOk(ClaimTx(db, iid, worker, lease, now))
  {
    var db' := ClaimTx(db, iid, worker, lease, now);
    ClaimEvolves(db, iid, worker, lease, now);
    forall i | i in db'.intents ensures ClaimedIsRolledOut(db', i) {
      assert ClaimedIsRolledOut(db, i);
    }
    SameRowsKeepTables(db, db');
  }

  lemma RenewKeepsTables(db: Db, c: Claim, extension: int, now: int)
    requires TablesOk(db)
    ensures TablesOk(RenewTx(db, c, extension, now))
  {
    var db' := RenewTx(db, c, extension, now);
    RenewEvolves(db, c, extension, now);
    forall i | i in db'.intents ensures ClaimedIsRolledOut(db', i) {
      assert ClaimedIsRolledOut(db, i);
    }
    SameRowsKeepTables(db, db');
  }

  lemma HealthyKeepsTables(db: Db, c: Claim)
    requires TablesOk(db) && ClaimOk(db, c)
    ensures TablesOk(HealthyTx(db, c))
  {
    var db' := HealthyTx(db, c);
    HealthyEvolves(db, c);
    forall i | i in db'.intents ensures ClaimedIsRolledOut(db', i) {
      assert ClaimedIsRolledOut(db, i);
    }
    SameRowsKeepTables(db, db');
  }

  lemma FailedKeepsTables(db: Db, c: Claim)
    requires TablesOk(db) && ClaimOk(db, c)
    ensures TablesOk(FailedTx(db, c))
  {
    var db' := FailedTx(db, c);
    FailedEvolves(db, c);
    forall i | i in db'.intents ensures ClaimedIsRolledOut(db', i) {
      assert ClaimedIsRolledOut(db, i);
    }
    SameRowsKeepTables(db, db');
  }

  lemma CreateIntentKeepsTables(db: Db, s: UnadmittedRelease, iid: IntentId)
    requires TablesOk(db)
    ensures TablesOk(CreateIntentTx(db, s, iid))
  {
    var db' := CreateIntentTx(db, s, iid);
    forall i | i in db'.intents && i in db.intents ensures ClaimedIsRolledOut(db', i) {
      assert ClaimedIsRolledOut(db, i);
    }
    SameNumbersStay(db, db');
  }

  lemma CreateAppKeepsTables(db: Db, app: AppId)
    requires TablesOk(db)
    ensures TablesOk(CreateAppTx(db, app))
  {
    var db' := CreateAppTx(db, app);
    forall i | i in db'.intents ensures ClaimedIsRolledOut(db', i) {
      assert ClaimedIsRolledOut(db, i);
    }
    SameNumbersStay(db, db');
  }

  /** A number read without a lock is free only if nothing was inserted since, so it is still the maximum. */
  lemma FreeNumberIsNext(db: Db, m: MaxRead, id: ReleaseId)
    requires TablesOk(db) && ReadOk(db, m) && InsertOk(db, m.app, id, m.max + 1)
    ensures LockedInsertOk(db, m.app, id, m.max + 1)
  {
    forall r | r in db.releases && OfApp(db, r, m.app) ensures db.releases[r].number <= m.max {
      assert db.releases[r].number == m.max + 1 ==> NumberTaken(db, m.app, m.max + 1);
    }
  }

  lemma WebhookKeepsTables(w: World, op: Op)
    requires WorldOk(w) && op.Webhook?
    ensures TablesOk(NextDb(w, op))
  {
    if op.number > 0 && MaxRead(op.app, op.number - 1) in w.maxReads && InsertOk(w.db, op.app, op.id, op.number) {
      FreeNumberIsNext(w.db, MaxRead(op.app, op.number - 1), op.id);
      RequestBuildKeepsTables(w.db, op.app, op.id, op.number);
    }
  }

  lemma StepKeepsTables(w: World, op: Op)
    requires WorldOk(w)
    ensures TablesOk(NextDb(w, op))
  {
    match op
    case CreateApp(app) => CreateAppKeepsTables(w.db, app);
    case Deploy(app, id, number, digest) => DeployKeepsTables(w.db, app, id, number, digest);
    case Rollback(app, target, id, number) =>
      if OfApp(w.db, target, app) {
        DeployKeepsTables(w.db, app, id, number, w.db.releases[target].digest);
      }
    case TriggerBuild(app, id, number) =>
      if LockedInsertOk(w.db, app, id, number) {
        RequestBuildKeepsTables(w.db, app, id, number);
      }
    case Webhook(_, _, _) => WebhookKeepsTables(w, op);
    case ClaimBuild(r) => ClaimBuildKeepsTables(w.db, r);
    case FinishBuild(r, digest) => FinishBuildKeepsTables(w.db, r, digest);
    case FailBuild(r) => FailBuildKeepsTables(w.db, r);
    case Supersede => SupersedeKeepsTables(w.db);
    case CreateIntent(row, iid) => CreateIntentKeepsTables(w.db, row, iid);
    case ClaimIntent(iid, worker, lease) =>
      if Claimable(w.db, iid, w.now) {
        ClaimKeepsTables(w.db, iid, worker, lease, w.now);
      }
    case Renew(c, extension) => RenewKeepsTables(w.db, c, extension, w.now);
    case MarkHealthy(c) =>
      if c in w.claims {
        HealthyKeepsTables(w.db, c);
      }
    case MarkFailed(c) =>
      if c in w.claims {
        FailedKeepsTables(w.db, c);
      }
    case _ =>
  }

  // ---------------------------------------------------------------- snapshots and claims stay in order

  /** As long as the generation stays, the head stays. */
  lemma HeadStays(db: Db, db': Db, app: AppId, r: ReleaseId)
    requires Evolves(db, db') && IsHead(db, app, r) && app in db.apps && app in db'.apps &&
             db'.apps[app].desired == db.apps[app].desired
    ensures IsHead(db', app, r)
  {
    forall q | q in db'.releases && OfApp(db', q, app) && db'.releases[q].Deployable()
      ensures db'.releases[q].number <= db'.releases[r].number
    {
      assert q in db.releases && db.releases[q].Deployable() && OfApp(db, q, app);
    }
  }

  lemma ScanStaysOk(db: Db, db': Db, s: UnadmittedRelease)
    requires Evolves(db, db') && ScanOk(db, s)
    ensures ScanOk(db', s)
  {
    if s.generation == db'.apps[s.app].desired {
      HeadStays(db, db', s.app, s.release);
    }
  }

  lemma StepKeepsScans(w: World, op: Op)
    requires WorldOk(w) && Evolves(w.db, NextDb(w, op))
    ensures ScansOk(Apply(w, op)) && ScansAgree(Apply(w, op))
  {
    forall s | s in w.scans ensures ScanOk(NextDb(w, op), s) {
      ScanStaysOk(w.db, NextDb(w, op), s);
    }
    if op.Scan? && Unadmitted(w.db, op.release) {
      NewScanAgrees(w, op.release);
    }
  }

  /** A new scan names the head at the desired generation, and so does every earlier scan of that generation. */
  lemma NewScanAgrees(w: World, r: ReleaseId)
    requires WorldOk(w) && Unadmitted(w.db, r)
    ensures ScanOk(w.db, SnapshotRelease(w.db, r))
    ensures forall s :: s in w.scans && SameTarget(s, SnapshotRelease(w.db, r)) ==> s.release == r
  {
    forall s | s in w.scans && SameTarget(s, SnapshotRelease(w.db, r)) ensures s.release == r {
      assert ScanOk(w.db, s);
      HeadIsUnique(w.db, s.app, s.release, r);
    }
  }

  lemma HeadIsUnique(db: Db, app: AppId, r: ReleaseId, q: ReleaseId)
    requires NumbersUnique(db) && IsHead(db, app, r) && IsHead(db, app, q)
    ensures r == q
  {
    assert SameNumber(db, r, q);
  }

  lemma NewIntentCameFromScan(w: World, op: Op, i: IntentId)
    requires i !in w.db.intents && i in NextDb(w, op).intents
    ensures op.CreateIntent? && op.row in w.scans && i == op.iid
    ensures NextDb(w, op).intents[i].release == op.row.release &&
            NextDb(w, op).intents[i].generation == op.row.generation
    ensures !NextDb(w, op).intents[i].Finished()
  {
  }

  lemma StepKeepsOrigins(w: World, op: Op)
    requires WorldOk(w) && Evolves(w.db, NextDb(w, op))
    ensures IntentsCameFromScans(Apply(w, op))
  {
    var w' := Apply(w, op);
    forall i | i in w'.db.intents ensures CameFromScan(w', i) {
      if i in w.db.intents {
        assert CameFromScan(w, i);
        var s :| s in w.scans && s.release == w.db.intents[i].release && s.generation == w.db.intents[i].generation;
        assert s in w'.scans;
      } else {
        NewIntentCameFromScan(w, op, i);
        assert op.row in w'.scans;
      }
    }
  }

  lemma ClaimStaysOk(db: Db, db': Db, c: Claim)
    requires Evolves(db, db') && ClaimOk(db, c)
    ensures ClaimOk(db', c)
  {
  }

  lemma ReadStaysOk(db: Db, db': Db, m: MaxRead)
    requires Evolves(db, db') && ReadOk(db, m)
    ensures ReadOk(db', m)
  {
    if m.max > 0 {
      var r :| r in db.releases && OfApp(db, r, m.app) && db.releases[r].number == m.max;
      assert OfApp(db', r, m.app);
    }
  }

  lemma StepKeepsClaims(w: World, op: Op)
    requires ClaimsOk(w) && Evolves(w.db, NextDb(w, op))
    ensures ClaimsOk(Apply(w, op))
  {
    forall c | c in w.claims ensures ClaimOk(NextDb(w, op), c) {
      ClaimStaysOk(w.db, NextDb(w, op), c);
    }
  }

  lemma StepKeepsReads(w: World, op: Op)
    requires ReadsOk(w) && Evolves(w.db, NextDb(w, op))
    ensures ReadsOk(Apply(w, op))
  {
    forall m | m in w.maxReads ensures ReadOk(NextDb(w, op), m) {
      ReadStaysOk(w.db, NextDb(w, op), m);
    }
  }

  lemma StepKeepsWorld(w: World, op: Op)
    requires WorldOk(w)
    ensures WorldOk(Apply(w, op)) && Evolves(w.db, Apply(w, op).db)
  {
    StepEvolves(w, op);
    StepKeepsTables(w, op);
    StepKeepsScans(w, op);
    StepKeepsOrigins(w, op);
    StepKeepsClaims(w, op);
    StepKeepsReads(w, op);
  }

  lemma {:induction false} RunKeepsWorld(w: World, ops: seq<Op>)
    requires WorldOk(w)
    ensures WorldOk(Run(w, ops))
    decreases |ops|
  {
    if ops != [] {
      StepKeepsWorld(w, ops[0]);
      RunKeepsWorld(Apply(w, ops[0]), ops[1..]);
    }
  }
}
