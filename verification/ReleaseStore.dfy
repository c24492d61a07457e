/**
 The release transactions of `PostgresStore` and of the API, statement by statement, each proved to
 leave the tables that its specification in ReleaseTables gives.  The contracts also say in plain
 statuses and values when a transaction commits and what it writes.
 */
module ReleaseStore {
  import opened Options
  import opened Rows
  import opened Queries
  import opened ReleaseTables
  import Jobs = JobTables

  /** `SELECT COALESCE(MAX(release_number), 0) ... WHERE application_id`. */
  method MaxReleaseNumber(db: Db, app: AppId) returns (m: nat)
    ensures IsMaxNumber(db, app, m)
  {
    var mine := set r | r in db.releases && OfApp(db, r, app);
    var rows := SelectOrdered(mine, map r | r in mine :: SortKey(0 - db.releases[r].number, 0), 1);
    if rows == [] {
      assert forall r :: r in db.releases && OfApp(db, r, app) ==> r in mine;
      return 0;
    }
    assert rows[0] in mine;
    m := db.releases[rows[0]].number;
    forall r | r in db.releases && OfApp(db, r, app) ensures db.releases[r].number <= m {
      assert r in mine;
    }
  }

  predicate DeployableOf(db: Db, r: ReleaseId, app: AppId) {
    OfApp(db, r, app) && db.releases[r].Deployable()
  }

  /** `SELECT MAX(release_number) ... WHERE image_digest != 'pending'`; None is NULL. */
  method MaxDeployableNumber(db: Db, app: AppId) returns (m: Option<nat>)
    ensures m.None? ==> forall q :: q in db.releases ==> !DeployableOf(db, q, app)
    ensures m.Some? ==> (exists q :: q in db.releases && DeployableOf(db, q, app) && db.releases[q].number == m.value)
                        && forall q :: q in db.releases && DeployableOf(db, q, app) ==> db.releases[q].number <= m.value
  {
    var mine := set r | r in db.releases && DeployableOf(db, r, app);
    var rows := SelectOrdered(mine, map r | r in mine :: SortKey(0 - db.releases[r].number, 0), 1);
    if rows == [] {
      assert forall r :: r in db.releases && DeployableOf(db, r, app) ==> r in mine;
      return None;
    }
    assert rows[0] in mine;
    m := Some(db.releases[rows[0]].number);
    forall r | r in db.releases && DeployableOf(db, r, app) ensures db.releases[r].number <= m.value {
      assert r in mine;
    }
  }

  /** The WHERE clause of the supersede statement on one row: older than the newest deployable release. */
  method OlderThanMax(db: Db, r: ReleaseId) returns (older: bool)
    requires r in db.releases
    ensures older <==> Outdated(db, r)
  {
    var app := db.releases[r].app;
    var m := MaxDeployableNumber(db, app);
    older := m.Some? && db.releases[r].number < m.value;
    if older {
      var q :| q in db.releases && DeployableOf(db, q, app) && db.releases[q].number == m.value;
      assert OfApp(db, q, app);
    } else if Outdated(db, r) {
      ghost var q :| q in db.releases && OfApp(db, q, app) && db.releases[q].Deployable() &&
          db.releases[r].number < db.releases[q].number;
      assert DeployableOf(db, q, app);
    }
  }

  /** UPDATE releases SET status = 'SUPERSEDED', row by row. */
  method UpdateSuperseded(db: Db) returns (updated: map<ReleaseId, Release>)
    ensures updated == SupersedeReleases(db) && SupersedesOutdated(db.releases, updated)
  {
    updated := db.releases;
    var rest := db.releases.Keys;
    while rest != {}
      invariant rest <= db.releases.Keys && updated.Keys == db.releases.Keys
      invariant forall r :: r in db.releases ==>
                updated[r] == if r in rest then db.releases[r] else SupersedeReleases(db)[r]
      decreases rest
    {
      var r :| r in rest;
      var older := OlderThanMax(db, r);
      if db.releases[r].Waiting() && older {
        updated := updated[r := db.releases[r].(status := Superseded)];
      }
      rest := rest - {r};
    }
    forall r | r in db.releases ensures Outdated(db, r) <==> HasNewerImage(db.releases, r) {
      OutdatedMeans(db, r);
    }
  }

  /** The claim's epoch is the intent's, and the intent is still claimed. */
  predicate InForce(intents: map<IntentId, ServiceIntent>, c: Claim) {
    c.epoch > 0 && c.intent in intents && intents[c.intent].epoch == c.epoch && intents[c.intent].status == Jobs.Claimed
  }

  /** The number is one more than the largest of the application, 1 if it has no release. */
  predicate IsNextNumber(releases: map<ReleaseId, Release>, app: AppId, number: nat) {
    && (forall r :: r in releases && releases[r].app == app ==> releases[r].number < number)
    && (number == 1 || exists r :: r in releases && releases[r].app == app && releases[r].number == number - 1)
  }

  lemma LockedNumberIsNext(db: Db, app: AppId, id: ReleaseId, number: nat)
    requires LockedInsertOk(db, app, id, number)
    ensures IsNextNumber(db.releases, app, number)
  {
    if number > 1 {
      assert NumberTaken(db, app, number - 1);
    }
    forall r | r in db.releases && db.releases[r].app == app ensures db.releases[r].number < number {
      assert OfApp(db, r, app);
    }
  }

  /** Some newer release of the same application has an image. */
  predicate HasNewerImage(releases: map<ReleaseId, Release>, r: ReleaseId)
    requires r in releases
  {
    exists q :: q in releases && releases[q].app == releases[r].app && releases[q].digest != "pending"
      && releases[r].number < releases[q].number
  }

  lemma OutdatedMeans(db: Db, r: ReleaseId)
    requires r in db.releases
    ensures Outdated(db, r) <==> HasNewerImage(db.releases, r)
  {
    if q :| q in db.releases && db.releases[q].app == db.releases[r].app && db.releases[q].digest != "pending"
            && db.releases[r].number < db.releases[q].number
    {
      assert OfApp(db, q, db.releases[r].app);
    }
  }

  /** What superseding leaves of each release: only waiting ones with a newer image change. */
  predicate SupersedesOutdated(was: map<ReleaseId, Release>, now: map<ReleaseId, Release>) {
    && now.Keys == was.Keys
    && forall r :: r in was ==>
         now[r] == if was[r].status in {ImageReady, Requested} && HasNewerImage(was, r)
                   then was[r].(status := Superseded) else was[r]
  }

  /** Intents that nobody has claimed end with their superseded release. */
  predicate TerminatesUnclaimed(was: map<IntentId, ServiceIntent>, now: map<IntentId, ServiceIntent>,
                                releases: map<ReleaseId, Release>) {
    && now.Keys == was.Keys
    && forall i :: i in was ==>
         now[i] == if was[i].status == Jobs.Pending && was[i].release in releases
                      && releases[was[i].release].status == Superseded
                   then was[i].(status := Jobs.Terminated) else was[i]
  }

  /** UPDATE execution_intents SET status = 'TERMINATED' WHERE status = 'PENDING' AND the release is SUPERSEDED. */
  method TerminateUnclaimed(intents: map<IntentId, ServiceIntent>, releases: map<ReleaseId, Release>)
    returns (updated: map<IntentId, ServiceIntent>)
    ensures updated == TerminateIntents(intents, releases) && TerminatesUnclaimed(intents, updated, releases)
  {
    updated := map i | i in intents ::
      if intents[i].status.Pending? && intents[i].release in releases && releases[intents[i].release].status.Superseded?
      then intents[i].(status := Jobs.Terminated) else intents[i];
  }

  /**
   The release is the newest of its application with an image, waits, and has no rollout at the desired generation.
   */
  predicate AwaitsRollout(db: Db, r: ReleaseId) {
    && r in db.releases && db.releases[r].app in db.apps
    && db.releases[r].status in {ImageReady, Requested} && db.releases[r].digest != "pending"
    && !HasNewerImage(db.releases, r)
    && forall i :: i in db.intents && db.intents[i].release == r
                   && db.intents[i].generation == db.apps[db.releases[r].app].desired ==>
         db.intents[i].status == Jobs.Terminated
  }

  lemma UnadmittedMeans(db: Db, r: ReleaseId)
    ensures Unadmitted(db, r) <==> AwaitsRollout(db, r)
  {
    if r in db.releases {
      OutdatedMeans(db, r);
      var app := db.releases[r].app;
      if db.releases[r].Deployable() && !Outdated(db, r) {
        forall q | q in db.releases && OfApp(db, q, app) && db.releases[q].Deployable()
          ensures db.releases[q].number <= db.releases[r].number
        {
        }
      }
    }
  }

  /** The second query of `ScanUnadmittedReleases`. */
  method SelectUnadmitted(db: Db, limit: nat) returns (ids: seq<ReleaseId>)
    ensures Queries.NoRepeats(ids) && |ids| <= limit && forall r :: r in ids ==> AwaitsRollout(db, r)
    ensures forall r :: r in db.releases && AwaitsRollout(db, r) && r !in ids ==> |ids| == limit
  {
    var eligible: set<ReleaseId> := {};
    var rest := db.releases.Keys;
    while rest != {}
      invariant rest <= db.releases.Keys
      invariant forall r :: r in eligible <==> r in db.releases && r !in rest && AwaitsRollout(db, r)
      decreases rest
    {
      var r :| r in rest;
      var rel := db.releases[r];
      if rel.app in db.apps && rel.Waiting() && rel.Deployable() {
        var older := OlderThanMax(db, r);
        OutdatedMeans(db, r);
        var desired := db.apps[rel.app].desired;
        if !older && !exists i :: i in db.intents && db.intents[i].release == r && db.intents[i].generation == desired
                                  && !db.intents[i].status.Terminated?
        {
          eligible := eligible + {r};
        }
      }
      rest := rest - {r};
    }
    ids := SelectOrdered(eligible, map r | r in eligible :: SortKey(0, 0), limit);
  }

  class Store {
    var apps: map<AppId, App>
    var releases: map<ReleaseId, Release>
    var intents: map<IntentId, ServiceIntent>

    function Tables(): Db
      reads this
    {
      Db(apps, releases, intents)
    }

    constructor ()
      ensures Tables() == EMPTY_DB
    {
      apps, releases, intents := map[], map[], map[];
    }

    /** `deploy_release` after its checks: number and generation are taken under the application's row lock. */
    method Deploy(app: AppId, id: ReleaseId, digest: string) returns (number: nat)
      requires app in apps && id !in releases
      modifies this
      ensures IsNextNumber(old(releases), app, number)
      ensures releases == old(releases)[id := Release(app, number, digest, ImageReady)] && intents == old(intents)
      ensures apps == old(apps)[app := App(old(apps)[app].desired + 1, old(apps)[app].current)]
      ensures LockedInsertOk(old(Tables()), app, id, number)
      ensures Tables() == DeployTx(old(Tables()), app, id, number, digest)
    {
      ghost var was := Tables();
      var max := MaxReleaseNumber(Tables(), app);
      number := max + 1;
      apps := apps[app := apps[app].(desired := apps[app].desired + 1)];
      releases := releases[id := Release(app, number, digest, ImageReady)];
      LockedNumberIsNext(was, app, id, number);
    }

    /** `rollback_release`: None is the 404 for a target of another application. */
    method Rollback(app: AppId, target: ReleaseId, id: ReleaseId) returns (number: Option<nat>)
      requires app in apps && id !in releases
      modifies this
      ensures number.Some? <==> target in old(releases) && old(releases)[target].app == app
      ensures number.Some? ==>
                && IsNextNumber(old(releases), app, number.value) && intents == old(intents)
                && releases == old(releases)[id := Release(app, number.value, old(releases)[target].digest, ImageReady)]
                && apps == old(apps)[app := App(old(apps)[app].desired + 1, old(apps)[app].current)]
      ensures number.None? ==> Tables() == old(Tables())
      ensures number.Some? ==> Tables() == RollbackTx(old(Tables()), app, target, id, number.value)
                               && LockedInsertOk(old(Tables()), app, id, number.value)
    {
      if target !in releases || releases[target].app != app {
        return None;
      }
      var n := Deploy(app, id, releases[target].digest);
      return Some(n);
    }

    /** `trigger_build`: the number is taken under the lock, the generation stays. */
    method TriggerBuild(app: AppId, id: ReleaseId) returns (number: nat)
      requires app in apps && id !in releases
      modifies this`releases
      ensures IsNextNumber(old(releases), app, number)
      ensures releases == old(releases)[id := Release(app, number, "pending", Requested)]
      ensures LockedInsertOk(old(Tables()), app, id, number)
      ensures Tables() == RequestBuildTx(old(Tables()), app, id, number)
    {
      ghost var was := Tables();
      var max := MaxReleaseNumber(Tables(), app);
      number := max + 1;
      releases := releases[id := Release(app, number, PENDING_DIGEST, Requested)];
      LockedNumberIsNext(was, app, id, number);
    }

    /** The first transaction of `ScanUnadmittedReleases`: supersede, then terminate what is not yet claimed. */
    method SupersedeOutdated()
      modifies this
      ensures SupersedesOutdated(old(releases), releases) && TerminatesUnclaimed(old(intents), intents, releases)
      ensures apps == old(apps)
      ensures Tables() == SupersedeTx(old(Tables()))
    {
      releases := UpdateSuperseded(Tables());
      intents := TerminateUnclaimed(intents, releases);
    }

    /**
     `ScanUnadmittedReleases`: supersede, then every release that awaits its rollout, with the generation it is to be
     rolled out at, up to the limit.
     */
    method ScanUnadmittedReleases(limit: nat) returns (rows: seq<UnadmittedRelease>)
      modifies this
      ensures Tables() == SupersedeTx(old(Tables()))
      ensures |rows| <= limit && forall j, k :: 0 <= j < k < |rows| ==> rows[j].release != rows[k].release
      ensures forall k :: 0 <= k < |rows| ==>
                && AwaitsRollout(Tables(), rows[k].release) && Unadmitted(Tables(), rows[k].release)
                && rows[k] == SnapshotRelease(Tables(), rows[k].release)
                && var rel := releases[rows[k].release];
                   rows[k] == UnadmittedRelease(rows[k].release, rel.app, rel.number, apps[rel.app].desired)
      ensures forall r :: r in releases && AwaitsRollout(Tables(), r) ==>
                |rows| == limit || exists k :: 0 <= k < |rows| && rows[k].release == r
    {
      SupersedeOutdated();
      var db := Tables();
      var ids := SelectUnadmitted(db, limit);
      forall k | 0 <= k < |ids| ensures Unadmitted(db, ids[k]) && AwaitsRollout(db, ids[k]) {
        assert ids[k] in ids;
        UnadmittedMeans(db, ids[k]);
      }
      rows := seq(|ids|, k requires 0 <= k < |ids| && AwaitsRollout(db, ids[k]) =>
        var rel := db.releases[ids[k]];
        UnadmittedRelease(ids[k], rel.app, rel.number, db.apps[rel.app].desired));
      forall r | r in releases && AwaitsRollout(Tables(), r)
        ensures |rows| == limit || exists k :: 0 <= k < |rows| && rows[k].release == r
      {
        if r in ids {
          var k :| 0 <= k < |ids| && ids[k] == r;
          assert rows[k].release == r;
        }
      }
    }

    /** `MarkBuildFailed`. */
    method MarkBuildFailed(r: ReleaseId) returns (ok: bool)
      modifies this`releases
      ensures ok <==> r in old(releases) && old(releases)[r].status == Building
      ensures releases == if ok then old(releases)[r := old(releases)[r].(status := BuildFailed)] else old(releases)
      ensures Tables() == BuildFailedTx(old(Tables()), r)
    {
      ok := r in releases && releases[r].status.Building?;
      if ok {
        releases := releases[r := releases[r].(status := BuildFailed)];
      }
    }

    /** `CreateServiceReleaseIntent`: ON CONFLICT DO NOTHING. */
    method CreateServiceReleaseIntent(rel: UnadmittedRelease, iid: IntentId) returns (created: bool)
      requires iid !in intents && rel.release in releases
      modifies this`intents
      ensures created <==> forall i :: i in old(intents) ==>
                !(old(intents)[i].release == rel.release && old(intents)[i].generation == rel.generation)
      ensures intents == if created
                         then old(intents)[iid :=
                                ServiceIntent(rel.release, rel.generation, Jobs.Pending, 0, None, None)]
                         else old(intents)
      ensures Tables() == CreateIntentTx(old(Tables()), rel, iid)
    {
      created := !exists i ::
          i in intents && intents[i].release == rel.release && intents[i].generation == rel.generation;
      assert created == !TargetTaken(Tables(), rel.release, rel.generation);
      if created {
        intents := intents[iid := ServiceIntent(rel.release, rel.generation, Jobs.Pending, 0, None, None)];
      }
    }

    /** `ClaimNextServiceRelease`: a PENDING intent or one whose lease ran out, unless its release is SUPERSEDED. */
    method ClaimNextServiceRelease(worker: WorkerId, lease: int, now: int) returns (claim: Option<Claim>)
      modifies this
      ensures claim.None? ==> Tables() == old(Tables()) && forall i :: i in intents ==> !Claimable(Tables(), i, now)
      ensures claim.Some? ==>
                && Claimable(old(Tables()), claim.value.intent, now)
                && claim.value == ClaimOf(old(Tables()), claim.value.intent, worker, now)
                && Tables() == ClaimTx(old(Tables()), claim.value.intent, worker, lease, now)
                && Holds(Tables(), claim.value)
      ensures claim.Some? ==>
                var c, i := claim.value, old(intents)[claim.value.intent];
                && (i.status == Jobs.Pending
                    || (i.status == Jobs.Claimed && i.leaseExpires.Some? && i.leaseExpires.value < now))
                && c == Claim(c.intent, i.release, old(releases)[i.release].app, i.generation, i.epoch + 1, worker)
                && old(releases)[i.release].status != Superseded
                && intents == old(intents)[c.intent :=
                     ServiceIntent(i.release, i.generation, Jobs.Claimed, i.epoch + 1, Some(worker), Some(now + lease))]
                && releases == old(releases)[i.release := old(releases)[i.release].(status := Deploying)]
                && apps == old(apps)
    {
      var tx := Tables();
      if i :| i in tx.intents && Claimable(tx, i, now) {
        var intent := tx.intents[i];
        var epoch := intent.epoch + 1;
        intents := intents[i := intent.(status := Jobs.Claimed, holder := Some(worker), epoch := epoch,
                                                leaseExpires := Some(now + lease))];
        releases := releases[intent.release := releases[intent.release].(status := Deploying)];
        claim := Some(Claim(i, intent.release, releases[intent.release].app, intent.generation, epoch, worker));
      } else {
        claim := None;
      }
    }

    /** `MarkReleaseHealthy`: the second result says whether the release became the application's current one. */
    method MarkReleaseHealthy(c: Claim) returns (ok: bool, becameCurrent: bool)
      modifies this
      ensures ok == InForce(old(intents), c) == Holds(old(Tables()), c)
      ensures becameCurrent <==>
              ok && c.app in old(apps) && old(apps)[c.app].desired == old(intents)[c.intent].generation
      ensures ok ==> OnlyRow(old(intents), intents, c.intent)
                     && intents[c.intent] == old(intents)[c.intent].(status := Jobs.Applied)
      ensures ok && c.release in old(releases) ==>
                OnlyRow(old(releases), releases, c.release)
                && releases[c.release] == old(releases)[c.release].(status := Healthy)
      ensures apps == if becameCurrent then old(apps)[c.app := App(old(apps)[c.app].desired, Some(c.release))]
                      else old(apps)
      ensures !ok ==> Tables() == old(Tables())
      ensures becameCurrent == Promotes(old(Tables()), c)
      ensures Tables() == HealthyTx(old(Tables()), c)
    {
      if c.epoch <= 0 {
        return false, false;
      }
      if c.intent !in intents || intents[c.intent].epoch != c.epoch || !intents[c.intent].status.Claimed? {
        return false, false;
      }
      intents := intents[c.intent := intents[c.intent].(status := Jobs.Applied)];
      if c.release in releases {
        releases := releases[c.release := releases[c.release].(status := Healthy)];
      }
      becameCurrent := c.app in apps && apps[c.app].desired == intents[c.intent].generation;
      if becameCurrent {
        apps := apps[c.app := apps[c.app].(current := Some(c.release))];
      }
      return true, becameCurrent;
    }

    method MarkReleaseFailed(c: Claim) returns (ok: bool)
      modifies this
      ensures ok == InForce(old(intents), c) == Holds(old(Tables()), c)
      ensures ok ==> OnlyRow(old(intents), intents, c.intent)
                     && intents[c.intent] == old(intents)[c.intent].(status := Jobs.Terminated)
      ensures ok && c.release in old(releases) ==>
                OnlyRow(old(releases), releases, c.release)
                && releases[c.release] == old(releases)[c.release].(status := DeployFailed)
      ensures apps == old(apps)
      ensures !ok ==> Tables() == old(Tables())
      ensures Tables() == FailedTx(old(Tables()), c)
    {
      if c.epoch <= 0 {
        return false;
      }
      if c.intent !in intents || intents[c.intent].epoch != c.epoch || !intents[c.intent].status.Claimed? {
        return false;
      }
      intents := intents[c.intent := intents[c.intent].(status := Jobs.Terminated)];
      if c.release in releases {
        releases := releases[c.release := releases[c.release].(status := DeployFailed)];
      }
      return true;
    }

    /** `ClaimNextBuildRelease`: some release that waits for its image. */
    method ClaimNextBuildRelease() returns (task: Option<ReleaseId>)
      modifies this`releases
      ensures task.None? ==> Tables() == old(Tables())
                             && forall r :: r in releases ==>
                                  !(releases[r].status.Requested? && !releases[r].Deployable())
      ensures task.Some? ==> task.value in old(releases) && old(releases)[task.value].status == Requested
                             && old(releases)[task.value].digest == "pending"
                             && releases == old(releases)[task.value := old(releases)[task.value].(status := Building)]
                             && Tables() == ClaimBuildTx(old(Tables()), task.value)
    {
      if r :| r in releases && releases[r].status.Requested? && !releases[r].Deployable() {
        releases := releases[r := releases[r].(status := Building)];
        task := Some(r);
      } else {
        task := None;
      }
    }

    /** `MarkBuildSucceeded`: the image and the new generation appear in one transaction. */
    method MarkBuildSucceeded(r: ReleaseId, digest: string) returns (ok: bool)
      requires r in releases ==> releases[r].app in apps
      modifies this
      ensures ok <==> r in old(releases) && old(releases)[r].status == Building
      ensures ok ==>
                var app := old(releases)[r].app;
                && releases == old(releases)[r := old(releases)[r].(status := ImageReady, digest := digest)]
                && apps == old(apps)[app := App(old(apps)[app].desired + 1, old(apps)[app].current)]
                && intents == old(intents)
      ensures !ok ==> Tables() == old(Tables())
      ensures Tables() == BuildSucceededTx(old(Tables()), r, digest)
    {
      if !(r in releases && releases[r].status.Building?) {
        return false;
      }
      releases := releases[r := releases[r].(status := ImageReady, digest := digest)];
      var app := releases[r].app;
      apps := apps[app := apps[app].(desired := apps[app].desired + 1)];
      return true;
    }
  }
}
