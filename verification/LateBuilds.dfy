/**
 Builds that finish late.  A finished build raises the desired generation so that its
 release gets rolled out.  That works exactly when the release is newer than every
 deployable one; otherwise the generation moves on without a release to roll out at it, and a
 newer rollout that is still in progress is never promoted.
 */
module LateBuilds {
  import opened Options
  import opened ReleaseTables
  import opened ReleaseProtocol
  import opened ReleaseGuarantees
  import Jobs = JobTables

  /** The release is newer than every deployable release of its application. */
  predicate NewerThanDeployable(db: Db, r: ReleaseId)
    requires r in db.releases
  {
    forall q :: q in db.releases && OfApp(db, q, db.releases[r].app) && db.releases[q].Deployable() ==>
      db.releases[q].number < db.releases[r].number
  }

  /** No intent refers to a generation that the application has not reached. */
  lemma NoRolloutAhead(w: World, r: ReleaseId, generation: nat)
    requires WorldOk(w) && r in w.db.releases && generation > w.db.apps[w.db.releases[r].app].desired
    ensures !TargetTaken(w.db, r, generation)
  {
    forall i | i in w.db.intents && w.db.intents[i].release == r ensures w.db.intents[i].generation < generation {
      assert CameFromScan(w, i);
      var s :| s in w.scans && s.release == w.db.intents[i].release && s.generation == w.db.intents[i].generation;
      assert ScanOk(w.db, s);
    }
  }

  lemma BuiltIsHeadIff(db: Db, r: ReleaseId, digest: string)
    requires TablesOk(db) && IsBuilding(db, r) && digest != PENDING_DIGEST
    ensures IsHead(BuildSucceededTx(db, r, digest), db.releases[r].app, r) <==> NewerThanDeployable(db, r)
  {
    var db', app := BuildSucceededTx(db, r, digest), db.releases[r].app;
    assert OfApp(db', r, app);
    if NewerThanDeployable(db, r) {
      forall q | q in db'.releases && OfApp(db', q, app) && db'.releases[q].Deployable()
        ensures db'.releases[q].number <= db'.releases[r].number
      {
        assert q != r ==> OfApp(db, q, app);
      }
    }
    if IsHead(db', app, r) {
      forall q | q in db.releases && OfApp(db, q, app) && db.releases[q].Deployable()
        ensures db.releases[q].number < db.releases[r].number
      {
        assert OfApp(db', q, app);
        assert !SameNumber(db, r, q);
      }
    }
  }

  /** The head is not outdated, and a release that is not the head of its application is. */
  lemma HeadIsNotOutdated(db: Db, r: ReleaseId)
    requires r in db.releases && db.releases[r].Deployable()
    ensures IsHead(db, db.releases[r].app, r) <==> !Outdated(db, r)
  {
    assert OfApp(db, r, db.releases[r].app);
  }

  /** Superseding changes neither who is deployable nor who is the head. */
  lemma SupersedeKeepsHeads(db: Db, app: AppId, r: ReleaseId)
    requires r in db.releases
    ensures IsHead(SupersedeTx(db), app, r) <==> IsHead(db, app, r)
  {
    var db' := SupersedeTx(db);
    assert forall q :: q in db.releases ==> (OfApp(db', q, app) <==> OfApp(db, q, app));
  }

  /**
   What a finished build leads to: the next scan, which supersedes first, offers its release for rollout
   if and only if the release is newer than every deployable one when the build finishes;
   otherwise that scan marks it SUPERSEDED, although the generation was raised for it.
   */
  lemma BuildIsAdmittedIff(w: World, r: ReleaseId, digest: string)
    requires WorldOk(w) && IsBuilding(w.db, r) && digest != PENDING_DIGEST
    ensures var db' := SupersedeTx(BuildSucceededTx(w.db, r, digest));
            && (Unadmitted(db', r) <==> NewerThanDeployable(w.db, r))
            && (db'.releases[r].status.Superseded? <==> !NewerThanDeployable(w.db, r))
            && db'.apps[w.db.releases[r].app].desired == w.db.apps[w.db.releases[r].app].desired + 1
  {
    var built := BuildSucceededTx(w.db, r, digest);
    var db', app := SupersedeTx(built), w.db.releases[r].app;
    BuiltIsHeadIff(w.db, r, digest);
    HeadIsNotOutdated(built, r);
    SupersedeKeepsHeads(built, app, r);
    NoRolloutAhead(w, r, built.apps[app].desired);
    assert !RolloutExists(db', r, db'.apps[app].desired);
  }

  // ---------------------------------------------------------------- a stranded rollout

  /** The application's head has been rolled out and nothing was ever scanned at the desired generation. */
  predicate Stranded(w: World, app: AppId, head: ReleaseId) {
    && app in w.db.apps && IsHead(w.db, app, head) && RolledOut(w.db.releases[head].status)
    && forall s :: s in w.scans && s.app == app ==> s.generation != w.db.apps[app].desired
  }

  lemma RolledOutStays(w: World, op: Op, r: ReleaseId)
    requires WorldOk(w) && r in w.db.releases && RolledOut(w.db.releases[r].status)
    ensures r in NextDb(w, op).releases && RolledOut(NextDb(w, op).releases[r].status)
  {
  }

  lemma StrandedStays(w: World, op: Op, app: AppId, head: ReleaseId)
    requires WorldOk(w) && Stranded(w, app, head)
    requires app in NextDb(w, op).apps && NextDb(w, op).apps[app].desired == w.db.apps[app].desired
    ensures Stranded(Apply(w, op), app, head) && NextDb(w, op).apps[app].current == w.db.apps[app].current
  {
    StepEvolves(w, op);
    HeadStays(w.db, NextDb(w, op), app, head);
    RolledOutStays(w, op, head);
    if op.Scan? && Unadmitted(w.db, op.release) && w.db.releases[op.release].app == app {
      HeadIsUnique(w.db, app, head, op.release);
    }
    OnlyPromotionChangesCurrent(w, op, app);
    if op.MarkHealthy? && op.claim in w.claims && Promotes(w.db, op.claim) && op.claim.app == app {
      NothingToPromote(w, op.claim);
    }
  }

  /** A promotion needs a scan at the desired generation. */
  lemma NothingToPromote(w: World, c: Claim)
    requires WorldOk(w) && c in w.claims && Promotes(w.db, c)
    ensures exists s :: s in w.scans && s.app == c.app && s.generation == w.db.apps[c.app].desired
  {
    assert ClaimOk(w.db, c);
    assert CameFromScan(w, c.intent);
    var s :| s in w.scans && s.release == c.release && s.generation == c.generation;
    assert ScanOk(w.db, s);
  }

  lemma {:induction false} DesiredOnlyGrows(w: World, ops: seq<Op>, app: AppId)
    requires WorldOk(w) && app in w.db.apps
    ensures app in Run(w, ops).db.apps && w.db.apps[app].desired <= Run(w, ops).db.apps[app].desired
    decreases |ops|
  {
    if ops != [] {
      StepKeepsWorld(w, ops[0]);
      DesiredOnlyGrows(Apply(w, ops[0]), ops[1..], app);
    }
  }

  /**
   A stranded application serves what it serves until its generation is raised again, whatever
   schedulers, executors and builders do.
   */
  lemma {:induction false} StrandedUntilNextGeneration(w: World, ops: seq<Op>, app: AppId, head: ReleaseId)
    requires WorldOk(w) && Stranded(w, app, head)
    requires app in Run(w, ops).db.apps && Run(w, ops).db.apps[app].desired == w.db.apps[app].desired
    ensures Run(w, ops).db.apps[app].current == w.db.apps[app].current
    decreases |ops|
  {
    if ops != [] {
      var w' := Apply(w, ops[0]);
      StepKeepsWorld(w, ops[0]);
      DesiredOnlyGrows(w', ops[1..], app);
      StrandedStays(w, ops[0], app, head);
      StrandedUntilNextGeneration(w', ops[1..], app, head);
    }
  }

  // ---------------------------------------------------------------- a run that strands the newest release

  const APP := "a"
  const ROW := UnadmittedRelease(1, APP, 2, 2)
  const CLAIM := Claim(0, 1, APP, 2, 1, 7)

  /** Build 1 is still running when release 2 is deployed; it finishes before release 2 is healthy. */
  const LATE_BUILD: seq<Op> :=
    [CreateApp(APP), TriggerBuild(APP, 0, 1), ClaimBuild(0), Deploy(APP, 1, 2, "sha-2"), Supersede, Scan(1),
     CreateIntent(ROW, 0), ClaimIntent(0, 7, 60), FinishBuild(0, "sha-1"), MarkHealthy(CLAIM)]

  const OLD_REQUESTED := Release(APP, 1, PENDING_DIGEST, Requested)
  const NEW_READY := Release(APP, 2, "sha-2", ImageReady)
  const FRESH := ServiceIntent(1, 2, Jobs.Pending, 0, None, None)
  const HELD := ServiceIntent(1, 2, Jobs.Claimed, 1, Some(7), Some(60))

  const D1 := Db(map[APP := App(1, None)], map[], map[])
  const D2 := D1.(releases := map[0 := OLD_REQUESTED])
  const D3 := D1.(releases := map[0 := OLD_REQUESTED.(status := Building)])
  const D4 := Db(map[APP := App(2, None)], map[0 := OLD_REQUESTED.(status := Building), 1 := NEW_READY], map[])
  const D5 := D4.(intents := map[0 := FRESH])
  const D6 := Db(map[APP := App(2, None)],
                 map[0 := OLD_REQUESTED.(status := Building), 1 := NEW_READY.(status := Deploying)], map[0 := HELD])
  const D7 := Db(map[APP := App(3, None)],
                 map[0 := Release(APP, 1, "sha-1", ImageReady), 1 := NEW_READY.(status := Deploying)], map[0 := HELD])
  const D8 := Db(map[APP := App(3, None)],
                 map[0 := Release(APP, 1, "sha-1", ImageReady), 1 := NEW_READY.(status := Healthy)],
                 map[0 := HELD.(status := Jobs.Applied)])

  function At(db: Db): World {
    World(db, 0, {}, {}, {}, map[])
  }

  function Scanned(db: Db): World {
    World(db, 0, {}, {ROW}, {}, map[])
  }

  function Claimed(db: Db): World {
    World(db, 0, {CLAIM}, {ROW}, {}, map[])
  }

  lemma BuildStarts()
    ensures Apply(INIT, CreateApp(APP)) == At(D1)
    ensures Apply(At(D1), TriggerBuild(APP, 0, 1)) == At(D2)
    ensures Apply(At(D2), ClaimBuild(0)) == At(D3)
  {
    assert LockedInsertOk(D1, APP, 0, 1);
  }

  lemma ReleaseTwoIsDeployed()
    ensures Apply(At(D3), Deploy(APP, 1, 2, "sha-2")) == At(D4)
    ensures Apply(At(D4), Supersede) == At(D4)
  {
    assert OfApp(D3, 0, APP);
    assert LockedInsertOk(D3, APP, 1, 2);
    assert SupersedeReleases(D4) == D4.releases;
  }

  lemma ReleaseTwoIsScanned()
    ensures Apply(At(D4), Scan(1)) == Scanned(D4)
  {
    assert Unadmitted(D4, 1);
  }

  lemma ReleaseTwoIsAdmitted()
    ensures Apply(Scanned(D4), CreateIntent(ROW, 0)) == Scanned(D5)
  {
    assert !TargetTaken(D4, 1, 2);
  }

  lemma ReleaseTwoIsClaimed()
    ensures Apply(Scanned(D5), ClaimIntent(0, 7, 60)) == Claimed(D6)
  {
    assert Claimable(D5, 0, 0);
  }

  lemma BuildFinishesLate()
    ensures Apply(Claimed(D6), FinishBuild(0, "sha-1")) == Claimed(D7)
    ensures Apply(Claimed(D7), MarkHealthy(CLAIM)) == Claimed(D8)
  {
    assert Holds(D7, CLAIM) && !Promotes(D7, CLAIM);
  }

  lemma {:induction false} ChainIsRun(worlds: seq<World>, ops: seq<Op>)
    requires |worlds| == |ops| + 1
    requires forall k :: 0 <= k < |ops| ==> worlds[k + 1] == Apply(worlds[k], ops[k])
    ensures Run(worlds[0], ops) == worlds[|ops|]
    decreases |ops|
  {
    if ops != [] {
      ChainIsRun(worlds[1..], ops[1..]);
    }
  }

  lemma LateBuildRun()
    ensures Run(INIT, LATE_BUILD) == Claimed(D8)
  {
    BuildStarts();
    ReleaseTwoIsDeployed();
    ReleaseTwoIsScanned();
    ReleaseTwoIsAdmitted();
    ReleaseTwoIsClaimed();
    BuildFinishesLate();
    ChainIsRun([INIT, At(D1), At(D2), At(D3), At(D4), At(D4), Scanned(D4), Scanned(D5), Claimed(D6), Claimed(D7),
                Claimed(D8)], LATE_BUILD);
  }

  /**
   The newest release becomes HEALTHY and is not served, and stays so through every continuation
   that does not raise the generation.
   */
  lemma LateBuildStrandsNewestRelease(ops: seq<Op>)
    ensures var w := Run(INIT, LATE_BUILD);
            && IsHead(w.db, APP, 1) && w.db.releases[1].status.Healthy? && APP in w.db.apps &&
                 w.db.apps[APP].current.None?
            && (APP in Run(w, ops).db.apps && Run(w, ops).db.apps[APP].desired == w.db.apps[APP].desired ==>
                  Run(w, ops).db.apps[APP].current.None?)
  {
    LateBuildRun();
    InitOk();
    RunKeepsWorld(INIT, LATE_BUILD);
    var w := Claimed(D8);
    assert Stranded(w, APP, 1);
    if APP in Run(w, ops).db.apps && Run(w, ops).db.apps[APP].desired == w.db.apps[APP].desired {
      StrandedUntilNextGeneration(w, ops, APP, 1);
    }
  }
}
