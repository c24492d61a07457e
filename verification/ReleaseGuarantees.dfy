/**
 What the rollout protocol guarantees over whole runs: one release per generation, a
 serving generation that never goes back, SUPERSEDED as a final status, release
 numbers without gaps, and fencing of claims that were lost.
 */
module ReleaseGuarantees {
  import opened Options
  import opened ReleaseTables
  import opened ReleaseProtocol

  lemma InitOk()
    ensures WorldOk(INIT)
  {
  }

  // ---------------------------------------------------------------- one release per generation

  /**
   In every reachable state, any two service intents with the same resource name belong to
   the same release, although they are created from scans of any age.
   */
  lemma OneReleasePerGeneration(ops: seq<Op>, i: IntentId, k: IntentId)
    requires var db := Run(INIT, ops).db;
             && i in db.intents && k in db.intents
             && db.intents[i].release in db.releases && db.intents[k].release in db.releases
             && ResourceName(db.releases[db.intents[i].release].app, db.intents[i].generation)
                == ResourceName(db.releases[db.intents[k].release].app, db.intents[k].generation)
    ensures Run(INIT, ops).db.intents[i].release == Run(INIT, ops).db.intents[k].release
  {
    InitOk();
    RunKeepsWorld(INIT, ops);
    var w := Run(INIT, ops);
    var x, y := w.db.intents[i], w.db.intents[k];
    NamesAreDistinct(w.db.releases[x.release].app, x.generation, w.db.releases[y.release].app, y.generation);
    assert CameFromScan(w, i) && CameFromScan(w, k);
    var s :| s in w.scans && s.release == x.release && s.generation == x.generation;
    var t :| t in w.scans && t.release == y.release && t.generation == y.generation;
    assert ScanOk(w.db, s) && ScanOk(w.db, t);
    assert SameTarget(s, t);
  }

  // ---------------------------------------------------------------- superseded for good

  lemma {:induction false} RunEvolvesRelease(w: World, ops: seq<Op>, r: ReleaseId)
    requires WorldOk(w) && r in w.db.releases
    ensures WorldOk(Run(w, ops)) && r in Run(w, ops).db.releases
    ensures SameRelease(w.db.releases[r], Run(w, ops).db.releases[r])
    decreases |ops|
  {
    if ops != [] {
      StepKeepsWorld(w, ops[0]);
      RunEvolvesRelease(Apply(w, ops[0]), ops[1..], r);
    }
  }

  /**
   SUPERSEDED is absorbing: after any further run of supersede passes, stale intent
   creations, claims, re-claims, builds and unguarded outcome writes the release is still SUPERSEDED,
   none of its intents can be claimed, and no claim on one of them is held.
   */
  lemma SupersededIsAbsorbing(w: World, ops: seq<Op>, r: ReleaseId, i: IntentId)
    requires WorldOk(w) && r in w.db.releases && w.db.releases[r].status.Superseded?
    ensures var w' := Run(w, ops);
            && r in w'.db.releases && w'.db.releases[r].status.Superseded?
            && (i in w'.db.intents && w'.db.intents[i].release == r ==>
                  !Claimable(w'.db, i, w'.now) && !w'.db.intents[i].status.Claimed? &&
                      !w'.db.intents[i].status.Applied?)
  {
    RunEvolvesRelease(w, ops, r);
    var w' := Run(w, ops);
    assert i in w'.db.intents ==> ClaimedIsRolledOut(w'.db, i);
  }

  // ---------------------------------------------------------------- serving never goes back

  /** What an application serves is a deployable release of its own, set at a generation it has reached. */
  predicate Serving(w: World, app: AppId) {
    app in w.db.apps && w.db.apps[app].current.Some? ==>
      && app in w.served && w.served[app] <= w.db.apps[app].desired
      && OfApp(w.db, w.db.apps[app].current.value, app)
      && w.db.releases[w.db.apps[app].current.value].Deployable()
  }

  /** What `app` serves in `w'` is at least as new as what it serves in `w`, by generation and by release number. */
  predicate ServesNoOlder(w: World, w': World, app: AppId)
    requires Serving(w, app) && Serving(w', app) && app in w.db.apps
  {
    && app in w'.db.apps
    && w.db.apps[app].desired <= w'.db.apps[app].desired
    && (w.db.apps[app].current.Some? ==>
          && w'.db.apps[app].current.Some?
          && w.served[app] <= w'.served[app]
          && w.db.releases[w.db.apps[app].current.value].number <= w'.db.releases[w'.db.apps[app].current.value].number)
  }

  /** A promoted release is the newest deployable release of its application, at the desired generation. */
  lemma PromotedIsNewest(w: World, c: Claim)
    requires WorldOk(w) && c in w.claims && Promotes(w.db, c)
    ensures IsHead(w.db, c.app, c.release) && c.generation == w.db.apps[c.app].desired
  {
    assert ClaimOk(w.db, c);
    assert CameFromScan(w, c.intent);
    var s :| s in w.scans && s.release == c.release && s.generation == c.generation;
    assert ScanOk(w.db, s);
  }

  /** Only a promotion changes what is served. */
  lemma OnlyPromotionChangesCurrent(w: World, op: Op, app: AppId)
    requires app in w.db.apps
    ensures app in NextDb(w, op).apps
    ensures || (op.MarkHealthy? && op.claim in w.claims && Promotes(w.db, op.claim) && op.claim.app == app)
            || (NextDb(w, op).apps[app].current == w.db.apps[app].current
                && (app in w.served <==> app in Apply(w, op).served)
                && (app in w.served ==> Apply(w, op).served[app] == w.served[app]))
  {
  }

  lemma NewAppsServeNothing(w: World, op: Op, app: AppId)
    requires app !in w.db.apps && app in NextDb(w, op).apps
    ensures NextDb(w, op).apps[app].current.None?
  {
  }

  lemma PromotionServes(w: World, c: Claim)
    requires WorldOk(w) && c in w.claims && Promotes(w.db, c)
    ensures var w' := Apply(w, MarkHealthy(c));
            && Serving(w', c.app) && w'.db.apps[c.app].current == Some(c.release)
            && w'.served[c.app] == w.db.apps[c.app].desired
            && w'.db.releases[c.release].number == w.db.releases[c.release].number
  {
    PromotedIsNewest(w, c);
  }

  lemma StepServesNoOlder(w: World, op: Op, app: AppId)
    requires WorldOk(w) && Serving(w, app)
    ensures Serving(Apply(w, op), app)
    ensures app in w.db.apps ==> ServesNoOlder(w, Apply(w, op), app)
  {
    StepKeepsWorld(w, op);
    if app in w.db.apps {
      OnlyPromotionChangesCurrent(w, op, app);
      if op.MarkHealthy? && op.claim in w.claims && Promotes(w.db, op.claim) && op.claim.app == app {
        PromotedIsNewest(w, op.claim);
        PromotionServes(w, op.claim);
      }
    } else if app in NextDb(w, op).apps {
      NewAppsServeNothing(w, op, app);
    }
  }

  /**
   Serving never goes back: along every run the desired generation, the generation at which the current
   release was set and the current release's number are non-decreasing, so a slow old
   rollout that becomes healthy late never displaces a newer one.
   */
  lemma {:induction false} ServingNeverGoesBack(w: World, ops: seq<Op>, app: AppId)
    requires WorldOk(w) && Serving(w, app) && app in w.db.apps
    ensures Serving(Run(w, ops), app) && ServesNoOlder(w, Run(w, ops), app)
    decreases |ops|
  {
    if ops != [] {
      StepServesNoOlder(w, ops[0], app);
      StepKeepsWorld(w, ops[0]);
      ServingNeverGoesBack(Apply(w, ops[0]), ops[1..], app);
    }
  }

  lemma {:induction false} RunKeepsServing(w: World, ops: seq<Op>, app: AppId)
    requires WorldOk(w) && Serving(w, app)
    ensures WorldOk(Run(w, ops)) && Serving(Run(w, ops), app)
    decreases |ops|
  {
    if ops != [] {
      StepServesNoOlder(w, ops[0], app);
      StepKeepsWorld(w, ops[0]);
      RunKeepsServing(Apply(w, ops[0]), ops[1..], app);
    }
  }

  /** The same between any two points of any run from the empty tables. */
  lemma ServingOnlyAdvances(before: seq<Op>, after: seq<Op>, app: AppId)
    requires app in Run(INIT, before).db.apps
    ensures var w, w' := Run(INIT, before), Run(Run(INIT, before), after);
            Serving(w, app) && Serving(w', app) && ServesNoOlder(w, w', app)
  {
    InitOk();
    RunKeepsServing(INIT, before, app);
    ServingNeverGoesBack(Run(INIT, before), after, app);
  }

  // ---------------------------------------------------------------- release numbers

  /** In every reachable state an application's releases are numbered 1, 2, ... without gap or repetition. */
  lemma ReleaseNumbersAreGapFree(ops: seq<Op>, app: AppId, m: nat, n: nat)
    requires IsMaxNumber(Run(INIT, ops).db, app, m)
    ensures 1 <= n <= m <==> NumberTaken(Run(INIT, ops).db, app, n)
    ensures NumbersUnique(Run(INIT, ops).db)
  {
    InitOk();
    RunKeepsWorld(INIT, ops);
    if 1 <= n <= m {
      BelowMaxIsTaken(Run(INIT, ops).db, app, m, n);
    }
  }

  /** A webhook that read the maximum earlier commits exactly if no release was numbered since. */
  lemma StaleWebhookCommitsIff(w: World, app: AppId, id: ReleaseId, m: nat)
    requires WorldOk(w) && MaxRead(app, m) in w.maxReads && app in w.db.apps && id !in w.db.releases
    ensures id in Apply(w, Webhook(app, id, m + 1)).db.releases <==> IsMaxNumber(w.db, app, m)
  {
    assert ReadOk(w.db, MaxRead(app, m));
    if InsertOk(w.db, app, id, m + 1) {
      FreeNumberIsNext(w.db, MaxRead(app, m), id);
    }
  }

  // ---------------------------------------------------------------- fencing with re-claims

  /** Two claims on an intent with the same epoch are the same claim. */
  predicate EpochsDistinct(w: World) {
    forall c, d :: c in w.claims && d in w.claims && c.intent == d.intent && c.epoch == d.epoch ==> c == d
  }

  lemma StepKeepsEpochsDistinct(w: World, op: Op)
    requires WorldOk(w) && EpochsDistinct(w)
    ensures EpochsDistinct(Apply(w, op))
  {
    var w' := Apply(w, op);
    forall c, d | c in w'.claims && d in w'.claims && c.intent == d.intent && c.epoch == d.epoch ensures c == d {
      assert c in w.claims ==> ClaimOk(w.db, c);
      assert d in w.claims ==> ClaimOk(w.db, d);
    }
  }

  lemma {:induction false} RunKeepsEpochsDistinct(w: World, ops: seq<Op>)
    requires WorldOk(w) && EpochsDistinct(w)
    ensures EpochsDistinct(Run(w, ops))
    decreases |ops|
  {
    if ops != [] {
      StepKeepsEpochsDistinct(w, ops[0]);
      StepKeepsWorld(w, ops[0]);
      RunKeepsEpochsDistinct(Apply(w, ops[0]), ops[1..]);
    }
  }

  /** In every reachable state an epoch of an intent was given to one holder only, and one claim at most is in force. */
  lemma EpochsHaveOneHolder(ops: seq<Op>, c: Claim, d: Claim)
    requires var w := Run(INIT, ops);
             c in w.claims && d in w.claims && c.intent == d.intent &&
                 (c.epoch == d.epoch || (Holds(w.db, c) && Holds(w.db, d)))
    ensures c == d
  {
    InitOk();
    RunKeepsEpochsDistinct(INIT, ops);
  }

  /** A new claim's epoch is larger than that of every earlier claim on the intent. */
  lemma ClaimTakesLargerEpoch(w: World, iid: IntentId, worker: WorkerId, c: Claim)
    requires WorldOk(w) && Claimable(w.db, iid, w.now) && c in w.claims && c.intent == iid
    ensures c.epoch < ClaimOf(w.db, iid, worker, w.now).epoch
  {
    assert ClaimOk(w.db, c);
  }

  /** The claim is over: the intent is finished, or it was claimed again. */
  predicate Lost(db: Db, c: Claim) {
    c.intent in db.intents && (db.intents[c.intent].Finished() || db.intents[c.intent].epoch > c.epoch)
  }

  predicate WrittenBy(op: Op, c: Claim) {
    match op
    case Renew(d, _) => d == c
    case MarkHealthy(d) => d == c
    case MarkFailed(d) => d == c
    case _ => false
  }

  lemma {:induction false} LostStaysLost(w: World, ops: seq<Op>, c: Claim)
    requires WorldOk(w) && Lost(w.db, c)
    ensures Lost(Run(w, ops).db, c)
    decreases |ops|
  {
    if ops != [] {
      StepKeepsWorld(w, ops[0]);
      assert SameIntent(w.db.intents[c.intent], Apply(w, ops[0]).db.intents[c.intent]);
      LostStaysLost(Apply(w, ops[0]), ops[1..], c);
    }
  }

  /** Fencing: whatever happens after a claim is lost, a renewal or an outcome written with it changes no table. */
  lemma LateWritesChangeNothing(w: World, ops: seq<Op>, c: Claim, late: Op)
    requires WorldOk(w) && Lost(w.db, c) && WrittenBy(late, c)
    ensures Apply(Run(w, ops), late) == Run(w, ops)
  {
    LostStaysLost(w, ops, c);
  }

  predicate Finalises(w: World, op: Op, iid: IntentId) {
    iid in w.db.intents && !w.db.intents[iid].Finished() && iid in NextDb(w, op).intents &&
        NextDb(w, op).intents[iid].Finished()
  }

  ghost function Finalisations(w: World, ops: seq<Op>, iid: IntentId): nat
    decreases |ops|
  {
    if ops == [] then 0
    else (if Finalises(w, ops[0], iid) then 1 else 0) + Finalisations(Apply(w, ops[0]), ops[1..], iid)
  }

  lemma {:induction false} NoFinalisationAfterFinish(w: World, ops: seq<Op>, iid: IntentId)
    requires WorldOk(w) && iid in w.db.intents && w.db.intents[iid].Finished()
    ensures Finalisations(w, ops, iid) == 0
    decreases |ops|
  {
    if ops != [] {
      StepKeepsWorld(w, ops[0]);
      assert SameIntent(w.db.intents[iid], Apply(w, ops[0]).db.intents[iid]);
      NoFinalisationAfterFinish(Apply(w, ops[0]), ops[1..], iid);
    }
  }

  /** However often a service intent is re-claimed, it is finalised at most once in any run. */
  lemma {:induction false} AtMostOneFinalisation(w: World, ops: seq<Op>, iid: IntentId)
    requires WorldOk(w)
    ensures Finalisations(w, ops, iid) <= 1
    decreases |ops|
  {
    if ops != [] {
      StepKeepsWorld(w, ops[0]);
      if Finalises(w, ops[0], iid) {
        NoFinalisationAfterFinish(Apply(w, ops[0]), ops[1..], iid);
      } else {
        AtMostOneFinalisation(Apply(w, ops[0]), ops[1..], iid);
      }
    }
  }
}
