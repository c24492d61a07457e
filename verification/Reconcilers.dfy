/**
 The two reconcilers that executors run on what they claimed: `ReconcileJob`, which decides what a
 worker may report, and `ReconcileOne`, which probes a service a bounded number of times.
 */
module Reconcilers {
  import opened Options
  import opened Rows
  import opened Decimals
  import opened JobStates
  import opened JobTables
  import opened JobEffects
  import opened JobProtocol
  import opened JobProgress
  import opened SchedulerModel
  import opened SchedulerPass
  import opened SchedulerLoop
  import Jobs = JobTables
  import Releases = ReleaseTables
  import ReleaseStore

  // ---------------------------------------------------------------- jobs

  /** `process exited with status %d`. */
  function StatusText(exitCode: int): string {
    "process exited with status " + if exitCode < 0 then "-" + Decimal(-exitCode) else Decimal(exitCode)
  }

  /** The text ends with the exit code, which can be read back from it. */
  lemma StatusTextNamesCode(exitCode: nat)
    ensures var text := StatusText(exitCode);
            text[..27] == "process exited with status " && ReadDecimal(text[27..]) == exitCode
    ensures exitCode > 0 ==> StatusText(0 - exitCode) == StatusText(0)[..27] + "-" + StatusText(exitCode)[27..]
  {
    DecimalReadsBack(exitCode);
    assert StatusText(exitCode)[27..] == Decimal(exitCode) && StatusText(0)[..27] == "process exited with status ";
  }

  predicate IsFinal(op: Op) {
    op.MarkSucceeded? || op.MarkFailed? || op.MarkCancelled?
  }

  /** What one worker may write: all with its own claim, nothing after a finalising report, retries within budget. */
  predicate WorkerWrites(ops: seq<Op>, t: Token) {
    && (forall k :: 0 <= k < |ops| ==> WrittenBy(ops[k], t) && EnvOp(ops[k]))
    && (forall k :: 0 <= k < |ops| && IsFinal(ops[k]) ==> k == |ops| - 1)
  }

  /** What the job's row says when the worker asks whether it is cancelled; a failed read counts as no. */
  predicate ReadsCancel(w: World, job: JobId, readFails: bool) {
    !readFails && job in w.db.jobs && w.db.jobs[job].state == CancelRequested
  }

  /** The worlds in which a worker that took over in `w` acts, given what others do before each of its calls. */
  function FirstRead(w: World, others: nat -> seq<Op>): World {
    Run(w, others(0))
  }

  function AtStart(w: World, others: nat -> seq<Op>): World {
    Run(FirstRead(w, others), others(1))
  }

  function AfterRefusal(w: World, t: Token, others: nat -> seq<Op>): World {
    Run(Apply(AtStart(w, others), MarkRunning(t)), others(2))
  }

  function AfterRun(w: World, t: Token, others: nat -> seq<Op>): World {
    Run(Apply(AtStart(w, others), MarkRunning(t)), others(3))
  }

  function AtReport(w: World, t: Token, others: nat -> seq<Op>): World {
    Run(AfterRun(w, t, others), others(4))
  }

  /** The workload may start: the claim is in force, and neither the attempt nor the job has moved on. */
  predicate MayStart(w: World, t: Token) {
    && InForce(w.db.intents, t) && t.attempt in w.db.attempts && w.db.attempts[t.attempt].state == Starting
    && t.job in w.db.jobs && w.db.jobs[t.job].state == Starting
  }

  /**
   What a worker that took over in `w` writes before the workload starts: CANCELLED if the job is read as being
   cancelled; otherwise the start, and if that is refused CANCELLED if the job is then read as being cancelled.
   */
  ghost predicate StartsRightly(w: World, t: Token, readFails: nat -> bool, others: nat -> seq<Op>, started: bool,
                                mine: seq<Op>) {
    if ReadsCancel(FirstRead(w, others), t.job, readFails(0)) then !started && |mine| == 1 && mine[0].MarkCancelled?
    else if MayStart(AtStart(w, others), t) then started && mine == [MarkRunning(t)]
    else if ReadsCancel(AfterRefusal(w, t, others), t.job, readFails(1))
    then !started && |mine| == 2 && mine[0] == MarkRunning(t) && mine[1].MarkCancelled?
    else !started && mine == [MarkRunning(t)]
  }

  /** A final report is accepted: the claim is in force and the job is in a state that the report can end. */
  predicate Accepts(w: World, op: Op) {
    && IsFinal(op) && InForce(w.db.intents, op.token) && op.token.job in w.db.jobs
    && var state := w.db.jobs[op.token.job].state;
       match op
       case MarkSucceeded(t, _) => t.attempt in w.db.attempts && state in {Running, CancelRequested}
       case MarkFailed(_, _, _, _, _) => state in {Starting, Running, RecoveryPending, CancelRequested}
       case _ => state == CancelRequested
  }

  lemma {:induction false} ClaimsStay(w: World, ops: seq<Op>)
    ensures w.tokens <= Run(w, ops).tokens
    decreases |ops|
  {
    if ops != [] {
      ClaimsStay(Apply(w, ops[0]), ops[1..]);
    }
  }

  /** A worker on a claim, with the cluster it works in. */
  class Worker {
    const cluster: Cluster
    const t: Token
    ghost var w0: World
    ghost var trace: seq<Op>
    ghost var mine: seq<Op>

    /** The cluster is where `trace` leads, and the worker's own writes so far are in order and not final. */
    ghost predicate Valid()
      reads this, cluster, cluster.store
    {
      && cluster.State() == Run(w0, trace) && AllEnv(trace)
      && t in cluster.claims && WorkerWrites(mine, t)
    }

    ghost predicate Open()
      reads this
    {
      mine == [] || !IsFinal(mine[|mine| - 1])
    }

    constructor (cluster: Cluster, t: Token)
      requires t in cluster.claims
      ensures this.cluster == cluster && this.t == t && Valid() && Open()
      ensures w0 == cluster.State() && trace == [] && mine == []
    {
      this.cluster, this.t := cluster, t;
      w0, trace, mine := cluster.State(), [], [];
    }

    /** Others act before the worker's next call. */
    method Wait(ops: seq<Op>)
      requires Valid() && AllEnv(ops)
      modifies this`trace, cluster, cluster.store
      ensures Valid() && trace == old(trace) + ops && cluster.State() == Run(old(cluster.State()), ops)
    {
      ghost var w := cluster.State();
      cluster.Perform(ops);
      RunConcat(w0, trace, ops);
      ClaimsStay(w, ops);
      trace := trace + ops;
    }

    /** `IsJobCancelRequested`; a failed read counts as no. */
    method IsCancelRequested(readFails: bool) returns (cancelled: bool)
      ensures cancelled <==> ReadsCancel(cluster.State(), t.job, readFails)
    {
      cancelled := !readFails && t.job in cluster.store.jobs && cluster.store.jobs[t.job].state.CancelRequested?;
    }

    ghost method Record(op: Op)
      requires cluster.State() == Apply(Run(w0, trace), op) && AllEnv(trace) && t in cluster.claims &&
               WorkerWrites(mine, t)
      requires Open() && WrittenBy(op, t) && EnvOp(op)
      modifies this`trace, this`mine
      ensures Valid() && mine == old(mine) + [op] && trace == old(trace) + [op]
    {
      RunOne(w0, trace, op);
      trace, mine := trace + [op], mine + [op];
    }

    method ReportRunning() returns (ok: bool)
      requires Valid() && Open()
      modifies this`trace, this`mine, cluster.store
      ensures Valid() && Open() && mine == old(mine) + [MarkRunning(t)]
      ensures cluster.State() == Apply(old(cluster.State()), MarkRunning(t)) && ok == MayStart(old(cluster.State()), t)
    {
      ok := cluster.store.MarkJobAttemptRunning(t, cluster.now);
      Record(MarkRunning(t));
    }

    method ReportCancelled(locked: set<ReservationId>) returns (ok: bool, ghost op: Op)
      requires Valid() && Open()
      modifies this`trace, this`mine, cluster.store
      ensures Valid() && mine == old(mine) + [op] && op.MarkCancelled?
      ensures cluster.State() == Apply(old(cluster.State()), op)
      ensures op.token == t && (ok <==> Accepts(old(cluster.State()), op))
    {
      ghost var pick;
      ok, pick := cluster.store.MarkJobAttemptCancelled(t, cluster.now, locked);
      op := MarkCancelled(t, pick);
      Record(op);
    }

    method ReportSucceeded(locked: set<ReservationId>) returns (ok: bool, ghost op: Op)
      requires Valid() && Open()
      modifies this`trace, this`mine, cluster.store
      ensures Valid() && mine == old(mine) + [op] && op.MarkSucceeded?
      ensures cluster.State() == Apply(old(cluster.State()), op)
      ensures op.token == t && (ok <==> Accepts(old(cluster.State()), op))
    {
      ghost var pick;
      ok, pick := cluster.store.MarkJobAttemptSucceeded(t, cluster.now, locked);
      op := MarkSucceeded(t, pick);
      Record(op);
    }

    method ReportFailed(reason: string, exitCode: int, locked: set<ReservationId>) returns (ok: bool, ghost op: Op)
      requires Valid() && Open()
      modifies this`trace, this`mine, cluster.store
      ensures Valid() && mine == old(mine) + [op]
      ensures op.MarkFailed? && op == MarkFailed(t, reason, exitCode, t.number <= t.maxRetries, op.pick)
      ensures cluster.State() == Apply(old(cluster.State()), op)
      ensures ok <==> Accepts(old(cluster.State()), op)
    {
      var shouldRetry := t.number <= t.maxRetries;
      ghost var pick;
      ok, pick := cluster.store.MarkJobAttemptFailed(t, reason, exitCode, shouldRetry, cluster.now, locked);
      op := MarkFailed(t, reason, exitCode, shouldRetry, pick);
      Record(op);
    }

    /** Report the start; if that is refused, ask once more whether the job is being cancelled. */
    method TryStart(readFails: bool, locked: set<ReservationId>, ops: seq<Op>) returns (started: bool, ok: bool)
      requires Valid() && mine == [] && AllEnv(ops)
      modifies this`trace, this`mine, cluster, cluster.store
      ensures Valid() && started == MayStart(old(cluster.State()), t)
      ensures started ==> mine == [MarkRunning(t)] && cluster.State() == Apply(old(cluster.State()), MarkRunning(t))
      ensures !started ==>
                if ReadsCancel(Run(Apply(old(cluster.State()), MarkRunning(t)), ops), t.job, readFails)
                then |mine| == 2 && mine[0] == MarkRunning(t) && mine[1].MarkCancelled? else mine == [MarkRunning(t)]
      ensures !started && ok ==> mine[|mine| - 1].MarkCancelled?
    {
      ok := false;
      started := ReportRunning();
      if !started {
        Wait(ops);
        var cancelled := IsCancelRequested(readFails);
        if cancelled {
          ghost var op;
          ok, op := ReportCancelled(locked);
        }
      }
    }

    /**
     Up to the start of the workload.  A job that is read as being cancelled is reported CANCELLED and nothing else;
     otherwise the start is reported, and if that is refused the job is read once more.
     */
    method StartJob(readFails: nat -> bool, locked: set<ReservationId>, others: nat -> seq<Op>)
      returns (started: bool, ok: bool)
      requires Valid() && mine == [] && forall n :: AllEnv(others(n))
      modifies this`trace, this`mine, cluster, cluster.store
      ensures Valid()
      ensures StartsRightly(old(cluster.State()), t, readFails, others, started, mine)
      ensures started ==> cluster.State() == Apply(AtStart(old(cluster.State()), others), MarkRunning(t))
      ensures !started && ok ==> mine[|mine| - 1].MarkCancelled?
    {
      ghost var op;
      ok := false;
      Wait(others(0));
      var cancelled := IsCancelRequested(readFails(0));
      if cancelled {
        ok, op := ReportCancelled(locked);
        return false, ok;
      }
      Wait(others(1));
      started, ok := TryStart(readFails(1), locked, others(2));
    }

    /** The last report on a workload that was started. */
    method ReportOutcome(readFails: bool, exitCode: int, failure: string, runError: Option<string>,
                         locked: set<ReservationId>, duringRun: seq<Op>, beforeReport: seq<Op>)
      returns (ok: bool, ghost op: Op)
      requires Valid() && Open() && AllEnv(duringRun) && AllEnv(beforeReport)
      modifies this`trace, this`mine, cluster, cluster.store
      ensures Valid() && mine == old(mine) + [op]
      ensures var w := Run(old(cluster.State()), duringRun);
              var w' := Run(w, beforeReport);
              if exitCode == 0 && runError.None? then
                op.MarkSucceeded? && cluster.State() == Apply(w, op) && (ok <==> Accepts(w, op))
              else if ReadsCancel(w, t.job, readFails) then
                op.MarkCancelled? && cluster.State() == Apply(w', op) && (ok <==> Accepts(w', op))
              else
                && op.MarkFailed? && cluster.State() == Apply(w', op) && (ok <==> Accepts(w', op))
                && op == MarkFailed(t, op.reason, exitCode, t.number <= t.maxRetries, op.pick)
                && (failure != "" ==> op.reason == failure)
                && (failure == "" && runError.Some? ==> op.reason == runError.value)
                && (failure == "" && runError.None? ==> op.reason == StatusText(exitCode))
    {
      Wait(duringRun);
      if exitCode == 0 && runError.None? {
        ok, op := ReportSucceeded(locked);
        return;
      }
      var cancelled := IsCancelRequested(readFails);
      Wait(beforeReport);
      if cancelled {
        ok, op := ReportCancelled(locked);
        return;
      }
      var reason := failure;
      if reason == "" {
        reason := if runError.Some? then runError.value else StatusText(exitCode);
      }
      ok, op := ReportFailed(reason, exitCode, locked);
    }

    /**
     `ReconcileJob`, with the runner's outcome and what others do before each call.  Whatever happens, the worker
     writes with its own claim only, and finalises at most once and as its last write.  A workload that was started gets
     exactly one final report: success for a clean exit; otherwise cancelled if the job was read as being cancelled
     after the run; otherwise failed, with its exit code and a reason, to be retried exactly while the budget lasts.
     */
    method ReconcileJob(readFails: nat -> bool, exitCode: int, failure: string, runError: Option<string>,
                        locked: set<ReservationId>, others: nat -> seq<Op>)
      returns (started: bool, ok: bool)
      requires Valid() && mine == [] && forall n :: AllEnv(others(n))
      modifies this`trace, this`mine, cluster, cluster.store
      ensures Valid()
      ensures var w := old(cluster.State());
              started <==> !ReadsCancel(FirstRead(w, others), t.job, readFails(0)) && MayStart(AtStart(w, others), t)
      ensures !started ==> forall k :: 0 <= k < |mine| ==> mine[k].MarkRunning? || mine[k].MarkCancelled?
      ensures started ==> |mine| == 2 && mine[0] == MarkRunning(t)
      ensures started && exitCode == 0 && runError.None? ==> mine[1].MarkSucceeded?
      ensures started && !(exitCode == 0 && runError.None?) ==>
                if ReadsCancel(AfterRun(old(cluster.State()), t, others), t.job, readFails(2))
                then mine[1].MarkCancelled?
                else && mine[1].MarkFailed? && mine[1].exitCode == exitCode
                     && mine[1].shouldRetry == (t.number <= t.maxRetries)
                     && mine[1].reason == (if failure != "" then failure
                                           else if runError.Some? then runError.value
                                           else StatusText(exitCode))
      ensures started ==>
                var w := if exitCode == 0 && runError.None? then AfterRun(old(cluster.State()), t, others)
                         else AtReport(old(cluster.State()), t, others);
                cluster.State() == Apply(w, mine[1]) && (ok <==> Accepts(w, mine[1]))
      ensures ok ==> mine != [] && IsFinal(mine[|mine| - 1])
    {
      started, ok := StartJob(readFails, locked, others);
      if started {
        ghost var op;
        ok, op := ReportOutcome(readFails(2), exitCode, failure, runError, locked, others(3), others(4));
      }
    }
  }

  // ---------------------------------------------------------------- services

  datatype Probe = Ready | NotReady(reason: string) | ProbeError(reason: string)

  /** The one store call that ends `ReconcileOne`. */
  datatype Report = ReportHealthy | ReportUnhealthy(reason: string)

  /** What a probe that was not ready is reported with. */
  function FailureText(p: Probe): string {
    match p
    case Ready => ""
    case NotReady(reason) => reason
    case ProbeError(reason) => "probe error: " + reason
  }

  /** No probe before `k` was ready, and the context was alive at every step up to probe `k`. */
  predicate ReachesProbe(probe: nat -> Probe, stopped: nat -> bool, k: nat) {
    && (forall i :: 0 <= i < k ==> !probe(i).Ready?)
    && (forall i :: 0 <= i <= 2 * k ==> !stopped(i))
  }

  /** One of the first `maxRetries` probes is reached and ready. */
  ghost predicate BecomesReady(maxRetries: nat, probe: nat -> Probe, stopped: nat -> bool) {
    exists k :: 0 <= k < maxRetries && ReachesProbe(probe, stopped, k) && probe(k).Ready?
  }

  /** A context that is done before probe `n` lets no later probe be reached. */
  lemma StoppedIsNotReady(maxRetries: nat, probe: nat -> Probe, stopped: nat -> bool, n: nat, at: nat)
    requires at <= 2 * n && stopped(at) && forall i :: 0 <= i < n ==> !probe(i).Ready?
    ensures !BecomesReady(maxRetries, probe, stopped)
  {
  }

  /**
   The deployment and probes of `ReconcileOne`: `stopped(2k)` says whether the context is done before probe k and
   `stopped(2k + 1)` whether it is done in the pause after it.  The release is reported healthy if and only if one
   of the first `maxRetries` probes is reached and ready; otherwise it is reported failed; at most
   `maxRetries` probes are made.
   */
  method ProbeRelease(deployed: bool, maxRetries: nat, probe: nat -> Probe, stopped: nat -> bool)
    returns (report: Report, probes: nat)
    requires maxRetries > 0
    ensures report.ReportHealthy? <==> deployed && BecomesReady(maxRetries, probe, stopped)
    ensures probes <= maxRetries && (!deployed ==> probes == 0)
    ensures report.ReportHealthy? ==> probes > 0 && probe(probes - 1).Ready?
    ensures !deployed ==> report == ReportUnhealthy("workload deployment failed")
    ensures deployed && report.ReportUnhealthy? && (forall i :: 0 <= i < 2 * maxRetries ==> !stopped(i)) ==>
              probes == maxRetries && report.reason == FailureText(probe(maxRetries - 1))
  {
    probes := 0;
    if !deployed {
      return ReportUnhealthy("workload deployment failed"), 0;
    }
    var isReady, lastFailure := false, "";
    while probes < maxRetries && !isReady
      invariant probes <= maxRetries
      invariant isReady ==> probes > 0 && ReachesProbe(probe, stopped, probes - 1) && probe(probes - 1).Ready?
      invariant !isReady ==> forall i :: 0 <= i < probes ==> !probe(i).Ready?
      invariant !isReady ==> forall i :: 0 <= i < 2 * probes && i < 2 * maxRetries - 1 ==> !stopped(i)
      invariant !isReady && probes > 0 ==> lastFailure == FailureText(probe(probes - 1))
      decreases maxRetries - probes, !isReady
    {
      if stopped(2 * probes) {
        StoppedIsNotReady(maxRetries, probe, stopped, probes, 2 * probes);
        return ReportUnhealthy("reconciliation context cancelled"), probes;
      }
      assert ReachesProbe(probe, stopped, probes);
      match probe(probes) {
        case Ready => isReady := true;
        case NotReady(reason) => lastFailure := reason;
        case ProbeError(reason) => lastFailure := "probe error: " + reason;
      }
      probes := probes + 1;
      if !isReady && probes < maxRetries && stopped(2 * probes - 1) {
        StoppedIsNotReady(maxRetries, probe, stopped, probes, 2 * probes - 1);
        return ReportUnhealthy("reconciliation context cancelled"), probes;
      }
    }
    report := if isReady then ReportHealthy else ReportUnhealthy(lastFailure);
  }

  /** What `ReconcileOne` removes from the cluster at its end. */
  datatype Cleanup = KeepAll | TearDownOwn | TearDownOlderGenerations

  /**
   `ReconcileOne`: the probes decide which of the two store calls is made, and it is made with the claim's epoch.  Older
   generations are torn down only if this release was promoted by this very call, and then it is what is served; a
   release that is not ready is torn down itself.
   */
  method ReconcileOne(store: ReleaseStore.Store, c: Releases.Claim, deployed: bool, maxRetries: nat,
                      probe: nat -> Probe, stopped: nat -> bool)
    returns (ok: bool, cleanup: Cleanup)
    requires maxRetries > 0
    modifies store
    ensures ok == ReleaseStore.InForce(old(store.intents), c)
    ensures var ready := deployed && BecomesReady(maxRetries, probe, stopped);
            && (ok ==> c.intent in store.intents
                       && store.intents[c.intent].status == if ready then Jobs.Applied else Jobs.Terminated)
            && (ok && c.release in old(store.releases) ==>
                  OnlyRow(old(store.releases), store.releases, c.release)
                  && store.releases[c.release] ==
                     old(store.releases)[c.release].(status := if ready then Releases.Healthy
                                                                else Releases.DeployFailed))
            && (!ok ==> store.Tables() == old(store.Tables()))
            && (cleanup.TearDownOwn? <==> !ready)
            && (cleanup.TearDownOlderGenerations? <==>
                  ready && ok && c.app in old(store.apps)
                  && old(store.apps)[c.app].desired == old(store.intents)[c.intent].generation)
            && store.Tables() == if ready then Releases.HealthyTx(old(store.Tables()), c)
                                 else Releases.FailedTx(old(store.Tables()), c)
    ensures if cleanup.TearDownOlderGenerations?
            then store.apps == old(store.apps)[c.app := Releases.App(old(store.apps)[c.app].desired, Some(c.release))]
            else store.apps == old(store.apps)
  {
    var report, _ := ProbeRelease(deployed, maxRetries, probe, stopped);
    if report.ReportHealthy? {
      var becameCurrent;
      ok, becameCurrent := store.MarkReleaseHealthy(c);
      cleanup := if becameCurrent then TearDownOlderGenerations else KeepAll;
    } else {
      cleanup := TearDownOwn;
      ok := store.MarkReleaseFailed(c);
    }
  }
}
