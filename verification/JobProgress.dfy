/**
 Every job makes a bounded number of moves, and a claim that is over stays over.  Both hold for any number of
 schedulers and executors.
 */
module JobProgress {
  import opened JobStates
  import opened JobTables
  import opened JobProtocol
  import opened AttemptNumbering

  // ---------------------------------------------------------------- bounded number of moves

  function Stage(s: JobState): nat {
    match s
    case Admitted => 5
    case Starting => 4
    case Running => 3
    case RecoveryPending => 2
    case RetryWait => 1
    case Queued => 0
    case CancelRequested => 1
    case _ => 0
  }

  /** Attempts left and stage within the attempt, as one number; a cancelled job has one move left. */
  function MovesLeft(j: Job): nat
    requires j.attempt <= j.maxRetries + 1
  {
    if j.state.IsTerminal() then 0
    else if j.state.CancelRequested? then 1
    else 6 * (j.maxRetries + 1 - j.attempt) + Stage(j.state) + 2
  }

  lemma EdgeUsesMoves(j: Job, j': Job)
    requires JobStep(j, j') && j.attempt <= j'.attempt <= j.maxRetries + 1
    requires j.state.Queued? && j'.state.Admitted? ==> j.attempt < j'.attempt
    ensures MovesLeft(j') <= MovesLeft(j) - (if j'.state != j.state then 1 else 0)
  {
  }

  /** Admission, the only operation that reaches ADMITTED, takes the next attempt. */
  lemma IntoAdmitted(w: World, op: Op, job: JobId)
    requires job in w.db.jobs && w.db.jobs[job].state.Queued?
    requires job in Apply(w, op).db.jobs && Apply(w, op).db.jobs[job].state.Admitted?
    ensures op.Admit? && op.row in w.scans && op.row.job == job && AdmitOk(w.db, op.row, op.aid, op.iid, op.rid)
    ensures Apply(w, op).db.jobs[job].attempt == op.row.attempt + 1
  {
  }

  lemma AdmittedTakesAttempt(w: World, op: Op, job: JobId)
    requires WorldOk(w) && job in w.db.jobs && w.db.jobs[job].state.Queued?
    requires job in Apply(w, op).db.jobs && Apply(w, op).db.jobs[job].state.Admitted?
    ensures Apply(w, op).db.jobs[job].attempt == w.db.jobs[job].attempt + 1
  {
    IntoAdmitted(w, op, job);
    AdmissionTakesNextNumber(w.db, op.row, op.aid, op.iid, op.rid);
  }

  /** Every change of state uses up a move, and nothing gives one back. */
  lemma StepUsesMoves(w: World, op: Op, job: JobId)
    requires WorldOk(w) && job in w.db.jobs
    ensures WorldOk(Apply(w, op)) && job in Apply(w, op).db.jobs
    ensures var j, j' := w.db.jobs[job], Apply(w, op).db.jobs[job];
            MovesLeft(j') <= MovesLeft(j) - (if j'.state != j.state then 1 else 0)
  {
    StepKeepsWorld(w, op);
    StepIsLegal(w, op, job);
    if w.db.jobs[job].state.Queued? && Apply(w, op).db.jobs[job].state.Admitted? {
      AdmittedTakesAttempt(w, op, job);
    }
    EdgeUsesMoves(w.db.jobs[job], Apply(w, op).db.jobs[job]);
  }

  /** How often the job's state changes along a run. */
  ghost function Changes(w: World, ops: seq<Op>, job: JobId): nat
    decreases |ops|
  {
    if ops == [] then 0
    else
      var w' := Apply(w, ops[0]);
      (if job in w.db.jobs && job in w'.db.jobs && w.db.jobs[job].state != w'.db.jobs[job].state then 1 else 0)
      + Changes(w', ops[1..], job)
  }

  lemma {:induction false} RunUsesMoves(w: World, ops: seq<Op>, job: JobId)
    requires WorldOk(w) && job in w.db.jobs
    ensures WorldOk(Run(w, ops)) && job in Run(w, ops).db.jobs
    ensures MovesLeft(Run(w, ops).db.jobs[job]) + Changes(w, ops, job) <= MovesLeft(w.db.jobs[job])
    decreases |ops|
  {
    if ops != [] {
      StepUsesMoves(w, ops[0], job);
      RunUsesMoves(Apply(w, ops[0]), ops[1..], job);
    }
  }

  /** A freshly submitted job changes state at most 6 * (max_retries + 1) + 2 times, in any run whatever. */
  lemma JobMovesAreBounded(w: World, job: JobId, ws: WorkspaceId, maxRetries: nat, timeout: int, ops: seq<Op>)
    requires WorldOk(w) && job !in w.db.jobs
    ensures Changes(Apply(w, Submit(job, ws, maxRetries, timeout)), ops, job) <= 6 * (maxRetries + 1) + 2
  {
    StepKeepsWorld(w, Submit(job, ws, maxRetries, timeout));
    RunUsesMoves(Apply(w, Submit(job, ws, maxRetries, timeout)), ops, job);
  }

  // ---------------------------------------------------------------- claims are exclusive and end once

  predicate Finished(i: Intent) {
    i.status.Applied? || i.status.Terminated?
  }

  /** Every claim was made on an intent that has left PENDING for good, and no two claims share an intent. */
  predicate ClaimsExclusive(w: World) {
    && (forall t :: t in w.tokens ==> t.intent in w.db.intents && !w.db.intents[t.intent].status.Pending?)
    && (forall t, u :: t in w.tokens && u in w.tokens && t.intent == u.intent ==> t == u)
  }

  /** A finished intent keeps its status; one that left PENDING never returns to it. */
  lemma StatusOnlyAdvances(w: World, op: Op, iid: IntentId)
    requires iid in w.db.intents
    ensures iid in Apply(w, op).db.intents
    ensures Finished(w.db.intents[iid]) ==> Apply(w, op).db.intents[iid].status == w.db.intents[iid].status
    ensures !w.db.intents[iid].status.Pending? ==> !Apply(w, op).db.intents[iid].status.Pending?
  {
  }

  lemma StepKeepsClaimsExclusive(w: World, op: Op)
    requires ClaimsExclusive(w)
    ensures ClaimsExclusive(Apply(w, op))
  {
    var w' := Apply(w, op);
    forall t | t in w'.tokens ensures t.intent in w'.db.intents && !w'.db.intents[t.intent].status.Pending? {
      if t in w.tokens {
        StatusOnlyAdvances(w, op, t.intent);
      }
    }
  }

  lemma {:induction false} RunKeepsClaimsExclusive(w: World, ops: seq<Op>)
    requires ClaimsExclusive(w)
    ensures ClaimsExclusive(Run(w, ops))
    decreases |ops|
  {
    if ops != [] {
      StepKeepsClaimsExclusive(w, ops[0]);
      RunKeepsClaimsExclusive(Apply(w, ops[0]), ops[1..]);
    }
  }

  /** In every reachable state a job attempt has been claimed by one worker at most, with one epoch. */
  lemma AttemptsAreClaimedOnce(ops: seq<Op>, t: Token, u: Token)
    requires t in Run(INIT, ops).tokens && u in Run(INIT, ops).tokens && t.intent == u.intent
    ensures t == u
  {
    RunKeepsClaimsExclusive(INIT, ops);
  }

  /** The operations a worker issues with its claim. */
  predicate WrittenBy(op: Op, t: Token) {
    match op
    case Renew(u, _) => u == t
    case MarkRunning(u) => u == t
    case MarkSucceeded(u, _) => u == t
    case MarkFailed(u, _, _, _, _) => u == t
    case MarkCancelled(u, _) => u == t
    case _ => false
  }

  /** The claim is over: the intent was finished, or claimed again with a larger epoch. */
  predicate Lost(db: Db, t: Token) {
    t.intent in db.intents && (Finished(db.intents[t.intent]) || db.intents[t.intent].epoch > t.epoch)
  }

  lemma {:induction false} LostStaysLost(w: World, ops: seq<Op>, t: Token)
    requires WorldOk(w) && Lost(w.db, t)
    ensures Lost(Run(w, ops).db, t)
    decreases |ops|
  {
    if ops != [] {
      StepKeepsWorld(w, ops[0]);
      StatusOnlyAdvances(w, ops[0], t.intent);
      LostStaysLost(Apply(w, ops[0]), ops[1..], t);
    }
  }

  /**
   Fencing over whole runs: once a claim is lost, every later renewal or report made with it, after
   any further run, leaves all tables exactly as they are.
   */
  lemma LateWritesChangeNothing(w: World, ops: seq<Op>, t: Token, late: Op)
    requires WorldOk(w) && Lost(w.db, t) && WrittenBy(late, t)
    ensures Apply(Run(w, ops), late) == Run(w, ops)
  {
    LostStaysLost(w, ops, t);
  }

  /** Whether this operation commits a finalisation of the intent. */
  predicate Finalises(w: World, op: Op, iid: IntentId) {
    iid in w.db.intents && !Finished(w.db.intents[iid]) && iid in Apply(w, op).db.intents &&
        Finished(Apply(w, op).db.intents[iid])
  }

  ghost function Finalisations(w: World, ops: seq<Op>, iid: IntentId): nat
    decreases |ops|
  {
    if ops == [] then 0
    else (if Finalises(w, ops[0], iid) then 1 else 0) + Finalisations(Apply(w, ops[0]), ops[1..], iid)
  }

  lemma {:induction false} NoFinalisationAfterFinish(w: World, ops: seq<Op>, iid: IntentId)
    requires iid in w.db.intents && Finished(w.db.intents[iid])
    ensures Finalisations(w, ops, iid) == 0
    decreases |ops|
  {
    if ops != [] {
      StatusOnlyAdvances(w, ops[0], iid);
      NoFinalisationAfterFinish(Apply(w, ops[0]), ops[1..], iid);
    }
  }

  /** Workers and recovery together commit at most one finalisation of an intent in any run. */
  lemma {:induction false} AtMostOneFinalisation(w: World, ops: seq<Op>, iid: IntentId)
    ensures Finalisations(w, ops, iid) <= 1
    decreases |ops|
  {
    if ops != [] {
      if Finalises(w, ops[0], iid) {
        NoFinalisationAfterFinish(Apply(w, ops[0]), ops[1..], iid);
      } else {
        AtMostOneFinalisation(Apply(w, ops[0]), ops[1..], iid);
      }
    }
  }
}
