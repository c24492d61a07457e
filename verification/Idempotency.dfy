/**
 Idempotent submission: `check_idempotency`, the single commit of job, event and record, and
 the handling of the insert race, for any interleaving of requests.  A request is a small
 process; between its check and its commit anything may happen.
 */
module Idempotency {
  import opened Options

  type JobId = nat
  type RecordId = nat
  type RequestId = nat

  datatype Key = Key(workspace: nat, endpoint: string, token: string)

  /** 24 hours, in seconds. */
  const TTL := 86400

  datatype Record = Record(id: RecordId, hash: string, operation: JobId, expiresAt: int)

  /** A job row with the request it came from and the time its record was created. */
  datatype Submission = Submission(key: Key, hash: string, at: int)

  /** `uq_idempotency_workspace_key` makes records a map; an event row is told by the job it announces. */
  datatype Tables = Tables(
    records: map<Key, Record>,
    jobs: map<JobId, Submission>,
    events: multiset<JobId>)

  datatype CheckResult = Proceed(purge: Option<RecordId>) | Replay(operation: JobId) | Conflict

  datatype Answer = Accepted(operation: JobId) | Conflicted

  function Find(t: Tables, key: Key): Option<Record> {
    if key in t.records then Some(t.records[key]) else None
  }

  /** `check_idempotency`: an expired record is marked for deletion in the caller's transaction. */
  function CheckIdempotency(existing: Option<Record>, hash: string, now: int): CheckResult {
    match existing
    case None => Proceed(None)
    case Some(r) =>
      if r.expiresAt <= now then Proceed(Some(r.id))
      else if r.hash == hash then Replay(r.operation)
      else Conflict
  }

  /** `handle_idempotency_race` after the rollback: no look at the expiry. */
  function HandleRace(existing: Option<Record>, hash: string): Answer {
    match existing
    case None => Conflicted
    case Some(r) => if r.hash == hash then Accepted(r.operation) else Conflicted
  }

  datatype Phase =
    | Arrived
    | Checked(purge: Option<RecordId>)
    | Prepared(purge: Option<RecordId>, operation: JobId, at: int)
    | Raced
    | Answered(answer: Answer)
    | Failed

  datatype Request = Request(key: Key, hash: string, phase: Phase)

  /** `used` holds the record ids ever given out. */
  datatype World = World(t: Tables, now: int, requests: map<RequestId, Request>, used: set<RecordId>)

  const INIT: World := World(Tables(map[], map[], multiset{}), 0, map[], {})

  datatype Op =
    | Tick(elapsed: nat)
    | Arrive(req: RequestId, key: Key, hash: string)
    | Check(req: RequestId)
    | Prepare(req: RequestId, operation: JobId)
    | Commit(req: RequestId, id: RecordId)
    | Resolve(req: RequestId)
    | Fail(req: RequestId)

  function SetPhase(w: World, req: RequestId, phase: Phase): World
    requires req in w.requests
  {
    w.(requests := w.requests[req := w.requests[req].(phase := phase)])
  }

  function AfterCheck(c: CheckResult): Phase {
    match c
    case Proceed(purge) => Checked(purge)
    case Replay(operation) => Answered(Accepted(operation))
    case Conflict => Answered(Conflicted)
  }

  /** The record the transaction deletes before it inserts its own is still the one of the key. */
  predicate Purges(t: Tables, key: Key, purge: Option<RecordId>) {
    key in t.records && purge == Some(t.records[key].id)
  }

  function InsertSubmission(t: Tables, id: RecordId, job: JobId, sub: Submission): Tables {
    Tables(t.records[sub.key := Record(id, sub.hash, job, sub.at + TTL)], t.jobs[job := sub], t.events + multiset{job})
  }

  /** Deletes the purged record and inserts job, event and record; the key may already be taken. */
  function CommitTx(w: World, req: RequestId, id: RecordId): World
    requires req in w.requests && w.requests[req].phase.Prepared?
  {
    var r := w.requests[req];
    var p := r.phase;
    if p.operation in w.t.jobs || id in w.used then SetPhase(w, req, Failed)
    else if r.key in w.t.records && !Purges(w.t, r.key, p.purge) then SetPhase(w, req, Raced)
    else
      var done := SetPhase(w, req, Answered(Accepted(p.operation)));
      done.(t := InsertSubmission(w.t, id, p.operation, Submission(r.key, r.hash, p.at)), used := w.used + {id})
  }

  function Apply(w: World, op: Op): World {
    match op
    case Tick(elapsed) => w.(now := w.now + elapsed)
    case Arrive(req, key, hash) =>
      if req in w.requests then w else w.(requests := w.requests[req := Request(key, hash, Arrived)])
    case Check(req) =>
      if req in w.requests && w.requests[req].phase.Arrived?
      then SetPhase(w, req, AfterCheck(CheckIdempotency(Find(w.t, w.requests[req].key), w.requests[req].hash, w.now)))
      else w
    case Prepare(req, operation) =>
      if req in w.requests && w.requests[req].phase.Checked?
      then SetPhase(w, req, Prepared(w.requests[req].phase.purge, operation, w.now))
      else w
    case Commit(req, id) => if req in w.requests && w.requests[req].phase.Prepared? then CommitTx(w, req, id) else w
    case Resolve(req) =>
      if req in w.requests && w.requests[req].phase.Raced?
      then SetPhase(w, req, Answered(HandleRace(Find(w.t, w.requests[req].key), w.requests[req].hash)))
      else w
    case Fail(req) => if req in w.requests && !w.requests[req].phase.Answered? then SetPhase(w, req, Failed) else w
  }

  function Run(w: World, ops: seq<Op>): World
    decreases |ops|
  {
    if ops == [] then w else Run(Apply(w, ops[0]), ops[1..])
  }

  // ---------------------------------------------------------------- the invariant

  predicate OfKey(t: Tables, j: JobId, key: Key) {
    j in t.jobs && t.jobs[j].key == key
  }

  /** The key's record is about its latest job, and every other job of the key was at least a TTL earlier. */
  predicate RecordOk(t: Tables, key: Key)
    requires key in t.records
  {
    var r := t.records[key];
    && OfKey(t, r.operation, key)
    && t.jobs[r.operation].hash == r.hash && r.expiresAt == t.jobs[r.operation].at + TTL
    && forall j :: j in t.jobs && OfKey(t, j, key) && j != r.operation ==> t.jobs[j].at + TTL <= t.jobs[r.operation].at
  }

  predicate RecordsOk(t: Tables) {
    && (forall key :: key in t.records ==> RecordOk(t, key))
    && (forall j :: j in t.jobs ==> t.jobs[j].key in t.records)
  }

  predicate JobsApart(t: Tables) {
    forall j, k :: j in t.jobs && k in t.jobs && j != k && t.jobs[j].key == t.jobs[k].key ==>
      t.jobs[j].at + TTL <= t.jobs[k].at || t.jobs[k].at + TTL <= t.jobs[j].at
  }

  ghost predicate OneEventEach(t: Tables) {
    forall j :: t.events[j] == if j in t.jobs then 1 else 0
  }

  /** A record marked for deletion, if it is still there, was expired when it was marked. */
  predicate PurgeOk(w: World, key: Key, purge: Option<RecordId>, when: int) {
    && (purge.Some? ==> purge.value in w.used)
    && (Purges(w.t, key, purge) ==> w.t.records[key].expiresAt <= when)
  }

  predicate HasOtherPayload(t: Tables, key: Key, hash: string) {
    exists j :: j in t.jobs && OfKey(t, j, key) && t.jobs[j].hash != hash
  }

  predicate RequestOk(w: World, r: Request) {
    match r.phase
    case Checked(purge) => PurgeOk(w, r.key, purge, w.now)
    case Prepared(purge, _, at) => PurgeOk(w, r.key, purge, at) && at <= w.now
    case Raced => r.key in w.t.records
    case Answered(Accepted(j)) => OfKey(w.t, j, r.key) && w.t.jobs[j].hash == r.hash
    case Answered(Conflicted) => HasOtherPayload(w.t, r.key, r.hash)
    case _ => true
  }

  predicate RequestsOk(w: World) {
    forall req :: req in w.requests ==> RequestOk(w, w.requests[req])
  }

  predicate IdsOk(w: World) {
    forall key :: key in w.t.records ==> w.t.records[key].id in w.used
  }

  ghost predicate WorldOk(w: World) {
    RecordsOk(w.t) && JobsApart(w.t) && OneEventEach(w.t) && RequestsOk(w) && IdsOk(w)
  }

  // ---------------------------------------------------------------- every step keeps it

  /** A step that leaves the tables alone concerns one request at most. */
  lemma PhaseChangeKeeps(w: World, req: RequestId, phase: Phase)
    requires WorldOk(w) && req in w.requests && RequestOk(w, w.requests[req].(phase := phase))
    ensures WorldOk(SetPhase(w, req, phase))
  {
    var w' := SetPhase(w, req, phase);
    forall q | q in w'.requests ensures RequestOk(w', w'.requests[q]) {
      var r := if q == req then w.requests[req].(phase := phase) else w.requests[q];
      assert RequestOk(w, r);
    }
  }

  lemma CheckAnswersAreOk(w: World, r: Request)
    requires RecordsOk(w.t) && IdsOk(w)
    ensures RequestOk(w, r.(phase := AfterCheck(CheckIdempotency(Find(w.t, r.key), r.hash, w.now))))
  {
    if r.key in w.t.records {
      assert RecordOk(w.t, r.key);
    }
  }

  lemma RaceAnswersAreOk(w: World, r: Request)
    requires RecordsOk(w.t) && r.phase.Raced? && RequestOk(w, r)
    ensures RequestOk(w, r.(phase := Answered(HandleRace(Find(w.t, r.key), r.hash))))
  {
    assert RecordOk(w.t, r.key);
  }

  lemma EarlierJobsAreApart(t: Tables, key: Key, at: int, j: JobId)
    requires RecordsOk(t) && (key in t.records ==> t.records[key].expiresAt <= at) && OfKey(t, j, key)
    ensures t.jobs[j].at + TTL <= at
  {
    assert RecordOk(t, key);
  }

  /** The new job is a TTL after every other of its key, and other keys are not concerned. */
  lemma InsertKeepsRecords(t: Tables, id: RecordId, job: JobId, sub: Submission)
    requires RecordsOk(t) && job !in t.jobs && (sub.key in t.records ==> t.records[sub.key].expiresAt <= sub.at)
    ensures RecordsOk(InsertSubmission(t, id, job, sub))
  {
    var t' := InsertSubmission(t, id, job, sub);
    forall key | key in t'.records ensures RecordOk(t', key) {
      if key != sub.key {
        assert RecordOk(t, key);
      }
      forall j | j in t'.jobs && OfKey(t', j, key) && j != t'.records[key].operation
        ensures t'.jobs[j].at + TTL <= t'.jobs[t'.records[key].operation].at
      {
        assert OfKey(t, j, key);
        if key == sub.key {
          EarlierJobsAreApart(t, key, sub.at, j);
        }
      }
    }
  }

  lemma InsertKeepsApart(t: Tables, id: RecordId, job: JobId, sub: Submission)
    requires RecordsOk(t) && JobsApart(t) && job !in t.jobs &&
             (sub.key in t.records ==> t.records[sub.key].expiresAt <= sub.at)
    ensures JobsApart(InsertSubmission(t, id, job, sub))
  {
    var t' := InsertSubmission(t, id, job, sub);
    forall j, k | j in t'.jobs && k in t'.jobs && j != k && t'.jobs[j].key == t'.jobs[k].key
      ensures t'.jobs[j].at + TTL <= t'.jobs[k].at || t'.jobs[k].at + TTL <= t'.jobs[j].at
    {
      if j == job {
        EarlierJobsAreApart(t, sub.key, sub.at, k);
      } else if k == job {
        EarlierJobsAreApart(t, sub.key, sub.at, j);
      }
    }
  }

  /** What another request marked for deletion is gone or unchanged: the new record has an id nobody has seen. */
  lemma InsertKeepsPurge(w: World, w': World, id: RecordId, job: JobId, sub: Submission, key: Key,
                         purge: Option<RecordId>, when: int)
    requires PurgeOk(w, key, purge, when) && id !in w.used
    requires w'.t == InsertSubmission(w.t, id, job, sub) && w'.used == w.used + {id}
    ensures PurgeOk(w', key, purge, when)
  {
  }

  /** Other requests are not disturbed, and what they were told stays true. */
  lemma InsertKeepsRequest(w: World, w': World, id: RecordId, job: JobId, sub: Submission, r: Request)
    requires RequestOk(w, r) && job !in w.t.jobs && id !in w.used && w'.now == w.now
    requires w'.t == InsertSubmission(w.t, id, job, sub) && w'.used == w.used + {id}
    ensures RequestOk(w', r)
  {
    match r.phase
    case Checked(purge) => InsertKeepsPurge(w, w', id, job, sub, r.key, purge, w.now);
    case Prepared(purge, _, at) => InsertKeepsPurge(w, w', id, job, sub, r.key, purge, at);
    case Answered(Conflicted) =>
      var j :| j in w.t.jobs && OfKey(w.t, j, r.key) && w.t.jobs[j].hash != r.hash;
      assert OfKey(w'.t, j, r.key);
    case _ =>
  }

  lemma InsertKeepsEvents(t: Tables, id: RecordId, job: JobId, sub: Submission)
    requires OneEventEach(t) && job !in t.jobs
    ensures OneEventEach(InsertSubmission(t, id, job, sub))
  {
  }

  lemma InsertKeepsRequests(w: World, req: RequestId, id: RecordId)
    requires RequestsOk(w) && req in w.requests && w.requests[req].phase.Prepared?
    requires var r := w.requests[req];
             r.phase.operation !in w.t.jobs && id !in w.used &&
                 (r.key in w.t.records ==> Purges(w.t, r.key, r.phase.purge))
    ensures RequestsOk(CommitTx(w, req, id))
  {
    var r, w' := w.requests[req], CommitTx(w, req, id);
    forall q | q in w'.requests ensures RequestOk(w', w'.requests[q]) {
      if q != req {
        InsertKeepsRequest(w, w', id, r.phase.operation, Submission(r.key, r.hash, r.phase.at), w.requests[q]);
      }
    }
  }

  /** The commit is the only step that changes tables. */
  lemma InsertKeeps(w: World, req: RequestId, id: RecordId)
    requires WorldOk(w) && req in w.requests && w.requests[req].phase.Prepared?
    requires var r := w.requests[req];
             r.phase.operation !in w.t.jobs && id !in w.used &&
                 (r.key in w.t.records ==> Purges(w.t, r.key, r.phase.purge))
    ensures WorldOk(CommitTx(w, req, id))
  {
    var r := w.requests[req];
    var sub := Submission(r.key, r.hash, r.phase.at);
    assert RequestOk(w, r);
    assert r.key in w.t.records ==> w.t.records[r.key].expiresAt <= sub.at;
    InsertKeepsRecords(w.t, id, r.phase.operation, sub);
    InsertKeepsApart(w.t, id, r.phase.operation, sub);
    InsertKeepsEvents(w.t, id, r.phase.operation, sub);
    InsertKeepsRequests(w, req, id);
    assert CommitTx(w, req, id).t == InsertSubmission(w.t, id, r.phase.operation, sub);
  }

  lemma CommitKeeps(w: World, req: RequestId, id: RecordId)
    requires WorldOk(w) && req in w.requests && w.requests[req].phase.Prepared?
    ensures WorldOk(CommitTx(w, req, id))
  {
    var r := w.requests[req];
    if r.phase.operation in w.t.jobs || id in w.used {
      PhaseChangeKeeps(w, req, Failed);
    } else if r.key in w.t.records && !Purges(w.t, r.key, r.phase.purge) {
      PhaseChangeKeeps(w, req, Raced);
    } else {
      InsertKeeps(w, req, id);
    }
  }

  lemma TickKeeps(w: World, elapsed: nat)
    requires WorldOk(w)
    ensures WorldOk(w.(now := w.now + elapsed))
  {
    var w' := w.(now := w.now + elapsed);
    forall q | q in w'.requests ensures RequestOk(w', w'.requests[q]) {
      assert RequestOk(w, w.requests[q]);
    }
  }

  lemma ArriveKeeps(w: World, req: RequestId, key: Key, hash: string)
    requires WorldOk(w) && req !in w.requests
    ensures WorldOk(w.(requests := w.requests[req := Request(key, hash, Arrived)]))
  {
    var w' := w.(requests := w.requests[req := Request(key, hash, Arrived)]);
    forall q | q in w'.requests && q != req ensures RequestOk(w', w'.requests[q]) {
      assert RequestOk(w, w.requests[q]);
    }
  }

  lemma StepKeepsWorld(w: World, op: Op)
    requires WorldOk(w)
    ensures WorldOk(Apply(w, op))
  {
    match op
    case Tick(elapsed) => TickKeeps(w, elapsed);
    case Arrive(req, key, hash) =>
      if req !in w.requests {
        ArriveKeeps(w, req, key, hash);
      }
    case Check(req) =>
      if req in w.requests && w.requests[req].phase.Arrived? {
        var r := w.requests[req];
        CheckAnswersAreOk(w, r);
        PhaseChangeKeeps(w, req, AfterCheck(CheckIdempotency(Find(w.t, r.key), r.hash, w.now)));
      }
    case Prepare(req, operation) =>
      if req in w.requests && w.requests[req].phase.Checked? {
        assert RequestOk(w, w.requests[req]);
        PhaseChangeKeeps(w, req, Prepared(w.requests[req].phase.purge, operation, w.now));
      }
    case Commit(req, id) =>
      if req in w.requests && w.requests[req].phase.Prepared? {
        CommitKeeps(w, req, id);
      }
    case Resolve(req) =>
      if req in w.requests && w.requests[req].phase.Raced? {
        RaceAnswersAreOk(w, w.requests[req]);
        PhaseChangeKeeps(w, req, Answered(HandleRace(Find(w.t, w.requests[req].key), w.requests[req].hash)));
      }
    case Fail(req) =>
      if req in w.requests && !w.requests[req].phase.Answered? {
        PhaseChangeKeeps(w, req, Failed);
      }
  }

  lemma {:induction false} RunKeepsWorld(w: World, ops: seq<Op>)
    requires WorldOk(w)
    ensures WorldOk(Run(w, ops))
    decreases |ops|
  {
    if ops != [] {
      StepKeepsWorld(w, ops[0]);
      RunKeepsWorld(Apply(w, ops[0]), ops[1..]);
    }
  }

  // ---------------------------------------------------------------- what clients can rely on

  /** In any run, two jobs submitted with the same key were prepared at least 24 hours apart. */
  lemma SubmissionsAreApart(ops: seq<Op>, j: JobId, k: JobId)
    requires var t := Run(INIT, ops).t; j in t.jobs && k in t.jobs && j != k && t.jobs[j].key == t.jobs[k].key
    ensures var t := Run(INIT, ops).t; t.jobs[j].at + TTL <= t.jobs[k].at || t.jobs[k].at + TTL <= t.jobs[j].at
  {
    RunKeepsWorld(INIT, ops);
  }

  /**
   While a key's record is unexpired there is exactly one job of the key that is younger than
   24 hours, it is the one the record names, and it has exactly one event.
   */
  lemma OneJobWhileUnexpired(ops: seq<Op>, key: Key, j: JobId)
    requires var w := Run(INIT, ops); key in w.t.records && w.now < w.t.records[key].expiresAt
    ensures var w := Run(INIT, ops);
            && (OfKey(w.t, j, key) && w.now < w.t.jobs[j].at + TTL <==> j == w.t.records[key].operation)
            && w.t.events[w.t.records[key].operation] == 1
  {
    RunKeepsWorld(INIT, ops);
    var w := Run(INIT, ops);
    assert RecordOk(w.t, key);
    NoJobFromTheFuture(INIT, ops);
    assert OfKey(w.t, w.t.records[key].operation, key);
  }

  predicate NoneAhead(w: World) {
    && (forall j :: j in w.t.jobs ==> w.t.jobs[j].at <= w.now)
    && (forall q :: q in w.requests && w.requests[q].phase.Prepared? ==> w.requests[q].phase.at <= w.now)
  }

  lemma {:induction false} NoJobFromTheFuture(w: World, ops: seq<Op>)
    requires NoneAhead(w)
    ensures NoneAhead(Run(w, ops))
    decreases |ops|
  {
    if ops != [] {
      NoJobFromTheFuture(Apply(w, ops[0]), ops[1..]);
    }
  }

  /** Every accepted answer, own or replayed, names a committed job of the same key and the same payload. */
  lemma AcceptedNamesOwnSubmission(ops: seq<Op>, req: RequestId)
    requires var w := Run(INIT, ops);
             req in w.requests && w.requests[req].phase.Answered? && w.requests[req].phase.answer.Accepted?
    ensures var w := Run(INIT, ops);
            && var j := w.requests[req].phase.answer.operation;
            && j in w.t.jobs && w.t.jobs[j].key == w.requests[req].key && w.t.jobs[j].hash == w.requests[req].hash
            && w.t.events[j] == 1
  {
    RunKeepsWorld(INIT, ops);
    var w := Run(INIT, ops);
    assert RequestOk(w, w.requests[req]);
  }

  /**
   A conflict is answered only if the key was really used with another payload; the race's missing record never
   happens.
   */
  lemma ConflictMeansOtherPayload(ops: seq<Op>, req: RequestId)
    requires var w := Run(INIT, ops); req in w.requests && w.requests[req].phase == Answered(Conflicted)
    ensures var w := Run(INIT, ops); HasOtherPayload(w.t, w.requests[req].key, w.requests[req].hash)
  {
    RunKeepsWorld(INIT, ops);
    var w := Run(INIT, ops);
    assert RequestOk(w, w.requests[req]);
  }

  /**
   While a key's record is unexpired, every answer to a request with that key, at the check or after a lost
   race, is decided by the payload: the recorded job for the same one, a conflict for another.
   */
  lemma AnswerWhileUnexpired(before: seq<Op>, op: Op, req: RequestId)
    requires var w := Run(INIT, before);
             && req in w.requests && !w.requests[req].phase.Answered? && w.requests[req].key in w.t.records
             && w.now < w.t.records[w.requests[req].key].expiresAt
             && req in Apply(w, op).requests && Apply(w, op).requests[req].phase.Answered?
    ensures var w := Run(INIT, before);
            var r, record := w.requests[req], w.t.records[w.requests[req].key];
            Apply(w, op).requests[req].phase.answer ==
            if r.hash == record.hash then Accepted(record.operation) else Conflicted
  {
    RunKeepsWorld(INIT, before);
    var w := Run(INIT, before);
    assert RequestOk(w, w.requests[req]);
    AnswerIsDecided(w, op, req);
  }

  lemma AnswerIsDecided(w: World, op: Op, req: RequestId)
    requires req in w.requests && !w.requests[req].phase.Answered? && RequestOk(w, w.requests[req])
    requires w.requests[req].key in w.t.records && w.now < w.t.records[w.requests[req].key].expiresAt
    requires Apply(w, op).requests[req].phase.Answered?
    ensures var r, record := w.requests[req], w.t.records[w.requests[req].key];
            Apply(w, op).requests[req].phase.answer ==
            if r.hash == record.hash then Accepted(record.operation) else Conflicted
  {
  }

  /** Two accepted requests with the same key get the same job unless the jobs are at least 24 hours apart. */
  lemma AcceptedTogetherIsSameJob(ops: seq<Op>, p: RequestId, q: RequestId)
    requires var w := Run(INIT, ops);
             && p in w.requests && q in w.requests && w.requests[p].key == w.requests[q].key
             && w.requests[p].phase.Answered? && w.requests[p].phase.answer.Accepted?
             && w.requests[q].phase.Answered? && w.requests[q].phase.answer.Accepted?
             && w.requests[p].phase.answer.operation in w.t.jobs && w.requests[q].phase.answer.operation in w.t.jobs
             && var a := w.t.jobs[w.requests[p].phase.answer.operation].at;
                var b := w.t.jobs[w.requests[q].phase.answer.operation].at;
             && a < b + TTL && b < a + TTL
    ensures var w := Run(INIT, ops);
            w.requests[p].phase.answer == w.requests[q].phase.answer && w.requests[p].hash == w.requests[q].hash
  {
    AcceptedNamesOwnSubmission(ops, p);
    AcceptedNamesOwnSubmission(ops, q);
    var w := Run(INIT, ops);
    var j, k := w.requests[p].phase.answer.operation, w.requests[q].phase.answer.operation;
    if j != k {
      SubmissionsAreApart(ops, j, k);
    }
  }

  // ---------------------------------------------------------------- expired keys can be used again

  /** The key's record is still in force. */
  predicate Unexpired(t: Tables, key: Key, now: int) {
    key in t.records && now < t.records[key].expiresAt
  }

  /**
   The check answers by itself if and only if the key has an unexpired record: with the recorded job for the same
   payload, with a conflict for another.  Otherwise the request goes on, and an expired record is to be deleted.
   */
  lemma CheckAnswersIff(w: World, req: RequestId)
    requires req in w.requests && w.requests[req].phase == Arrived
    ensures var r, w' := w.requests[req], Apply(w, Check(req));
            && w'.t == w.t && req in w'.requests && w'.requests[req].key == r.key && w'.requests[req].hash == r.hash
            && (w'.requests[req].phase.Answered? <==> Unexpired(w.t, r.key, w.now))
            && (Unexpired(w.t, r.key, w.now) ==>
                  w'.requests[req].phase.answer == if w.t.records[r.key].hash == r.hash
                                                   then Accepted(w.t.records[r.key].operation) else Conflicted)
            && (!Unexpired(w.t, r.key, w.now) ==>
                  w'.requests[req].phase == Checked(if r.key in w.t.records then Some(w.t.records[r.key].id) else None))
  {
  }

  /** After a lost race the answer is decided by the record that won, whatever its age. */
  lemma RaceAnswersIff(w: World, req: RequestId)
    requires req in w.requests && w.requests[req].phase == Raced && w.requests[req].key in w.t.records
    ensures var r, w' := w.requests[req], Apply(w, Resolve(req));
            && w'.t == w.t && req in w'.requests
            && w'.requests[req].phase == Answered(if w.t.records[r.key].hash == r.hash
                                                  then Accepted(w.t.records[r.key].operation) else Conflicted)
  {
  }

  /** The step is about other requests, and does not commit one with the same key. */
  predicate Elsewhere(w: World, op: Op, req: RequestId, key: Key) {
    match op
    case Tick(_) => true
    case Arrive(q, _, _) => q != req
    case Check(q) => q != req
    case Prepare(q, _) => q != req
    case Commit(q, _) => q != req && (q in w.requests ==> w.requests[q].key != key)
    case Resolve(q) => q != req
    case Fail(q) => q != req
  }

  predicate AllElsewhere(w: World, ops: seq<Op>, req: RequestId, key: Key)
    decreases |ops|
  {
    ops != [] ==> Elsewhere(w, ops[0], req, key) && AllElsewhere(Apply(w, ops[0]), ops[1..], req, key)
  }

  /** Neither the request nor the key's record is touched. */
  lemma {:induction false} ElsewhereKeeps(w: World, ops: seq<Op>, req: RequestId)
    requires req in w.requests && AllElsewhere(w, ops, req, w.requests[req].key)
    ensures var w' := Run(w, ops);
            && req in w'.requests && w'.requests[req] == w.requests[req]
            && Find(w'.t, w.requests[req].key) == Find(w.t, w.requests[req].key)
    decreases |ops|
  {
    if ops != [] {
      ElsewhereKeeps(Apply(w, ops[0]), ops[1..], req);
    }
  }

  /** The world just before the request commits: checked, then `a`, then prepared, then `b`. */
  function BeforeCommit(w: World, req: RequestId, a: seq<Op>, job: JobId, b: seq<Op>): World {
    Run(Apply(Run(Apply(w, Check(req)), a), Prepare(req, job)), b)
  }

  /**
   A key without a record, or with an expired one, can be used: a request that finds it so, and whose key no other
   request commits in between, ends accepted with its own new job, one event for it, and a record that names it and
   holds for 24 hours from its preparation.
   */
  lemma FreshKeyIsAccepted(w: World, req: RequestId, a: seq<Op>, job: JobId, b: seq<Op>, id: RecordId)
    requires req in w.requests && w.requests[req].phase == Arrived && !Unexpired(w.t, w.requests[req].key, w.now)
    requires AllElsewhere(Apply(w, Check(req)), a, req, w.requests[req].key)
    requires AllElsewhere(Apply(Run(Apply(w, Check(req)), a), Prepare(req, job)), b, req, w.requests[req].key)
    requires job !in BeforeCommit(w, req, a, job, b).t.jobs && id !in BeforeCommit(w, req, a, job, b).used
    ensures var r, at := w.requests[req], Run(Apply(w, Check(req)), a).now;
            var w1, w2 := BeforeCommit(w, req, a, job, b), Apply(BeforeCommit(w, req, a, job, b), Commit(req, id));
            && req in w2.requests && w2.requests[req].phase == Answered(Accepted(job))
            && w2.t.jobs == w1.t.jobs[job := Submission(r.key, r.hash, at)]
            && w2.t.events == w1.t.events + multiset{job}
            && w2.t.records == w1.t.records[r.key := Record(id, r.hash, job, at + 86400)]
  {
    CheckAnswersIff(w, req);
    var w0 := Apply(w, Check(req));
    ElsewhereKeeps(w0, a, req);
    ElsewhereKeeps(Apply(Run(w0, a), Prepare(req, job)), b, req);
  }
}
