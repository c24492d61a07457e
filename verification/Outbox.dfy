/**
 The transactional outbox: concurrent drains that lock rows, publishes whose effect on the
 broker survives a rollback, crashes before commit, purges and requeues, against a broker that
 drops a message whose Nats-Msg-Id it already holds.
 */
module Outbox {
  import opened Options
  import opened Counting

  type EventId = string
  type DrainId = nat

  const MSG_ID := "Nats-Msg-Id"
  /** 7 days, in seconds. */
  const RETENTION := 604800

  datatype Status = Pending | Published | Failed

  datatype Event = Event(
    headers: map<string, string>,
    status: Status,
    retries: nat,
    nextAttempt: Option<int>,
    publishedAt: Option<int>)
  {
    predicate Due(now: int) {
      status.Pending? && (nextAttempt.None? || nextAttempt.value <= now)
    }
  }

  /** The event's own headers are copied last, so they can replace the message id. */
  function MsgId(id: EventId, headers: map<string, string>): string {
    if MSG_ID in headers then headers[MSG_ID] else id
  }

  /** A message in the stream and the event it came from. */
  datatype Message = Message(msgId: string, event: EventId)

  /** A failed publish may have reached the broker all the same. */
  datatype Outcome = Acked | Transient(stored: bool) | Permanent(stored: bool)

  predicate Holds(broker: seq<Message>, msgId: string) {
    exists k :: 0 <= k < |broker| && broker[k].msgId == msgId
  }

  function Publish(broker: seq<Message>, m: Message, outcome: Outcome): seq<Message> {
    if (outcome.Acked? || outcome.stored) && !Holds(broker, m.msgId) then broker + [m] else broker
  }

  function Pow2(n: nat): nat {
    if n == 0 then 1 else 2 * Pow2(n - 1)
  }

  function Min(a: nat, b: nat): nat {
    if a <= b then a else b
  }

  function Backoff(retries: nat): nat {
    Min(300, Pow2(Min(retries, 8)))
  }

  /** The loop body of `drain_batch` on one event. */
  function AfterPublish(e: Event, outcome: Outcome, now: int): Event {
    match outcome
    case Acked => e.(status := Published, publishedAt := Some(now))
    case Permanent(_) => e.(status := Failed)
    case Transient(_) => e.(status := Pending, retries := e.retries + 1,
      nextAttempt := Some(now + Backoff(e.retries + 1)))
  }

  lemma {:induction false} Pow2Grows(m: nat, n: nat)
    requires m <= n
    ensures Pow2(m) <= Pow2(n)
  {
    if m < n {
      Pow2Grows(m, n - 1);
    }
  }

  /** The delay doubles up to the eighth failure and stays there: the cap of 300 seconds is never reached. */
  lemma BackoffStaysBelowCap(retries: nat)
    ensures Backoff(retries) == Pow2(Min(retries, 8)) <= 256 < 300
    ensures Backoff(retries) <= Backoff(retries + 1)
  {
    assert Pow2(8) == 256;
    Pow2Grows(Min(retries, 8), 8);
    Pow2Grows(Min(retries + 1, 8), 8);
    Pow2Grows(Min(retries, 8), Min(retries + 1, 8));
  }

  /** The delay is 2 s after the first failure, doubles with each further one, and is 256 s from the eighth on. */
  lemma BackoffDoubles(retries: nat)
    ensures Backoff(1) == 2 && Backoff(2) == 4 && Backoff(8) == 256
    ensures 1 <= retries < 8 ==> Backoff(retries + 1) == 2 * Backoff(retries)
    ensures retries >= 8 ==> Backoff(retries) == 256
  {
    assert Pow2(1) == 2 && Pow2(2) == 4;
    assert Pow2(8) == 256;
    Pow2Grows(Min(retries, 8), 8);
    Pow2Grows(Min(retries + 1, 8), 8);
  }

  lemma {:induction false} PowerIsPositive(n: nat)
    ensures Pow2(n) >= 1
  {
    if n > 0 {
      PowerIsPositive(n - 1);
    }
  }

  lemma BackoffIsPositive(retries: nat)
    ensures Backoff(retries) >= 1
  {
    PowerIsPositive(Min(retries, 8));
  }

  // ---------------------------------------------------------------- runs

  /** An open transaction of `drain_batch`: the rows it locked and the changes it has not committed. */
  datatype Drain = Drain(batch: seq<EventId>, now: int, next: nat, updates: map<EventId, Event>)

  /**
   `inserted` maps every event ever inserted to its message id; `acked` are the events whose publish was acknowledged.
   */
  datatype World = World(
    rows: map<EventId, Event>,
    broker: seq<Message>,
    now: int,
    drains: map<DrainId, Drain>,
    inserted: map<EventId, string>,
    acked: set<EventId>)

  const INIT: World := World(map[], [], 0, map[], map[], {})

  datatype Op =
    | Tick(elapsed: nat)
    | Insert(id: EventId, headers: map<string, string>)
    | Select(drain: DrainId, batch: seq<EventId>)
    | PublishNext(drain: DrainId, outcome: Outcome)
    | CommitDrain(drain: DrainId)
    | Crash(drain: DrainId)
    | Purge
    | Requeue(only: Option<set<EventId>>)

  predicate Locked(w: World, id: EventId) {
    exists d :: d in w.drains && id in w.drains[d].batch
  }

  predicate NoRepeats(batch: seq<EventId>) {
    forall i, j :: 0 <= i < j < |batch| ==> batch[i] != batch[j]
  }

  predicate SelectOk(w: World, d: DrainId, batch: seq<EventId>) {
    && d !in w.drains && NoRepeats(batch)
    && forall id :: id in batch ==> id in w.rows && w.rows[id].Due(w.now) && !Locked(w, id)
  }

  predicate PublishOk(w: World, d: DrainId) {
    d in w.drains && w.drains[d].next < |w.drains[d].batch| && w.drains[d].batch[w.drains[d].next] in w.rows
  }

  function PublishStep(w: World, d: DrainId, outcome: Outcome): World
    requires PublishOk(w, d)
  {
    var dr := w.drains[d];
    var id := dr.batch[dr.next];
    var e := w.rows[id];
    w.(broker := Publish(w.broker, Message(MsgId(id, e.headers), id), outcome),
       drains := w.drains[d := dr.(next := dr.next + 1, updates := dr.updates[id := AfterPublish(e, outcome, dr.now)])],
       acked := if outcome.Acked? then w.acked + {id} else w.acked)
  }

  predicate CommitOk(w: World, d: DrainId) {
    d in w.drains && w.drains[d].next == |w.drains[d].batch|
  }

  predicate Purgeable(e: Event, now: int) {
    e.status.Published? && e.publishedAt.Some? && e.publishedAt.value < now - RETENTION
  }

  function PurgeRows(rows: map<EventId, Event>, now: int): map<EventId, Event> {
    map id | id in rows && !Purgeable(rows[id], now) :: rows[id]
  }

  predicate Requeues(e: Event, id: EventId, only: Option<set<EventId>>) {
    e.status.Failed? && (only.None? || only.value == {} || id in only.value)
  }

  function RequeueRows(rows: map<EventId, Event>, only: Option<set<EventId>>, now: int): map<EventId, Event> {
    map id | id in rows ::
      if Requeues(rows[id], id, only) then rows[id].(status := Pending, retries := 0, nextAttempt := Some(now))
      else rows[id]
  }

  function Apply(w: World, op: Op): World {
    match op
    case Tick(elapsed) => w.(now := w.now + elapsed)
    case Insert(id, headers) =>
      if id in w.inserted then w
      else w.(rows := w.rows[id := Event(headers, Pending, 0, None, None)],
              inserted := w.inserted[id := MsgId(id, headers)])
    case Select(d, batch) =>
      if SelectOk(w, d, batch) then w.(drains := w.drains[d := Drain(batch, w.now, 0, map[])]) else w
    case PublishNext(d, outcome) => if PublishOk(w, d) then PublishStep(w, d, outcome) else w
    case CommitDrain(d) =>
      if CommitOk(w, d) then w.(rows := w.rows + w.drains[d].updates, drains := w.drains - {d}) else w
    case Crash(d) => w.(drains := w.drains - {d})
    case Purge => w.(rows := PurgeRows(w.rows, w.now))
    case Requeue(only) => w.(rows := RequeueRows(w.rows, only, w.now))
  }

  function Run(w: World, ops: seq<Op>): World
    decreases |ops|
  {
    if ops == [] then w else Run(Apply(w, ops[0]), ops[1..])
  }

  // ---------------------------------------------------------------- the invariant

  /** A row or an uncommitted change of one: it is the event inserted, and PUBLISHED only after an acknowledgement. */
  predicate EventOk(w: World, id: EventId, e: Event) {
    && id in w.inserted && w.inserted[id] == MsgId(id, e.headers)
    && (e.status.Published? ==> id in w.acked)
  }

  predicate DrainOk(w: World, dr: Drain) {
    && dr.next <= |dr.batch| && NoRepeats(dr.batch)
    && (forall id :: id in dr.batch ==> id in w.rows && w.rows[id].status.Pending?)
    && (forall id :: id in dr.updates ==> id in dr.batch && EventOk(w, id, dr.updates[id]))
  }

  predicate DrainsDisjoint(w: World) {
    forall c, d, id :: c in w.drains && d in w.drains && c != d && id in w.drains[c].batch ==> id !in w.drains[d].batch
  }

  predicate BrokerDistinct(broker: seq<Message>) {
    forall i, j :: 0 <= i < j < |broker| ==> broker[i].msgId != broker[j].msgId
  }

  predicate BrokerOk(w: World) {
    && BrokerDistinct(w.broker)
    && (forall k :: 0 <= k < |w.broker| ==>
         w.broker[k].event in w.inserted && w.inserted[w.broker[k].event] == w.broker[k].msgId)
    && (forall id :: id in w.acked ==> id in w.inserted && Holds(w.broker, w.inserted[id]))
  }

  predicate RowsOk(w: World) {
    && (forall id :: id in w.rows ==> EventOk(w, id, w.rows[id]))
    && (forall id :: id in w.inserted && id !in w.rows ==> id in w.acked)
  }

  predicate DrainsOk(w: World) {
    forall d :: d in w.drains ==> DrainOk(w, w.drains[d])
  }

  predicate WorldOk(w: World) {
    RowsOk(w) && DrainsOk(w) && DrainsDisjoint(w) && BrokerOk(w)
  }

  // ---------------------------------------------------------------- every step keeps it

  lemma PublishKeepsBroker(w: World, m: Message, outcome: Outcome)
    requires BrokerOk(w) && m.event in w.inserted && w.inserted[m.event] == m.msgId
    ensures var b := Publish(w.broker, m, outcome);
            && BrokerDistinct(b) && w.broker <= b
            && (outcome.Acked? ==> Holds(b, m.msgId))
            && (forall k :: 0 <= k < |b| ==> b[k].event in w.inserted && w.inserted[b[k].event] == b[k].msgId)
  {
    var b := Publish(w.broker, m, outcome);
    if b != w.broker {
      assert b[|w.broker|] == m;
    }
  }

  lemma HoldsStays(b: seq<Message>, b': seq<Message>, msgId: string)
    requires b <= b' && Holds(b, msgId)
    ensures Holds(b', msgId)
  {
    var k :| 0 <= k < |b| && b[k].msgId == msgId;
    assert b'[k] == b[k];
  }

  lemma PublishKeepsDrain(w: World, d: DrainId, outcome: Outcome, c: DrainId)
    requires WorldOk(w) && PublishOk(w, d) && c in w.drains
    ensures DrainOk(PublishStep(w, d, outcome), PublishStep(w, d, outcome).drains[c])
  {
    var dr := w.drains[d];
    var id := dr.batch[dr.next];
    assert DrainOk(w, dr) && DrainOk(w, w.drains[c]) && EventOk(w, id, w.rows[id]);
  }

  lemma PublishKeepsBrokerOk(w: World, d: DrainId, outcome: Outcome)
    requires WorldOk(w) && PublishOk(w, d)
    ensures BrokerOk(PublishStep(w, d, outcome))
  {
    var w', dr := PublishStep(w, d, outcome), w.drains[d];
    var id := dr.batch[dr.next];
    assert EventOk(w, id, w.rows[id]);
    PublishKeepsBroker(w, Message(MsgId(id, w.rows[id].headers), id), outcome);
    forall x | x in w'.acked ensures x in w'.inserted && Holds(w'.broker, w'.inserted[x]) {
      if x in w.acked {
        HoldsStays(w.broker, w'.broker, w.inserted[x]);
      }
    }
  }

  lemma PublishKeeps(w: World, d: DrainId, outcome: Outcome)
    requires WorldOk(w) && PublishOk(w, d)
    ensures WorldOk(PublishStep(w, d, outcome))
  {
    var w' := PublishStep(w, d, outcome);
    PublishKeepsBrokerOk(w, d, outcome);
    forall c | c in w'.drains ensures DrainOk(w', w'.drains[c]) {
      PublishKeepsDrain(w, d, outcome, c);
    }
    assert forall c :: c in w.drains ==> w'.drains[c].batch == w.drains[c].batch;
  }

  lemma CommitKeepsRows(w: World, d: DrainId)
    requires WorldOk(w) && CommitOk(w, d)
    ensures RowsOk(Apply(w, CommitDrain(d)))
  {
    var w', dr := Apply(w, CommitDrain(d)), w.drains[d];
    assert DrainOk(w, dr);
    forall id | id in w'.rows ensures EventOk(w', id, w'.rows[id]) {
      assert id in dr.updates || EventOk(w, id, w.rows[id]);
    }
  }

  /** The rows of another drain are not among the committed changes. */
  lemma CommitKeepsDrain(w: World, d: DrainId, c: DrainId)
    requires WorldOk(w) && CommitOk(w, d) && c in w.drains && c != d
    ensures DrainOk(Apply(w, CommitDrain(d)), w.drains[c])
  {
    assert DrainOk(w, w.drains[d]) && DrainOk(w, w.drains[c]);
    forall id | id in w.drains[c].batch ensures id !in w.drains[d].updates {
      assert id !in w.drains[d].batch;
    }
  }

  lemma CommitKeeps(w: World, d: DrainId)
    requires WorldOk(w) && CommitOk(w, d)
    ensures WorldOk(Apply(w, CommitDrain(d)))
  {
    var w' := Apply(w, CommitDrain(d));
    CommitKeepsRows(w, d);
    forall c | c in w'.drains ensures DrainOk(w', w'.drains[c]) {
      CommitKeepsDrain(w, d, c);
    }
    FewerDrainsAreDisjoint(w, w');
  }

  lemma FewerDrainsAreDisjoint(w: World, w': World)
    requires DrainsDisjoint(w) && forall c :: c in w'.drains ==>
             c in w.drains && w'.drains[c].batch == w.drains[c].batch
    ensures DrainsDisjoint(w')
  {
  }

  lemma SelectKeeps(w: World, d: DrainId, batch: seq<EventId>)
    requires WorldOk(w) && SelectOk(w, d, batch)
    ensures WorldOk(Apply(w, Select(d, batch)))
  {
    var w' := Apply(w, Select(d, batch));
    forall c | c in w'.drains ensures DrainOk(w', w'.drains[c]) {
      assert c != d ==> DrainOk(w, w.drains[c]);
    }
    forall c, e, id | c in w'.drains && e in w'.drains && c != e && id in w'.drains[c].batch
      ensures id !in w'.drains[e].batch
    {
      assert c == d && id in w'.drains[e].batch ==> Locked(w, id);
      assert e == d && id in batch ==> !Locked(w, id);
    }
  }

  lemma DrainStaysOk(w: World, w': World, dr: Drain)
    requires DrainOk(w, dr) && w'.acked == w.acked
    requires forall id :: id in w.inserted ==> id in w'.inserted && w'.inserted[id] == w.inserted[id]
    requires forall id :: id in w.rows && w.rows[id].status.Pending? ==> id in w'.rows && w'.rows[id].status.Pending?
    ensures DrainOk(w', dr)
  {
  }

  /** Steps that touch neither the broker nor any PENDING row. */
  lemma RowChangeKeeps(w: World, w': World)
    requires WorldOk(w) && w'.broker == w.broker && w'.drains == w.drains && w'.acked == w.acked
    requires forall id :: id in w.inserted ==> id in w'.inserted && w'.inserted[id] == w.inserted[id]
    requires RowsOk(w')
    requires forall id :: id in w.rows && w.rows[id].status.Pending? ==> id in w'.rows && w'.rows[id].status.Pending?
    ensures WorldOk(w')
  {
    forall d | d in w'.drains ensures DrainOk(w', w'.drains[d]) {
      DrainStaysOk(w, w', w.drains[d]);
    }
  }

  lemma CrashKeeps(w: World, d: DrainId)
    requires WorldOk(w)
    ensures WorldOk(w.(drains := w.drains - {d}))
  {
    var w' := w.(drains := w.drains - {d});
    forall c | c in w'.drains ensures DrainOk(w', w'.drains[c]) {
      assert DrainOk(w, w.drains[c]);
    }
  }

  lemma InsertKeepsRows(w: World, id: EventId, headers: map<string, string>)
    requires RowsOk(w)
    ensures RowsOk(Apply(w, Insert(id, headers)))
  {
    var w' := Apply(w, Insert(id, headers));
    forall x | x in w'.rows ensures EventOk(w', x, w'.rows[x]) {
      assert x in w.rows ==> EventOk(w, x, w.rows[x]);
    }
  }

  lemma InsertKeeps(w: World, id: EventId, headers: map<string, string>)
    requires WorldOk(w)
    ensures WorldOk(Apply(w, Insert(id, headers)))
  {
    InsertKeepsRows(w, id, headers);
    RowChangeKeeps(w, Apply(w, Insert(id, headers)));
  }

  lemma PurgeKeeps(w: World)
    requires WorldOk(w)
    ensures WorldOk(w.(rows := PurgeRows(w.rows, w.now)))
  {
    assert forall id :: id in w.rows ==> EventOk(w, id, w.rows[id]);
    RowChangeKeeps(w, w.(rows := PurgeRows(w.rows, w.now)));
  }

  lemma RequeueKeeps(w: World, only: Option<set<EventId>>)
    requires WorldOk(w)
    ensures WorldOk(w.(rows := RequeueRows(w.rows, only, w.now)))
  {
    assert forall id :: id in w.rows ==> EventOk(w, id, w.rows[id]);
    RowChangeKeeps(w, w.(rows := RequeueRows(w.rows, only, w.now)));
  }

  lemma TickKeeps(w: World, elapsed: nat)
    requires WorldOk(w)
    ensures WorldOk(w.(now := w.now + elapsed))
  {
    assert forall id :: id in w.rows ==> EventOk(w, id, w.rows[id]);
    RowChangeKeeps(w, w.(now := w.now + elapsed));
  }

  lemma DrainsKeepWorld(w: World, op: Op)
    requires WorldOk(w) && (op.Select? || op.PublishNext? || op.CommitDrain? || op.Crash?)
    ensures WorldOk(Apply(w, op))
  {
    match op
    case Select(d, batch) =>
      if SelectOk(w, d, batch) {
        SelectKeeps(w, d, batch);
      }
    case PublishNext(d, outcome) =>
      if PublishOk(w, d) {
        PublishKeeps(w, d, outcome);
      }
    case CommitDrain(d) =>
      if CommitOk(w, d) {
        CommitKeeps(w, d);
      }
    case Crash(d) => CrashKeeps(w, d);
  }

  lemma ChoresKeepWorld(w: World, op: Op)
    requires WorldOk(w) && (op.Tick? || op.Purge? || op.Requeue?)
    ensures WorldOk(Apply(w, op))
  {
    match op
    case Tick(elapsed) => TickKeeps(w, elapsed);
    case Purge => PurgeKeeps(w);
    case Requeue(only) => RequeueKeeps(w, only);
  }

  lemma StepKeepsWorld(w: World, op: Op)
    requires WorldOk(w)
    ensures WorldOk(Apply(w, op))
  {
    if op.Insert? {
      InsertKeeps(w, op.id, op.headers);
    } else if op.Tick? || op.Purge? || op.Requeue? {
      ChoresKeepWorld(w, op);
    } else {
      DrainsKeepWorld(w, op);
    }
  }

  lemma {:induction false} RunKeepsWorld(w: World, ops: seq<Op>)
    requires WorldOk(w)
    ensures WorldOk(Run(w, ops))
    decreases |ops|
  {
    if ops != [] {
      StepKeepsWorld(w, ops[0]);
      RunKeepsWorld(Apply(w, ops[0]), ops[1..]);
    }
  }

  // ---------------------------------------------------------------- delivery guarantees

  /** The message of event `id` is in the stream exactly once. */
  predicate HeldOnce(broker: seq<Message>, id: EventId) {
    exists k :: 0 <= k < |broker| && broker[k].event == id &&
                forall i :: 0 <= i < |broker| && broker[i].event == id ==> i == k
  }

  /**
   Nothing is lost: every event ever inserted is still a row, or its publish was acknowledged; and whatever
   was acknowledged, in particular every PUBLISHED row, has its message id in the stream.
   */
  lemma DeletedOnlyAfterAck(ops: seq<Op>, id: EventId)
    requires id in Run(INIT, ops).inserted
    ensures var w := Run(INIT, ops);
            && (id !in w.rows || w.rows[id].status.Published? ==> id in w.acked)
            && (id in w.acked ==> Holds(w.broker, w.inserted[id]))
  {
    RunKeepsWorld(INIT, ops);
    var w := Run(INIT, ops);
    assert id in w.rows ==> EventOk(w, id, w.rows[id]);
  }

  /** The stream holds no event twice, however often it was published. */
  lemma HeldAtMostOnce(ops: seq<Op>, i: nat, j: nat)
    requires var b := Run(INIT, ops).broker; i < |b| && j < |b| && b[i].event == b[j].event
    ensures i == j
  {
    RunKeepsWorld(INIT, ops);
    var b := Run(INIT, ops).broker;
    assert b[i].msgId == b[j].msgId;
  }

  /** Whatever the stream holds under the event's message id came from the event itself. */
  predicate OwnsMsgId(w: World, id: EventId)
    requires id in w.inserted
  {
    forall k :: 0 <= k < |w.broker| && w.broker[k].msgId == w.inserted[id] ==> w.broker[k].event == id
  }

  /**
   In every run an acknowledged event, in particular a PUBLISHED one, is in the stream exactly once if and only if no
   other event's message was stored under its message id.
   */
  lemma AckedIsHeldIff(ops: seq<Op>, id: EventId)
    requires id in Run(INIT, ops).acked
    ensures var w := Run(INIT, ops); id in w.inserted && (HeldOnce(w.broker, id) <==> OwnsMsgId(w, id))
  {
    RunKeepsWorld(INIT, ops);
    HeldIff(Run(INIT, ops), id);
  }

  lemma HeldIff(w: World, id: EventId)
    requires BrokerOk(w) && id in w.acked
    ensures id in w.inserted && (HeldOnce(w.broker, id) <==> OwnsMsgId(w, id))
  {
    if HeldOnce(w.broker, id) {
      var h :| 0 <= h < |w.broker| && w.broker[h].event == id;
      forall k | 0 <= k < |w.broker| && w.broker[k].msgId == w.inserted[id] ensures w.broker[k].event == id {
        assert k == h;
      }
    }
    if OwnsMsgId(w, id) {
      var h :| 0 <= h < |w.broker| && w.broker[h].msgId == w.inserted[id];
      forall k | 0 <= k < |w.broker| && w.broker[k].event == id ensures k == h {
        assert w.broker[k].msgId == w.broker[h].msgId;
      }
    }
  }

  predicate MsgIdsDistinct(inserted: map<EventId, string>) {
    forall x, y :: x in inserted && y in inserted && inserted[x] == inserted[y] ==> x == y
  }

  /** An acknowledged event is in the stream exactly once if no two events share a message id. */
  lemma AckedIsHeldOnce(ops: seq<Op>, id: EventId)
    requires var w := Run(INIT, ops); MsgIdsDistinct(w.inserted) && id in w.acked
    ensures HeldOnce(Run(INIT, ops).broker, id)
  {
    RunKeepsWorld(INIT, ops);
    AckedIsHeldIff(ops, id);
  }

  // ---------------------------------------------------------------- transient failures

  predicate NoPermanentFailure(ops: seq<Op>) {
    forall k :: 0 <= k < |ops| ==> !(ops[k].PublishNext? && ops[k].outcome.Permanent?)
  }

  /** No row and no uncommitted change is FAILED. */
  predicate NoneFailed(w: World) {
    && (forall id :: id in w.rows ==> !w.rows[id].status.Failed?)
    && (forall d, id :: d in w.drains && id in w.drains[d].updates ==> !w.drains[d].updates[id].status.Failed?)
  }

  /** However often the broker fails transiently, no event ever becomes FAILED. */
  lemma {:induction false} TransientNeverFails(w: World, ops: seq<Op>)
    requires NoneFailed(w) && NoPermanentFailure(ops)
    ensures NoneFailed(Run(w, ops))
    decreases |ops|
  {
    if ops != [] {
      assert !(ops[0].PublishNext? && ops[0].outcome.Permanent?);
      StepKeepsNoneFailed(w, ops[0]);
      TransientNeverFails(Apply(w, ops[0]), ops[1..]);
    }
  }

  lemma StepKeepsNoneFailed(w: World, op: Op)
    requires NoneFailed(w) && !(op.PublishNext? && op.outcome.Permanent?)
    ensures NoneFailed(Apply(w, op))
  {
  }

  // ---------------------------------------------------------------- the loop of drain_batch

  /** The changes that publishing a batch makes, event by event. */
  function Updates(rows: map<EventId, Event>, batch: seq<EventId>, outcomes: seq<Outcome>, now: int)
    : map<EventId, Event>
    requires |batch| == |outcomes| && forall id :: id in batch ==> id in rows
  {
    if batch == [] then map[]
    else
      var last := |batch| - 1;
      Updates(rows, batch[..last], outcomes[..last],
          now)[batch[last] := AfterPublish(rows[batch[last]], outcomes[last], now)]
  }

  function DrainBroker(broker: seq<Message>, rows: map<EventId, Event>, batch: seq<EventId>,
                       outcomes: seq<Outcome>): seq<Message>
    requires |batch| == |outcomes| && forall id :: id in batch ==> id in rows
  {
    if batch == [] then broker
    else
      var last := |batch| - 1;
      Publish(DrainBroker(broker, rows, batch[..last], outcomes[..last]),
              Message(MsgId(batch[last], rows[batch[last]].headers), batch[last]), outcomes[last])
  }

  function CountAcks(outcomes: seq<Outcome>): nat {
    if outcomes == [] then 0
    else CountAcks(outcomes[..|outcomes| - 1]) + if outcomes[|outcomes| - 1].Acked? then 1 else 0
  }

  /** The rows changed are those of the batch, each by its own outcome. */
  lemma {:induction false} UpdatesPerEvent(rows: map<EventId, Event>, batch: seq<EventId>, outcomes: seq<Outcome>,
                                           now: int)
    requires |batch| == |outcomes| && NoRepeats(batch) && forall id :: id in batch ==> id in rows
    ensures forall id :: id in Updates(rows, batch, outcomes, now) <==> id in batch
    ensures forall k :: 0 <= k < |batch| ==>
            Updates(rows, batch, outcomes, now)[batch[k]] == AfterPublish(rows[batch[k]], outcomes[k], now)
    decreases |batch|
  {
    if batch != [] {
      var last := |batch| - 1;
      UpdatesPerEvent(rows, batch[..last], outcomes[..last], now);
      assert batch == batch[..last] + [batch[last]];
    }
  }

  /** One more event of the batch. */
  lemma UpdatesExtend(rows: map<EventId, Event>, batch: seq<EventId>, outcomes: seq<Outcome>, now: int, n: nat)
    requires |batch| == |outcomes| && NoRepeats(batch) && n < |batch| && forall id :: id in batch ==> id in rows
    ensures forall id :: id in batch[..n] ==> id in rows
    ensures forall id :: id in batch[..n + 1] ==> id in rows
    ensures var u := Updates(rows, batch[..n], outcomes[..n], now);
            && batch[n] !in u
            && Updates(rows, batch[..n + 1], outcomes[..n + 1], now)
               == u[batch[n] := AfterPublish(rows[batch[n]], outcomes[n], now)]
  {
    assert batch[..n + 1][..n] == batch[..n] && outcomes[..n + 1][..n] == outcomes[..n];
    UpdatesPerEvent(rows, batch[..n], outcomes[..n], now);
  }

  lemma BrokerExtends(broker: seq<Message>, rows: map<EventId, Event>, batch: seq<EventId>, outcomes: seq<Outcome>,
                      n: nat)
    requires |batch| == |outcomes| && n < |batch| && forall id :: id in batch ==> id in rows
    ensures forall id :: id in batch[..n] ==> id in rows
    ensures forall id :: id in batch[..n + 1] ==> id in rows
    ensures DrainBroker(broker, rows, batch[..n + 1], outcomes[..n + 1])
            == Publish(DrainBroker(broker, rows, batch[..n], outcomes[..n]),
                       Message(MsgId(batch[n], rows[batch[n]].headers), batch[n]), outcomes[n])
    ensures CountAcks(outcomes[..n + 1]) == CountAcks(outcomes[..n]) + if outcomes[n].Acked? then 1 else 0
  {
    assert batch[..n + 1][..n] == batch[..n] && outcomes[..n + 1][..n] == outcomes[..n];
  }

  lemma WriteAfterUpdate(rows: map<EventId, Event>, u: map<EventId, Event>, id: EventId, e: Event)
    requires id in rows && id !in u
    ensures (rows + u)[id] == rows[id] && rows + u[id := e] == (rows + u)[id := e]
  {
  }

  /** The row records what happened to its publish: PUBLISHED now, FAILED, or to be tried again after a delay. */
  predicate Records(e: Event, e': Event, outcome: Outcome, now: int) {
    && e'.headers == e.headers
    && (outcome.Acked? ==> e'.status == Published && e'.publishedAt == Some(now) && e'.retries == e.retries)
    && (outcome.Permanent? ==> e'.status == Failed && e'.retries == e.retries)
    && (outcome.Transient? ==>
          e'.status == Pending && e'.retries == e.retries + 1 && e'.nextAttempt == Some(now + Backoff(e'.retries)))
    && (!outcome.Transient? ==> e'.nextAttempt == e.nextAttempt)
    && (!outcome.Acked? ==> e'.publishedAt == e.publishedAt)
  }

  lemma AfterPublishRecords(e: Event, outcome: Outcome, now: int)
    ensures Records(e, AfterPublish(e, outcome, now), outcome, now)
  {
  }

  lemma UpdatesRecord(rows: map<EventId, Event>, batch: seq<EventId>, outcomes: seq<Outcome>, now: int)
    requires |batch| == |outcomes| && NoRepeats(batch) && forall id :: id in batch ==> id in rows
    ensures var rows' := rows + Updates(rows, batch, outcomes, now);
            && rows'.Keys == rows.Keys && (forall id :: id in rows && id !in batch ==> rows'[id] == rows[id])
            && forall k :: 0 <= k < |batch| ==> Records(rows[batch[k]], rows'[batch[k]], outcomes[k], now)
  {
    UpdatesPerEvent(rows, batch, outcomes, now);
    forall k | 0 <= k < |batch|
      ensures Records(rows[batch[k]], (rows + Updates(rows, batch, outcomes, now))[batch[k]], outcomes[k], now)
    {
      assert batch[k] in batch;
      AfterPublishRecords(rows[batch[k]], outcomes[k], now);
    }
  }

  lemma HoldsGrows(broker: seq<Message>, m: Message, outcome: Outcome, msgId: string)
    ensures broker <= Publish(broker, m, outcome)
    ensures Holds(broker, msgId) ==> Holds(Publish(broker, m, outcome), msgId)
    ensures outcome.Acked? ==> Holds(Publish(broker, m, outcome), m.msgId)
  {
    var broker' := Publish(broker, m, outcome);
    if broker' != broker {
      assert broker'[|broker|] == m;
    }
    if Holds(broker, msgId) {
      var k :| 0 <= k < |broker| && broker[k].msgId == msgId;
      assert broker'[k].msgId == msgId;
    }
  }

  /** Nothing leaves the stream, and every acknowledged message is in it. */
  lemma {:induction false} BrokerHoldsAcked(broker: seq<Message>, rows: map<EventId, Event>, batch: seq<EventId>,
                                            outcomes: seq<Outcome>)
    requires |batch| == |outcomes| && forall id :: id in batch ==> id in rows
    ensures broker <= DrainBroker(broker, rows, batch, outcomes)
    ensures forall k :: 0 <= k < |batch| && outcomes[k].Acked? ==>
              Holds(DrainBroker(broker, rows, batch, outcomes), MsgId(batch[k], rows[batch[k]].headers))
    decreases |batch|
  {
    if batch != [] {
      var n := |batch| - 1;
      BrokerHoldsAcked(broker, rows, batch[..n], outcomes[..n]);
      var b := DrainBroker(broker, rows, batch[..n], outcomes[..n]);
      var m := Message(MsgId(batch[n], rows[batch[n]].headers), batch[n]);
      HoldsGrows(b, m, outcomes[n], m.msgId);
      forall k | 0 <= k < |batch| && outcomes[k].Acked?
        ensures Holds(Publish(b, m, outcomes[n]), MsgId(batch[k], rows[batch[k]].headers))
      {
        if k < n {
          assert batch[..n][k] == batch[k] && outcomes[..n][k].Acked?;
          HoldsGrows(b, m, outcomes[n], MsgId(batch[k], rows[batch[k]].headers));
        }
      }
    }
  }

  function AckedAt(outcomes: seq<Outcome>): set<int> {
    set k | 0 <= k < |outcomes| && outcomes[k].Acked?
  }

  /** The count is the number of acknowledgements. */
  lemma {:induction false} CountAcksIsSize(outcomes: seq<Outcome>)
    ensures CountAcks(outcomes) == |AckedAt(outcomes)|
    decreases |outcomes|
  {
    if outcomes != [] {
      var n := |outcomes| - 1;
      CountAcksIsSize(outcomes[..n]);
      assert AckedAt(outcomes) == AckedAt(outcomes[..n]) + if outcomes[n].Acked? then {n} else {};
    }
  }

  lemma {:induction false} AcksAreFew(outcomes: seq<Outcome>)
    ensures CountAcks(outcomes) <= |outcomes|
    decreases |outcomes|
  {
    if outcomes != [] {
      AcksAreFew(outcomes[..|outcomes| - 1]);
    }
  }

  /** The outbox table as one dispatcher sees it, with the stream it publishes to. */
  class Dispatcher {
    var rows: map<EventId, Event>
    var broker: seq<Message>

    constructor ()
      ensures rows == map[] && broker == []
    {
      rows := map[];
      broker := [];
    }

    /** One turn of the loop: publish, then record the outcome on the row. */
    method DispatchEvent(id: EventId, outcome: Outcome, now: int) returns (acked: bool)
      requires id in rows
      modifies this
      ensures rows.Keys == old(rows).Keys && forall x :: x in rows && x != id ==> rows[x] == old(rows)[x]
      ensures rows[id].headers == old(rows)[id].headers
      ensures outcome.Acked? ==> rows[id].status.Published? && rows[id].publishedAt == Some(now)
      ensures outcome.Permanent? ==> rows[id].status.Failed?
      ensures outcome.Transient? ==> rows[id].status.Pending? && !rows[id].Due(now) && rows[id].Due(now + 256)
                                     && rows[id].retries == old(rows)[id].retries + 1
                                     && rows[id].nextAttempt == Some(now + Backoff(rows[id].retries))
      ensures !outcome.Transient? ==> rows[id].retries == old(rows)[id].retries
                                      && rows[id].nextAttempt == old(rows)[id].nextAttempt
      ensures !outcome.Acked? ==> rows[id].publishedAt == old(rows)[id].publishedAt
      ensures rows == old(rows)[id := AfterPublish(old(rows)[id], outcome, now)]
      ensures old(broker) <= broker
      ensures outcome.Acked? || outcome.stored ==> Holds(broker, MsgId(id, old(rows)[id].headers))
      ensures !outcome.Acked? && !outcome.stored ==> broker == old(broker)
      ensures |broker| <= |old(broker)| + 1
      ensures broker == Publish(old(broker), Message(MsgId(id, old(rows)[id].headers), id), outcome)
      ensures acked == outcome.Acked?
    {
      BackoffStaysBelowCap(rows[id].retries + 1);
      BackoffIsPositive(rows[id].retries + 1);
      var event := rows[id];
      ghost var m := Message(MsgId(id, event.headers), id);
      assert (broker + [m])[|broker|] == m;
      broker := Publish(broker, Message(MsgId(id, event.headers), id), outcome);
      acked := false;
      match outcome {
        case Acked =>
          event := event.(status := Published, publishedAt := Some(now));
          acked := true;
        case Permanent(_) =>
          event := event.(status := Failed);
        case Transient(_) =>
          event := event.(retries := event.retries + 1);
          event := event.(nextAttempt := Some(now + Backoff(event.retries)), status := Pending);
      }
      rows := rows[id := event];
    }

    /** `drain_batch` on the rows it locked, with the outcome of each publish: each row records its own outcome. */
    method DrainBatch(batch: seq<EventId>, outcomes: seq<Outcome>, now: int) returns (published: nat)
      requires |batch| == |outcomes| && NoRepeats(batch)
      requires forall id :: id in batch ==> id in rows && rows[id].Due(now)
      modifies this
      ensures rows.Keys == old(rows).Keys && forall id :: id in rows && id !in batch ==> rows[id] == old(rows)[id]
      ensures forall k :: 0 <= k < |batch| ==> Records(old(rows)[batch[k]], rows[batch[k]], outcomes[k], now)
      ensures old(broker) <= broker
      ensures forall k :: 0 <= k < |batch| && outcomes[k].Acked? ==>
              Holds(broker, MsgId(batch[k], old(rows)[batch[k]].headers))
      ensures published == CountAcks(outcomes) == |AckedAt(outcomes)|
      ensures rows == old(rows) + Updates(old(rows), batch, outcomes, now)
      ensures broker == DrainBroker(old(broker), old(rows), batch, outcomes)
    {
      published := 0;
      ghost var rows0, broker0 := rows, broker;
      for n := 0 to |batch|
        invariant rows == rows0 + Updates(rows0, batch[..n], outcomes[..n], now)
        invariant broker == DrainBroker(broker0, rows0, batch[..n], outcomes[..n])
        invariant published == CountAcks(outcomes[..n])
      {
        UpdatesExtend(rows0, batch, outcomes, now, n);
        BrokerExtends(broker0, rows0, batch, outcomes, n);
        WriteAfterUpdate(rows0, Updates(rows0, batch[..n], outcomes[..n], now), batch[n],
                         AfterPublish(rows0[batch[n]], outcomes[n], now));
        var acked := DispatchEvent(batch[n], outcomes[n], now);
        if acked {
          published := published + 1;
        }
      }
      assert batch[..|batch|] == batch && outcomes[..|outcomes|] == outcomes;
      UpdatesPerEvent(rows0, batch, outcomes, now);
      UpdatesRecord(rows0, batch, outcomes, now);
      BrokerHoldsAcked(broker0, rows0, batch, outcomes);
      CountAcksIsSize(outcomes);
    }

    /** The query of `drain_batch`: rows that are due and that nobody else has locked, up to the limit. */
    method SelectDue(locked: set<EventId>, limit: nat, now: int) returns (batch: seq<EventId>)
      ensures NoRepeats(batch) && |batch| <= limit
      ensures forall id :: id in batch ==> id in rows && id !in locked && rows[id].Due(now)
      ensures forall id :: id in rows && id !in locked && rows[id].Due(now) && id !in batch ==> |batch| == limit
    {
      batch := [];
      var rest := set id | id in rows && id !in locked && rows[id].Due(now);
      while rest != {} && |batch| < limit
        invariant NoRepeats(batch) && |batch| <= limit && (forall id :: id in batch ==> id !in rest)
        invariant forall id :: id in rest || id in batch <==> id in rows && id !in locked && rows[id].Due(now)
        decreases rest
      {
        var id :| id in rest;
        batch := batch + [id];
        rest := rest - {id};
      }
    }

    /**
     `drain_batch` as a whole: every event that is due and free, up to the limit, is published, and its row records the
     outcome; all other rows stay as they are.
     */
    method DrainDue(locked: set<EventId>, limit: nat, outcome: EventId -> Outcome, now: int)
      returns (published: nat, ghost batch: seq<EventId>)
      modifies this
      ensures NoRepeats(batch) && |batch| <= limit && published <= |batch|
      ensures forall id :: id in batch ==> id in old(rows) && id !in locked && old(rows)[id].Due(now)
      ensures forall id :: id in old(rows) && id !in locked && old(rows)[id].Due(now) && id !in batch ==>
              |batch| == limit
      ensures rows.Keys == old(rows).Keys && forall id :: id in rows && id !in batch ==> rows[id] == old(rows)[id]
      ensures forall id :: id in batch ==>
                Records(old(rows)[id], rows[id], outcome(id), now)
                && (outcome(id).Acked? ==> Holds(broker, MsgId(id, old(rows)[id].headers)))
    {
      ghost var rows0 := rows;
      var due := SelectDue(locked, limit, now);
      batch := due;
      var outcomes := seq(|due|, k requires 0 <= k < |due| => outcome(due[k]));
      published := DrainBatch(due, outcomes, now);
      forall id | id in due
        ensures Records(rows0[id], rows[id], outcome(id), now)
                && (outcome(id).Acked? ==> Holds(broker, MsgId(id, rows0[id].headers)))
      {
        var k :| 0 <= k < |due| && due[k] == id;
        assert Records(rows0[due[k]], rows[due[k]], outcomes[k], now);
      }
      AcksAreFew(outcomes);
    }

    /**
     `requeue_failed_outbox_events`: the FAILED rows asked for, or all, are due again at once; no other row changes.
     */
    method RequeueFailed(only: Option<set<EventId>>, now: int) returns (requeued: nat)
      modifies this`rows
      ensures requeued == |set id | id in old(rows) && old(rows)[id].status == Failed
                                    && (only.None? || only.value == {} || id in only.value)|
      ensures rows.Keys == old(rows).Keys
      ensures forall id :: id in rows ==>
                rows[id] == if old(rows)[id].status == Failed && (only.None? || only.value == {} || id in only.value)
                            then old(rows)[id].(status := Pending, retries := 0, nextAttempt := Some(now))
                            else old(rows)[id]
      ensures rows == RequeueRows(old(rows), only, now)
    {
      requeued := |set id | id in rows && rows[id].status == Failed
                            && (only.None? || only.value == {} || id in only.value)|;
      rows := map id | id in rows ::
        if rows[id].status.Failed? && (only.None? || only.value == {} || id in only.value)
        then rows[id].(status := Pending, retries := 0, nextAttempt := Some(now)) else rows[id];
    }

    /** `purge_expired_outbox_events`: the rows deleted are PUBLISHED ones past retention, and all of those. */
    method PurgeExpired(now: int) returns (purged: nat)
      modifies this`rows
      ensures forall id :: id in rows ==> id in old(rows) && rows[id] == old(rows)[id]
      ensures forall id :: id in old(rows) && id !in rows ==> old(rows)[id].status.Published?
      ensures forall id :: id in old(rows) ==>
                (id !in rows <==> old(rows)[id].status.Published? && old(rows)[id].publishedAt.Some?
                                  && old(rows)[id].publishedAt.value + 604800 < now)
      ensures rows == PurgeRows(old(rows), now)
      ensures purged == |old(rows)| - |rows|
    {
      var before := |rows|;
      ghost var rows0 := rows;
      rows := map id | id in rows && !(rows[id].status.Published? && rows[id].publishedAt.Some?
                                       && rows[id].publishedAt.value < now - RETENTION) :: rows[id];
      PurgeShrinks(rows0, rows);
      purged := before - |rows|;
    }
  }

  lemma PurgeShrinks(m: map<EventId, Event>, m': map<EventId, Event>)
    requires m'.Keys <= m.Keys
    ensures |m'| <= |m|
  {
    assert |m'| == |m'.Keys| && |m| == |m.Keys|;
    SubsetIsNoLarger(m'.Keys, m.Keys);
  }

  // ---------------------------------------------------------------- one drain as a run

  /** The operations of a drain that is not interrupted. */
  function DrainOps(d: DrainId, batch: seq<EventId>, outcomes: seq<Outcome>): seq<Op> {
    Publishing(d, batch, outcomes) + [CommitDrain(d)]
  }

  function Publishing(d: DrainId, batch: seq<EventId>, outcomes: seq<Outcome>): seq<Op> {
    if outcomes == [] then [Select(d, batch)]
    else Publishing(d, batch, outcomes[..|outcomes| - 1]) + [PublishNext(d, outcomes[|outcomes| - 1])]
  }

  lemma {:induction false} RunConcat(w: World, a: seq<Op>, b: seq<Op>)
    ensures Run(w, a + b) == Run(Run(w, a), b)
    decreases |a|
  {
    if a == [] {
      assert a + b == b;
    } else {
      assert (a + b)[1..] == a[1..] + b;
      RunConcat(Apply(w, a[0]), a[1..], b);
    }
  }

  lemma RunOne(w: World, ops: seq<Op>, op: Op)
    ensures Run(w, ops + [op]) == Apply(Run(w, ops), op)
  {
    RunConcat(w, ops, [op]);
    assert [op][1..] == [];
  }

  /** Where an uninterrupted drain is after the first `n` publishes. */
  predicate PublishedUpTo(w: World, w': World, d: DrainId, batch: seq<EventId>, outcomes: seq<Outcome>)
    requires |outcomes| <= |batch| && forall id :: id in batch ==> id in w.rows
  {
    var n := |outcomes|;
    && w'.rows == w.rows && d in w'.drains
    && w'.drains[d] == Drain(batch, w.now, n, Updates(w.rows, batch[..n], outcomes, w.now))
    && w'.broker == DrainBroker(w.broker, w.rows, batch[..n], outcomes)
    && w'.inserted == w.inserted && forall k :: 0 <= k < n && outcomes[k].Acked? ==> batch[k] in w'.acked
  }

  lemma PublishOneMore(w: World, w': World, d: DrainId, batch: seq<EventId>, before: seq<Outcome>, o: Outcome)
    requires |before| < |batch| && (forall id :: id in batch ==> id in w.rows)
    requires PublishedUpTo(w, w', d, batch, before)
    ensures PublishedUpTo(w, Apply(w', PublishNext(d, o)), d, batch, before + [o])
  {
    var n, all := |before|, before + [o];
    assert batch[n] in batch;
    assert batch[..n + 1][..n] == batch[..n] && all[..n] == before;
    var w2 := Apply(w', PublishNext(d, o));
    assert w2 == PublishStep(w', d, o);
    forall k | 0 <= k < |all| && all[k].Acked? ensures batch[k] in w2.acked {
      assert k < n ==> all[k] == before[k];
    }
  }

  lemma {:induction false} PublishingRun(w: World, d: DrainId, batch: seq<EventId>, outcomes: seq<Outcome>)
    requires SelectOk(w, d, batch) && |outcomes| <= |batch|
    ensures PublishedUpTo(w, Run(w, Publishing(d, batch, outcomes)), d, batch, outcomes)
    decreases |outcomes|
  {
    var n := |outcomes|;
    if n == 0 {
      assert [Select(d, batch)][1..] == [];
    } else {
      var before, last := outcomes[..n - 1], outcomes[n - 1];
      PublishingRun(w, d, batch, before);
      RunOne(w, Publishing(d, batch, before), PublishNext(d, last));
      PublishOneMore(w, Run(w, Publishing(d, batch, before)), d, batch, before, last);
      assert outcomes == before + [last];
    }
  }

  /** The loop of `drain_batch` does what the interleaved model does when nothing comes between. */
  lemma DrainIsRun(w: World, d: DrainId, batch: seq<EventId>, outcomes: seq<Outcome>)
    requires SelectOk(w, d, batch) && |outcomes| == |batch|
    ensures var w' := Run(w, DrainOps(d, batch, outcomes));
            && w'.rows == w.rows + Updates(w.rows, batch, outcomes, w.now)
            && w'.broker == DrainBroker(w.broker, w.rows, batch, outcomes)
            && w'.inserted == w.inserted && forall k :: 0 <= k < |batch| && outcomes[k].Acked? ==> batch[k] in w'.acked
  {
    PublishingRun(w, d, batch, outcomes);
    RunOne(w, Publishing(d, batch, outcomes), CommitDrain(d));
    assert batch[..|batch|] == batch;
  }

  // ---------------------------------------------------------------- what a drain can do

  /** The row may be published now: PENDING, and not waiting for a later attempt. */
  predicate IsWaiting(e: Event, now: int) {
    e.status == Pending && match e.nextAttempt case None => true case Some(t) => t <= now
  }

  /** A new drain locks a batch if and only if its rows are distinct, waiting, and locked by nobody. */
  lemma SelectLocksIff(w: World, d: DrainId, batch: seq<EventId>)
    requires d !in w.drains
    ensures d in Apply(w, Select(d, batch)).drains <==>
            && (forall i, j :: 0 <= i < j < |batch| ==> batch[i] != batch[j])
            && (forall k :: 0 <= k < |batch| ==> batch[k] in w.rows && IsWaiting(w.rows[batch[k]], w.now))
            && (forall k, e :: 0 <= k < |batch| && e in w.drains ==> batch[k] !in w.drains[e].batch)
    ensures Apply(w, Select(d, batch)).rows == w.rows && Apply(w, Select(d, batch)).broker == w.broker
  {
    if NoRepeats(batch) && (forall k :: 0 <= k < |batch| ==> batch[k] in w.rows && IsWaiting(w.rows[batch[k]], w.now))
       && (forall k, e :: 0 <= k < |batch| && e in w.drains ==> batch[k] !in w.drains[e].batch)
    {
      forall id | id in batch ensures id in w.rows && w.rows[id].Due(w.now) && !Locked(w, id) {
        var k :| 0 <= k < |batch| && batch[k] == id;
      }
    } else if SelectOk(w, d, batch) {
      forall k | 0 <= k < |batch|
        ensures batch[k] in w.rows && IsWaiting(w.rows[batch[k]], w.now) && !Locked(w, batch[k])
      {
        assert batch[k] in batch;
      }
    }
  }

  /** A new event is waiting at once. */
  lemma InsertedIsWaiting(w: World, id: EventId, headers: map<string, string>)
    requires id !in w.inserted
    ensures var w' := Apply(w, Insert(id, headers));
            && id in w'.rows && IsWaiting(w'.rows[id], w'.now) && w'.rows[id].headers == headers
            && w'.rows[id].retries == 0 && id in w'.inserted
  {
  }

  /** A waiting event that nobody has locked is PUBLISHED and in the stream after one acknowledged drain. */
  lemma WaitingIsPublished(w: World, d: DrainId, id: EventId)
    requires d !in w.drains && id in w.rows && IsWaiting(w.rows[id], w.now) && !Locked(w, id)
    ensures var w' := Run(w, DrainOps(d, [id], [Acked]));
            && id in w'.rows && w'.rows[id].status == Published && w'.rows[id].publishedAt == Some(w.now)
            && id in w'.acked && Holds(w'.broker, MsgId(id, w.rows[id].headers)) && w.broker <= w'.broker
  {
    assert SelectOk(w, d, [id]);
    DrainIsRun(w, d, [id], [Acked]);
    UpdatesRecord(w.rows, [id], [Acked], w.now);
    BrokerHoldsAcked(w.broker, w.rows, [id], [Acked]);
    var (b, o) := ([id], [Acked]);
    assert b[0] == id && o[0] == Acked;
  }

  /** A drain that crashes before its commit leaves every row as it was and free to be drained again. */
  lemma CrashedDrainCanBeRepeated(w: World, d: DrainId, batch: seq<EventId>, outcomes: seq<Outcome>)
    requires SelectOk(w, d, batch) && |outcomes| <= |batch|
    ensures var w' := Run(w, Publishing(d, batch, outcomes) + [Crash(d)]);
            w'.rows == w.rows && SelectOk(w', d, batch)
  {
    PublishingRun(w, d, batch, outcomes);
    PublishingLeavesOthers(w, d, batch, outcomes);
    RunOne(w, Publishing(d, batch, outcomes), Crash(d));
    var w' := Run(w, Publishing(d, batch, outcomes) + [Crash(d)]);
    assert w'.drains == w.drains;
    forall id | id in batch ensures id in w'.rows && w'.rows[id].Due(w'.now) && !Locked(w', id) {
      assert w.rows[id].Due(w.now) && !Locked(w, id);
    }
  }

  lemma {:induction false} PublishingLeavesOthers(w: World, d: DrainId, batch: seq<EventId>, outcomes: seq<Outcome>)
    requires d !in w.drains && |outcomes| <= |batch|
    ensures var w' := Run(w, Publishing(d, batch, outcomes));
            w'.now == w.now && w'.drains - {d} == w.drains
    decreases |outcomes|
  {
    var n := |outcomes|;
    if n == 0 {
      assert [Select(d, batch)][1..] == [];
    } else {
      PublishingLeavesOthers(w, d, batch, outcomes[..n - 1]);
      RunOne(w, Publishing(d, batch, outcomes[..n - 1]), PublishNext(d, outcomes[n - 1]));
    }
  }
}
