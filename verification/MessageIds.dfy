/**
 When every acknowledged event is delivered.  The event's own headers are copied over the message id, so two events
 can share one; then the broker takes the second for a repetition of the first.
 */
module MessageIds {
  import opened Options
  import opened Outbox

  ghost predicate AckedAreHeld(w: World) {
    forall id :: id in w.acked ==> HeldOnce(w.broker, id)
  }

  /** Whatever dispatchers and broker do with events of these message ids, acknowledged ones are in the stream once. */
  ghost predicate AlwaysDelivers(ids: map<EventId, string>) {
    forall ops :: Run(INIT, ops).inserted == ids ==> AckedAreHeld(Run(INIT, ops))
  }

  /** The tables after inserting events with these message ids. */
  function AllPending(ids: map<EventId, string>): World {
    World(map id | id in ids :: Event(map[MSG_ID := ids[id]], Pending, 0, None, None), [], 0, map[], ids, {})
  }

  lemma {:induction false} InsertAll(ids: map<EventId, string>) returns (ops: seq<Op>)
    ensures Run(INIT, ops) == AllPending(ids)
    decreases |ids|
  {
    if ids == map[] {
      ops := [];
      assert AllPending(ids).rows == map[];
    } else {
      var id :| id in ids;
      var rest := ids - {id};
      assert rest.Keys == ids.Keys - {id};
      assert |ids| == |ids.Keys| && |rest| == |rest.Keys|;
      ops := InsertAll(rest);
      RunOne(INIT, ops, Insert(id, map[MSG_ID := ids[id]]));
      ops := ops + [Insert(id, map[MSG_ID := ids[id]])];
      InsertOneMore(ids, id);
    }
  }

  lemma InsertOneMore(ids: map<EventId, string>, id: EventId)
    requires id in ids
    ensures Apply(AllPending(ids - {id}), Insert(id, map[MSG_ID := ids[id]])) == AllPending(ids)
  {
    var w := Apply(AllPending(ids - {id}), Insert(id, map[MSG_ID := ids[id]]));
    assert w.rows == AllPending(ids).rows;
    assert w.inserted == ids;
  }

  /** The second of two messages with one id is dropped. */
  lemma SecondIsDropped(rows: map<EventId, Event>, a: EventId, b: EventId)
    requires a in rows && b in rows && MsgId(a, rows[a].headers) == MsgId(b, rows[b].headers)
    ensures DrainBroker([], rows, [a, b], [Acked, Acked]) == [Message(MsgId(a, rows[a].headers), a)]
  {
    var m := Message(MsgId(a, rows[a].headers), a);
    assert [a, b][..1] == [a] && [Acked, Acked][..1] == [Acked] && [a][..0] == [] && [Acked][..0] == [];
    assert DrainBroker([], rows, [a], [Acked]) == [m];
    assert [m][0].msgId == MsgId(b, rows[b].headers);
  }

  /** Two events with one message id, published in one drain: the second is acknowledged and never delivered. */
  lemma SharedIdLosesEvent(ids: map<EventId, string>, a: EventId, b: EventId) returns (ops: seq<Op>)
    requires a in ids && b in ids && a != b && ids[a] == ids[b]
    ensures var w := Run(INIT, ops);
            && w.inserted == ids && b in w.acked && b in w.rows && w.rows[b].status.Published?
            && !HeldOnce(w.broker, b)
  {
    var w := AllPending(ids);
    ops := InsertAll(ids);
    assert SelectOk(w, 0, [a, b]);
    RunConcat(INIT, ops, DrainOps(0, [a, b], [Acked, Acked]));
    DrainIsRun(w, 0, [a, b], [Acked, Acked]);
    UpdatesPerEvent(w.rows, [a, b], [Acked, Acked], 0);
    SecondIsDropped(w.rows, a, b);
    assert [a, b][1] == b && [Acked, Acked][1] == Acked;
    ops := ops + DrainOps(0, [a, b], [Acked, Acked]);
  }

  /**
   Every acknowledged event is in the stream exactly once, in every run that inserts events with these message ids, if
   and only if the message ids are distinct.
   */
  lemma DeliversIffMsgIdsDistinct(ids: map<EventId, string>)
    ensures AlwaysDelivers(ids) <==> MsgIdsDistinct(ids)
  {
    if MsgIdsDistinct(ids) {
      forall ops | Run(INIT, ops).inserted == ids ensures AckedAreHeld(Run(INIT, ops)) {
        forall id | id in Run(INIT, ops).acked ensures HeldOnce(Run(INIT, ops).broker, id) {
          AckedIsHeldOnce(ops, id);
        }
      }
    } else {
      var a, b :| a in ids && b in ids && ids[a] == ids[b] && a != b;
      var ops := SharedIdLosesEvent(ids, a, b);
      assert !AckedAreHeld(Run(INIT, ops));
    }
  }

  // ---------------------------------------------------------------- the headers the repository writes

  /** No inserted event brings a message id of its own. */
  predicate NoOwnMsgId(ops: seq<Op>) {
    forall k :: 0 <= k < |ops| && ops[k].Insert? ==> MSG_ID !in ops[k].headers
  }

  lemma {:induction false} MsgIdIsEventId(w: World, ops: seq<Op>)
    requires NoOwnMsgId(ops) && forall id :: id in w.inserted ==> w.inserted[id] == id
    ensures forall id :: id in Run(w, ops).inserted ==> Run(w, ops).inserted[id] == id
    decreases |ops|
  {
    if ops != [] {
      assert ops[0].Insert? ==> MSG_ID !in ops[0].headers;
      MsgIdIsEventId(Apply(w, ops[0]), ops[1..]);
    }
  }

  /**
   The producers write tracing, idempotency, rerun and rollback headers only.  Without a Nats-Msg-Id among the headers
   every acknowledged event is in the stream exactly once, in every run.
   */
  lemma PlainHeadersDeliver(ops: seq<Op>)
    requires NoOwnMsgId(ops)
    ensures AckedAreHeld(Run(INIT, ops))
  {
    MsgIdIsEventId(INIT, ops);
    forall id | id in Run(INIT, ops).acked ensures HeldOnce(Run(INIT, ops).broker, id) {
      AckedIsHeldOnce(ops, id);
    }
  }
}
