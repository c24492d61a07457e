/** What `SELECT ... ORDER BY ... LIMIT n` returns. */
module Queries {

  /** The ORDER BY columns, most significant first. */
  datatype SortKey = SortKey(major: int, minor: int) {
    predicate AtMost(k: SortKey) {
      major < k.major || (major == k.major && minor <= k.minor)
    }
  }

  predicate Keyed(ids: set<nat>, key: map<nat, SortKey>) {
    forall i :: i in ids ==> i in key
  }

  predicate NoRepeats(rows: seq<nat>) {
    forall p, q :: 0 <= p < q < |rows| ==> rows[p] != rows[q]
  }

  predicate InKeyOrder(rows: seq<nat>, key: map<nat, SortKey>)
    requires forall i :: i in rows ==> i in key
  {
    forall p, q :: 0 <= p < q < |rows| ==> key[rows[p]].AtMost(key[rows[q]])
  }

  /** Nothing that was left out sorts before anything that was returned. */
  predicate RestComesLater(ids: set<nat>, key: map<nat, SortKey>, rows: seq<nat>)
    requires Keyed(ids, key) && forall i :: i in rows ==> i in key
  {
    forall i, p :: i in ids && i !in rows && 0 <= p < |rows| ==> key[rows[p]].AtMost(key[i])
  }

  lemma {:induction false} LeastExists(ids: set<nat>, key: map<nat, SortKey>)
    requires ids != {} && Keyed(ids, key)
    ensures exists i :: i in ids && forall k :: k in ids ==> key[i].AtMost(key[k])
    decreases ids
  {
    var x :| x in ids;
    var rest := ids - {x};
    if rest == {} {
      assert ids == {x};
    } else {
      LeastExists(rest, key);
      var i :| i in rest && forall k :: k in rest ==> key[i].AtMost(key[k]);
      var least := if key[x].AtMost(key[i]) then x else i;
      assert least in ids && forall k :: k in ids ==> key[least].AtMost(key[k]);
    }
  }

  /** The first `limit` of `ids` by key, ties in any order. */
  method SelectOrdered(ids: set<nat>, key: map<nat, SortKey>, limit: nat) returns (rows: seq<nat>)
    requires Keyed(ids, key)
    ensures NoRepeats(rows) && |rows| <= limit
    ensures forall i :: i in rows ==> i in ids
    ensures (exists i :: i in ids && i !in rows) ==> |rows| == limit < |ids|
    ensures InKeyOrder(rows, key) && RestComesLater(ids, key, rows)
  {
    rows := [];
    var rest := ids;
    while rest != {} && |rows| < limit
      invariant NoRepeats(rows) && |rows| <= limit
      invariant rest <= ids && (forall i :: i in ids <==> i in rest || i in rows)
      invariant (forall i :: i in rows ==> i !in rest) && |rows| + |rest| == |ids|
      invariant InKeyOrder(rows, key)
      invariant forall i, p :: i in rest && 0 <= p < |rows| ==> key[rows[p]].AtMost(key[i])
      decreases rest
    {
      LeastExists(rest, key);
      var i :| i in rest && forall k :: k in rest ==> key[i].AtMost(key[k]);
      rows := rows + [i];
      rest := rest - {i};
    }
  }
}
