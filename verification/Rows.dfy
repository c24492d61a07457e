/** Statements about the rows of a table. */
module Rows {
  /** The rows are the same, and all but `k` are unchanged. */
  predicate OnlyRow<K, V(==)>(m: map<K, V>, m': map<K, V>, k: K) {
    m'.Keys == m.Keys && forall x :: x in m && x != k ==> m'[x] == m[x]
  }
}
