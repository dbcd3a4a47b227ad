/** Facts about sets and about the orders in which Go visits them. */
module Collections {
  // `order` visits each of `keys` once.
  ghost predicate Visits<T>(order: seq<T>, keys: set<T>) {
    && (forall i :: 0 <= i < |order| ==> order[i] in keys)
    && (forall k :: k in keys ==> k in order)
    && (forall i, j :: 0 <= i < j < |order| ==> order[i] != order[j])
  }

  lemma SubsetIsSmaller<T>(a: set<T>, b: set<T>)
    requires a <= b
    ensures |a| <= |b|
  {
    assert b == a + (b - a);
  }
}
