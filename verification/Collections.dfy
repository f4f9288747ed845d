/** Facts about sequences and finite sets that several modules use. */
module Collections {

  lemma Regroup<T>(done: seq<T>, more: seq<T>, rest: seq<T>)
    ensures (done + more) + rest == done + (more + rest)
  {
  }

  lemma SubsetSize<T>(a: set<T>, b: set<T>)
    requires a <= b
    ensures |a| <= |b|
    ensures a != b ==> |a| < |b|
  {
    assert b == a + (b - a);
  }
}
