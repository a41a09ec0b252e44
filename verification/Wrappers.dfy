/** Optional values, None for one that is absent, and a fact about sets. */
module Wrappers {
  datatype Option<+T> = None | Some(value: T)

  lemma SubsetCount<T>(a: set<T>, b: set<T>)
    requires a <= b
    ensures |a| <= |b|
  {
    assert b == a + (b - a);
  }
}
