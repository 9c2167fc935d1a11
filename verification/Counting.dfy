/** Cardinalities of the keys a predicate selects. */
module Counting {

  function One(b: bool): nat { if b then 1 else 0 }

  lemma DisjointUnion<T>(u: set<T>, x: set<T>, y: set<T>)
    requires x !! y && u == x + y
    ensures |u| == |x| + |y|
  {
  }

  lemma PartsOfSet<T>(u: set<T>, x: set<T>, y: set<T>)
    requires x !! y && x + y <= u
    ensures |u - (x + y)| == |u| - |x| - |y|
  {
    assert |x + y| == |x| + |y|;
    assert u == (u - (x + y)) + (x + y);
  }
}
