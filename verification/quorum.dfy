module Quorum {
  // Strict majorities, and why a single-server change needs no joint consensus.

  import opened Types

  /** The least number of members that is more than half of them. */
  function Majority(ids: set<NodeId>): (m: nat)
    ensures 2 * m > |ids| && 2 * (m - 1) <= |ids|
  {
    |ids| / 2 + 1
  }

  predicate IsQuorum(q: set<NodeId>, ids: set<NodeId>) {
    q <= ids && |q| >= Majority(ids)
  }

  /** Two configurations that differ by at most one added or removed member. */
  predicate Adjacent(a: set<NodeId>, b: set<NodeId>) {
    |a - b| + |b - a| <= 1
  }

  lemma SubsetCardinality<T>(a: set<T>, b: set<T>)
    requires a <= b
    ensures |a| <= |b|
  {
    assert b == a + (b - a);
  }

  lemma UnionCardinality<T>(a: set<T>, b: set<T>)
    ensures |a + b| == |a| + |b - a|
  {
    assert a + b == a + (b - a);
  }

  /** Every majority of one configuration meets every majority of an adjacent one. */
  lemma QuorumsMeet(q: set<NodeId>, a: set<NodeId>, r: set<NodeId>, b: set<NodeId>)
    requires IsQuorum(q, a) && IsQuorum(r, b) && Adjacent(a, b)
    ensures exists x :: x in q && x in r
  {
    assert a + b == b + a;
    if q !! r {
      assert |q + r| == |q| + |r| by { UnionCardinality(q, r); assert r - q == r; }
      SubsetCardinality(q + r, a + b);
      UnionCardinality(a, b);
      UnionCardinality(b, a);
      assert false;
    }
    assert q * r != {};
    var x :| x in q * r;
    assert x in q && x in r;
  }
}
