module Ranking {
  // Picking the index that a majority reaches out of a sorted list.

  /** How many values reach i. */
  function Reaching(s: seq<nat>, i: nat): nat {
    if |s| == 0 then 0 else Reaching(s[..|s| - 1], i) + (if s[|s| - 1] >= i then 1 else 0)
  }

  ghost predicate Sorted(s: seq<nat>) {
    forall p, q | 0 <= p < q < |s| :: s[p] <= s[q]
  }

  lemma {:induction false} ReachingSplit(a: seq<nat>, b: seq<nat>, i: nat)
    ensures Reaching(a + b, i) == Reaching(a, i) + Reaching(b, i)
  {
    if |b| == 0 {
      assert a + b == a;
    } else {
      assert (a + b)[..|a + b| - 1] == a + b[..|b| - 1];
      ReachingSplit(a, b[..|b| - 1], i);
    }
  }

  lemma {:induction false} ReachingOne(v: nat, i: nat)
    ensures Reaching([v], i) == if v >= i then 1 else 0
  {
    assert [v][..0] == [];
  }

  /** v put in its place among sorted values. */
  method Insert(s: seq<nat>, v: nat) returns (r: seq<nat>)
    requires Sorted(s)
    ensures Sorted(r) && |r| == |s| + 1
    ensures forall i :: Reaching(r, i) == Reaching(s, i) + (if v >= i then 1 else 0)
  {
    hide Reaching;
    var p := |s|;
    while p > 0 && s[p - 1] > v
      invariant 0 <= p <= |s|
      invariant forall q | p <= q < |s| :: s[q] > v
    {
      p := p - 1;
    }
    r := s[..p] + [v] + s[p..];
    InsertedSorted(s, p, v);
    forall i ensures Reaching(r, i) == Reaching(s, i) + (if v >= i then 1 else 0) { InsertedReaching(s, p, v, i); }
  }

  lemma {:induction false} InsertedSorted(s: seq<nat>, p: nat, v: nat)
    requires Sorted(s) && p <= |s| && (p > 0 ==> s[p - 1] <= v) && forall q | p <= q < |s| :: s[q] > v
    ensures Sorted(s[..p] + [v] + s[p..])
  {
    var r := s[..p] + [v] + s[p..];
    forall i, j | 0 <= i < j < |r| ensures r[i] <= r[j] {
      assert r[i] == if i < p then s[i] else if i == p then v else s[i - 1];
      assert r[j] == if j < p then s[j] else if j == p then v else s[j - 1];
    }
  }

  lemma {:induction false} InsertedReaching(s: seq<nat>, p: nat, v: nat, i: nat)
    requires p <= |s|
    ensures Reaching(s[..p] + [v] + s[p..], i) == Reaching(s, i) + (if v >= i then 1 else 0)
  {
    ReachingSplit(s[..p] + [v], s[p..], i);
    ReachingSplit(s[..p], [v], i);
    ReachingOne(v, i);
    ReachingSplit(s[..p], s[p..], i);
    assert s[..p] + s[p..] == s;
  }

  method SortAscending(s: seq<nat>) returns (r: seq<nat>)
    ensures Sorted(r) && |r| == |s|
    ensures forall i :: Reaching(r, i) == Reaching(s, i)
  {
    r := [];
    var k := 0;
    while k < |s|
      invariant 0 <= k <= |s| && Sorted(r) && |r| == k
      invariant forall i :: Reaching(r, i) == Reaching(s[..k], i)
    {
      assert s[..k + 1][..k] == s[..k];
      r := Insert(r, s[k]);
      k := k + 1;
    }
    assert s[..k] == s;
  }

  lemma {:induction false} AllReach(s: seq<nat>, i: nat)
    requires forall p | 0 <= p < |s| :: s[p] >= i
    ensures Reaching(s, i) == |s|
  {
    if |s| > 0 { AllReach(s[..|s| - 1], i); }
  }

  lemma {:induction false} NoneReach(s: seq<nat>, i: nat)
    requires forall p | 0 <= p < |s| :: s[p] < i
    ensures Reaching(s, i) == 0
  {
    if |s| > 0 { NoneReach(s[..|s| - 1], i); }
  }

  lemma {:induction false} AtMostAll(s: seq<nat>, i: nat)
    ensures Reaching(s, i) <= |s|
  {
    if |s| > 0 { AtMostAll(s[..|s| - 1], i); }
  }

  /** In a sorted list the k-th value from the end is the greatest that at
      least k values reach. */
  lemma {:induction false} KthFromEnd(s: seq<nat>, k: nat)
    requires Sorted(s) && 0 < k <= |s|
    ensures Reaching(s, s[|s| - k]) >= k
    ensures Reaching(s, s[|s| - k] + 1) < k
  {
    var p := |s| - k;
    var c := s[p];
    assert s == s[..p] + s[p..] && s == s[..p + 1] + s[p + 1..];
    ReachingSplit(s[..p], s[p..], c);
    AllReach(s[p..], c);
    ReachingSplit(s[..p + 1], s[p + 1..], c + 1);
    NoneReach(s[..p + 1], c + 1);
    AtMostAll(s[p + 1..], c + 1);
  }
}
