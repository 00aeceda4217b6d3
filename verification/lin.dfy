module Lin {
  // The linearizability checker on the operations of one key: a memoised
  // depth-first search, and what it decides.

  import opened Bits
  import opened Types

  const MAX_TIME: nat := Pow2(64) - 1

  type Time = t: nat | t <= MAX_TIME

  type Register = Option<Value>

  datatype WriteKind = Put(value: Value) | Delete
  datatype WriteOutcome = Happened | Failed | Unknown
  datatype Op = Write(kind: WriteKind, outcome: WriteOutcome) | Read(result: Register)
  datatype Recorded = Recorded(process: nat, key: string, op: Op, invoked: Time, returned: Time)

  datatype Action = Set(value: Register) | Expect(value: Register)
  datatype Entry = Entry(inv: Time, ret: Time, action: Action, required: bool)

  // ---- what a linearization is ----

  predicate Feasible(a: Action, state: Register) {
    a.Set? || a.value == state
  }

  /** Register contents after the action; an expectation leaves it alone. */
  function After(a: Action, state: Register): Register {
    if a.Set? then a.value else state
  }

  ghost predicate Legal(ops: seq<Entry>, state: Register, order: seq<nat>)
    decreases |order|
  {
    |order| > 0 ==>
      && order[0] < |ops| && Feasible(ops[order[0]].action, state)
      && Legal(ops, After(ops[order[0]].action, state), order[1..])
  }

  /** No operation is invoked after one placed later (or it itself) has returned. */
  ghost predicate InRealTime(ops: seq<Entry>, order: seq<nat>) {
    forall p, q | 0 <= p <= q < |order| && order[p] < |ops| && order[q] < |ops| :: ops[order[p]].inv <= ops[order[q]].ret
  }

  /** One instant per operation, within its interval, in order. */
  ghost predicate AtInstants(ops: seq<Entry>, order: seq<nat>, at: seq<Time>) {
    && |at| == |order|
    && (forall p | 0 <= p < |order| :: order[p] < |ops| && ops[order[p]].inv <= at[p] <= ops[order[p]].ret)
    && (forall p, q | 0 <= p <= q < |at| :: at[p] <= at[q])
  }

  /** The latest invocation among the first n of the order. */
  function LatestInvocation(ops: seq<Entry>, order: seq<nat>, n: nat): Time
    requires n <= |order| && forall p | 0 <= p < |order| :: order[p] < |ops|
  {
    if n == 0 then 0
    else
      var before, inv := LatestInvocation(ops, order, n - 1), ops[order[n - 1]].inv;
      if before > inv then before else inv
  }

  lemma {:induction false} LatestBelow(ops: seq<Entry>, order: seq<nat>, n: nat, t: Time)
    requires n <= |order| && forall p | 0 <= p < |order| :: order[p] < |ops|
    requires forall p | 0 <= p < n :: ops[order[p]].inv <= t
    ensures LatestInvocation(ops, order, n) <= t
  {
    if n > 0 { LatestBelow(ops, order, n - 1, t); }
  }

  lemma {:induction false} LatestGrows(ops: seq<Entry>, order: seq<nat>, m: nat, n: nat)
    requires m <= n <= |order| && forall p | 0 <= p < |order| :: order[p] < |ops|
    ensures LatestInvocation(ops, order, m) <= LatestInvocation(ops, order, n)
    decreases n
  {
    if m < n { LatestGrows(ops, order, m, n - 1); }
  }

  lemma {:induction false} InstantsExist(ops: seq<Entry>, order: seq<nat>) returns (at: seq<Time>)
    requires InRealTime(ops, order) && forall p | 0 <= p < |order| :: order[p] < |ops|
    ensures AtInstants(ops, order, at)
  {
    at := seq(|order|, p requires 0 <= p < |order| => LatestInvocation(ops, order, p + 1));
    forall p | 0 <= p < |order| ensures ops[order[p]].inv <= at[p] <= ops[order[p]].ret {
      LatestBelow(ops, order, p + 1, ops[order[p]].ret);
    }
    forall p, q | 0 <= p <= q < |at| ensures at[p] <= at[q] { LatestGrows(ops, order, p + 1, q + 1); }
  }

  /** An order respects real time exactly when its operations can be placed
      at instants within their intervals, in that order. */
  lemma {:induction false} RealTimeMeansInstants(ops: seq<Entry>, order: seq<nat>)
    requires forall p | 0 <= p < |order| :: order[p] < |ops|
    ensures InRealTime(ops, order) <==> exists at :: AtInstants(ops, order, at)
  {
    if InRealTime(ops, order) {
      var at := InstantsExist(ops, order);
    }
    if at :| AtInstants(ops, order, at) {
      forall p, q | 0 <= p <= q < |order| && order[p] < |ops| && order[q] < |ops| ensures ops[order[p]].inv <= ops[order[q]].ret {
        assert at[p] <= at[q];
      }
    }
  }

  ghost predicate Distinct(order: seq<nat>) {
    forall p, q | 0 <= p < q < |order| :: order[p] != order[q]
  }

  /** The order linearizes what is left when `done` is already linearized:
      every required operation, and any of the optional ones. */
  ghost predicate Completes(ops: seq<Entry>, done: set<nat>, state: Register, order: seq<nat>) {
    && Distinct(order)
    && (forall i | i in order :: i < |ops| && i !in done)
    && (forall i | 0 <= i < |ops| && ops[i].required && i !in done :: i in order)
    && InRealTime(ops, order)
    && Legal(ops, state, order)
  }

  ghost predicate Completable(ops: seq<Entry>, done: set<nat>, state: Register) {
    exists order :: Completes(ops, done, state, order)
  }

  // ---- one step of the search ----

  /** Nobody still to be linearized returned before i was invoked. */
  ghost predicate Candidate(ops: seq<Entry>, done: set<nat>, i: nat) {
    && i < |ops| && i !in done
    && forall j | 0 <= j < |ops| && j !in done :: ops[i].inv <= ops[j].ret
  }

  ghost predicate AllRequired(ops: seq<Entry>, done: set<nat>) {
    forall i | 0 <= i < |ops| && ops[i].required :: i in done
  }

  ghost predicate OptionalOpen(ops: seq<Entry>) {
    forall i | 0 <= i < |ops| && !ops[i].required :: ops[i].ret == MAX_TIME
  }

  lemma {:induction false} NothingLeft(ops: seq<Entry>, done: set<nat>, state: Register)
    requires AllRequired(ops, done)
    ensures Completable(ops, done, state)
  {
    assert Completes(ops, done, state, []);
  }

  lemma {:induction false} FirstInRealTime(ops: seq<Entry>, done: set<nat>, i: nat, rest: seq<nat>)
    requires Candidate(ops, done, i) && InRealTime(ops, rest) && forall x | x in rest :: x < |ops| && x !in done
    ensures InRealTime(ops, [i] + rest)
  {
    var order := [i] + rest;
    forall p, q | 0 <= p <= q < |order| && order[p] < |ops| && order[q] < |ops| ensures ops[order[p]].inv <= ops[order[q]].ret {
      if q == 0 {
        assert order[p] == i == order[q];
      } else {
        assert order[q] == rest[q - 1] && rest[q - 1] in rest;
        if p > 0 { assert order[p] == rest[p - 1]; }
      }
    }
  }

  lemma {:induction false} FirstDistinct(i: nat, rest: seq<nat>)
    requires Distinct(rest) && i !in rest
    ensures Distinct([i] + rest)
  {
    var order := [i] + rest;
    forall p, q | 0 <= p < q < |order| ensures order[p] != order[q] {
      assert order[q] == rest[q - 1] && rest[q - 1] in rest;
      if p > 0 { assert order[p] == rest[p - 1]; }
    }
  }

  /** Linearizing a candidate first extends any completion of the rest. */
  lemma {:induction false} StepSound(ops: seq<Entry>, done: set<nat>, state: Register, i: nat)
    requires Candidate(ops, done, i) && Feasible(ops[i].action, state)
    requires Completable(ops, done + {i}, After(ops[i].action, state))
    ensures Completable(ops, done, state)
  {
    hide InRealTime, Distinct;
    var rest :| Completes(ops, done + {i}, After(ops[i].action, state), rest);
    var order := [i] + rest;
    FirstInRealTime(ops, done, i, rest);
    FirstDistinct(i, rest);
    assert order[0] == i && order[1..] == rest;
    assert Completes(ops, done, state, order);
  }

  /** Trying i next cannot work. */
  ghost predicate Hopeless(ops: seq<Entry>, done: set<nat>, state: Register, i: nat) {
    Candidate(ops, done, i) && Feasible(ops[i].action, state) ==>
      !Completable(ops, done + {i}, After(ops[i].action, state))
  }

  lemma {:induction false} FirstIsCandidate(ops: seq<Entry>, done: set<nat>, state: Register, order: seq<nat>)
    requires OptionalOpen(ops) && Completes(ops, done, state, order) && |order| > 0
    ensures Candidate(ops, done, order[0])
  {
    var i := order[0];
    assert i in order;
    forall j | 0 <= j < |ops| && j !in done ensures ops[i].inv <= ops[j].ret {
      if j in order {
        var q :| 0 <= q < |order| && order[q] == j;
        assert ops[order[0]].inv <= ops[order[q]].ret;
      }
    }
  }

  lemma {:induction false} RestCompletes(ops: seq<Entry>, done: set<nat>, state: Register, order: seq<nat>)
    requires Completes(ops, done, state, order) && |order| > 0
    ensures order[0] < |ops|
    ensures Completes(ops, done + {order[0]}, After(ops[order[0]].action, state), order[1..])
  {
    var i, rest := order[0], order[1..];
    assert i in order;
    forall x | x in rest ensures x < |ops| && x !in done + {i} {
      var p :| 0 <= p < |rest| && rest[p] == x;
      assert order[p + 1] == x && x in order && order[0] != order[p + 1];
    }
    forall x | 0 <= x < |ops| && ops[x].required && x !in done + {i} ensures x in rest {
      var p :| 0 <= p < |order| && order[p] == x;
      assert rest[p - 1] == x;
    }
  }

  /** Conversely a completion begins with a feasible candidate. */
  lemma {:induction false} StepComplete(ops: seq<Entry>, done: set<nat>, state: Register) returns (i: nat)
    requires OptionalOpen(ops) && Completable(ops, done, state) && !AllRequired(ops, done)
    ensures i < |ops| && !Hopeless(ops, done, state, i)
  {
    var order :| Completes(ops, done, state, order);
    var k :| 0 <= k < |ops| && ops[k].required && k !in done;
    assert k in order;
    FirstIsCandidate(ops, done, state, order);
    RestCompletes(ops, done, state, order);
    i := order[0];
  }

  lemma {:induction false} AllHopeless(ops: seq<Entry>, done: set<nat>, state: Register)
    requires OptionalOpen(ops) && !AllRequired(ops, done)
    requires forall i | 0 <= i < |ops| :: Hopeless(ops, done, state, i)
    ensures !Completable(ops, done, state)
  {
    hide Hopeless;
    if Completable(ops, done, state) {
      var i := StepComplete(ops, done, state);
    }
  }

  // ---- masks ----

  ghost function Done(ops: seq<Entry>, mask: nat): set<nat> {
    set i | 0 <= i < |ops| && Bit(mask, i)
  }

  lemma {:induction false} DoneGrows(ops: seq<Entry>, mask: Word, i: nat)
    requires i < |ops| <= 63 && !Bit(mask, i)
    ensures WithBit(mask, i) < Pow2(64) && Done(ops, WithBit(mask, i)) == Done(ops, mask) + {i}
    ensures |Done(ops, WithBit(mask, i))| == |Done(ops, mask)| + 1 <= |ops| && i !in Done(ops, mask)
  {
    WithBitBelow(mask, i, 64);
    forall j: nat ensures Bit(WithBit(mask, i), j) <==> Bit(mask, j) || i == j { WithBitAt(mask, i, j); }
    assert Done(ops, WithBit(mask, i)) == Done(ops, mask) + {i};
    BelowCount(Done(ops, mask) + {i}, |ops|);
  }

  lemma {:induction false} BelowCount(s: set<nat>, n: nat)
    requires forall i | i in s :: i < n
    ensures |s| <= n
  {
    if n > 0 {
      BelowCount(s - {n - 1}, n - 1);
      assert s <= s - {n - 1} + {n - 1};
    } else {
      assert s == {};
    }
  }

  ghost predicate RequiredMask(ops: seq<Entry>, required: nat) {
    forall i: nat :: Bit(required, i) <==> i < |ops| && ops[i].required
  }

  /** The mask test of the search is the subset test. */
  lemma {:induction false} MaskTest(ops: seq<Entry>, required: nat, mask: nat)
    requires RequiredMask(ops, required)
    ensures And(mask, required) == required <==> AllRequired(ops, Done(ops, mask))
  {
    AndIsSubset(mask, required);
    if BitsWithin(required, mask) {
      forall i | 0 <= i < |ops| && ops[i].required ensures i in Done(ops, mask) { assert Bit(required, i); }
    }
    if AllRequired(ops, Done(ops, mask)) {
      forall i: nat ensures Bit(required, i) ==> Bit(mask, i) {
        if Bit(required, i) { assert i in Done(ops, mask); }
      }
    }
  }

  // ---- the search ----

  type Memo = set<(nat, Register)>

  /** Every remembered state at least as far along as `count` is a dead end. */
  ghost predicate DeadEnds(ops: seq<Entry>, memo: Memo, count: nat) {
    forall k | k in memo && |Done(ops, k.0)| >= count :: !Completable(ops, Done(ops, k.0), k.1)
  }

  /** `after` remembers what `before` did, and new states only from `count` on. */
  ghost predicate Remembers(ops: seq<Entry>, before: Memo, after: Memo, count: nat) {
    before <= after && forall k | k in after && k !in before :: |Done(ops, k.0)| >= count
  }

  method MinReturn(ops: seq<Entry>, mask: nat) returns (low: Time)
    ensures forall i | 0 <= i < |ops| && !Bit(mask, i) :: low <= ops[i].ret
    ensures low == MAX_TIME || exists i | 0 <= i < |ops| && !Bit(mask, i) :: ops[i].ret == low
  {
    low := MAX_TIME;
    var i := 0;
    while i < |ops|
      invariant 0 <= i <= |ops|
      invariant forall j | 0 <= j < i && !Bit(mask, j) :: low <= ops[j].ret
      invariant low == MAX_TIME || exists j | 0 <= j < i && !Bit(mask, j) :: ops[j].ret == low
    {
      if !Bit(mask, i) && ops[i].ret < low { low := ops[i].ret; }
      i := i + 1;
    }
  }

  lemma {:induction false} CandidateTest(ops: seq<Entry>, mask: nat, low: Time, i: nat)
    requires i < |ops| && !Bit(mask, i)
    requires forall j | 0 <= j < |ops| && !Bit(mask, j) :: low <= ops[j].ret
    requires low == MAX_TIME || exists j | 0 <= j < |ops| && !Bit(mask, j) :: ops[j].ret == low
    ensures ops[i].inv <= low <==> Candidate(ops, Done(ops, mask), i)
  {
    if Candidate(ops, Done(ops, mask), i) && low != MAX_TIME {
      var j :| 0 <= j < |ops| && !Bit(mask, j) && ops[j].ret == low;
      assert j !in Done(ops, mask);
    }
  }

  lemma {:induction false} MemoStarts(ops: seq<Entry>, memo: Memo, k: (nat, Register), count: nat)
    requires DeadEnds(ops, memo, count) && |Done(ops, k.0)| == count
    ensures k in memo ==> !Completable(ops, Done(ops, k.0), k.1)
    ensures Remembers(ops, memo + {k}, memo + {k}, count + 1) && DeadEnds(ops, memo + {k}, count + 1)
  {
  }

  lemma {:induction false} MemoEnds(ops: seq<Entry>, memo: Memo, memo': Memo, k: (nat, Register), count: nat)
    requires DeadEnds(ops, memo, count) && |Done(ops, k.0)| == count && !Completable(ops, Done(ops, k.0), k.1)
    requires Remembers(ops, memo + {k}, memo', count + 1) && DeadEnds(ops, memo', count + 1)
    ensures Remembers(ops, memo, memo', count) && DeadEnds(ops, memo', count)
  {
  }

  lemma {:induction false} RemembersTransitive(ops: seq<Entry>, a: Memo, b: Memo, c: Memo, count: nat)
    requires Remembers(ops, a, b, count) && Remembers(ops, b, c, count)
    ensures Remembers(ops, a, c, count)
  {
  }

  /** True exactly when the rest can be linearized. The memo never hides a
      solution: what it holds that the search can still meet are dead ends. */
  method Search(ops: seq<Entry>, required: nat, memo: Memo, mask: Word, state: Register) returns (found: bool,
      memo': Memo)
    requires |ops| <= 63 && OptionalOpen(ops) && RequiredMask(ops, required)
    requires DeadEnds(ops, memo, |Done(ops, mask)|)
    ensures found <==> Completable(ops, Done(ops, mask), state)
    ensures !found ==> Remembers(ops, memo, memo', |Done(ops, mask)|) && DeadEnds(ops, memo', |Done(ops, mask)|)
    decreases |ops| - |Done(ops, mask)|
  {
    hide Completable, Candidate, Bit, WithBit, And, Hopeless, DeadEnds, Remembers, Done, OptionalOpen,
      RequiredMask, AllRequired;
    ghost var done := Done(ops, mask);
    MaskTest(ops, required, mask);
    if And(mask, required) == required {
      NothingLeft(ops, done, state);
      return true, memo;
    }
    MemoStarts(ops, memo, (mask, state), |done|);
    if (mask, state) in memo {
      RemembersItself(ops, memo, |done|);
      return false, memo;
    }
    memo' := memo + {(mask, state)};
    var low := MinReturn(ops, mask);
    var i := 0;
    while i < |ops|
      invariant 0 <= i <= |ops|
      invariant forall j | 0 <= j < i :: Hopeless(ops, done, state, j)
      invariant Remembers(ops, memo + {(mask, state)}, memo', |done| + 1) && DeadEnds(ops, memo', |done| + 1)
    {
      if !Bit(mask, i) && ops[i].inv <= low && Feasible(ops[i].action, state) {
        CandidateTest(ops, mask, low, i);
        DoneGrows(ops, mask, i);
        var feasible, memo1 := Search(ops, required, memo', WithBit(mask, i), After(ops[i].action, state));
        if feasible {
          StepSound(ops, done, state, i);
          return true, memo1;
        }
        RemembersTransitive(ops, memo + {(mask, state)}, memo', memo1, |done| + 1);
        memo' := memo1;
        Tried(ops, done, state, i);
      } else {
        NotTried(ops, mask, low, state, i);
      }
      i := i + 1;
    }
    AllHopeless(ops, done, state);
    MemoEnds(ops, memo, memo', (mask, state), |done|);
    found := false;
  }

  lemma {:induction false} RemembersItself(ops: seq<Entry>, memo: Memo, count: nat)
    ensures Remembers(ops, memo, memo, count)
  {
  }

  lemma {:induction false} Tried(ops: seq<Entry>, done: set<nat>, state: Register, i: nat)
    requires i < |ops| && !Completable(ops, done + {i}, After(ops[i].action, state))
    ensures Hopeless(ops, done, state, i)
  {
  }

  lemma {:induction false} NotTried(ops: seq<Entry>, mask: nat, low: Time, state: Register, i: nat)
    requires i < |ops| && (Bit(mask, i) || ops[i].inv > low || !Feasible(ops[i].action, state))
    requires forall j | 0 <= j < |ops| && !Bit(mask, j) :: low <= ops[j].ret
    requires low == MAX_TIME || exists j | 0 <= j < |ops| && !Bit(mask, j) :: ops[j].ret == low
    ensures Hopeless(ops, Done(ops, mask), state, i)
  {
    if !Bit(mask, i) { CandidateTest(ops, mask, low, i); }
  }
}
