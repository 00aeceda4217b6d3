module Locality {
  // The checker on whole histories: per-key checks decide the linearizability of
  // the multi-key history.

  import opened Bits
  import opened Types
  import opened Lin

  type Trace = seq<Recorded>

  type Contents = map<string, Value>

  /** A failed write never happened; an unknown one may happen at any time
      after its invocation, or never. */
  function EntryOf(r: Recorded): Option<Entry> {
    match r.op
    case Write(kind, outcome) =>
      if outcome.Failed? then None
      else Some(Entry(r.invoked, if outcome.Unknown? then MAX_TIME else r.returned,
                      Set(match kind { case Put(v) => Some(v) case Delete => None }), outcome.Happened?))
    case Read(result) => Some(Entry(r.invoked, r.returned, Expect(result), true))
  }

  /** What the checker makes of a record: reads and writes that happened must
      be placed within their interval, unknown writes may be placed from their
      invocation on, failed ones not at all. */
  lemma {:induction false} RecordMeans(r: Recorded)
    ensures EntryOf(r).None? <==> r.op.Write? && r.op.outcome.Failed?
    ensures EntryOf(r).Some? ==>
      var e := EntryOf(r).value;
      && e.inv == r.invoked && (e.required <==> r.op.Read? || r.op.outcome.Happened?)
      && e.ret == (if e.required then r.returned else MAX_TIME)
      && (e.action.Expect? <==> r.op.Read?)
      && e.action.value == (if r.op.Read? then r.op.result else if r.op.kind.Put? then Some(r.op.kind.value) else None)
  {
  }

  function Lookup(store: Contents, key: string): Register {
    if key in store then Some(store[key]) else None
  }

  /** The store with one key's register replaced. */
  function Stored(store: Contents, key: string, value: Register): Contents {
    if value.Some? then store[key := value.value] else store - {key}
  }

  predicate Taken(h: Trace, i: nat) {
    i < |h| && EntryOf(h[i]).Some?
  }

  /** The operations in that order, against a store of all keys. */
  ghost predicate Runs(h: Trace, store: Contents, order: seq<nat>)
    decreases |order|
  {
    |order| > 0 ==>
      && Taken(h, order[0])
      && var r, a := h[order[0]], EntryOf(h[order[0]]).value.action;
      && Feasible(a, Lookup(store, r.key))
      && Runs(h, Stored(store, r.key, After(a, Lookup(store, r.key))), order[1..])
  }

  ghost predicate Timely(h: Trace, order: seq<nat>) {
    forall p, q | 0 <= p <= q < |order| && Taken(h, order[p]) && Taken(h, order[q]) ::
      EntryOf(h[order[p]]).value.inv <= EntryOf(h[order[q]]).value.ret
  }

  /** The order linearizes the part of the history in `scope`. */
  ghost predicate Linearizes(h: Trace, scope: set<nat>, order: seq<nat>) {
    && Distinct(order)
    && (forall i | i in order :: i in scope && Taken(h, i))
    && (forall i | i in scope && Taken(h, i) && EntryOf(h[i]).value.required :: i in order)
    && Timely(h, order)
    && Runs(h, map[], order)
  }

  ghost function OfKeys(h: Trace, keys: set<string>): set<nat> {
    set i | 0 <= i < |h| && h[i].key in keys
  }

  function KeysIn(h: Trace): set<string> {
    set r | r in h :: r.key
  }

  ghost function All(h: Trace): set<nat> {
    OfKeys(h, KeysIn(h))
  }

  ghost function OfKey(h: Trace, key: string): set<nat> {
    set i | 0 <= i < |h| && h[i].key == key
  }

  ghost predicate Linearizable(h: Trace) {
    exists order :: Linearizes(h, All(h), order)
  }

  ghost predicate KeyLinearizable(h: Trace, key: string) {
    exists order :: Linearizes(h, OfKey(h, key), order)
  }

  // ---- locality ----

  function KeysOf(h: Trace, order: seq<nat>): set<string> {
    set i | i in order && i < |h| :: h[i].key
  }

  ghost predicate Agree(s: Contents, t: Contents, keys: set<string>) {
    forall k | k in keys :: Lookup(s, k) == Lookup(t, k)
  }

  /** Whether an order runs depends only on the keys it mentions. */
  lemma {:induction false} RunsFrame(h: Trace, s: Contents, t: Contents, order: seq<nat>)
    requires Runs(h, s, order) && Agree(s, t, KeysOf(h, order))
    ensures Runs(h, t, order)
    decreases |order|
  {
    if |order| > 0 {
      var r, a := h[order[0]], EntryOf(h[order[0]]).value.action;
      assert order[0] in order && r.key in KeysOf(h, order);
      var v := After(a, Lookup(s, r.key));
      forall k | k in KeysOf(h, order[1..]) ensures Lookup(Stored(s, r.key, v), k) == Lookup(Stored(t, r.key, v), k) {
        var i :| i in order[1..] && i < |h| && h[i].key == k;
        assert i in order;
        assert k in KeysOf(h, order);
      }
      RunsFrame(h, Stored(s, r.key, v), Stored(t, r.key, v), order[1..]);
    }
  }

  function Inv(h: Trace, i: nat): Time
    requires Taken(h, i)
  {
    EntryOf(h[i]).value.inv
  }

  function Ret(h: Trace, i: nat): Time
    requires Taken(h, i)
  {
    EntryOf(h[i]).value.ret
  }

  /** i can go before all of the order. */
  predicate Precedes(h: Trace, i: nat, order: seq<nat>)
    requires Taken(h, i) && forall x | x in order :: Taken(h, x)
  {
    forall x | x in order :: Inv(h, i) <= Ret(h, x)
  }

  ghost predicate AllTaken(h: Trace, order: seq<nat>) {
    forall x | x in order :: Taken(h, x)
  }

  lemma {:induction false} TailTaken(h: Trace, order: seq<nat>)
    requires AllTaken(h, order) && |order| > 0
    ensures Taken(h, order[0]) && AllTaken(h, order[1..])
  {
    assert order[0] in order;
    forall x | x in order[1..] ensures Taken(h, x) { assert x in order; }
  }

  lemma {:induction false} TailTimely(h: Trace, order: seq<nat>)
    requires AllTaken(h, order) && Timely(h, order) && |order| > 0
    ensures AllTaken(h, order[1..]) && Timely(h, order[1..]) && Taken(h, order[0]) && Precedes(h, order[0], order)
  {
    TailTaken(h, order);
    var rest := order[1..];
    forall p, q | 0 <= p <= q < |rest| && Taken(h, rest[p]) && Taken(h, rest[q])
      ensures EntryOf(h[rest[p]]).value.inv <= EntryOf(h[rest[q]]).value.ret
    {
      assert rest[p] == order[p + 1] && rest[q] == order[q + 1];
    }
    forall x | x in order ensures Inv(h, order[0]) <= Ret(h, x) {
      var q :| 0 <= q < |order| && order[q] == x;
    }
  }

  lemma {:induction false} ConsTimely(h: Trace, i: nat, rest: seq<nat>)
    requires Taken(h, i) && AllTaken(h, rest) && Timely(h, rest) && Precedes(h, i, rest) && Inv(h, i) <= Ret(h, i)
    ensures AllTaken(h, [i] + rest) && Timely(h, [i] + rest)
  {
    var order := [i] + rest;
    forall p, q | 0 <= p <= q < |order| && Taken(h, order[p]) && Taken(h, order[q])
      ensures EntryOf(h[order[p]]).value.inv <= EntryOf(h[order[q]]).value.ret
    {
      if q == 0 {
        assert order[p] == i == order[q];
      } else {
        assert order[q] == rest[q - 1] && rest[q - 1] in rest;
        if p > 0 { assert order[p] == rest[p - 1]; }
      }
    }
  }

  /** Of two orders that each respect real time, one can go first. */
  lemma {:induction false} SomeoneLeads(h: Trace, a: seq<nat>, b: seq<nat>)
    requires AllTaken(h, a) && AllTaken(h, b) && |a| > 0 && |b| > 0
    requires Taken(h, a[0]) && Taken(h, b[0]) && Precedes(h, a[0], a) && Precedes(h, b[0], b)
    ensures Precedes(h, a[0], b) || Precedes(h, b[0], a)
  {
    if y :| y in b && Inv(h, a[0]) > Ret(h, y) {
      forall x | x in a ensures Inv(h, b[0]) <= Ret(h, x) {
        assert Inv(h, a[0]) <= Ret(h, x) && Inv(h, b[0]) <= Ret(h, y);
      }
    }
  }

  /** Two orders merged so that real time is respected across both. */
  ghost function Merge(h: Trace, a: seq<nat>, b: seq<nat>): seq<nat>
    requires AllTaken(h, a) && AllTaken(h, b)
    decreases |a| + |b|
  {
    if |a| == 0 then b
    else if |b| == 0 then a
    else
      TailTaken(h, a);
      TailTaken(h, b);
      if Precedes(h, a[0], b) then [a[0]] + Merge(h, a[1..], b) else [b[0]] + Merge(h, a, b[1..])
  }

  lemma {:induction false} MergeHas(h: Trace, a: seq<nat>, b: seq<nat>, x: nat)
    requires AllTaken(h, a) && AllTaken(h, b)
    ensures x in Merge(h, a, b) <==> x in a || x in b
    decreases |a| + |b|
  {
    if |a| > 0 && |b| > 0 {
      TailTaken(h, a);
      TailTaken(h, b);
      assert a == [a[0]] + a[1..] && b == [b[0]] + b[1..];
      if Precedes(h, a[0], b) { MergeHas(h, a[1..], b, x); } else { MergeHas(h, a, b[1..], x); }
    }
  }

  lemma {:induction false} MergeTaken(h: Trace, a: seq<nat>, b: seq<nat>)
    requires AllTaken(h, a) && AllTaken(h, b)
    ensures AllTaken(h, Merge(h, a, b))
  {
    forall x | x in Merge(h, a, b) ensures Taken(h, x) { MergeHas(h, a, b, x); }
  }

  lemma {:induction false} LeadsMerge(h: Trace, i: nat, a: seq<nat>, b: seq<nat>)
    requires AllTaken(h, a) && AllTaken(h, b) && Taken(h, i) && Precedes(h, i, a) && Precedes(h, i, b)
    ensures AllTaken(h, Merge(h, a, b)) && Precedes(h, i, Merge(h, a, b))
  {
    MergeTaken(h, a, b);
    forall x | x in Merge(h, a, b) ensures Inv(h, i) <= Ret(h, x) { MergeHas(h, a, b, x); }
  }

  lemma {:induction false} LeadsTail(h: Trace, i: nat, order: seq<nat>)
    requires AllTaken(h, order) && |order| > 0 && Taken(h, i) && Precedes(h, i, order)
    ensures AllTaken(h, order[1..]) && Precedes(h, i, order[1..])
  {
    TailTaken(h, order);
    forall x | x in order[1..] ensures Inv(h, i) <= Ret(h, x) { assert x in order; }
  }

  lemma {:induction false} MergeTimely(h: Trace, a: seq<nat>, b: seq<nat>)
    requires AllTaken(h, a) && AllTaken(h, b) && Timely(h, a) && Timely(h, b)
    ensures Timely(h, Merge(h, a, b))
    decreases |a| + |b|
  {
    hide Timely, Precedes;
    if |a| > 0 && |b| > 0 {
      TailTimely(h, a);
      TailTimely(h, b);
      SomeoneLeads(h, a, b);
      if Precedes(h, a[0], b) {
        MergeTimely(h, a[1..], b);
        LeadsTail(h, a[0], a);
        LeadsMerge(h, a[0], a[1..], b);
        OwnInterval(h, a);
        ConsTimely(h, a[0], Merge(h, a[1..], b));
      } else {
        MergeTimely(h, a, b[1..]);
        LeadsTail(h, b[0], b);
        LeadsMerge(h, b[0], a, b[1..]);
        OwnInterval(h, b);
        ConsTimely(h, b[0], Merge(h, a, b[1..]));
      }
    }
  }

  lemma {:induction false} OwnInterval(h: Trace, order: seq<nat>)
    requires AllTaken(h, order) && |order| > 0 && Taken(h, order[0]) && Precedes(h, order[0], order)
    ensures Inv(h, order[0]) <= Ret(h, order[0])
  {
    assert order[0] in order;
  }

  lemma {:induction false} MergeDistinct(h: Trace, a: seq<nat>, b: seq<nat>)
    requires AllTaken(h, a) && AllTaken(h, b) && Distinct(a) && Distinct(b) && forall x | x in a :: x !in b
    ensures Distinct(Merge(h, a, b))
    decreases |a| + |b|
  {
    if |a| > 0 && |b| > 0 {
      TailTaken(h, a);
      TailTaken(h, b);
      HeadApart(a);
      HeadApart(b);
      if Precedes(h, a[0], b) {
        MergeDistinct(h, a[1..], b);
        MergeHas(h, a[1..], b, a[0]);
        FirstDistinct(a[0], Merge(h, a[1..], b));
      } else {
        MergeDistinct(h, a, b[1..]);
        MergeHas(h, a, b[1..], b[0]);
        FirstDistinct(b[0], Merge(h, a, b[1..]));
      }
    }
  }

  lemma {:induction false} HeadApart(order: seq<nat>)
    requires Distinct(order) && |order| > 0
    ensures order[0] in order && order[0] !in order[1..] && Distinct(order[1..])
      && forall x | x in order[1..] :: x in order
  {
    var rest := order[1..];
    forall p | 0 <= p < |rest| ensures rest[p] != order[0] && rest[p] in order { assert rest[p] == order[p + 1]; }
    forall p, q | 0 <= p < q < |rest| ensures rest[p] != rest[q] {
      assert rest[p] == order[p + 1] && rest[q] == order[q + 1];
    }
  }

  lemma {:induction false} RunsRest(h: Trace, store: Contents, a: seq<nat>, b: seq<nat>) returns (after: Contents)
    requires Runs(h, store, a) && |a| > 0 && Runs(h, store, b) && KeysOf(h, a) !! KeysOf(h, b)
    ensures Runs(h, after, a[1..]) && Runs(h, after, b)
    ensures forall rest :: Runs(h, after, rest) ==> Runs(h, store, [a[0]] + rest)
  {
    var r, act := h[a[0]], EntryOf(h[a[0]]).value.action;
    after := Stored(store, r.key, After(act, Lookup(store, r.key)));
    assert a[0] in a && r.key in KeysOf(h, a);
    RunsFrame(h, store, after, b);
    forall rest | Runs(h, after, rest) ensures Runs(h, store, [a[0]] + rest) {
      assert ([a[0]] + rest)[1..] == rest;
    }
  }

  lemma {:induction false} TailKeys(h: Trace, a: seq<nat>, b: seq<nat>)
    requires KeysOf(h, a) !! KeysOf(h, b) && |a| > 0
    ensures KeysOf(h, a[1..]) !! KeysOf(h, b)
  {
    forall k | k in KeysOf(h, a[1..]) ensures k in KeysOf(h, a) {
      var i :| i in a[1..] && i < |h| && h[i].key == k;
      assert i in a;
    }
  }

  /** Orders over different keys do not disturb each other. */
  lemma {:induction false} MergeRuns(h: Trace, store: Contents, a: seq<nat>, b: seq<nat>)
    requires AllTaken(h, a) && AllTaken(h, b) && KeysOf(h, a) !! KeysOf(h, b)
    requires Runs(h, store, a) && Runs(h, store, b)
    ensures Runs(h, store, Merge(h, a, b))
    decreases |a| + |b|
  {
    hide Runs, KeysOf, Precedes;
    if |a| > 0 && |b| > 0 {
      TailTaken(h, a);
      TailTaken(h, b);
      if Precedes(h, a[0], b) {
        TailKeys(h, a, b);
        var after := RunsRest(h, store, a, b);
        MergeRuns(h, after, a[1..], b);
      } else {
        TailKeys(h, b, a);
        var after := RunsRest(h, store, b, a);
        MergeRuns(h, after, a, b[1..]);
      }
    }
  }

  lemma {:induction false} ScopeKeys(h: Trace, keys: set<string>, order: seq<nat>)
    requires forall i | i in order :: i in OfKeys(h, keys)
    ensures KeysOf(h, order) <= keys
  {
  }

  lemma {:induction false} MergeLinearizes(h: Trace, keys: set<string>, key: string, a: seq<nat>, b: seq<nat>)
    requires key !in keys && Linearizes(h, OfKeys(h, keys), a) && Linearizes(h, OfKey(h, key), b)
    ensures AllTaken(h, a) && AllTaken(h, b) && Linearizes(h, OfKeys(h, keys + {key}), Merge(h, a, b))
  {
    hide Timely, Runs, Distinct;
    assert OfKey(h, key) == OfKeys(h, {key});
    ScopeKeys(h, keys, a);
    ScopeKeys(h, {key}, b);
    MergeTimely(h, a, b);
    MergeDistinct(h, a, b);
    MergeRuns(h, map[], a, b);
    forall x: nat ensures x in Merge(h, a, b) <==> x in a || x in b { MergeHas(h, a, b, x); }
  }

  lemma {:induction false} KeysTogether(h: Trace, keys: set<string>) returns (order: seq<nat>)
    requires forall k | k in keys :: KeyLinearizable(h, k)
    ensures Linearizes(h, OfKeys(h, keys), order)
  {
    if keys == {} {
      order := [];
    } else {
      var key :| key in keys;
      var a := KeysTogether(h, keys - {key});
      assert KeyLinearizable(h, key);
      var b :| Linearizes(h, OfKey(h, key), b);
      MergeLinearizes(h, keys - {key}, key, a, b);
      assert keys - {key} + {key} == keys;
      order := Merge(h, a, b);
    }
  }

  // ---- and back ----

  ghost function OnlyKey(h: Trace, order: seq<nat>, key: string): seq<nat>
    decreases |order|
  {
    if |order| == 0 then []
    else (if order[0] < |h| && h[order[0]].key == key then [order[0]] else []) + OnlyKey(h, order[1..], key)
  }

  lemma {:induction false} OnlyKeyHas(h: Trace, order: seq<nat>, key: string, x: nat)
    ensures x in OnlyKey(h, order, key) <==> x in order && x < |h| && h[x].key == key
    decreases |order|
  {
    if |order| > 0 {
      OnlyKeyHas(h, order[1..], key, x);
      assert order == [order[0]] + order[1..];
    }
  }

  lemma {:induction false} OnlyKeyRuns(h: Trace, order: seq<nat>, key: string, s: Contents, t: Contents)
    requires Runs(h, s, order) && Lookup(s, key) == Lookup(t, key)
    ensures Runs(h, t, OnlyKey(h, order, key))
    decreases |order|
  {
    if |order| > 0 {
      var r, a := h[order[0]], EntryOf(h[order[0]]).value.action;
      var s' := Stored(s, r.key, After(a, Lookup(s, r.key)));
      var rest := OnlyKey(h, order[1..], key);
      if r.key == key {
        OnlyKeyRuns(h, order[1..], key, s', Stored(t, key, After(a, Lookup(t, key))));
        assert ([order[0]] + rest)[1..] == rest;
      } else {
        OnlyKeyRuns(h, order[1..], key, s', t);
        assert [] + rest == rest;
      }
    }
  }

  lemma {:induction false} OnlyKeyTimely(h: Trace, order: seq<nat>, key: string)
    requires AllTaken(h, order) && Timely(h, order) && Distinct(order)
    ensures AllTaken(h, OnlyKey(h, order, key)) && Timely(h, OnlyKey(h, order, key)) && Distinct(OnlyKey(h, order, key))
    decreases |order|
  {
    hide Timely, Precedes;
    if |order| > 0 {
      TailTimely(h, order);
      HeadApart(order);
      OnlyKeyTimely(h, order[1..], key);
      var i, rest := order[0], OnlyKey(h, order[1..], key);
      if h[i].key == key {
        OwnInterval(h, order);
        LeadsOnly(h, i, order, order[1..], key);
        ConsTimely(h, i, rest);
        OnlyKeyHas(h, order[1..], key, i);
        FirstDistinct(i, rest);
      } else {
        assert [] + rest == rest;
      }
    } else {
      assert Timely(h, []) by { NothingTimely(h); }
    }
  }

  lemma {:induction false} NothingTimely(h: Trace)
    ensures Timely(h, [])
  {
  }

  lemma {:induction false} LeadsOnly(h: Trace, i: nat, order: seq<nat>, rest: seq<nat>, key: string)
    requires AllTaken(h, order) && Taken(h, i) && Precedes(h, i, order) && forall x | x in rest :: x in order
    ensures AllTaken(h, OnlyKey(h, rest, key)) && Precedes(h, i, OnlyKey(h, rest, key))
  {
    forall x | x in OnlyKey(h, rest, key) ensures Taken(h, x) && x in order { OnlyKeyHas(h, rest, key, x); }
  }

  lemma {:induction false} Projects(h: Trace, key: string, order: seq<nat>)
    requires Linearizes(h, All(h), order)
    ensures Linearizes(h, OfKey(h, key), OnlyKey(h, order, key))
  {
    hide Timely, Runs, Distinct;
    OnlyKeyTimely(h, order, key);
    OnlyKeyRuns(h, order, key, map[], map[]);
    forall x: nat ensures x in OnlyKey(h, order, key) <==> x in order && x < |h| && h[x].key == key {
      OnlyKeyHas(h, order, key, x);
    }
  }

  /** A multi-key history is linearizable exactly when each key's part is. */
  lemma {:induction false} LinearizabilityIsLocal(h: Trace)
    ensures Linearizable(h) <==> forall k | k in KeysIn(h) :: KeyLinearizable(h, k)
  {
    hide Linearizes;
    if Linearizable(h) {
      var order :| Linearizes(h, All(h), order);
      forall k | k in KeysIn(h) ensures KeyLinearizable(h, k) { Projects(h, k, order); }
    }
    if forall k | k in KeysIn(h) :: KeyLinearizable(h, k) {
      var order := KeysTogether(h, KeysIn(h));
      assert Linearizes(h, All(h), order);
    }
  }

  function Elements(s: seq<nat>): set<nat> {
    set x | x in s
  }

  // ---- one key: from records to the search and back ----

  /** ops[i] is the entry of record ids[i]; failed writes are left out. */
  ghost predicate Lists(h: Trace, refs: set<nat>, ops: seq<Entry>, ids: seq<nat>) {
    && |ids| == |ops| && Distinct(ids)
    && (forall i | 0 <= i < |ids| :: ids[i] in refs && Taken(h, ids[i]) && ops[i] == EntryOf(h[ids[i]]).value)
    && (forall x | x in refs && Taken(h, x) :: x in ids)
  }

  /** The same order, by position in the search and by position in the history. */
  ghost predicate Same(ids: seq<nat>, o: seq<nat>, l: seq<nat>) {
    |o| == |l| && forall p | 0 <= p < |o| :: o[p] < |ids| && l[p] == ids[o[p]]
  }

  lemma {:induction false} SameRuns(h: Trace, key: string, refs: set<nat>, ops: seq<Entry>, ids: seq<nat>,
      o: seq<nat>, l: seq<nat>, store: Contents)
    requires Lists(h, refs, ops, ids) && refs <= OfKey(h, key) && Same(ids, o, l)
    ensures Legal(ops, Lookup(store, key), o) <==> Runs(h, store, l)
    decreases |o|
  {
    if |o| > 0 {
      assert l[0] == ids[o[0]];
      var a := ops[o[0]].action;
      var v := After(a, Lookup(store, key));
      forall p | 0 <= p < |o[1..]| ensures o[1..][p] < |ids| && l[1..][p] == ids[o[1..][p]] {
        assert o[1..][p] == o[p + 1] && l[1..][p] == l[p + 1];
      }
      SameRuns(h, key, refs, ops, ids, o[1..], l[1..], Stored(store, key, v));
    }
  }

  lemma {:induction false} SameTimes(h: Trace, refs: set<nat>, ops: seq<Entry>, ids: seq<nat>, o: seq<nat>, l: seq<nat>)
    requires Lists(h, refs, ops, ids) && Same(ids, o, l)
    ensures InRealTime(ops, o) <==> Timely(h, l)
    ensures Distinct(o) <==> Distinct(l)
  {
    if InRealTime(ops, o) {
      forall p, q | 0 <= p <= q < |l| && Taken(h, l[p]) && Taken(h, l[q])
        ensures EntryOf(h[l[p]]).value.inv <= EntryOf(h[l[q]]).value.ret
      {
        assert ops[o[p]].inv <= ops[o[q]].ret;
      }
    }
    if Timely(h, l) {
      forall p, q | 0 <= p <= q < |o| && o[p] < |ops| && o[q] < |ops| ensures ops[o[p]].inv <= ops[o[q]].ret {
        assert Taken(h, l[p]) && Taken(h, l[q]);
      }
    }
    if Distinct(o) {
      forall p, q | 0 <= p < q < |l| ensures l[p] != l[q] { assert o[p] != o[q]; }
    }
    if Distinct(l) {
      forall p, q | 0 <= p < q < |o| ensures o[p] != o[q] { assert l[p] != l[q]; }
    }
  }

  lemma {:induction false} SameMembers(ids: seq<nat>, o: seq<nat>, l: seq<nat>, i: nat)
    requires Same(ids, o, l) && Distinct(ids) && i < |ids|
    ensures i in o <==> ids[i] in l
  {
    if i in o {
      var p :| 0 <= p < |o| && o[p] == i;
      assert l[p] == ids[i];
    }
    if ids[i] in l {
      var p :| 0 <= p < |l| && l[p] == ids[i];
      assert ids[o[p]] == ids[i];
    }
  }

  lemma {:induction false} SameCompletes(h: Trace, key: string, ops: seq<Entry>, ids: seq<nat>, o: seq<nat>,
      l: seq<nat>)
    requires Lists(h, OfKey(h, key), ops, ids) && Same(ids, o, l)
    ensures Completes(ops, {}, None, o) <==> Linearizes(h, OfKey(h, key), l)
  {
    hide Legal, InRealTime, Runs, Timely, Distinct;
    SameRuns(h, key, OfKey(h, key), ops, ids, o, l, map[]);
    SameTimes(h, OfKey(h, key), ops, ids, o, l);
    forall i: nat | i < |ids| ensures i in o <==> ids[i] in l { SameMembers(ids, o, l, i); }
    assert forall x | x in l :: x in OfKey(h, key) && Taken(h, x);
    if Linearizes(h, OfKey(h, key), l) {
      forall i | 0 <= i < |ops| && ops[i].required ensures i in o { assert ids[i] in l; }
    }
    if Completes(ops, {}, None, o) {
      forall x | x in OfKey(h, key) && Taken(h, x) && EntryOf(h[x]).value.required ensures x in l {
        var i :| 0 <= i < |ids| && ids[i] == x;
        assert i in o;
      }
    }
  }

  lemma {:induction false} ByRecord(ids: seq<nat>, o: seq<nat>) returns (l: seq<nat>)
    requires forall i | i in o :: i < |ids|
    ensures Same(ids, o, l)
  {
    if |o| == 0 {
      l := [];
    } else {
      var first := o[..|o| - 1];
      assert forall i | i in first :: i in o;
      var before := ByRecord(ids, first);
      assert o[|o| - 1] in o;
      l := before + [ids[o[|o| - 1]]];
      forall p | 0 <= p < |o| ensures o[p] < |ids| && l[p] == ids[o[p]] {
        if p < |o| - 1 { assert first[p] == o[p]; }
      }
    }
  }

  lemma {:induction false} ByPosition(ids: seq<nat>, l: seq<nat>) returns (o: seq<nat>)
    requires forall x | x in l :: x in ids
    ensures Same(ids, o, l)
  {
    if |l| == 0 {
      o := [];
    } else {
      var before := ByPosition(ids, l[..|l| - 1]);
      var x := l[|l| - 1];
      assert x in l;
      var i :| 0 <= i < |ids| && ids[i] == x;
      o := before + [i];
      forall p | 0 <= p < |o| ensures o[p] < |ids| && l[p] == ids[o[p]] {
        if p < |o| - 1 { assert l[..|l| - 1][p] == l[p]; }
      }
    }
  }

  lemma {:induction false} SearchDecidesKey(h: Trace, key: string, ops: seq<Entry>, ids: seq<nat>)
    requires Lists(h, OfKey(h, key), ops, ids)
    ensures Completable(ops, {}, None) <==> KeyLinearizable(h, key)
  {
    hide Legal, InRealTime, Runs, Timely, Distinct;
    if Completable(ops, {}, None) {
      var o :| Completes(ops, {}, None, o);
      var l := ByRecord(ids, o);
      SameCompletes(h, key, ops, ids, o, l);
    }
    if KeyLinearizable(h, key) {
      var l :| Linearizes(h, OfKey(h, key), l);
      var o := ByPosition(ids, l);
      SameCompletes(h, key, ops, ids, o, l);
    }
  }

  // ---- the checker ----

  /** Whether i is one of the first n and required. */
  ghost predicate MaskOfFirst(ops: seq<Entry>, n: nat, mask: nat) {
    n <= |ops| && mask < Pow2(n) && forall i: nat :: Bit(mask, i) <==> i < n && ops[i].required
  }

  lemma {:induction false} MaskNext(ops: seq<Entry>, n: nat, mask: nat)
    requires n < |ops| && MaskOfFirst(ops, n, mask)
    ensures MaskOfFirst(ops, n + 1, if ops[n].required then mask + Pow2(n) else mask)
  {
    BitsBelow(mask, n, n);
    WithBitAdds(mask, n);
    forall i: nat ensures Bit(WithBit(mask, n), i) <==> Bit(mask, i) || i == n { WithBitAt(mask, n, i); }
  }

  method RequiredBits(ops: seq<Entry>) returns (mask: nat)
    ensures MaskOfFirst(ops, |ops|, mask)
  {
    mask := 0;
    forall i: nat ensures !Bit(0, i) { ZeroBits(i); }
    var i := 0;
    while i < |ops|
      invariant 0 <= i <= |ops| && MaskOfFirst(ops, i, mask)
    {
      MaskNext(ops, i, mask);
      if ops[i].required { mask := mask + Pow2(i); }
      i := i + 1;
    }
  }

  datatype Verdict = Valid | Invalid | TooLarge

  lemma {:induction false} ListsMore(h: Trace, refs: seq<nat>, i: nat, ops: seq<Entry>, ids: seq<nat>)
    requires i < |refs| && Distinct(refs) && Taken(h, refs[i])
    requires Lists(h, Elements(refs[..i]), ops, ids)
    ensures Lists(h, Elements(refs[..i + 1]), ops + [EntryOf(h[refs[i]]).value], ids + [refs[i]])
  {
    var x := refs[i];
    assert x !in refs[..i];
    assert refs[..i + 1] == refs[..i] + [x];
    assert forall k | 0 <= k < |ids| :: ids[k] in refs[..i];
  }

  lemma {:induction false} ListsSkip(h: Trace, refs: seq<nat>, i: nat, ops: seq<Entry>, ids: seq<nat>)
    requires i < |refs| && !Taken(h, refs[i]) && Lists(h, Elements(refs[..i]), ops, ids)
    ensures Lists(h, Elements(refs[..i + 1]), ops, ids)
  {
    assert refs[..i + 1] == refs[..i] + [refs[i]];
  }

  lemma {:induction false} ListsOpen(h: Trace, refs: set<nat>, ops: seq<Entry>, ids: seq<nat>)
    requires Lists(h, refs, ops, ids)
    ensures OptionalOpen(ops)
  {
  }

  /** One key: Valid exactly when its part of the history is linearizable,
      unless it has more operations than the mask has room for. */
  method CheckKey(h: Trace, key: string, refs: seq<nat>) returns (v: Verdict)
    requires Distinct(refs) && Elements(refs) == OfKey(h, key)
    ensures v.Valid? ==> KeyLinearizable(h, key)
    ensures v.Invalid? ==> !KeyLinearizable(h, key)
    ensures v.TooLarge? <==> |set x | x in OfKey(h, key) && Taken(h, x)| > 63
  {
    hide KeyLinearizable, Completable, Lists, Taken, EntryOf, DeadEnds, Done;
    var ops: seq<Entry> := [];
    ghost var ids: seq<nat> := [];
    NoneListed(h, refs);
    var i := 0;
    while i < |refs|
      invariant 0 <= i <= |refs|
      invariant Lists(h, Elements(refs[..i]), ops, ids)
    {
      RefsWithin(h, key, refs, i);
      var e := EntryOf(h[refs[i]]);
      TakenIs(h, refs[i]);
      if e.Some? {
        ListsMore(h, refs, i, ops, ids);
        ops := ops + [e.value];
        ids := ids + [refs[i]];
      } else {
        ListsSkip(h, refs, i, ops, ids);
      }
      i := i + 1;
    }
    assert refs[..i] == refs;
    ListsCount(h, OfKey(h, key), ops, ids);
    if |ops| > 63 { return TooLarge; }
    var required := RequiredBits(ops);
    ListsOpen(h, OfKey(h, key), ops, ids);
    NothingDone(ops);
    var found, memo := Search(ops, required, {}, 0, None);
    SearchDecidesKey(h, key, ops, ids);
    v := if found then Valid else Invalid;
  }

  lemma {:induction false} NoneListed(h: Trace, refs: seq<nat>)
    ensures Lists(h, Elements(refs[..0]), [], [])
  {
  }

  lemma {:induction false} RefsWithin(h: Trace, key: string, refs: seq<nat>, i: nat)
    requires Elements(refs) == OfKey(h, key) && i < |refs|
    ensures refs[i] < |h|
  {
    assert refs[i] in refs;
    assert refs[i] in OfKey(h, key);
  }

  lemma {:induction false} TakenIs(h: Trace, i: nat)
    requires i < |h|
    ensures Taken(h, i) <==> EntryOf(h[i]).Some?
  {
  }

  lemma {:induction false} ListsCount(h: Trace, refs: set<nat>, ops: seq<Entry>, ids: seq<nat>)
    requires Lists(h, refs, ops, ids)
    ensures |set x | x in refs && Taken(h, x)| == |ops|
  {
    assert (set x | x in refs && Taken(h, x)) == Elements(ids);
    DistinctCount(ids);
  }

  lemma {:induction false} DistinctCount(ids: seq<nat>)
    requires Distinct(ids)
    ensures |Elements(ids)| == |ids|
  {
    if |ids| > 0 {
      var last, before := ids[|ids| - 1], ids[..|ids| - 1];
      DistinctCount(before);
      assert last !in before;
      assert Elements(ids) == Elements(before) + {last};
    }
  }

  lemma {:induction false} NothingDone(ops: seq<Entry>)
    ensures Done(ops, 0) == {} && DeadEnds(ops, {}, 0)
  {
    forall i | 0 <= i < |ops| ensures !Bit(0, i) { ZeroBits(i); }
  }

  datatype Report = Fine | Violates(key: string) | Oversized(key: string)

  /** g lists the positions of key k among the first n records. */
  ghost predicate GroupOf(h: Trace, n: nat, k: string, g: seq<nat>) {
    && n <= |h| && Distinct(g)
    && forall x: nat :: x in g <==> x < n && h[x].key == k
  }

  ghost predicate Grouped(h: Trace, n: nat, groups: map<string, seq<nat>>) {
    && n <= |h|
    && groups.Keys == KeysIn(h[..n])
    && forall k | k in groups :: GroupOf(h, n, k, groups[k])
  }

  lemma {:induction false} GroupGrows(h: Trace, n: nat, g: seq<nat>)
    requires n < |h| && GroupOf(h, n, h[n].key, g)
    ensures GroupOf(h, n + 1, h[n].key, g + [n])
  {
  }

  lemma {:induction false} GroupStays(h: Trace, n: nat, k: string, g: seq<nat>)
    requires n < |h| && GroupOf(h, n, k, g) && k != h[n].key
    ensures GroupOf(h, n + 1, k, g)
  {
  }

  lemma {:induction false} NewGroup(h: Trace, n: nat, k: string)
    requires n <= |h| && k !in KeysIn(h[..n])
    ensures GroupOf(h, n, k, [])
  {
    forall x: nat | x < n ensures h[x].key != k { assert h[..n][x] in h[..n]; }
  }

  lemma {:induction false} KeysNext(h: Trace, n: nat)
    requires n < |h|
    ensures KeysIn(h[..n + 1]) == KeysIn(h[..n]) + {h[n].key}
  {
    assert h[..n + 1] == h[..n] + [h[n]];
  }

  lemma {:induction false} GroupNext(h: Trace, n: nat, groups: map<string, seq<nat>>)
    requires n < |h| && Grouped(h, n, groups)
    ensures var k := h[n].key;
      Grouped(h, n + 1, groups[k := (if k in groups then groups[k] else []) + [n]])
  {
    hide GroupOf, KeysIn;
    var key := h[n].key;
    var g := if key in groups then groups[key] else [];
    var groups' := groups[key := g + [n]];
    KeysNext(h, n);
    if key !in groups { NewGroup(h, n, key); }
    GroupGrows(h, n, g);
    forall k | k in groups' ensures GroupOf(h, n + 1, k, groups'[k]) {
      if k != key { GroupStays(h, n, k, groups[k]); }
    }
  }

  method GroupByKey(h: Trace) returns (groups: map<string, seq<nat>>)
    ensures Grouped(h, |h|, groups)
  {
    hide Grouped;
    groups := map[];
    NoGroups(h);
    var i := 0;
    while i < |h|
      invariant 0 <= i <= |h| && Grouped(h, i, groups)
    {
      GroupNext(h, i, groups);
      var k := h[i].key;
      groups := groups[k := (if k in groups then groups[k] else []) + [i]];
      i := i + 1;
    }
  }

  lemma {:induction false} NoGroups(h: Trace)
    ensures Grouped(h, 0, map[])
  {
  }

  /** Strings in the order of their characters. */
  predicate Sooner(a: string, b: string) {
    |b| > 0 && (|a| == 0 || a[0] < b[0] || (a[0] == b[0] && Sooner(a[1..], b[1..])))
  }

  lemma {:induction false} SoonerTotal(a: string, b: string)
    ensures Sooner(a, b) || Sooner(b, a) || a == b
  {
    if |a| > 0 && |b| > 0 && a[0] == b[0] {
      SoonerTotal(a[1..], b[1..]);
      assert a == [a[0]] + a[1..] && b == [b[0]] + b[1..];
    }
  }

  lemma {:induction false} SoonerTransitive(a: string, b: string, c: string)
    requires Sooner(a, b) && Sooner(b, c)
    ensures Sooner(a, c)
  {
    if |a| > 0 && a[0] == b[0] == c[0] { SoonerTransitive(a[1..], b[1..], c[1..]); }
  }

  /** The key that sorts first. */
  method FirstKey(keys: set<string>) returns (first: string)
    requires keys != {}
    ensures first in keys && forall k | k in keys :: k == first || Sooner(first, k)
  {
    first :| first in keys;
    var left := keys - {first};
    while left != {}
      invariant first in keys && left <= keys
      invariant forall k | k in keys - left :: k == first || Sooner(first, k)
      decreases |left|
    {
      var key :| key in left;
      SoonerTotal(first, key);
      if Sooner(key, first) {
        forall k | k in keys - left ensures Sooner(key, k) {
          if k != first { SoonerTransitive(key, first, k); }
        }
        first := key;
      }
      left := left - {key};
    }
  }

  /** Every key that sorts before this one checks out. */
  ghost predicate FineBefore(h: Trace, key: string) {
    forall k | k in KeysIn(h) && Sooner(k, key) :: KeyLinearizable(h, k)
  }

  /** The whole history: Fine exactly when one order of all its operations is
      a linearization, as long as no key outgrows the mask; otherwise the
      first key, as they sort, that does not check out. */
  method CheckLinearizable(h: Trace) returns (r: Report)
    ensures r.Fine? ==> Linearizable(h)
    ensures r.Violates? ==> !Linearizable(h) && !KeyLinearizable(h, r.key)
    ensures r.Oversized? ==> |set x | x in OfKey(h, r.key) && Taken(h, x)| > 63
    ensures !r.Fine? ==> r.key in KeysIn(h) && FineBefore(h, r.key)
  {
    hide Linearizable, KeyLinearizable, Taken, Distinct, Sooner;
    LinearizabilityIsLocal(h);
    var groups := GroupByKey(h);
    assert h[..|h|] == h;
    var left := groups.Keys;
    while left != {}
      invariant left <= groups.Keys == KeysIn(h)
      invariant forall k | k in groups.Keys - left :: KeyLinearizable(h, k)
      decreases |left|
    {
      var key := FirstKey(left);
      assert Elements(groups[key]) == OfKey(h, key);
      FirstLeft(left, key);
      var v := CheckKey(h, key, groups[key]);
      if v.TooLarge? { return Oversized(key); }
      if v.Invalid? { return Violates(key); }
      left := left - {key};
    }
    r := Fine;
  }

  lemma {:induction false} SoonerStrict(a: string, b: string)
    requires Sooner(a, b)
    ensures !Sooner(b, a)
  {
    if |a| > 0 && a[0] == b[0] { SoonerStrict(a[1..], b[1..]); }
  }

  /** What sorts before the first key left has been dealt with. */
  lemma {:induction false} FirstLeft(left: set<string>, key: string)
    requires key in left && forall k | k in left :: k == key || Sooner(key, k)
    ensures forall k | k in left :: !Sooner(k, key)
  {
    hide Sooner;
    forall k | k in left ensures !Sooner(k, key) {
      if k == key { SoonerIrreflexive(key); } else { SoonerStrict(key, k); }
    }
  }

  lemma {:induction false} SoonerIrreflexive(a: string)
    ensures !Sooner(a, a)
  {
    if |a| > 0 { SoonerIrreflexive(a[1..]); }
  }
}
