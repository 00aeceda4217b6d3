module LogOrder {
  // Operations placed in a log linearize: each write at the entry that took
  // effect for it, each read behind the entries it saw, provided that placing
  // them so never puts one before another that had returned first.

  import opened Types
  import opened Lin
  import opened Locality
  import Store

  /** The recorded operation is this command. */
  predicate Writes(r: Recorded, command: Command) {
    match command
    case Put(key, value, _) => r.key == key && r.op.Write? && r.op.kind == Lin.Put(value)
    case Delete(key, _) => r.key == key && r.op.Write? && r.op.kind == Lin.Delete
    case Noop => false
    case ConfigChange(_) => false
  }

  ghost predicate PlacedAt(h: Trace, log: Log, rank: seq<Option<nat>>, k: nat)
    requires k < |h| == |rank|
  {
    match h[k].op
    case Write(_, outcome) =>
      && (outcome.Happened? ==> rank[k].Some?)
      && (rank[k].Some? ==>
            && !outcome.Failed? && Effective(log, rank[k].value)
            && Writes(h[k], log[rank[k].value - 1].command))
    case Read(result) =>
      rank[k].Some? && rank[k].value <= |log|
      && result == Lookup(Store.Fold(log[..rank[k].value]).entries, h[k].key)
  }

  ghost predicate WriteAt(h: Trace, rank: seq<Option<nat>>, k: nat, i: LogIndex) {
    k < |h| == |rank| && h[k].op.Write? && rank[k] == Some(i)
  }

  /** The entry at this index changed the map. */
  predicate Effective(log: Log, i: LogIndex) {
    0 < i <= |log| && Store.EffectAt(log, i - 1)
  }

  /** Every operation has its place, and every entry that took effect its operation. */
  ghost predicate Placed(h: Trace, log: Log, rank: seq<Option<nat>>) {
    && |rank| == |h|
    && (forall k | 0 <= k < |h| :: PlacedAt(h, log, rank, k))
    && (forall j, k, i | WriteAt(h, rank, j, i) && WriteAt(h, rank, k, i) :: j == k)
    && (forall i | Effective(log, i) :: exists k :: WriteAt(h, rank, k, i))
  }

  predicate Ranked(h: Trace, rank: seq<Option<nat>>, k: nat) {
    k < |h| == |rank| && rank[k].Some? && Taken(h, k)
  }

  /** Log order; at one index the write first, then the reads as they were invoked. */
  predicate Before(h: Trace, rank: seq<Option<nat>>, j: nat, k: nat)
    requires Ranked(h, rank, j) && Ranked(h, rank, k)
  {
    || rank[j].value < rank[k].value
    || (rank[j] == rank[k] && (h[j].op.Write? || (h[k].op.Read? && Inv(h, j) <= Inv(h, k))))
  }

  ghost predicate Punctual(h: Trace, rank: seq<Option<nat>>) {
    forall j, k | Ranked(h, rank, j) && Ranked(h, rank, k) && Before(h, rank, j, k) :: Inv(h, j) <= Ret(h, k)
  }

  // ---- sorting ----

  ghost predicate AllRanked(h: Trace, rank: seq<Option<nat>>, s: set<nat>) {
    forall k | k in s :: Ranked(h, rank, k)
  }

  lemma {:induction false} BeforeTransitive(h: Trace, rank: seq<Option<nat>>, a: nat, b: nat, c: nat)
    requires Ranked(h, rank, a) && Ranked(h, rank, b) && Ranked(h, rank, c)
    requires Before(h, rank, a, b) && Before(h, rank, b, c)
    ensures Before(h, rank, a, c)
  {
  }

  lemma {:induction false} Least(h: Trace, rank: seq<Option<nat>>, s: set<nat>) returns (k: nat)
    requires s != {} && AllRanked(h, rank, s)
    ensures k in s && forall j | j in s :: Before(h, rank, k, j)
    decreases |s|
  {
    k :| k in s;
    if s != {k} {
      var rest := s - {k};
      var m := Least(h, rank, rest);
      if !Before(h, rank, k, m) { k := m; }
      forall j | j in s ensures Before(h, rank, k, j) {
        if j in rest { assert Before(h, rank, m, j); }
        if k != m && j != k { BeforeTransitive(h, rank, k, m, j); }
      }
    }
  }

  ghost predicate InOrder(h: Trace, rank: seq<Option<nat>>, order: seq<nat>) {
    forall p, q | 0 <= p <= q < |order| && Ranked(h, rank, order[p]) && Ranked(h, rank, order[q]) ::
      Before(h, rank, order[p], order[q])
  }

  lemma {:induction false} Arrange(h: Trace, rank: seq<Option<nat>>, s: set<nat>) returns (order: seq<nat>)
    requires AllRanked(h, rank, s)
    ensures Distinct(order) && (forall k: nat :: k in order <==> k in s) && InOrder(h, rank, order)
    decreases |s|
  {
    if s == {} {
      order := [];
    } else {
      var k := Least(h, rank, s);
      var rest := Arrange(h, rank, s - {k});
      order := [k] + rest;
      assert forall q | 0 < q < |order| :: order[q] == rest[q - 1] && order[q] in rest;
    }
  }

  // ---- running along the log ----

  /** Entries without effect leave the map alone. */
  lemma {:induction false} QuietStretch(log: Log, i: nat, j: nat)
    requires i <= j <= |log| && forall k | Effective(log, k) && i < k :: j < k
    ensures Store.Fold(log[..j]).entries == Store.Fold(log[..i]).entries
    decreases j
  {
    if i < j {
      QuietStretch(log, i, j - 1);
      Store.FoldStep(log, j - 1);
      assert Effective(log, j) ==> j < j;
    }
  }

  /** The order starts at log index i: nothing in it belongs before, and every
      effect after i is in it. */
  ghost predicate Resumes(h: Trace, log: Log, rank: seq<Option<nat>>, order: seq<nat>, i: nat) {
    && i <= |log|
    && (forall k | k in order ::
          Ranked(h, rank, k) && (if h[k].op.Write? then i < rank[k].value else i <= rank[k].value))
    && (forall k, j | i < j && WriteAt(h, rank, k, j) :: k in order)
  }

  /** No effect lies between where the order starts and its first operation. */
  lemma {:induction false} EffectsWait(h: Trace, log: Log, rank: seq<Option<nat>>,
      order: seq<nat>, i: nat, k: LogIndex)
    requires Placed(h, log, rank) && Resumes(h, log, rank, order, i) && |order| > 0 && InOrder(h, rank, order)
    requires Effective(log, k) && i < k
    ensures var r := rank[order[0]].value; if h[order[0]].op.Write? then r <= k else r < k
  {
    hide PlacedAt, Effective;
    assert order[0] in order;
    var w :| WriteAt(h, rank, w, k);
    assert w in order;
    var q :| 0 <= q < |order| && order[q] == w;
    assert Before(h, rank, order[0], order[q]);
  }

  lemma {:induction false} QuietBefore(h: Trace, log: Log, rank: seq<Option<nat>>,
      order: seq<nat>, i: nat, j: nat)
    requires Placed(h, log, rank) && Resumes(h, log, rank, order, i) && |order| > 0
    requires InOrder(h, rank, order) && i <= j <= |log|
    requires var r := rank[order[0]].value; if h[order[0]].op.Write? then j < r else j <= r
    ensures Store.Fold(log[..j]).entries == Store.Fold(log[..i]).entries
  {
    hide Placed, Effective, InOrder;
    forall k | Effective(log, k) && i < k ensures j < k {
      EffectsWait(h, log, rank, order, i, k);
    }
    QuietStretch(log, i, j);
  }

  /** What the first operation of the rest does to the checker's store. */
  ghost predicate Carries(h: Trace, log: Log, k: nat, j: nat, store: Contents)
    requires Taken(h, k) && j <= |log|
  {
    var r, a := h[k], EntryOf(h[k]).value.action;
    && Feasible(a, Lookup(store, r.key))
    && Stored(store, r.key, After(a, Lookup(store, r.key))) == Store.Fold(log[..j]).entries
  }

  lemma {:induction false} WriteCarries(h: Trace, log: Log, k: nat, j: nat, store: Contents)
    requires Taken(h, k) && h[k].op.Write? && Effective(log, j) && Writes(h[k], log[j - 1].command)
    requires store == Store.Fold(log[..j - 1]).entries
    ensures Carries(h, log, k, j, store)
  {
    Store.FoldStep(log, j - 1);
    Overwrites(h[k], log[j - 1].command, store, Store.Fold(log[..j - 1]));
  }

  lemma {:induction false} ReadCarries(h: Trace, log: Log, k: nat, j: nat, store: Contents)
    requires k < |h| && h[k].op.Read? && j <= |log|
    requires h[k].op.result == Lookup(Store.Fold(log[..j]).entries, h[k].key)
    requires store == Store.Fold(log[..j]).entries
    ensures Carries(h, log, k, j, store)
  {
  }

  lemma {:induction false} HeadRuns(h: Trace, log: Log, rank: seq<Option<nat>>,
      order: seq<nat>, i: nat, store: Contents)
    requires Placed(h, log, rank) && Resumes(h, log, rank, order, i) && |order| > 0 && InOrder(h, rank, order)
    requires store == Store.Fold(log[..i]).entries
    ensures Ranked(h, rank, order[0]) && rank[order[0]].value <= |log|
    ensures Carries(h, log, order[0], rank[order[0]].value, store)
  {
    hide Store.Fold, Store.EffectAt, Carries, InOrder, Lookup, Writes;
    var k := order[0];
    assert k in order && PlacedAt(h, log, rank, k);
    var j := rank[k].value;
    if h[k].op.Write? {
      QuietBefore(h, log, rank, order, i, j - 1);
      WriteCarries(h, log, k, j, store);
    } else {
      QuietBefore(h, log, rank, order, i, j);
      ReadCarries(h, log, k, j, store);
    }
  }

  lemma {:induction false} Overwrites(r: Recorded, command: Command, store: Contents,
      s: Store.KvState)
    requires Writes(r, command) && Store.TakesEffect(s, command) && !r.op.outcome.Failed?
    requires store == s.entries
    ensures var a := EntryOf(r).value.action;
      Stored(store, r.key, After(a, Lookup(store, r.key))) == Store.Apply(s, command).entries
  {
  }

  lemma {:induction false} RestResumes(h: Trace, log: Log, rank: seq<Option<nat>>,
      order: seq<nat>, i: nat)
    requires Placed(h, log, rank) && Resumes(h, log, rank, order, i) && |order| > 0
    requires InOrder(h, rank, order) && Distinct(order) && Ranked(h, rank, order[0]) && rank[order[0]].value <= |log|
    ensures Resumes(h, log, rank, order[1..], rank[order[0]].value)
    ensures InOrder(h, rank, order[1..]) && Distinct(order[1..])
  {
    hide PlacedAt, Effective;
    var k, rest := order[0], order[1..];
    var j := rank[k].value;
    forall x | x in rest
      ensures Ranked(h, rank, x) && (if h[x].op.Write? then j < rank[x].value else j <= rank[x].value)
    {
      var q :| 0 <= q < |rest| && rest[q] == x;
      assert order[q + 1] == x && x in order && x != k;
      assert Before(h, rank, order[0], order[q + 1]);
      assert h[k].op.Write? ==> WriteAt(h, rank, k, j);
      assert h[x].op.Write? && rank[x] == rank[k] ==> WriteAt(h, rank, x, j);
    }
    forall x, i' | j < i' && WriteAt(h, rank, x, i') ensures x in rest {
      assert x in order && x != k;
    }
    forall p, q | 0 <= p <= q < |rest| && Ranked(h, rank, rest[p]) && Ranked(h, rank, rest[q])
      ensures Before(h, rank, rest[p], rest[q])
    {
      assert rest[p] == order[p + 1] && rest[q] == order[q + 1];
    }
  }

  lemma {:induction false} RunsAlong(h: Trace, log: Log, rank: seq<Option<nat>>,
      order: seq<nat>, i: nat, store: Contents)
    requires Placed(h, log, rank) && Resumes(h, log, rank, order, i)
    requires InOrder(h, rank, order) && Distinct(order)
    requires store == Store.Fold(log[..i]).entries
    ensures Runs(h, store, order)
    decreases |order|
  {
    hide Placed, Resumes, InOrder, Distinct;
    if |order| > 0 {
      HeadRuns(h, log, rank, order, i, store);
      RestResumes(h, log, rank, order, i);
      var r, a := h[order[0]], EntryOf(h[order[0]]).value.action;
      RunsAlong(h, log, rank, order[1..], rank[order[0]].value, Stored(store, r.key, After(a, Lookup(store, r.key))));
    }
  }

  /** Operations placed in a log, none of them before one that had returned
      when it was invoked, are linearizable. */
  lemma {:induction false} PlacedLinearizes(h: Trace, log: Log, rank: seq<Option<nat>>)
    requires Placed(h, log, rank) && Punctual(h, rank)
    ensures Linearizable(h)
  {
    hide Store.EffectAt;
    var s := set k | 0 <= k < |h| && Ranked(h, rank, k);
    var order := Arrange(h, rank, s);
    forall k, j | 0 < j && WriteAt(h, rank, k, j) ensures k in order {
      assert PlacedAt(h, log, rank, k);
    }
    forall k | k in order ensures Ranked(h, rank, k) && (h[k].op.Write? ==> 0 < rank[k].value) {
      assert PlacedAt(h, log, rank, k);
    }
    assert Resumes(h, log, rank, order, 0);
    assert Store.Fold(log[..0]).entries == map[];
    RunsAlong(h, log, rank, order, 0, map[]);
    Included(h, log, rank, order);
    assert Linearizes(h, All(h), order);
  }

  lemma {:induction false} Included(h: Trace, log: Log, rank: seq<Option<nat>>, order: seq<nat>)
    requires Placed(h, log, rank) && Punctual(h, rank) && InOrder(h, rank, order)
    requires forall k: nat :: k in order <==> Ranked(h, rank, k)
    ensures forall k | k in order :: k in All(h) && Taken(h, k)
    ensures forall k | k in All(h) && Taken(h, k) && EntryOf(h[k]).value.required :: k in order
    ensures Timely(h, order)
  {
    forall k | k in order ensures k in All(h) {
      assert h[k] in h && h[k].key in KeysIn(h);
    }
    forall k | k in All(h) && Taken(h, k) && EntryOf(h[k]).value.required ensures k in order {
      assert PlacedAt(h, log, rank, k);
    }
    forall p, q | 0 <= p <= q < |order| && Taken(h, order[p]) && Taken(h, order[q])
      ensures EntryOf(h[order[p]]).value.inv <= EntryOf(h[order[q]]).value.ret
    {
      assert order[p] in order && order[q] in order;
      assert Before(h, rank, order[p], order[q]);
      assert Inv(h, order[p]) <= Ret(h, order[q]);
    }
  }
}
