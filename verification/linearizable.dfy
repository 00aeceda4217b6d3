module Linearization {
  // The system is linearizable: whatever the clients of a run recorded of their
  // writes and reads, the committed log is an order that explains it.

  import opened Types
  import opened Quorum
  import opened Storage
  import opened Rpc
  import opened Node
  import opened NodeInvariant
  import opened History
  import opened Completeness
  import opened Growth
  import opened Cluster
  import opened Invariant
  import opened Steps
  import opened Safety
  import opened Clients
  import opened LogOrder
  import Lin
  import Locality
  import Store

  // ---- the committed log of a run ----

  ghost predicate TopCert(h: History, e: Cert) {
    e in h.certs && CertOk(h, e) && forall e2 | e2 in h.certs :: e2.index <= e.index
  }

  /** The longest log ever committed up to this state, on whatever node. */
  ghost predicate CommittedLog(c: Cluster, log: Log) {
    || (c.hist.certs == {} && log == [])
    || exists e :: TopCert(c.hist, e) && log == Promise(c.hist, e)
  }

  lemma {:induction false} TopCovers(c: Cluster, log: Log) returns (t: Term)
    requires CommittedLog(c, log)
    ensures Committed(c.hist, t, log, |log|)
  {
    t := 0;
    if log != [] {
      var e :| TopCert(c.hist, e) && log == Promise(c.hist, e);
      t := e.term;
      assert Covers(c.hist, e, t, log, |log|);
    }
  }

  /** What was committed at an earlier point is a prefix of it. */
  lemma {:induction false} InCommittedLog(c0: Cluster, c: Cluster, log: Log, t: Term, a: Log, k: LogIndex)
    requires Later(c0, c) && WellFormed(c.hist) && CommittedLog(c, log) && Committed(c0.hist, t, a, k)
    ensures k <= |a| && k <= |log| && a[..k] == log[..k]
  {
    if k > 0 {
      var e :| Covers(c0.hist, e, t, a, k);
      CertGrows(c0.hist, c.hist, e);
      assert e in c.hist.certs && Covers(c.hist, e, t, a, k);
      var u := TopCovers(c, log);
      assert k <= |log|;
      AppliedAgree(c.hist, t, a, k, u, log, |log|, k);
    }
  }

  /** A node's applied state, at any point, is a state of the committed log. */
  lemma {:induction false} AppliedInLog(c0: Cluster, c: Cluster, log: Log, x: NodeId)
    requires Inv(c0) && Inv(c) && Later(c0, c) && CommittedLog(c, log) && x in c0.nodes
    ensures var n := c0.nodes[x];
      n.lastApplied <= |n.full| && n.lastApplied <= |log| && n.full[..n.lastApplied] == log[..n.lastApplied]
  {
    hide Inv, Later, CommittedLog, Committed;
    NodeCommitted(c0, x);
    HistoryWellFormed(c);
    InCommittedLog(c0, c, log, c0.nodes[x].term, c0.nodes[x].full, c0.nodes[x].commitIndex);
  }

  // ---- what clients record ----

  /** What a recorded operation was: a command with the places its attempts
      were given, or a look at a node's state at one point of the run. */
  datatype Deed =
    | Wrote(command: Command, slots: set<(Term, LogIndex)>)
    | Saw(node: NodeId, at: nat)

  /** A run, the time of each of its states, the clients' records, what they
      stand for, and the run's committed log. */
  datatype Story = Story(run: seq<Cluster>, clock: seq<Lin.Time>, trace: Locality.Trace, deeds: seq<Deed>, log: Log)

  ghost predicate IsClock(run: seq<Cluster>, clock: seq<Lin.Time>) {
    |clock| == |run| && forall a, b | 0 <= a <= b < |clock| :: clock[a] <= clock[b]
  }

  ghost predicate ToldAt(run: seq<Cluster>, e: nat, x: NodeId, t: Term, i: LogIndex, at: Term) {
    e < |run| && x in run[e].nodes && Resolved(t, i, true, at) in run[e].nodes[x].answers
  }

  /** The read was registered at step s and, granted, could be answered in state e. */
  ghost predicate ReadAt(run: seq<Cluster>, s: nat, e: nat, id: NodeId, y: NodeId, applied: LogIndex) {
    && s < e < |run| && id in run[s].nodes && run[s].nodes[id].role.Leader? && run[s + 1] == Step(run[s], Read(id))
    && y in run[e].nodes && applied <= run[e].nodes[y].lastApplied
    && ReadGranted(run[s].nodes[id].term, run[s].nodes[id].role.beat + 1, applied) in run[e].nodes[y].answers
  }

  ghost predicate TriedSince(w: Story, command: Command, t: Term, i: LogIndex, since: Lin.Time) {
    exists s: nat :: TriedAt(w.run, s, command, t, i) && s < |w.clock| && since <= w.clock[s]
  }

  ghost predicate ToldBy(w: Story, slots: set<(Term, LogIndex)>, until: Lin.Time) {
    exists e: nat, x: NodeId, t: Term, i: LogIndex, at: Term ::
      ToldAt(w.run, e, x, t, i, at) && (t, i) in slots && e < |w.clock| && w.clock[e] <= until
  }

  ghost predicate Owns(w: Story, k: nat, t: Term, i: LogIndex) {
    k < |w.deeds| && w.deeds[k].Wrote? && (t, i) in w.deeds[k].slots
  }

  /** A write was proposed, each time as the recorded command and not before
      its invocation; if it returned, one of its attempts had been reported
      committed by then; more than one attempt needs a session. */
  ghost predicate WroteOk(w: Story, k: nat)
    requires k < |w.deeds| == |w.trace| && w.deeds[k].Wrote?
  {
    var r, d := w.trace[k], w.deeds[k];
    && Writes(r, d.command)
    && (r.op.outcome.Failed? ==> d.slots == {})
    && (forall t, i | (t, i) in d.slots :: TriedSince(w, d.command, t, i, r.invoked))
    && (r.op.outcome.Happened? ==> ToldBy(w, d.slots, r.returned))
    && (d.command.session.None? ==> forall t, i, u, j | (t, i) in d.slots && (u, j) in d.slots :: t == u && i == j)
  }

  /** A read was registered no earlier than it was invoked, and returned what
      the node's state held at a point no later than it returned. */
  ghost predicate SawOk(w: Story, k: nat)
    requires k < |w.deeds| == |w.trace| && w.deeds[k].Saw?
  {
    var r, y, e := w.trace[k], w.deeds[k].node, w.deeds[k].at;
    && r.op.Read? && e < |w.run| && e < |w.clock| && y in w.run[e].nodes && w.clock[e] <= r.returned
    && r.op.result == Locality.Lookup(w.run[e].nodes[y].kv.entries, r.key)
    && exists s: nat, id: NodeId, applied: LogIndex ::
      ReadAt(w.run, s, e, id, y, applied) && s < |w.clock| && r.invoked <= w.clock[s]
  }

  ghost predicate DeedOk(w: Story, k: nat)
    requires k < |w.deeds| == |w.trace|
  {
    if w.deeds[k].Wrote? then WroteOk(w, k) else SawOk(w, k)
  }

  ghost predicate SameToken(w: Story, j: nat, k: nat) {
    && j < |w.deeds| && k < |w.deeds| && w.deeds[j].Wrote? && w.deeds[k].Wrote?
    && Store.IsWrite(w.deeds[j].command) && Store.IsWrite(w.deeds[k].command)
    && w.deeds[j].command.session.Some? && w.deeds[j].command.session == w.deeds[k].command.session
  }

  /** The records are what happened: each is true, every write proposed in the
      run belongs to exactly one, and no two share a session token. */
  ghost predicate Explains(w: Story) {
    && |w.deeds| == |w.trace| && IsClock(w.run, w.clock)
    && (forall k | 0 <= k < |w.deeds| :: DeedOk(w, k))
    && (forall s, command, t, i | TriedAt(w.run, s, command, t, i) && Store.IsWrite(command) ::
          exists k :: Owns(w, k, t, i))
    && (forall j, k, t, i | Owns(w, j, t, i) && Owns(w, k, t, i) :: j == k)
    && (forall j, k | SameToken(w, j, k) :: j == k)
  }

  /** Every client keeps within its dedup window. */
  ghost predicate WithinWindows(log: Log) {
    forall k | 0 <= k < |log| :: Store.InWindowAt(log, k)
  }

  function Final(w: Story): Cluster
    requires |w.run| > 0
  {
    w.run[|w.run| - 1]
  }

  ghost predicate Genuine(w: Story) {
    && IsRun(w.run) && Inv(w.run[0]) && w.run[0].hist.reigns == map[]
    && Explains(w) && CommittedLog(Final(w), w.log) && WithinWindows(w.log)
  }

  // ---- along the run ----

  lemma {:induction false} RunLater(run: seq<Cluster>, i: nat, j: nat)
    requires IsRun(run) && Inv(run[0]) && i <= j < |run|
    ensures Inv(run[i]) && Inv(run[j]) && Later(run[i], run[j])
  {
    hide Inv, Later, Next;
    RunKeeps(run, i);
    var rest := run[i..];
    forall k | 0 < k < |rest| ensures Moves(rest, k) { assert Moves(run, i + k); }
    RunKeeps(rest, j - i);
  }

  lemma {:induction false} TriedEntry(w: Story, s: nat, command: Command, t: Term, i: LogIndex)
    requires Genuine(w) && TriedAt(w.run, s, command, t, i)
    ensures Inv(w.run[s]) && Later(w.run[s], Final(w)) && Inv(Final(w))
    ensures t in w.run[s].hist.reigns && |w.run[s].hist.reigns[t].log| < i
    ensures var h := Final(w).hist;
      t in h.reigns && 0 < i <= |h.reigns[t].log| && h.reigns[t].log[i - 1] == LogEntry(t, i, command)
  {
    hide Inv, Later, Explains, CommittedLog, WithinWindows, Tries, IsRun;
    RunLater(w.run, s, |w.run| - 1);
    RunLater(w.run, s + 1, |w.run| - 1);
    TriesFill(w.run[s], w.run[s + 1], command, t, i);
    SlotKept(w.run[s + 1], Final(w), t, i);
  }

  lemma {:induction false} LogSlot(c: Cluster, log: Log, i: LogIndex)
    requires WellFormed(c.hist) && CommittedLog(c, log) && 0 < i <= |log|
    ensures var e := log[i - 1];
      e.term in c.hist.reigns && i <= |c.hist.reigns[e.term].log| && c.hist.reigns[e.term].log[i - 1] == e
  {
    var e :| TopCert(c.hist, e) && log == Promise(c.hist, e);
    assert ReignOk(c.hist, e.term);
    SlotOf(c.hist, c.hist.reigns[e.term].log, i);
  }

  lemma {:induction false} FinalOk(w: Story)
    requires Genuine(w)
    ensures Inv(Final(w)) && WellFormed(Final(w).hist)
  {
    hide Inv, Later, Explains, CommittedLog, WithinWindows, Moves;
    RunLater(w.run, 0, |w.run| - 1);
    HistoryWellFormed(Final(w));
  }

  // ---- records and entries ----

  /** An attempt that made it into the committed log is the command there. */
  lemma {:induction false} SlotEntry(w: Story, k: nat, i: LogIndex)
    requires Genuine(w) && 0 < i <= |w.log| && Owns(w, k, w.log[i - 1].term, i)
    ensures w.log[i - 1].command == w.deeds[k].command && Store.IsWrite(w.log[i - 1].command)
  {
    hide Inv, Later, CommittedLog, WithinWindows, Moves, TriedAt, WellFormed, ToldBy, SawOk;
    var t := w.log[i - 1].term;
    assert DeedOk(w, k) && TriedSince(w, w.deeds[k].command, t, i, w.trace[k].invoked);
    var s: nat :| TriedAt(w.run, s, w.deeds[k].command, t, i);
    TriedEntry(w, s, w.deeds[k].command, t, i);
    FinalOk(w);
    LogSlot(Final(w), w.log, i);
  }

  /** Every write of the committed log is some record's. */
  lemma {:induction false} OwnerOf(w: Story, i: LogIndex) returns (k: nat)
    requires Genuine(w) && 0 < i <= |w.log| && Store.IsWrite(w.log[i - 1].command)
    ensures Owns(w, k, w.log[i - 1].term, i) && w.deeds[k].command == w.log[i - 1].command
  {
    hide Inv, Later, CommittedLog, WithinWindows, WellFormed, DeedOk, Owns;
    var t := w.log[i - 1].term;
    FinalOk(w);
    LogSlot(Final(w), w.log, i);
    var s := WritesWereProposed(w.run, |w.run| - 1, t, i);
    k :| Owns(w, k, t, i);
    SlotEntry(w, k, i);
  }

  /** A token belongs to one record: so does every entry that carries it. */
  lemma {:induction false} TokenOwner(w: Story, k: nat, i: LogIndex)
    requires Genuine(w) && k < |w.deeds| && w.deeds[k].Wrote? && Store.IsWrite(w.deeds[k].command)
    requires 0 < i <= |w.log| && Store.IsWrite(w.log[i - 1].command)
    requires w.deeds[k].command.session.Some? && w.log[i - 1].command.session == w.deeds[k].command.session
    ensures Owns(w, k, w.log[i - 1].term, i)
  {
    hide Inv, CommittedLog, WithinWindows, DeedOk, Store.IsWrite, TriedAt, IsRun;
    var j := OwnerOf(w, i);
    assert SameToken(w, j, k);
  }

  ghost predicate EffectiveFor(w: Story, k: nat, i: LogIndex) {
    Effective(w.log, i) && Owns(w, k, w.log[i - 1].term, i)
  }

  ghost predicate TokenAt(log: Log, n: nat, token: Session) {
    n < |log| && Store.IsWrite(log[n].command) && log[n].command.session == Some(token)
  }

  lemma {:induction false} AppliedCarried(log: Log, n: nat, token: Session) returns (m: nat)
    requires n <= |log| && token in Store.FoldUnbounded(log[..n]).applied
    ensures m < n && TokenAt(log, m, token)
  {
    assert log[..n][..n - 1] == log[..n - 1];
    if token in Store.FoldUnbounded(log[..n - 1]).applied {
      m := AppliedCarried(log, n - 1, token);
    } else {
      m := n - 1;
    }
  }

  /** The first entry of a token takes effect, while clients keep their windows. */
  lemma {:induction false} FirstTakesEffect(log: Log, n: nat, token: Session)
    requires WithinWindows(log) && TokenAt(log, n, token) && forall m | TokenAt(log, m, token) :: n <= m
    ensures Effective(log, n + 1)
  {
    hide Store.InWindowAt, Store.EffectAt;
    Store.WindowIsExact(log);
    if token in Store.FoldUnbounded(log[..n]).applied {
      var m := AppliedCarried(log, n, token);
    }
    assert Store.FreshAt(log, n);
    assert Store.EffectAt(log, n);
  }

  lemma {:induction false} FirstOf(log: Log, n: nat, token: Session) returns (first: nat)
    requires TokenAt(log, n, token)
    ensures first <= n && TokenAt(log, first, token) && forall m | TokenAt(log, m, token) :: first <= m
  {
    if m: nat :| m < n && TokenAt(log, m, token) {
      first := FirstOf(log, m, token);
    } else {
      first := n;
    }
  }

  /** A record with a committed attempt took effect, at or before that attempt. */
  lemma {:induction false} TookEffect(w: Story, k: nat, i: LogIndex) returns (first: LogIndex)
    requires Genuine(w) && 0 < i <= |w.log| && Owns(w, k, w.log[i - 1].term, i)
    ensures first <= i && EffectiveFor(w, k, first)
  {
    hide Inv, CommittedLog, Explains, IsRun, WithinWindows;
    SlotEntry(w, k, i);
    var command := w.deeds[k].command;
    first := i;
    if command.session.Some? {
      var token := command.session.value;
      assert TokenAt(w.log, i - 1, token);
      var n := FirstOf(w.log, i - 1, token);
      FirstTakesEffect(w.log, n, token);
      first := n + 1;
      TokenOwner(w, k, first);
    }
  }

  /** No record takes effect twice. */
  lemma {:induction false} OneEffect(w: Story, k: nat, i: LogIndex, j: LogIndex)
    requires Genuine(w) && EffectiveFor(w, k, i) && EffectiveFor(w, k, j)
    ensures i == j
  {
    hide Inv, CommittedLog, IsRun, WithinWindows, Store.EffectAt, TriedAt;
    SlotEntry(w, k, i);
    SlotEntry(w, k, j);
    assert DeedOk(w, k);
    if w.deeds[k].command.session.Some? {
      if i < j { Store.AtMostOnce(w.log, i - 1, j - 1); }
      if j < i { Store.AtMostOnce(w.log, j - 1, i - 1); }
    }
  }

  // ---- where each record belongs ----

  ghost function RankOf(w: Story, k: nat): Option<nat>
    requires k < |w.deeds|
  {
    match w.deeds[k]
    case Saw(y, e) => if e < |w.run| && y in w.run[e].nodes then Some(w.run[e].nodes[y].lastApplied) else None
    case Wrote(_, _) =>
      if exists i :: EffectiveFor(w, k, i) then
        var i :| EffectiveFor(w, k, i);
        Some(i)
      else None
  }

  ghost function Ranks(w: Story): (rank: seq<Option<nat>>)
    ensures |rank| == |w.deeds| && forall k | 0 <= k < |w.deeds| :: rank[k] == RankOf(w, k)
  {
    seq(|w.deeds|, k requires 0 <= k < |w.deeds| => RankOf(w, k))
  }

  lemma {:induction false} RankIs(w: Story, k: nat, i: LogIndex)
    requires Genuine(w) && EffectiveFor(w, k, i)
    ensures RankOf(w, k) == Some(i)
  {
    hide Genuine, Effective;
    var j := RankOf(w, k).value;
    OneEffect(w, k, i, j);
  }

  /** What a node showed at any point is the fold of the committed log there. */
  lemma {:induction false} SawPrefix(w: Story, k: nat)
    requires Genuine(w) && k < |w.deeds| && w.deeds[k].Saw?
    ensures var y, e := w.deeds[k].node, w.deeds[k].at;
      && e < |w.run| && y in w.run[e].nodes && w.run[e].nodes[y].lastApplied <= |w.log|
      && w.run[e].nodes[y].kv == Store.Fold(w.log[..w.run[e].nodes[y].lastApplied])
  {
    hide Inv, Later, CommittedLog, WithinWindows, Moves, TriedAt, WroteOk, ReadAt, Store.Fold;
    assert DeedOk(w, k);
    var y, e := w.deeds[k].node, w.deeds[k].at;
    RunLater(w.run, e, |w.run| - 1);
    AppliedInLog(w.run[e], Final(w), w.log, y);
    FoldedAt(w.run[e], y);
  }

  lemma {:induction false} FoldedAt(c: Cluster, x: NodeId)
    requires Inv(c) && x in c.nodes
    ensures c.nodes[x].lastApplied <= |c.nodes[x].full|
    ensures c.nodes[x].kv == Store.Fold(c.nodes[x].full[..c.nodes[x].lastApplied])
  {
    NodeGood(c, x);
  }

  /** An attempt reported committed is in the committed log, below a
      certificate that existed when it was reported. */
  lemma {:induction false} ToldSlot(w: Story, e: nat, x: NodeId, t: Term, i: LogIndex, at: Term) returns (cert: Cert)
    requires Genuine(w) && ToldAt(w.run, e, x, t, i, at)
    ensures 0 < i <= |w.log| && w.log[i - 1].term == t
    ensures cert in w.run[e].hist.certs && i <= cert.index
  {
    hide Inv, Later, CommittedLog, WithinWindows, Moves, Explains, WellFormed, Committed, Covers;
    RunLater(w.run, e, |w.run| - 1);
    cert := Told(w.run[e], x, t, i, at);
    FinalOk(w);
    CommittedBy(w.run[e].hist, cert);
    InCommittedLog(w.run[e], Final(w), w.log, cert.term, Promise(w.run[e].hist, cert), cert.index);
    assert w.log[..cert.index][i - 1] == Promise(w.run[e].hist, cert)[i - 1];
  }

  lemma {:induction false} SelfCovers(h: History, e: Cert)
    requires e in h.certs && CertOk(h, e)
    ensures Covers(h, e, e.term, Promise(h, e), e.index)
  {
  }

  lemma {:induction false} CommittedBy(h: History, e: Cert)
    requires e in h.certs && CertOk(h, e)
    ensures Committed(h, e.term, Promise(h, e), e.index)
  {
    SelfCovers(h, e);
  }

  // ---- real time ----

  /** By then the log had been committed that far. */
  ghost predicate Reached(c: Cluster, i: LogIndex) {
    i == 0 || exists cert :: cert in c.hist.certs && i <= cert.index
  }

  lemma {:induction false} WriteEnds(w: Story, k: nat) returns (e: nat)
    requires Genuine(w) && k < |w.deeds| && w.deeds[k].Wrote?
    requires w.trace[k].op.Write? && w.trace[k].op.outcome.Happened?
    ensures e < |w.run| == |w.clock| && w.clock[e] <= w.trace[k].returned
    ensures RankOf(w, k).Some? && Reached(w.run[e], RankOf(w, k).value)
  {
    hide Inv, CommittedLog, WithinWindows, Moves, TriedSince, SawOk, RankOf, EffectiveFor;
    assert DeedOk(w, k);
    var slots := w.deeds[k].slots;
    var x: NodeId, t: Term, i: LogIndex, at: Term;
    e, x, t, i, at :|
      ToldAt(w.run, e, x, t, i, at) && (t, i) in slots && e < |w.clock| && w.clock[e] <= w.trace[k].returned;
    var cert := ToldSlot(w, e, x, t, i, at);
    var first := TookEffect(w, k, i);
    RankIs(w, k, first);
  }

  lemma {:induction false} ReadEnds(w: Story, k: nat)
    requires Genuine(w) && k < |w.deeds| && w.deeds[k].Saw?
    ensures var e := w.deeds[k].at;
      && e < |w.run| == |w.clock| && w.clock[e] <= w.trace[k].returned
      && RankOf(w, k).Some? && Reached(w.run[e], RankOf(w, k).value)
  {
    hide Inv, Later, CommittedLog, WithinWindows, Moves, WroteOk, ReadAt, Committed;
    assert DeedOk(w, k);
    var y, e := w.deeds[k].node, w.deeds[k].at;
    RunLater(w.run, e, |w.run| - 1);
    NodeCommitted(w.run[e], y);
    CommittedReached(w.run[e], w.run[e].nodes[y].term, w.run[e].nodes[y].full, w.run[e].nodes[y].commitIndex);
  }

  lemma {:induction false} CommittedReached(c: Cluster, t: Term, log: Log, k: LogIndex)
    requires Committed(c.hist, t, log, k)
    ensures Reached(c, k)
  {
    if k > 0 {
      var e :| Covers(c.hist, e, t, log, k);
      assert e in c.hist.certs;
    }
  }

  /** Nothing had been committed that far. */
  ghost predicate Below(c: Cluster, i: LogIndex) {
    forall cert | cert in c.hist.certs :: cert.index < i
  }

  lemma {:induction false} WriteStarts(w: Story, k: nat, i: LogIndex) returns (s: nat)
    requires Genuine(w) && EffectiveFor(w, k, i)
    ensures s < |w.run| == |w.clock| && w.trace[k].invoked <= w.clock[s] && Below(w.run[s], i)
  {
    hide Inv, Later, WithinWindows, Moves, ToldBy, SawOk, Tries, WellFormed;
    var t := w.log[i - 1].term;
    assert DeedOk(w, k) && TriedSince(w, w.deeds[k].command, t, i, w.trace[k].invoked);
    s :| TriedAt(w.run, s, w.deeds[k].command, t, i) && s < |w.clock| && w.trace[k].invoked <= w.clock[s];
    TriedEntry(w, s, w.deeds[k].command, t, i);
    FinalOk(w);
    var top :| TopCert(Final(w).hist, top) && w.log == Promise(Final(w).hist, top);
    forall cert | cert in w.run[s].hist.certs ensures cert.index < i {
      EntryBeyond(w.run[s], Final(w), cert, t, i, top);
    }
  }

  lemma {:induction false} EntryBeyond(c: Cluster, c': Cluster, cert: Cert, t: Term, i: LogIndex, top: Cert)
    requires Inv(c) && Inv(c') && Later(c, c') && cert in c.hist.certs
    requires t in c.hist.reigns && |c.hist.reigns[t].log| < i
    requires TopCert(c'.hist, top) && 0 < i <= top.index && Promise(c'.hist, top)[i - 1].term == t
    ensures cert.index < i
  {
    hide Inv, WellFormed;
    HistoryWellFormed(c);
    HistoryWellFormed(c');
    LaterSlot(c.hist, c'.hist, cert, t, i, top, top.term);
  }

  lemma {:induction false} ReadStarts(w: Story, k: nat) returns (s: nat)
    requires Genuine(w) && k < |w.deeds| && w.deeds[k].Saw?
    ensures s < |w.run| == |w.clock| && s <= w.deeds[k].at < |w.run| && w.trace[k].invoked <= w.clock[s]
    ensures RankOf(w, k).Some? && Below(w.run[s], RankOf(w, k).value + 1)
  {
    hide Inv, Later, CommittedLog, WithinWindows, Moves, WroteOk, Step;
    assert DeedOk(w, k);
    var y, e := w.deeds[k].node, w.deeds[k].at;
    var id, applied;
    s, id, applied :| ReadAt(w.run, s, e, id, y, applied) && s < |w.clock| && w.trace[k].invoked <= w.clock[s];
    RunLater(w.run, s, s);
    RunLater(w.run, s + 1, e);
    var c := w.run[s];
    ReadRecorded(c, id);
    GrantedCovers(c, c, w.run[s + 1], w.run[e], (c.nodes[id].term, c.nodes[id].role.beat + 1), y, applied);
  }

  /** How far the log was committed when k returned, against where j began. */
  lemma {:induction false} Overtakes(w: Story, e: nat, i: LogIndex, s: nat, b: LogIndex)
    requires Genuine(w) && e <= s < |w.run| && Reached(w.run[e], i) && Below(w.run[s], b)
    ensures i == 0 || i < b
  {
    hide Inv, Explains, CommittedLog, WithinWindows, Moves;
    RunLater(w.run, e, s);
    if i > 0 {
      var cert :| cert in w.run[e].hist.certs && i <= cert.index;
      assert cert in w.run[s].hist.certs;
    }
  }

  lemma {:induction false} ClockOrders(w: Story, e: nat, s: nat)
    requires Genuine(w) && e < |w.run| && s < |w.run| && w.clock[e] < w.clock[s]
    ensures e < s
  {
  }

  /** Where a record begins: nothing at or beyond its place had been committed
      (for a read: nothing beyond what it saw). */
  lemma {:induction false} Begins(w: Story, k: nat) returns (s: nat)
    requires Genuine(w) && k < |w.deeds| && RankOf(w, k).Some?
    ensures s < |w.run| == |w.clock| && w.trace[k].invoked <= w.clock[s]
    ensures Below(w.run[s], if w.deeds[k].Wrote? then RankOf(w, k).value else RankOf(w, k).value + 1)
  {
    hide Genuine, Below;
    if w.deeds[k].Wrote? { s := WriteStarts(w, k, RankOf(w, k).value); } else { s := ReadStarts(w, k); }
  }

  /** Where a returned record ends: the log had been committed up to its place. */
  lemma {:induction false} Ends(w: Story, k: nat) returns (e: nat)
    requires Genuine(w) && k < |w.deeds| && RankOf(w, k).Some?
    requires w.deeds[k].Saw? || (w.trace[k].op.Write? && w.trace[k].op.outcome.Happened?)
    ensures e < |w.run| == |w.clock| && w.clock[e] <= w.trace[k].returned && Reached(w.run[e], RankOf(w, k).value)
  {
    hide Explains, Inv, CommittedLog, WithinWindows, Moves, RankOf, Reached;
    if w.deeds[k].Wrote? {
      e := WriteEnds(w, k);
    } else {
      ReadEnds(w, k);
      e := w.deeds[k].at;
    }
  }

  /** A record that returned before another was invoked has the lower place;
      only a read may see the same. */
  lemma {:induction false} LaterIsHigher(w: Story, j: nat, k: nat)
    requires Genuine(w) && j < |w.deeds| && k < |w.deeds| && RankOf(w, j).Some? && RankOf(w, k).Some?
    requires w.deeds[k].Saw? || (w.trace[k].op.Write? && w.trace[k].op.outcome.Happened?)
    requires w.trace[k].returned < w.trace[j].invoked
    ensures var p, q := RankOf(w, j).value, RankOf(w, k).value; q == 0 || (if w.deeds[j].Wrote? then q < p else q <= p)
  {
    hide Explains, Inv, CommittedLog, WithinWindows, Moves, RankOf, Reached, Below;
    var e := Ends(w, k);
    var s := Begins(w, j);
    ClockOrders(w, e, s) by { assert Genuine(w); }
    Overtakes(w, e, RankOf(w, k).value, s,
        if w.deeds[j].Wrote? then RankOf(w, j).value else RankOf(w, j).value + 1);
  }

  /** A read is invoked before it returns. */
  lemma {:induction false} ReadsTakeTime(w: Story, k: nat)
    requires Genuine(w) && k < |w.deeds| && w.deeds[k].Saw?
    ensures w.trace[k].invoked <= w.trace[k].returned
  {
    hide Inv, CommittedLog, WithinWindows, Moves, RankOf, Below, DeedOk, Reached;
    var s := ReadStarts(w, k);
    ReadEnds(w, k);
    assert w.clock[s] <= w.clock[w.deeds[k].at];
  }

  /** The record of a write is a write, of a read a read. */
  lemma {:induction false} KindIs(w: Story, k: nat)
    requires Genuine(w) && k < |w.deeds|
    ensures w.deeds[k].Wrote? <==> w.trace[k].op.Write?
    ensures w.deeds[k].Wrote? && RankOf(w, k).Some? ==> RankOf(w, k).value > 0
  {
    hide Inv, CommittedLog, WithinWindows, Moves, Store.EffectAt, ToldBy, TriedSince;
    assert DeedOk(w, k);
  }

  lemma {:induction false} InTime(w: Story, j: nat, k: nat)
    requires Genuine(w) && |w.deeds| == |w.trace|
    requires Ranked(w.trace, Ranks(w), j) && Ranked(w.trace, Ranks(w), k) && Before(w.trace, Ranks(w), j, k)
    ensures Locality.Inv(w.trace, j) <= Locality.Ret(w.trace, k)
  {
    hide Genuine, RankOf;
    KindIs(w, j);
    KindIs(w, k);
    if w.deeds[k].Saw? { ReadsTakeTime(w, k); }
    if w.trace[k].returned < w.trace[j].invoked && (w.deeds[k].Saw? || w.trace[k].op.outcome.Happened?) {
      LaterIsHigher(w, j, k);
    }
  }

  // ---- the theorem ----

  lemma {:induction false} RecordPlaced(w: Story, k: nat)
    requires Genuine(w) && |w.deeds| == |w.trace| && k < |w.deeds|
    ensures PlacedAt(w.trace, w.log, Ranks(w), k)
  {
    hide Inv, CommittedLog, WithinWindows, Moves, ToldBy, TriedSince, ReadAt, Store.EffectAt;
    assert DeedOk(w, k);
    if w.deeds[k].Saw? {
      SawPrefix(w, k);
    } else {
      if w.trace[k].op.outcome.Happened? { var e := WriteEnds(w, k); }
      if RankOf(w, k).Some? { SlotEntry(w, k, RankOf(w, k).value); }
    }
  }

  lemma {:induction false} EffectsRecorded(w: Story, i: LogIndex) returns (k: nat)
    requires Genuine(w) && |w.deeds| == |w.trace| && Effective(w.log, i)
    ensures WriteAt(w.trace, Ranks(w), k, i)
  {
    hide Genuine, RankOf;
    k := OwnerOf(w, i);
    RankIs(w, k, i);
    KindIs(w, k);
  }

  lemma {:induction false} PlacesDiffer(w: Story, j: nat, k: nat, i: LogIndex)
    requires Genuine(w) && |w.deeds| == |w.trace|
    requires WriteAt(w.trace, Ranks(w), j, i) && WriteAt(w.trace, Ranks(w), k, i)
    ensures j == k
  {
    hide Inv, CommittedLog, WithinWindows, Moves, DeedOk, Effective, TriedAt;
    KindIs(w, j);
    KindIs(w, k);
    assert EffectiveFor(w, j, i) && EffectiveFor(w, k, i);
  }

  lemma {:induction false} StoryLinearizes(w: Story)
    requires Genuine(w)
    ensures Locality.Linearizable(w.trace)
  {
    hide Genuine, PlacedAt, WriteAt, Effective, Before, RankOf;
    var rank := Ranks(w);
    assert |w.deeds| == |w.trace| by { SameLength(w); }
    forall k | 0 <= k < |w.trace| ensures PlacedAt(w.trace, w.log, rank, k) { RecordPlaced(w, k); }
    forall i | Effective(w.log, i) ensures exists k :: WriteAt(w.trace, rank, k, i) { var k := EffectsRecorded(w, i); }
    forall j, k, i | WriteAt(w.trace, rank, j, i) && WriteAt(w.trace, rank, k, i) ensures j == k {
      PlacesDiffer(w, j, k, i);
    }
    forall j, k | Ranked(w.trace, rank, j) && Ranked(w.trace, rank, k) && Before(w.trace, rank, j, k)
      ensures Locality.Inv(w.trace, j) <= Locality.Ret(w.trace, k)
    {
      InTime(w, j, k);
    }
    PlacedLinearizes(w.trace, w.log, rank);
  }

  lemma {:induction false} SameLength(w: Story)
    requires Genuine(w)
    ensures |w.deeds| == |w.trace|
  {
  }

  /** LINEARIZABILITY. Whatever the clients of a run recorded of their writes
      and reads is linearizable, as long as every client keeps within its
      dedup window. */
  lemma {:induction false} RunsAreLinearizable(w: Story, boot: set<NodeId>)
    requires IsRun(w.run) && Init(w.run[0], boot) && Explains(w)
    requires CommittedLog(Final(w), w.log) && WithinWindows(w.log)
    ensures Locality.Linearizable(w.trace)
  {
    hide Inv, Explains, CommittedLog, WithinWindows, Moves, Locality.Linearizable;
    InitInv(w.run[0], boot);
    StoryLinearizes(w);
  }

  /** Every run has a committed log. */
  lemma {:induction false} CommittedLogExists(c: Cluster) returns (log: Log)
    requires Reachable(c)
    ensures CommittedLog(c, log)
  {
    hide Reachable;
    ReachableInv(c);
    if c.hist.certs == {} {
      log := [];
    } else {
      var e := Highest(c.hist.certs);
      assert CertOk(c.hist, e);
      assert TopCert(c.hist, e);
      log := Promise(c.hist, e);
    }
  }

  lemma {:induction false} Highest(certs: set<Cert>) returns (e: Cert)
    requires certs != {}
    ensures e in certs && forall e2 | e2 in certs :: e2.index <= e.index
  {
    e :| e in certs;
    if certs != {e} {
      var m := Highest(certs - {e});
      var picked := if e.index < m.index then m else e;
      forall e2 | e2 in certs ensures e2.index <= picked.index { assert e2 == e || e2 in certs - {e}; }
      e := picked;
    }
  }
}
