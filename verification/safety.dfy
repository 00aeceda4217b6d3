module Safety {
  // The promises of the system, for every run and any two points of it.
  // Elections, replication, compaction, snapshot installs, membership changes,
  // lost, duplicated and reordered messages, crashes and restarts interleave
  // freely in a run.

  import opened Types
  import opened Quorum
  import opened Storage
  import opened Rpc
  import opened Node
  import opened NodeInvariant
  import opened History
  import opened Completeness
  import opened Growth
  import opened Cluster
  import opened Invariant
  import opened Election
  import opened Followers
  import opened Sending
  import opened Steps
  import opened Tenure
  import opened Campaigns
  import opened Progress
  import opened Prompt
  import opened Observer
  import opened Watch
  import Store

  ghost predicate Reachable(c: Cluster) {
    exists start, boot :: Init(start, boot) && Reaches(start, c)
  }

  lemma {:induction false} ReachesLater(c: Cluster, c': Cluster)
    requires Inv(c) && Reaches(c, c')
    ensures Inv(c') && Later(c, c')
  {
    hide Inv, Later, Moves;
    var run :| IsRun(run) && run[0] == c && run[|run| - 1] == c';
    RunKeeps(run, |run| - 1);
  }

  lemma {:induction false} ReachableInv(c: Cluster)
    requires Reachable(c)
    ensures Inv(c)
  {
    hide Inv, Later, Reaches;
    var start, boot :| Init(start, boot) && Reaches(start, c);
    InitInv(start, boot);
    ReachesLater(start, c);
  }

  /** Whatever is reached from a reachable state is a state of the same run. */
  lemma {:induction false} ReachableReaches(c: Cluster, c': Cluster)
    requires Reachable(c) && Reaches(c, c')
    ensures Reachable(c')
  {
    hide Init, Reaches;
    var start, boot :| Init(start, boot) && Reaches(start, c);
    ReachesTransitive(start, c, c');
  }

  /** Two points of one run, with what the proofs use about them. */
  lemma {:induction false} TwoPoints(c: Cluster, c': Cluster)
    requires Reachable(c) && Reaches(c, c')
    ensures Inv(c) && Inv(c') && Later(c, c')
  {
    ReachableInv(c);
    ReachesLater(c, c');
  }

  // ---- election safety and leader completeness ----

  /** At most one leader per term, over the whole run. */
  lemma {:induction false} OneLeaderPerTerm(c: Cluster, c': Cluster, x: NodeId, y: NodeId)
    requires Reachable(c) && Reaches(c, c') && x in c.nodes && y in c'.nodes
    requires c.nodes[x].role.Leader? && c'.nodes[y].role.Leader? && c.nodes[x].term == c'.nodes[y].term
    ensures x == y
  {
    TwoPoints(c, c');
    LeaderRecorded(c, x);
    LeaderRecorded(c', y);
  }

  lemma {:induction false} LeaderRecorded(c: Cluster, x: NodeId)
    requires Inv(c) && x in c.nodes && c.nodes[x].role.Leader?
    ensures var t := c.nodes[x].term;
      && t in c.hist.reigns && c.hist.reigns[t].leader == x && c.hist.reigns[t].log == c.nodes[x].full
      && c.hist.reigns[t].beat == c.nodes[x].role.beat && c.nodes[x].Id() == x
  {
    hide HistoryOk, NodeInv, LogOk, VotesOk, AcksKept, AnswerOk, Committed, MsgOk, SeenOk;
    assert NodeAt(c, x);
  }

  lemma {:induction false} NodeCommitted(c: Cluster, x: NodeId)
    requires Inv(c) && x in c.nodes
    ensures WellFormed(c.hist)
    ensures var n := c.nodes[x]; n.lastApplied == n.commitIndex && Committed(c.hist, n.term, n.full, n.commitIndex)
  {
    hide RecordsOk, LogOk, VotesOk, RoleOk, AcksKept, AnswerOk, MsgOk, SeenOk;
    assert NodeAt(c, x);
  }

  /** What a node has committed is in the log of every leader of its term or a later one. */
  lemma {:induction false} LeadersHoldCommitted(c: Cluster, c': Cluster, x: NodeId, y: NodeId)
    requires Reachable(c) && Reaches(c, c') && x in c.nodes && y in c'.nodes
    requires c'.nodes[y].role.Leader? && c.nodes[x].term <= c'.nodes[y].term
    ensures c.nodes[x].commitIndex <= |c.nodes[x].full|
    ensures c.nodes[x].full[..c.nodes[x].commitIndex] <= c'.nodes[y].full
  {
    var n := c.nodes[x];
    TwoPoints(c, c');
    NodeCommitted(c, x);
    LeaderRecorded(c', y);
    hide Inv, Committed;
    CommittedGrows(c.hist, c'.hist, n.term, n.full, n.commitIndex);
    CommittedInLeader(c'.hist, n.term, n.full, n.commitIndex, c'.nodes[y].term) by { assert Inv(c'); }
  }

  // ---- state machine safety ----

  /** No two nodes, at any two points, applied different entries at one index. */
  lemma {:induction false} StateMachineSafety(c: Cluster, c': Cluster, x: NodeId, y: NodeId, i: LogIndex)
    requires Reachable(c) && Reaches(c, c') && x in c.nodes && y in c'.nodes
    requires i <= c.nodes[x].lastApplied && i <= c'.nodes[y].lastApplied
    ensures i <= |c.nodes[x].full| && i <= |c'.nodes[y].full| && c.nodes[x].full[..i] == c'.nodes[y].full[..i]
  {
    var n, n' := c.nodes[x], c'.nodes[y];
    TwoPoints(c, c');
    NodeCommitted(c, x);
    NodeCommitted(c', y);
    CommittedGrows(c.hist, c'.hist, n.term, n.full, n.commitIndex);
    AppliedAgree(c'.hist, n.term, n.full, n.commitIndex, n'.term, n'.full, n'.commitIndex, i);
  }

  lemma {:induction false} AppliedAgree(h: History, t: Term, a: Log, j: LogIndex, u: Term, b: Log, k: LogIndex,
      i: LogIndex)
    requires WellFormed(h) && Committed(h, t, a, j) && Committed(h, u, b, k) && i <= j && i <= k
    ensures i <= |a| && i <= |b| && a[..i] == b[..i]
  {
    if j <= k { CommittedAgree(h, t, a, j, u, b, k); } else { CommittedAgree(h, u, b, k, t, a, j); }
  }

  /** The map and the sessions are the fold of the log applied so far; the
      snapshot and the staged capture are the fold up to their own index. */
  lemma {:induction false} StateIsFold(c: Cluster, x: NodeId)
    requires Reachable(c) && x in c.nodes
    ensures var n := c.nodes[x];
      && n.lastApplied <= |n.full| && n.kv == Store.Fold(n.full[..n.lastApplied])
      && (n.storage.snapshot.Some? ==>
            && n.storage.snapshot.value.lastIndex <= |n.full|
            && n.storage.snapshot.value.state == Store.Fold(n.full[..n.storage.snapshot.value.lastIndex])
            && n.storage.snapshot.value.membership == LatestConfig(n.full[..n.storage.snapshot.value.lastIndex]))
      && (n.staged.Some? ==>
            && n.staged.value.index <= |n.full|
            && n.staged.value.state == Store.Fold(n.full[..n.staged.value.index])
            && n.staged.value.membership == LatestConfig(n.full[..n.staged.value.index]))
  {
    ReachableInv(c);
    NodeGood(c, x);
    assert NodeInv(c.nodes[x]);
  }

  /** Replicas that applied the same number of entries hold the same state. */
  lemma {:induction false} ReplicasAgree(c: Cluster, c': Cluster, x: NodeId, y: NodeId)
    requires Reachable(c) && Reaches(c, c') && x in c.nodes && y in c'.nodes
    requires c.nodes[x].lastApplied == c'.nodes[y].lastApplied
    ensures c.nodes[x].kv == c'.nodes[y].kv
  {
    hide Reachable, Reaches;
    StateMachineSafety(c, c', x, y, c.nodes[x].lastApplied);
    ReachableReaches(c, c');
    StateIsFold(c, x);
    StateIsFold(c', y);
  }

  /** No assertion and no `expect` that is not about I/O ever fires; in
      particular no committed entry is ever truncated. */
  lemma {:induction false} NothingPanics(c: Cluster, x: NodeId, peer: NodeId)
    requires Reachable(c) && x in c.nodes
    ensures !c.nodes[x].panicked
    ensures !c.nodes[x].role.Follower? && peer != x ==> SendTo(c.nodes[x], peer).Some?
  {
    ReachableInv(c);
    NodeGood(c, x);
    if !c.nodes[x].role.Follower? && peer != x { SendGood(c.hist, c.nodes[x], peer); }
    assert NodeInv(c.nodes[x]);
  }

  lemma {:induction false} IndexesInOrder(c: Cluster, x: NodeId)
    requires Reachable(c) && x in c.nodes
    ensures var n := c.nodes[x];
      && n.storage.SnapshotIndex() <= n.lastApplied <= n.commitIndex <= n.storage.LastIndex() == |n.full|
      && (n.role.Leader? ==> forall p | p in n.role.nextIndex :: 1 <= n.role.nextIndex[p] <= n.storage.LastIndex() + 1)
  {
    ReachableInv(c);
    NodeGood(c, x);
    assert NodeInv(c.nodes[x]);
    AnswersAsWhole(c.nodes[x].storage, c.nodes[x].full, 0);
  }

  // ---- what clients are told ----

  lemma {:induction false} SettledHolds(h: History, c: Cert, term: Term, i: LogIndex, at: Term, u: Term,
      log: Log, k: LogIndex)
    requires WellFormed(h) && Settles(h, c, term, i, at) && Committed(h, u, log, k) && i <= k
    ensures i <= |log| && TermAt(log, i) == term
  {
    assert Covers(h, c, c.term, Promise(h, c), c.index);
    AppliedAgree(h, c.term, Promise(h, c), c.index, u, log, k, i);
  }

  lemma {:induction false} SettledLed(h: History, c: Cert, term: Term, i: LogIndex, at: Term, u: Term)
    requires WellFormed(h) && Settles(h, c, term, i, at) && u in h.reigns && at <= u
    ensures i <= |h.reigns[u].log| && TermAt(h.reigns[u].log, i) == term
  {
    var p := Promise(h, c);
    assert Covers(h, c, c.term, p, c.index);
    CommittedInLeader(h, c.term, p, c.index, u);
    assert p[..c.index] == p;
  }

  lemma {:induction false} SettlesGrows(h: History, h': History, c: Cert, term: Term, i: LogIndex, at: Term)
    requires Grows(h, h') && Settles(h, c, term, i, at)
    ensures Settles(h', c, term, i, at)
  {
    CertGrows(h, h', c);
  }

  lemma {:induction false} Told(c: Cluster, x: NodeId, term: Term, i: LogIndex, at: Term) returns (e: Cert)
    requires Inv(c) && x in c.nodes && Resolved(term, i, true, at) in c.nodes[x].answers
    ensures Settles(c.hist, e, term, i, at)
  {
    AnswerHonest(c, x, Resolved(term, i, true, at));
    e :| Settles(c.hist, e, term, i, at);
  }

  /** A proposal resolved `true` keeps its (term, index) in the log of every
      leader of that or a later term, and wherever that index is committed. */
  lemma {:induction false} ResolvedStays(c: Cluster, c': Cluster, x: NodeId, term: Term, i: LogIndex, at: Term,
      y: NodeId)
    requires Reachable(c) && Reaches(c, c') && x in c.nodes && y in c'.nodes
    requires Resolved(term, i, true, at) in c.nodes[x].answers
    requires (c'.nodes[y].role.Leader? && at <= c'.nodes[y].term) || i <= c'.nodes[y].commitIndex
    ensures 0 < i <= |c'.nodes[y].full| && c'.nodes[y].full[i - 1].term == term
  {
    var n := c'.nodes[y];
    TwoPoints(c, c');
    var e := Told(c, x, term, i, at);
    SettlesGrows(c.hist, c'.hist, e, term, i, at);
    NodeCommitted(c', y);
    if i <= n.commitIndex {
      SettledHolds(c'.hist, e, term, i, at, n.term, n.full, n.commitIndex);
    } else {
      LeaderRecorded(c', y);
      SettledLed(c'.hist, e, term, i, at, n.term);
    }
  }

  /** A (term, index) names one entry, in every log that ever held it. */
  lemma {:induction false} OneEntryPerSlot(c: Cluster, c': Cluster, x: NodeId, y: NodeId, i: LogIndex)
    requires Reachable(c) && Reaches(c, c') && x in c.nodes && y in c'.nodes
    requires 0 < i <= |c.nodes[x].full| && i <= |c'.nodes[y].full|
    requires c.nodes[x].full[i - 1].term == c'.nodes[y].full[i - 1].term
    ensures c.nodes[x].full[..i] == c'.nodes[y].full[..i]
  {
    TwoPoints(c, c');
    NodeGood(c, x);
    NodeGood(c', y);
    CanonicalGrows(c.hist, c'.hist, c.nodes[x].full);
    LogMatching(c'.hist, c.nodes[x].full, c'.nodes[y].full, i);
  }

  lemma {:induction false} ProposalAppended(c: Cluster, id: NodeId, command: Command, recent: set<NodeId>)
    requires Inv(c) && id in c.nodes && AdmitProposal(c.nodes[id], command, recent).Accepted?
    ensures var h' := Step(c, Propose(id, command, recent)).hist;
      var Accepted(t, i) := AdmitProposal(c.nodes[id], command, recent);
      t in h'.reigns && 0 < i <= |h'.reigns[t].log| && h'.reigns[t].log[i - 1] == LogEntry(t, i, command)
  {
    hide Inv, MaybeAdvanceCommit, AppendProposal, ValidateConfigChange, CanCommit;
    var n := c.nodes[id];
    LastIndexIs(c, id);
    LeaderRecorded(c, id);
    assert Step(c, Propose(id, command, recent)).hist == WithCommit(WithEntry(c.hist, n, command), AppendProposal(n, command));
  }

  lemma {:induction false} LastIndexIs(c: Cluster, x: NodeId)
    requires Inv(c) && x in c.nodes
    ensures c.nodes[x].storage.LastIndex() == |c.nodes[x].full|
  {
    NodeGood(c, x);
    hide Inv, NodeOk, HistoryOk, MembersOk;
    AnswersAsWhole(c.nodes[x].storage, c.nodes[x].full, 0);
  }

  lemma {:induction false} SlotOf(h: History, log: Log, i: LogIndex)
    requires Canonical(h, log) && 0 < i <= |log|
    ensures log[i - 1].term in h.reigns && i <= |h.reigns[log[i - 1].term].log|
    ensures h.reigns[log[i - 1].term].log[i - 1] == log[i - 1]
  {
    assert Rooted(h, log, i - 1);
  }

  /** End to end: a command a leader accepted and later reported committed is,
      from then on, the entry at its index in every later leader's log and
      wherever that index is committed. */
  lemma {:induction false} CommittedCommandStays(
    c: Cluster, id: NodeId, command: Command, recent: set<NodeId>,
    told: Cluster, x: NodeId, at: Term, c': Cluster, y: NodeId)
    requires Reachable(c) && id in c.nodes && AdmitProposal(c.nodes[id], command, recent).Accepted?
    requires Reaches(Step(c, Propose(id, command, recent)), told) && Reaches(told, c')
    requires x in told.nodes && y in c'.nodes
    requires var Accepted(t, i) := AdmitProposal(c.nodes[id], command, recent);
      && Resolved(t, i, true, at) in told.nodes[x].answers
      && ((c'.nodes[y].role.Leader? && at <= c'.nodes[y].term) || i <= c'.nodes[y].commitIndex)
    ensures var Accepted(t, i) := AdmitProposal(c.nodes[id], command, recent);
      0 < i <= |c'.nodes[y].full| && c'.nodes[y].full[i - 1] == LogEntry(t, i, command)
  {
    hide Inv, Later, Reachable, Reaches, Step, AdmitProposal;
    var Accepted(t, i) := AdmitProposal(c.nodes[id], command, recent);
    var c1 := Step(c, Propose(id, command, recent));
    StepReaches(c, Propose(id, command, recent));
    ReachableReaches(c, c1);
    ReachableReaches(c1, told);
    TwoPoints(c, c1);
    ProposalAppended(c, id, command, recent);
    TwoPoints(c1, told);
    TwoPoints(told, c');
    LaterTransitive(c1, told, c');
    ResolvedStays(told, c', x, t, i, at, y);
    SlotKept(c1, c', t, i);
    NodeSlot(c', y, i);
  }

  lemma {:induction false} SlotKept(c: Cluster, c': Cluster, t: Term, i: LogIndex)
    requires Later(c, c') && t in c.hist.reigns && 0 < i <= |c.hist.reigns[t].log|
    ensures t in c'.hist.reigns && i <= |c'.hist.reigns[t].log|
    ensures c'.hist.reigns[t].log[i - 1] == c.hist.reigns[t].log[i - 1]
  {
    PrefixStays(c.hist, c'.hist, t, i);
    assert c'.hist.reigns[t].log[..i][i - 1] == c.hist.reigns[t].log[..i][i - 1];
  }

  lemma {:induction false} NodeSlot(c: Cluster, y: NodeId, i: LogIndex)
    requires Inv(c) && y in c.nodes && 0 < i <= |c.nodes[y].full|
    ensures var e := c.nodes[y].full[i - 1];
      e.term in c.hist.reigns && i <= |c.hist.reigns[e.term].log| && c.hist.reigns[e.term].log[i - 1] == e
  {
    NodeGood(c, y);
    SlotOf(c.hist, c.nodes[y].full, i);
  }

  // ---- linearizable reads ----

  lemma {:induction false} ReadRecorded(c: Cluster, id: NodeId)
    requires Inv(c) && id in c.nodes && c.nodes[id].role.Leader?
    ensures var h', key := Step(c, Read(id)).hist, (c.nodes[id].term, c.nodes[id].role.beat + 1);
      key in h'.readPoints && h'.readPoints[key].commits == set e | e in c.hist.certs :: e.index
  {
    hide Inv, HandleRead;
    LeaderRecorded(c, id);
    assert Step(c, Read(id)).hist == WithRead(c.hist, c.nodes[id]);
  }

  lemma {:induction false} AnswerHonest(c: Cluster, y: NodeId, a: Answer)
    requires Inv(c) && y in c.nodes && a in c.nodes[y].answers
    ensures AnswerOk(c.hist, a)
  {
    hide AnswerOk, RecordsOk, LogOk, VotesOk, RoleOk, AcksKept, MsgOk, SeenOk;
    assert NodeAt(c, y);
  }

  /** When a read is granted, what the leader has applied covers every index
      that any node had committed, and every proposal that had been reported
      committed, at any point up to the read's registration. */
  lemma {:induction false} ReadCoversCommits(c0: Cluster, c: Cluster, id: NodeId, c': Cluster, y: NodeId,
      applied: LogIndex, x: NodeId)
    requires Reachable(c0) && Reaches(c0, c) && id in c.nodes && c.nodes[id].role.Leader?
    requires Reaches(Step(c, Read(id)), c') && y in c'.nodes && x in c0.nodes
    requires ReadGranted(c.nodes[id].term, c.nodes[id].role.beat + 1, applied) in c'.nodes[y].answers
    ensures c0.nodes[x].commitIndex <= applied
    ensures forall a | a in c0.nodes[x].answers && a.Resolved? && a.committed :: a.index <= applied
  {
    hide Inv, Later, Reachable, Reaches, Step;
    var c1 := Step(c, Read(id));
    StepReaches(c, Read(id));
    ReachableReaches(c0, c);
    ReachableReaches(c, c1);
    TwoPoints(c0, c);
    TwoPoints(c1, c');
    ReadRecorded(c, id);
    GrantedCovers(c0, c, c1, c', (c.nodes[id].term, c.nodes[id].role.beat + 1), y, applied);
    CommitBelow(c0, x, applied);
    forall a | a in c0.nodes[x].answers && a.Resolved? && a.committed ensures a.index <= applied {
      var e := Told(c0, x, a.term, a.index, a.at);
      assert e.index <= applied;
    }
  }

  lemma {:induction false} GrantedCovers(c0: Cluster, c: Cluster, c1: Cluster, c': Cluster, key: (Term, nat),
      y: NodeId, applied: LogIndex)
    requires Later(c0, c) && Later(c1, c') && Inv(c') && y in c'.nodes
    requires key in c1.hist.readPoints && c1.hist.readPoints[key].commits == set e | e in c.hist.certs :: e.index
    requires ReadGranted(key.0, key.1, applied) in c'.nodes[y].answers
    ensures forall e | e in c0.hist.certs :: e.index <= applied
  {
    AnswerHonest(c', y, ReadGranted(key.0, key.1, applied));
    assert c'.hist.readPoints[key] == c1.hist.readPoints[key];
    hide Inv;
    forall e | e in c0.hist.certs ensures e.index <= applied {
      assert e in c.hist.certs;
      assert e.index in c1.hist.readPoints[key].commits;
    }
  }

  lemma {:induction false} CommitBelow(c: Cluster, x: NodeId, applied: LogIndex)
    requires Inv(c) && x in c.nodes && forall e | e in c.hist.certs :: e.index <= applied
    ensures c.nodes[x].commitIndex <= applied
  {
    NodeCommitted(c, x);
    var n := c.nodes[x];
    if n.commitIndex > 0 {
      var e :| Covers(c.hist, e, n.term, n.full, n.commitIndex);
      assert e in c.hist.certs;
    }
  }

  // ---- real time: log order is a linearization ----

  /** An entry appended after a certificate was issued, and committed later,
      lies beyond what the certificate covers. */
  lemma {:induction false} LaterSlot(h: History, h': History, e: Cert, term: Term, i: LogIndex, e2: Cert, at: Term)
    requires WellFormed(h) && WellFormed(h') && Grows(h, h') && e in h.certs
    requires term in h.reigns && |h.reigns[term].log| < i && Settles(h', e2, term, i, at)
    ensures e.index < i
  {
    assert CertOk(h, e);
    CertGrows(h, h', e);
    if i <= e.index {
      var p, p2 := Promise(h', e), Promise(h', e2);
      assert Covers(h', e, e.term, p, e.index) && Covers(h', e2, e2.term, p2, e2.index);
      AppliedAgree(h', e.term, p, e.index, e2.term, p2, e2.index, i);
      assert p[..i][i - 1] == p2[..i][i - 1];
      assert ReignOk(h, e.term);
      assert p[i - 1] == h.reigns[e.term].log[i - 1];
      SlotOf(h, h.reigns[e.term].log, i);
      assert false;
    }
  }

  lemma {:induction false} ProposedBeyond(c: Cluster, id: NodeId, command: Command, recent: set<NodeId>)
    requires Inv(c) && id in c.nodes && AdmitProposal(c.nodes[id], command, recent).Accepted?
    ensures var Accepted(t, i) := AdmitProposal(c.nodes[id], command, recent);
      t in c.hist.reigns && |c.hist.reigns[t].log| < i
  {
    hide Inv, ValidateConfigChange;
    LastIndexIs(c, id);
    LeaderRecorded(c, id);
  }

  /** Whatever was certified before a command was proposed lies below it, if it
      ever commits. */
  lemma {:induction false} CommitsBeyond(c0: Cluster, e: Cert, c: Cluster, id: NodeId, command: Command,
      recent: set<NodeId>, told: Cluster, y: NodeId, at: Term)
    requires Inv(c0) && e in c0.hist.certs && Inv(c) && Later(c0, c) && id in c.nodes
    requires AdmitProposal(c.nodes[id], command, recent).Accepted?
    requires Later(c, told) && Inv(told) && y in told.nodes
    requires var Accepted(t, i) := AdmitProposal(c.nodes[id], command, recent);
      Resolved(t, i, true, at) in told.nodes[y].answers
    ensures e.index < AdmitProposal(c.nodes[id], command, recent).index
  {
    hide AdmitProposal;
    var Accepted(t, i) := AdmitProposal(c.nodes[id], command, recent);
    ProposedBeyond(c, id, command, recent);
    var e2 := Told(told, y, t, i, at);
    LaterSlot(c.hist, told.hist, e, t, i, e2, at);
  }

  /** Write after write: a command reported committed before another was
      proposed has the lower index. */
  lemma {:induction false} WriteAfterWrite(
    c0: Cluster, x: NodeId, term: Term, i: LogIndex, at0: Term,
    c: Cluster, id: NodeId, command: Command, recent: set<NodeId>, told: Cluster, y: NodeId, at: Term)
    requires Reachable(c0) && x in c0.nodes && Resolved(term, i, true, at0) in c0.nodes[x].answers
    requires Reaches(c0, c) && id in c.nodes && AdmitProposal(c.nodes[id], command, recent).Accepted?
    requires Reaches(Step(c, Propose(id, command, recent)), told) && y in told.nodes
    requires var Accepted(t, k) := AdmitProposal(c.nodes[id], command, recent);
      Resolved(t, k, true, at) in told.nodes[y].answers
    ensures i < AdmitProposal(c.nodes[id], command, recent).index
  {
    hide Inv, Later, Reachable, Reaches, Step, AdmitProposal;
    ThenTold(c0, c, id, command, recent, told);
    var e := Told(c0, x, term, i, at0);
    CommitsBeyond(c0, e, c, id, command, recent, told, y, at);
  }

  /** Write after read: a command proposed after a read was granted lies
      beyond everything the read saw. */
  lemma {:induction false} WriteAfterRead(
    c0: Cluster, x: NodeId, term: Term, needed: nat, applied: LogIndex,
    c: Cluster, id: NodeId, command: Command, recent: set<NodeId>, told: Cluster, y: NodeId, at: Term)
    requires Reachable(c0) && x in c0.nodes && ReadGranted(term, needed, applied) in c0.nodes[x].answers
    requires Reaches(c0, c) && id in c.nodes && AdmitProposal(c.nodes[id], command, recent).Accepted?
    requires Reaches(Step(c, Propose(id, command, recent)), told) && y in told.nodes
    requires var Accepted(t, k) := AdmitProposal(c.nodes[id], command, recent);
      Resolved(t, k, true, at) in told.nodes[y].answers
    ensures applied < AdmitProposal(c.nodes[id], command, recent).index
  {
    hide Inv, Later, Reachable, Reaches, Step, AdmitProposal;
    ThenTold(c0, c, id, command, recent, told);
    var e := GrantedAt(c0, x, term, needed, applied);
    CommitsBeyond(c0, e, c, id, command, recent, told, y, at);
  }

  lemma {:induction false} ThenTold(c0: Cluster, c: Cluster, id: NodeId, command: Command, recent: set<NodeId>,
      told: Cluster)
    requires Reachable(c0) && Reaches(c0, c) && Reaches(Step(c, Propose(id, command, recent)), told)
    ensures Inv(c0) && Inv(c) && Inv(told) && Later(c0, c) && Later(c, told)
  {
    hide Inv, Later, Reachable, Reaches, Step;
    StepReaches(c, Propose(id, command, recent));
    ReachesTransitive(c, Step(c, Propose(id, command, recent)), told);
    ReachableReaches(c0, c);
    TwoPoints(c0, c);
    TwoPoints(c, told);
  }

  lemma {:induction false} GrantedAt(c: Cluster, x: NodeId, term: Term, needed: nat,
      applied: LogIndex) returns (e: Cert)
    requires Inv(c) && x in c.nodes && ReadGranted(term, needed, applied) in c.nodes[x].answers
    ensures e in c.hist.certs && e.index == applied
  {
    hide Inv;
    AnswerHonest(c, x, ReadGranted(term, needed, applied));
    e :| e in c.hist.certs && e.term == term && e.index == applied;
  }

  /** Read after read: a read registered after another was granted sees at
      least as much. (A read after a write is the last clause of
      ReadCoversCommits.) */
  lemma {:induction false} ReadAfterRead(
    c0: Cluster, x: NodeId, term: Term, needed: nat, applied0: LogIndex,
    c: Cluster, id: NodeId, c': Cluster, y: NodeId, applied: LogIndex)
    requires Reachable(c0) && x in c0.nodes && ReadGranted(term, needed, applied0) in c0.nodes[x].answers
    requires Reaches(c0, c) && id in c.nodes && c.nodes[id].role.Leader?
    requires Reaches(Step(c, Read(id)), c') && y in c'.nodes
    requires ReadGranted(c.nodes[id].term, c.nodes[id].role.beat + 1, applied) in c'.nodes[y].answers
    ensures applied0 <= applied
  {
    hide Inv, Later, Reachable, Reaches, Step;
    var c1 := Step(c, Read(id));
    StepReaches(c, Read(id));
    ReachableReaches(c0, c);
    ReachableReaches(c, c1);
    TwoPoints(c0, c);
    TwoPoints(c1, c');
    ReadRecorded(c, id);
    GrantedCovers(c0, c, c1, c', (c.nodes[id].term, c.nodes[id].role.beat + 1), y, applied);
    var e := GrantedAt(c0, x, term, needed, applied0);
  }

  // ---- replication bookkeeping ----

  /** A match index is truthful: until the peer moves to a higher term, its
      log, compacted part included, is the leader's through that index. */
  lemma {:induction false} MatchIsTruthful(c: Cluster, x: NodeId, p: NodeId)
    requires Reachable(c) && x in c.nodes && p in c.nodes && c.nodes[x].role.Leader?
    requires p in c.nodes[x].role.matchIndex && c.nodes[p].term <= c.nodes[x].term
    ensures var m := c.nodes[x].role.matchIndex[p];
      m <= |c.nodes[x].full| && m <= |c.nodes[p].full| && c.nodes[p].full[..m] == c.nodes[x].full[..m]
  {
    hide Reachable, Inv;
    ReachableInv(c);
    var t, m := c.nodes[x].term, c.nodes[x].role.matchIndex[p];
    LeaderRecorded(c, x);
    MatchBacked(c, x, p);
    if m > 0 {
      AcksHonoured(c, p);
      AckHolds(c.hist, c.nodes[p], Ack(p, t, m));
    }
  }

  lemma {:induction false} MatchBacked(c: Cluster, x: NodeId, p: NodeId)
    requires Inv(c) && x in c.nodes && c.nodes[x].role.Leader? && p in c.nodes[x].role.matchIndex
    ensures var m := c.nodes[x].role.matchIndex[p]; m == 0 || Ack(p, c.nodes[x].term, m) in c.hist.acks
  {
    hide HistoryOk, NodeInv, LogOk, VotesOk, AcksKept, AnswerOk, Committed, MsgOk, SeenOk;
    assert NodeAt(c, x);
  }

  lemma {:induction false} AcksHonoured(c: Cluster, p: NodeId)
    requires Inv(c) && p in c.nodes
    ensures AcksKept(c.hist, c.nodes[p]) && c.nodes[p].Id() == p
  {
    hide HistoryOk, NodeInv, LogOk, VotesOk, RoleOk, AnswerOk, Committed, MsgOk, SeenOk, AcksKept;
    assert NodeAt(c, p);
  }

  lemma {:induction false} AckHolds(h: History, n: Node, a: Ack)
    requires AcksKept(h, n) && a in h.acks && a.node == n.Id() && n.term <= a.term
    ensures a.term in h.reigns && a.index <= |h.reigns[a.term].log| && h.reigns[a.term].log[..a.index] <= n.full
  {
    assert AckKept(h, a, n.full, n.term);
    assert Keeps(h, a.term, a.index, n.full, n.term);
  }

  /** The network's safety observer never has anything to report, and its
      record is that of messages among which is every AppendEntries ever sent;
      so all of those are in order. */
  lemma {:induction false} ObserverStaysSilent(c: Cluster) returns (ms: seq<Message>)
    requires Reachable(c)
    ensures c.seen.violations == [] && c.seen == InspectAll(ms) && AllInOrder(ms)
    ensures forall m | m in c.net && m.AppendReq? :: m in ms
  {
    hide Inv, Moves, InspectAll, AllInOrder;
    var start, boot :| Init(start, boot) && Reaches(start, c);
    var run :| IsRun(run) && run[0] == start && run[|run| - 1] == c;
    ms := RunSeen(run, |run| - 1);
    ReachableInv(c);
    NoComplaints(c);
    SilenceMeansOrder(ms);
  }

  lemma {:induction false} NoComplaints(c: Cluster)
    requires Inv(c)
    ensures c.seen.violations == []
  {
  }

  /** A leader never hears from a rival of its own term. */
  lemma {:induction false} NoRivalSpeaks(c: Cluster, x: NodeId, m: Message)
    requires Reachable(c) && x in c.nodes && c.nodes[x].role.Leader?
    requires m in c.net && m.to == x && (m.AppendReq? || m.SnapshotReq?)
    ensures m.term != c.nodes[x].term
  {
    ReachableInv(c);
    LeaderRecorded(c, x);
    NetOk(c, m);
  }

  /** Votes granted by one voter in one term all went to one candidate. */
  lemma {:induction false} OneVotePerTerm(c: Cluster, m: Message, k: Message)
    requires Reachable(c) && m in c.net && k in c.net && m.VoteResp? && k.VoteResp?
    requires m.granted && k.granted && m.from == k.from && m.sentTerm == k.sentTerm
    ensures m.to == k.to
  {
    ReachableInv(c);
    NetOk(c, m);
    NetOk(c, k);
  }

  // ---- membership ----

  /** The cached membership is what the durable log and snapshot imply. */
  lemma {:induction false} MembersAreDerived(c: Cluster, x: NodeId)
    requires Reachable(c) && x in c.nodes
    ensures var n := c.nodes[x];
      var (derived, index) := DeriveMembership(n.storage, n.config.boot);
      && n.members == derived == MembersOf(n.full, n.config.boot)
      && (n.membersIndex == index
          || (n.membersIndex <= n.storage.SnapshotIndex() && index <= n.storage.SnapshotIndex()))
  {
    ReachableInv(c);
    NodeGood(c, x);
    assert NodeInv(c.nodes[x]);
    DeriveIsWhole(c.nodes[x].storage, c.nodes[x].full, c.nodes[x].config.boot);
  }

  /** When a leader appends a ConfigChange, every earlier one in its log is
      committed, exactly one member differs, and old and new majorities meet. */
  lemma {:induction false} ChangesOneAtATime(c: Cluster, id: NodeId, members: Membership, recent: set<NodeId>)
    requires Reachable(c) && id in c.nodes && AdmitProposal(c.nodes[id], ConfigChange(members), recent).Accepted?
    ensures var n := c.nodes[id];
      && n.commitIndex <= |n.full| && NoConfigFrom(n.full, n.commitIndex)
      && |members.Keys - n.members.Keys| + |n.members.Keys - members.Keys| == 1
      && forall q, r | IsQuorum(q, n.members.Keys) && IsQuorum(r, members.Keys) :: exists v :: v in q && v in r
  {
    hide Reachable, Inv;
    var n := c.nodes[id];
    ReachableInv(c);
    ConfigsCommitted(c, id);
    forall q, r | IsQuorum(q, n.members.Keys) && IsQuorum(r, members.Keys) ensures exists v :: v in q && v in r {
      QuorumsMeet(q, n.members.Keys, r, members.Keys);
    }
  }

  lemma {:induction false} ConfigsCommitted(c: Cluster, id: NodeId)
    requires Inv(c) && id in c.nodes && c.nodes[id].membersIndex <= c.nodes[id].commitIndex
    ensures c.nodes[id].commitIndex <= |c.nodes[id].full| && NoConfigFrom(c.nodes[id].full, c.nodes[id].commitIndex)
  {
    hide HistoryOk, NodeOk, MsgOk, SeenOk;
    assert NodeAt(c, id);
    ConfigIndexIsLatest(c.nodes[id].full);
  }

  /** In every log, each ConfigChange is one member away from what preceded
      it, and that predecessor was committed before it was appended. */
  lemma {:induction false} LoggedChangesGated(c: Cluster, x: NodeId, k: LogIndex) returns (e: Cert)
    requires Reachable(c) && x in c.nodes && 0 < k <= |c.nodes[x].full|
    requires c.nodes[x].full[k - 1].command.ConfigChange?
    ensures var log := c.nodes[x].full;
      && Adjacent(Ids(log[..k - 1], c.hist.boot), Ids(log[..k], c.hist.boot))
      && e in c.hist.certs && e.term == log[k - 1].term && ConfigIndex(log[..k - 1]) <= e.index < k
  {
    ReachableInv(c);
    NodeGood(c, x);
    e := GateOf(c.hist, c.nodes[x].full, k);
  }

  // ---- pre-votes ----

  /** The part of a run up to one of its states, and the part from it on. */
  lemma {:induction false} RunSplits(run: seq<Cluster>, i: nat)
    requires IsRun(run) && i < |run|
    ensures Reaches(run[0], run[i]) && Reaches(run[i], run[|run| - 1])
  {
    hide Next;
    var a, b := run[..i + 1], run[i..];
    forall k | 0 < k < |a| ensures Moves(a, k) { assert Moves(run, k); }
    forall k | 0 < k < |b| ensures Moves(b, k) { assert Moves(run, i + k); }
    assert IsRun(a) && a[0] == run[0] && a[|a| - 1] == run[i];
    assert IsRun(b) && b[0] == run[i] && b[|b| - 1] == run[|run| - 1];
  }

  lemma {:induction false} FreshIds(c: Cluster, boot: set<NodeId>)
    requires Init(c, boot)
    ensures IdsOk(c) && GrantsSent(c) && c.hist.campaigns == {}
    ensures forall x | x in c.nodes :: Serving(c.nodes[x])
  {
    forall x | x in c.nodes ensures c.nodes[x].Id() == x && Serving(c.nodes[x]) { assert FreshAt(c, x, boot); }
  }

  /** Every campaign of a reachable state stood at an earlier state of the run. */
  lemma {:induction false} CampaignStood(c: Cluster, k: Campaign) returns (d: Cluster)
    requires Reachable(c) && k in c.hist.campaigns
    ensures Reachable(d) && Reaches(d, c) && StoodAt(d, k)
  {
    hide Init, Moves, StoodAt, IdsOk, GrantsSent, Serving;
    var start, boot :| Init(start, boot) && Reaches(start, c);
    var run :| IsRun(run) && run[0] == start && run[|run| - 1] == c;
    FreshIds(start, boot);
    var i := RunCampaigns(run, |run| - 1, k);
    RunSplits(run, i);
    d := run[i];
  }

  lemma {:induction false} ReachableGrants(c: Cluster)
    requires Reachable(c)
    ensures GrantsSent(c)
  {
    hide Init, Moves, IdsOk, GrantsSent, Serving;
    var start, boot :| Init(start, boot) && Reaches(start, c);
    var run :| IsRun(run) && run[0] == start && run[|run| - 1] == c;
    FreshIds(start, boot);
    RunGrants(run, |run| - 1);
  }

  /** The votes a node counts are replies that were sent to it. */
  lemma {:induction false} TallySent(d: Cluster, k: Campaign, g: NodeId)
    requires Inv(d) && GrantsSent(d) && StoodAt(d, k) && g in k.grants && g != k.node
    ensures Granted(d.net, g, k.node, k.term)
  {
    hide Inv, Granted, Leads, HistoryOk;
    var n := d.nodes[k.node];
    var m :| m in d.net && m.to == n.Id() && Counted(n, m).role.PreCandidate? && Counted(n, m).role.votes == k.grants;
    CountedLeads(d, m);
    TallyRecorded(d, Counted(n, m), k, g);
  }

  lemma {:induction false} TallyRecorded(d: Cluster, n: Node, k: Campaign, g: NodeId)
    requires k.node in d.nodes && Leads(d.hist, d.nodes[k.node], d.hist, n) && GrantsSent(d)
    requires n.role.PreCandidate? && n.Id() == k.node && n.term + 1 == k.term && g in n.role.votes && g != k.node
    ensures Granted(d.net, g, k.node, k.term)
  {
    hide Granted, HistoryOk, NodeInv;
    assert PreCandidateOk(d.hist, n);
    var p := (g, k.node, k.term);
    assert p in d.hist.preGrants;
  }

  /** Every term in use began, at an earlier point of the run, with a node one
      term lower that held pre-votes for exactly that term from a majority of
      its members, its own included; every other vote is a granted reply that
      had been sent to it by then. */
  lemma {:induction false} TermsBeginWithPreVotes(c: Cluster, x: NodeId) returns (k: Campaign, d: Cluster)
    requires Reachable(c) && x in c.nodes && c.nodes[x].term > 0
    ensures k in c.hist.campaigns && k.term == c.nodes[x].term && k.node in k.grants && k.node in k.members
    ensures |k.grants * k.members| >= Majority(k.members)
    ensures Reachable(d) && Reaches(d, c) && StoodAt(d, k)
    ensures forall g | g in k.grants && g != k.node :: Granted(d.net, g, k.node, k.term)
  {
    hide Reachable, Reaches, StoodAt, Granted, GrantsSent;
    ReachableInv(c);
    NodeGood(c, x);
    k :| k in c.hist.campaigns && k.term == c.nodes[x].term;
    assert CampaignOk(c.hist, k);
    d := CampaignStood(c, k);
    hide Inv;
    ReachableInv(d);
    ReachableGrants(d);
    forall g | g in k.grants && g != k.node ensures Granted(d.net, g, k.node, k.term) { TallySent(d, k, g); }
  }

  /** Answering a probe changes no node. */
  lemma {:induction false} ProbesChangeNothing(c: Cluster, m: Message, sticky: bool)
    requires m in c.net && m.PreVoteReq? && m.to in c.nodes && c.nodes[m.to].Id() == m.to
    ensures Step(c, Deliver(m, sticky)).nodes == c.nodes
  {
  }

  /** A pre-vote that does not complete a majority changes no durable state. */
  lemma {:induction false} GrantsChangeNoHardState(n: Node, m: Message)
    requires m.PreVoteResp? && m.term <= n.term
    requires n.role.PreCandidate? ==> !HasMajority(n, n.role.votes + {m.from})
    ensures OnPreVoteReply(n, m) ==
      if m.granted && m.sentTerm == n.term + 1 && n.role.PreCandidate?
      then n.(role := PreCandidate(n.role.votes + {m.from})) else n
  {
  }

  /** No term ever goes down. */
  lemma {:induction false} TermsOnlyGrow(c: Cluster, c': Cluster, x: NodeId)
    requires Reachable(c) && Reaches(c, c') && x in c.nodes
    ensures x in c'.nodes && c.nodes[x].term <= c'.nodes[x].term
  {
    TwoPoints(c, c');
  }

  // ---- leading ----

  lemma {:induction false} ReachableIds(c: Cluster)
    requires Inv(c)
    ensures IdsOk(c)
  {
    forall x | x in c.nodes ensures c.nodes[x].Id() == x { NodeGood(c, x); }
  }

  lemma {:induction false} ReachableServing(c: Cluster, x: NodeId)
    requires Reachable(c) && x in c.nodes
    ensures Serving(c.nodes[x])
  {
    hide Init, Reaches, IdsOk, GrantsSent, Serving;
    var start, boot :| Init(start, boot) && Reaches(start, c);
    FreshIds(start, boot);
    ReachesSteady(start, c);
    assert Steady(start.nodes[x], c.nodes[x]);
  }

  /** In every reachable state a leader outside its configuration is waiting
      for that very configuration, logged and not yet committed. */
  lemma {:induction false} RemovedLeaderLeaves(c: Cluster, x: NodeId)
    requires Reachable(c) && x in c.nodes && c.nodes[x].role.Leader?
    requires c.nodes[x].members.Keys != {} && x !in c.nodes[x].members
    ensures c.nodes[x].commitIndex < c.nodes[x].membersIndex == ConfigIndex(c.nodes[x].full)
  {
    hide Reachable, Inv;
    ReachableServing(c, x);
    ReachableInv(c);
    NodeGood(c, x);
    assert NodeInv(c.nodes[x]);
  }

  /** Between two points at which a node leads the same term its log, commit
      index, beat, and every match index and answered beat have only risen. */
  lemma {:induction false} LeadingOnlyGains(c: Cluster, c': Cluster, x: NodeId)
    requires Reachable(c) && Reaches(c, c') && x in c.nodes && x in c'.nodes
    requires c.nodes[x].role.Leader? && c'.nodes[x].role.Leader? && c.nodes[x].term == c'.nodes[x].term
    ensures Risen(c.nodes[x], c'.nodes[x])
  {
    hide Reachable, Reaches, Inv;
    ReachableInv(c);
    ReachableIds(c);
    ReachesSteady(c, c');
    assert Steady(c.nodes[x], c'.nodes[x]);
  }

  /** A node that stopped leading a term never leads that term again. */
  lemma {:induction false} LeadsOnce(c: Cluster, c': Cluster, c'': Cluster, x: NodeId)
    requires Reachable(c) && Reaches(c, c') && Reaches(c', c'') && x in c.nodes && x in c'.nodes && x in c''.nodes
    requires c.nodes[x].role.Leader? && !c'.nodes[x].role.Leader? && c'.nodes[x].term == c.nodes[x].term
    ensures c''.nodes[x].role.Leader? ==> c''.nodes[x].term > c.nodes[x].term
  {
    hide Reachable, Reaches, Inv, Risen;
    TwoPoints(c, c');
    ReachableIds(c);
    ReachableIds(c');
    ReachesSteady(c, c');
    ReachesSteady(c', c'');
    assert Steady(c.nodes[x], c'.nodes[x]) && Steady(c'.nodes[x], c''.nodes[x]);
    if Risen(c'.nodes[x], c''.nodes[x]) { RisenLeads(c'.nodes[x], c''.nodes[x]); }
  }

  // ---- what is due gets done ----

  lemma {:induction false} ReachableApt(c: Cluster)
    requires Reachable(c)
    ensures AllApt(c)
  {
    hide Inv, Moves, AllApt;
    var start, boot :| Init(start, boot) && Reaches(start, c);
    var run :| IsRun(run) && run[0] == start && run[|run| - 1] == c;
    InitInv(start, boot);
    FreshApt(start, boot);
    RunApt(run, |run| - 1);
  }

  lemma {:induction false} FreshApt(c: Cluster, boot: set<NodeId>)
    requires Init(c, boot)
    ensures AllApt(c)
  {
    forall x | x in c.nodes ensures AptAt(c, x) { assert FreshAt(c, x, boot); }
  }

  /** In every reachable state a leader has committed every entry of its own
      term that more than half of its members are known to hold. */
  lemma {:induction false} NothingLeftUncommitted(c: Cluster, x: NodeId, i: LogIndex)
    requires Reachable(c) && x in c.nodes && c.nodes[x].role.Leader? && 0 < i <= |c.nodes[x].full|
    requires c.nodes[x].full[i - 1].term == c.nodes[x].term
    requires 2 * |MembersHolding(c.nodes[x], i)| > |c.nodes[x].members|
    ensures i <= c.nodes[x].commitIndex
  {
    hide Reachable;
    ReachableApt(c);
    assert AptAt(c, x);
    assert MostHold(c.nodes[x], i);
  }

  /** Whoever a node takes for the leader of its term, and names to clients it
      refuses, is the only node that leads that term, at any point of the run. */
  lemma {:induction false} HintIsTheLeader(c: Cluster, x: NodeId, c': Cluster, y: NodeId)
    requires Reachable(c) && Reachable(c') && (Reaches(c, c') || Reaches(c', c))
    requires x in c.nodes && c.nodes[x].leaderId.Some?
    requires y in c'.nodes && c'.nodes[y].role.Leader? && c'.nodes[y].term == c.nodes[x].term
    ensures c.nodes[x].leaderId == Some(y)
  {
    hide Reachable, Reaches, Inv, Later;
    ReachableApt(c);
    assert AptAt(c, x);
    ReachableInv(c);
    ReachableInv(c');
    LeaderRecorded(c', y);
    var t := c.nodes[x].term;
    if Reaches(c, c') { ReachesLater(c, c'); SameLeader(c, c', t); } else { ReachesLater(c', c); SameLeader(c', c, t); }
  }

  lemma {:induction false} SameLeader(c: Cluster, c': Cluster, t: Term)
    requires Later(c, c') && t in c.hist.reigns
    ensures t in c'.hist.reigns && c'.hist.reigns[t].leader == c.hist.reigns[t].leader
  {
  }

  /** A node that leads a term at two points led it, with all it had gained,
      at every step between; in particular right after this one. */
  lemma {:induction false} LedSince(c: Cluster, c1: Cluster, c': Cluster, x: NodeId)
    requires Reachable(c) && Reaches(c, c1) && Reaches(c1, c') && x in c.nodes && x in c1.nodes && x in c'.nodes
    requires c.nodes[x].role.Leader? && c'.nodes[x].role.Leader? && c'.nodes[x].term == c.nodes[x].term
    ensures c1.nodes[x].role.Leader? && Risen(c1.nodes[x], c'.nodes[x])
  {
    hide Reachable, Reaches, Inv, Risen;
    TwoPoints(c, c1);
    ReachableIds(c);
    ReachableIds(c1);
    ReachesSteady(c, c1);
    ReachesSteady(c1, c');
    assert Steady(c.nodes[x], c1.nodes[x]) && Steady(c1.nodes[x], c'.nodes[x]);
    RisenLeads(c1.nodes[x], c'.nodes[x]);
  }

  /** A read is never forgotten: at every later point at which the node still
      leads that term it waits, for the beat after the last and for what was
      committed or its own first entry, or it has been granted. */
  lemma {:induction false} ReadsAreKept(c: Cluster, id: NodeId, c': Cluster)
    requires Reachable(c) && id in c.nodes && c.nodes[id].role.Leader?
    requires Reaches(Step(c, Read(id)), c') && id in c'.nodes
    requires c'.nodes[id].role.Leader? && c'.nodes[id].term == c.nodes[id].term
    ensures var n, n' := c.nodes[id], c'.nodes[id];
      || PendingRead(n.role.beat + 1, Max(n.commitIndex, n.role.termStart)) in n'.role.waiting
      || GrantedTo(n', n.role.beat + 1)
  {
    hide Reachable, Reaches, Inv, Later, HandleRead;
    var n, c1 := c.nodes[id], Step(c, Read(id));
    ReachableInv(c);
    NodeGood(c, id);
    ReadRegistered(n);
    StepReaches(c, Read(id));
    ReadStays(c, c1, c', id, HandleRead(n));
  }

  lemma {:induction false} ReadStays(c: Cluster, c1: Cluster, c': Cluster, id: NodeId, n1: Node)
    requires Reachable(c) && Reaches(c, c1) && Reaches(c1, c') && id in c.nodes && id in c1.nodes && id in c'.nodes
    requires c1.nodes[id] == n1 && c.nodes[id].role.Leader? && c'.nodes[id].role.Leader?
    requires c'.nodes[id].term == c.nodes[id].term == n1.term
    requires n1.role.Leader? ==> ReadHeld(c.nodes[id], n1)
    ensures ReadHeld(c.nodes[id], c'.nodes[id])
  {
    hide Reachable, Reaches;
    LedSince(c, c1, c', id);
    var n, n' := c.nodes[id], c'.nodes[id];
    if n1.role.Leader? && GrantedTo(n1, n.role.beat + 1) { GrantStays(n1, n', n.role.beat + 1); }
  }

  lemma {:induction false} GrantStays(n: Node, n': Node, needed: nat)
    requires GrantedTo(n, needed) && KeepsWaiters(n, n')
    ensures GrantedTo(n', needed)
  {
    var applied :| ReadGranted(n.term, needed, applied) in n.answers;
    assert ReadGranted(n'.term, needed, applied) in n'.answers;
  }

  /** The read this leader would register next waits at n', or was granted. */
  ghost predicate ReadHeld(n: Node, n': Node)
    requires n.role.Leader? && n'.role.Leader?
  {
    || PendingRead(n.role.beat + 1, Max(n.commitIndex, n.role.termStart)) in n'.role.waiting
    || GrantedTo(n', n.role.beat + 1)
  }

  lemma {:induction false} ReadRegistered(n: Node)
    requires n.role.Leader?
    ensures HandleRead(n).role.Leader? && ReadHeld(n, HandleRead(n)) && HandleRead(n).Id() == n.Id()
    ensures HandleRead(n).term == n.term
  {
    hide ResolveReads;
    var r := RegisterRead(n);
    ResolveReadsKeeps(r);
    assert PendingRead(n.role.beat + 1, Max(n.commitIndex, n.role.termStart)) in r.role.waiting;
  }

  /** A proposal is never forgotten: at every later point at which the node
      still leads that term it waits, or has been told its outcome. */
  lemma {:induction false} ProposalsAreKept(c: Cluster, id: NodeId, command: Command, recent: set<NodeId>, c': Cluster)
    requires Reachable(c) && id in c.nodes && AdmitProposal(c.nodes[id], command, recent).Accepted?
    requires Reaches(Step(c, Propose(id, command, recent)), c') && id in c'.nodes
    requires c'.nodes[id].role.Leader? && c'.nodes[id].term == c.nodes[id].term
    ensures var Accepted(t, i) := AdmitProposal(c.nodes[id], command, recent);
      || PendingProposal(t, i) in c'.nodes[id].pending
      || exists committed, at :: Resolved(t, i, committed, at) in c'.nodes[id].answers
  {
    hide Reachable, Reaches, Inv, Later, HandlePropose, AdmitProposal;
    var n, c1 := c.nodes[id], Step(c, Propose(id, command, recent));
    ReachableInv(c);
    NodeGood(c, id);
    ProposalRegistered(n, command, recent);
    StepReaches(c, Propose(id, command, recent));
    ProposalStays(c, c1, c', id, AdmitProposal(n, command, recent).term, AdmitProposal(n, command, recent).index);
  }

  lemma {:induction false} ProposalStays(c: Cluster, c1: Cluster, c': Cluster, id: NodeId, t: Term, i: LogIndex)
    requires Reachable(c) && Reaches(c, c1) && Reaches(c1, c') && id in c.nodes && id in c1.nodes && id in c'.nodes
    requires c.nodes[id].role.Leader? && c'.nodes[id].role.Leader? && c'.nodes[id].term == c.nodes[id].term
    requires PendingProposal(t, i) in c1.nodes[id].pending || ToldOf(c1.nodes[id], PendingProposal(t, i))
    ensures PendingProposal(t, i) in c'.nodes[id].pending || ToldOf(c'.nodes[id], PendingProposal(t, i))
  {
    hide Reachable, Reaches;
    LedSince(c, c1, c', id);
    var n1, n' := c1.nodes[id], c'.nodes[id];
    if committed, at :| Resolved(t, i, committed, at) in n1.answers {
      assert Resolved(t, i, committed, at) in n'.answers;
    }
  }

  lemma {:induction false} ProposalRegistered(n: Node, command: Command, recent: set<NodeId>)
    requires AdmitProposal(n, command, recent).Accepted?
    ensures var n', Accepted(t, i) := HandlePropose(n, command, recent), AdmitProposal(n, command, recent);
      && n.role.Leader? && n'.Id() == n.Id()
      && (PendingProposal(t, i) in n'.pending || ToldOf(n', PendingProposal(t, i)))
  {
    hide AdvanceCommit, AppendBatch, ValidateConfigChange;
    var n1 := AppendProposal(n, command);
    AppendBatchKeeps(n, [LogEntry(n.term, n.storage.LastIndex() + 1, command)]);
    AdvanceKeeps(n1);
    var p := PendingProposal(n.term, n.storage.LastIndex() + 1);
    assert p in n1.pending;
    var n2 := AdvanceCommit(n1);
    if committed, at :| Resolved(p.term, p.index, committed, at) in n2.answers {
      assert Resolved(p.term, p.index, committed, at) in MaybeAdvanceCommit(n1).answers;
    }
  }
}
