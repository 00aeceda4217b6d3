/** A step of one node leaves the others' part of the invariant standing. */
module Frame {
  import opened Types
  import opened Quorum
  import opened Rpc
  import opened Node
  import opened NodeInvariant
  import opened History
  import opened Completeness
  import opened Growth
  import opened Observer
  import opened Cluster
  import opened Invariant

  lemma {:induction false} EnteredGrows(h: History, h': History, t: Term)
    requires Entered(h, t) && h.campaigns <= h'.campaigns
    ensures Entered(h', t)
  {
    if t != 0 {
      var c :| c in h.campaigns && c.term == t;
      assert c in h'.campaigns;
    }
  }

  /** Read points a step adds belong to beats no message has carried yet. */
  lemma {:induction false} AnsweredGrows(h: History, h': History, id: NodeId, p: NodeId, t: Term, b: nat)
    requires Extends(h, h', id) && Answered(h, p, t, b)
    ensures Answered(h', p, t, b)
  {
    assert ReignGrows(h.reigns[t], h'.reigns[t]);
    forall k, w | (t, k) in h'.readPoints && k <= b && w > t
      ensures (p, w) !in h'.readPoints[(t, k)].ballots
    {
      var point := h'.readPoints[(t, k)];
      assert (t, k) in h.readPoints && point == h.readPoints[(t, k)];
    }
  }

  lemma {:induction false} WaitGrows(h: History, h': History, id: NodeId, t: Term, r: PendingRead)
    requires Extends(h, h', id) && WaitOk(h, t, r)
    ensures WaitOk(h', t, r)
  {
    assert ReignGrows(h.reigns[t], h'.reigns[t]);
    assert h'.readPoints[(t, r.needed)] == h.readPoints[(t, r.needed)];
  }

  lemma {:induction false} AnswerGrows(h: History, h': History, id: NodeId, a: Answer)
    requires Extends(h, h', id) && AnswerOk(h, a)
    ensures AnswerOk(h', a)
  {
    ExtendsGrows(h, h', id);
    match a {
      case Resolved(term, index, committed, at) =>
        if committed {
          var c :| Settles(h, c, term, index, at);
          CertGrows(h, h', c);
          assert Settles(h', c, term, index, at);
        }
      case ReadGranted(term, needed, applied) =>
        assert h'.readPoints[(term, needed)] == h.readPoints[(term, needed)];
    }
  }

  lemma {:induction false} AppendGrows(h: History, h': History, m: Message)
    requires Grows(h, h') && m.AppendReq? && AppendOk(h, m)
    ensures AppendOk(h', m)
  {
    var l, l' := h.reigns[m.term].log, h'.reigns[m.term].log;
    assert ReignGrows(h.reigns[m.term], h'.reigns[m.term]);
    var last := m.prevIndex + |m.entries|;
    assert l'[m.prevIndex..last] == l[m.prevIndex..last];
    CommittedGrows(h, h', m.term, l, m.leaderCommit);
    CommittedOf(h', m.term, l, m.leaderCommit, m.term, l', m.leaderCommit);
  }

  lemma {:induction false} SnapshotReqGrows(h: History, h': History, m: Message)
    requires Grows(h, h') && m.SnapshotReq? && SnapshotReqOk(h, m)
    ensures SnapshotReqOk(h', m)
  {
    var l, l' := h.reigns[m.term].log, h'.reigns[m.term].log;
    assert ReignGrows(h.reigns[m.term], h'.reigns[m.term]);
    CommittedGrows(h, h', m.term, l, |m.whole|);
    CommittedOf(h', m.term, l, |m.whole|, m.term, l', |m.whole|);
  }

  lemma {:induction false} AppendRespGrows(h: History, h': History, id: NodeId, m: Message)
    requires Extends(h, h', id) && m.AppendResp? && AppendRespOk(h, m)
    ensures AppendRespOk(h', m)
  {
    assert ReignGrows(h.reigns[m.sentTerm], h'.reigns[m.sentTerm]);
    if m.term == m.sentTerm { AnsweredGrows(h, h', id, m.from, m.sentTerm, m.sentBeat); }
  }

  lemma {:induction false} MsgGrows(h: History, h': History, id: NodeId, m: Message)
    requires Extends(h, h', id) && MsgOk(h, m)
    ensures MsgOk(h', m)
  {
    ExtendsGrows(h, h', id);
    if !m.PreVoteReq? { EnteredGrows(h, h', m.term); }
    match m {
      case PreVoteReq(_, _, _, _, _) =>
      case PreVoteResp(_, _, _, _, _) =>
      case VoteReq(from, _, term, _, _) => assert h'.candidacies[(from, term)] == h.candidacies[(from, term)];
      case VoteResp(from, _, sentTerm, _, granted) =>
        if granted { assert h'.ballots[(from, sentTerm)] == h.ballots[(from, sentTerm)]; }
      case AppendReq(_, _, _, _, _, _, _, _) => AppendGrows(h, h', m);
      case AppendResp(_, _, _, _, _, _, _, _) => AppendRespGrows(h, h', id, m);
      case SnapshotReq(_, _, _, _, _) => SnapshotReqGrows(h, h', m);
      case SnapshotResp(_, _, sentTerm, _, _) => assert ReignGrows(h.reigns[sentTerm], h'.reigns[sentTerm]);
    }
  }

  // ---- other nodes ----

  lemma {:induction false} AckKeptGrows(h: History, h': History, a: Ack, log: Log, t: Term)
    requires Grows(h, h') && AckKept(h, a, log, t)
    ensures AckKept(h', a, log, t)
  {
    AckGrows(h, h', a);
    forall i | 0 <= i <= a.index ensures Keeps(h', a.term, i, log, t) {
      assert Keeps(h, a.term, i, log, t);
      KeepsGrows(h, h', a.term, i, log, t);
    }
  }

  lemma {:induction false} OthersAcksKept(h: History, h': History, id: NodeId, n: Node)
    requires Extends(h, h', id) && n.Id() != id && AcksKept(h, n)
    ensures AcksKept(h', n)
  {
    ExtendsGrows(h, h', id);
    forall a | a in h'.acks && a.node == n.Id() ensures AckKept(h', a, n.full, n.term) {
      assert a in h.acks;
      assert AckKept(h, a, n.full, n.term);
      AckKeptGrows(h, h', a, n.full, n.term);
    }
  }

  lemma {:induction false} OthersVotes(h: History, h': History, id: NodeId, n: Node)
    requires Extends(h, h', id) && n.Id() != id && VotesOk(h, n)
    ensures VotesOk(h', n)
  {
    forall t | (n.Id(), t) in h'.ballots ensures t <= n.term {
      assert h'.ballots[(n.Id(), t)] == h'.ballots[(n.Id(), t)];
      assert (n.Id(), t) in h.ballots;
    }
    forall t | (n.Id(), t) in h'.candidacies ensures t <= n.term {
      assert h'.candidacies[(n.Id(), t)] == h'.candidacies[(n.Id(), t)];
      assert (n.Id(), t) in h.candidacies;
    }
    if (n.Id(), n.term) in h'.ballots {
      assert h'.ballots[(n.Id(), n.term)] == h.ballots[(n.Id(), n.term)];
    }
  }

  lemma {:induction false} OthersCandidacy(h: History, h': History, id: NodeId, n: Node)
    requires Extends(h, h', id) && n.Id() != id && n.role.Candidate? && CandidateOk(h, n)
    ensures CandidateOk(h', n)
  {
    assert h'.candidacies[(n.Id(), n.term)] == h.candidacies[(n.Id(), n.term)];
    if n.term in h'.reigns && n.term in h.reigns {
      assert ReignGrows(h.reigns[n.term], h'.reigns[n.term]);
    }
    forall q | q in n.role.votes ensures VotedFor(h', q, n.term, n.Id()) {
      assert VotedFor(h, q, n.term, n.Id());
      assert h'.ballots[(q, n.term)] == h.ballots[(q, n.term)];
    }
  }

  lemma {:induction false} OthersLeadership(h: History, h': History, id: NodeId, n: Node)
    requires Extends(h, h', id) && n.Id() != id && n.role.Leader? && LeaderOk(h, n)
    ensures LeaderOk(h', n)
  {
    assert h'.reigns[n.term] == h.reigns[n.term];
    if n.commitIndex > |h.reigns[n.term].init| {
      var c :| c in h.certs && c.term == n.term && c.index == n.commitIndex;
      assert c in h'.certs;
    }
    forall p | p in n.role.acked ensures Answered(h', p, n.term, n.role.acked[p]) {
      AnsweredGrows(h, h', id, p, n.term, n.role.acked[p]);
    }
    forall r | r in n.role.waiting ensures WaitOk(h', n.term, r) {
      WaitGrows(h, h', id, n.term, r);
    }
  }

  lemma {:induction false} OtherNodeOk(h: History, h': History, id: NodeId, n: Node)
    requires Extends(h, h', id) && n.Id() != id && NodeOk(h, n)
    ensures NodeOk(h', n)
  {
    ExtendsGrows(h, h', id);
    CanonicalGrows(h, h', n.full);
    OthersVotes(h, h', id, n);
    OthersAcksKept(h, h', id, n);
    CommittedGrows(h, h', n.term, n.full, n.commitIndex);
    EnteredGrows(h, h', n.term);
    match n.role {
      case Follower =>
      case PreCandidate(_) =>
      case Candidate(_) => OthersCandidacy(h, h', id, n);
      case Leader(_, _, _, _, _, _) => OthersLeadership(h, h', id, n);
    }
    forall a | a in n.answers ensures AnswerOk(h', a) {
      assert AnswerOk(h, a);
      AnswerGrows(h, h', id, a);
    }
  }

  lemma {:induction false} SeenGrows(h: History, h': History, o: Observed)
    requires Grows(h, h') && SeenOk(h, o)
    ensures SeenOk(h', o)
  {
    forall t | t in o.leaders ensures t in h'.reigns && o.leaders[t] == h'.reigns[t].leader {
      assert ReignGrows(h.reigns[t], h'.reigns[t]);
    }
    forall k | k in o.commands
      ensures k.0 in h'.reigns && 0 < k.1 <= |h'.reigns[k.0].log|
      ensures h'.reigns[k.0].log[k.1 - 1].term == k.0 && o.commands[k] == h'.reigns[k.0].log[k.1 - 1].command
    {
      assert ReignGrows(h.reigns[k.0], h'.reigns[k.0]);
      assert h'.reigns[k.0].log[k.1 - 1] == h.reigns[k.0].log[k.1 - 1];
    }
  }

  lemma {:induction false} NodesAdvance(c: Cluster, n: Node, h: History, id: NodeId)
    requires Inv(c) && id in c.nodes && Extends(c.hist, h, n.Id())
    requires NodeInv(n) && NodeOk(h, n)
    ensures NodeAt(c.(nodes := c.nodes[n.Id() := n], hist := h), id)
  {
    assert NodeAt(c, id);
    if id != n.Id() { OtherNodeOk(c.hist, h, n.Id(), c.nodes[id]); }
  }

  lemma {:induction false} NetAdvances(c: Cluster, id: NodeId, h: History, m: Message)
    requires Inv(c) && m in c.net && Extends(c.hist, h, id)
    ensures MsgOk(h, m)
  {
    assert MsgOk(c.hist, m);
    MsgGrows(c.hist, h, id, m);
  }

  /** To keep the invariant, a step need only justify what it itself changed. */
  lemma {:induction false} Advance(c: Cluster, n: Node, h: History, sent: set<Message>)
    requires Inv(c) && n.Id() in c.nodes && Extends(c.hist, h, n.Id())
    requires HistoryOk(h) && NodeInv(n) && NodeOk(h, n)
    requires forall m | m in sent :: MsgOk(h, m)
    ensures Inv(Place(c, n, h, sent))
  {
    var c' := Place(c, n, h, sent);
    assert SeenOk(h, c.seen) by {
      ExtendsGrows(c.hist, h, n.Id());
      SeenGrows(c.hist, h, c.seen);
    }
    forall id | id in c'.nodes ensures NodeAt(c', id) {
      NodesAdvance(c, n, h, id);
      assert NodeAt(c.(nodes := c.nodes[n.Id() := n], hist := h), id);
    }
    forall m | m in c'.net ensures MsgOk(h, m) {
      if m in c.net { NetAdvances(c, n.Id(), h, m); }
    }
  }
}
