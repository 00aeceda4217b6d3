/** Every step of the cluster keeps the invariant and only adds to the history. */
module Steps {
  import opened Types
  import opened Quorum
  import opened Storage
  import opened Rpc
  import opened Observer
  import opened Node
  import opened NodeInvariant
  import opened History
  import opened Completeness
  import opened Growth
  import opened Cluster
  import opened Invariant
  import opened Frame
  import opened Election
  import opened Followers
  import opened Leaders
  import opened Commitment
  import opened Replies
  import opened Sending

  ghost predicate ReadsKept(h: History, h': History) {
    forall k {:trigger h.readPoints[k]} {:trigger h'.readPoints[k]} | k in h.readPoints ::
      k in h'.readPoints && h'.readPoints[k] == h.readPoints[k]
  }

  ghost predicate TermsKept(c: Cluster, c': Cluster) {
    c'.nodes.Keys == c.nodes.Keys
    && forall id {:trigger c.nodes[id]} {:trigger c'.nodes[id]} | id in c.nodes :: c.nodes[id].term <= c'.nodes[id].term
  }

  /** Nothing that was promised is taken back and no term goes down. */
  ghost predicate Later(c: Cluster, c': Cluster) {
    && Grows(c.hist, c'.hist)
    && ReadsKept(c.hist, c'.hist)
    && TermsKept(c, c')
    && c.net <= c'.net
  }

  ghost predicate Preserves(c: Cluster, c': Cluster) {
    Inv(c') && Later(c, c')
  }

  lemma {:induction false} LaterTransitive(a: Cluster, b: Cluster, c: Cluster)
    requires Later(a, b) && Later(b, c)
    ensures Later(a, c)
  {
    GrowsTransitive(a.hist, b.hist, c.hist);
    hide Grows;
    forall k | k in a.hist.readPoints ensures k in c.hist.readPoints && c.hist.readPoints[k] == a.hist.readPoints[k] {
      assert b.hist.readPoints[k] == a.hist.readPoints[k];
    }
    forall id | id in a.nodes ensures a.nodes[id].term <= c.nodes[id].term {
      assert a.nodes[id].term <= b.nodes[id].term;
    }
  }

  lemma {:induction false} NodeGood(c: Cluster, id: NodeId)
    requires Inv(c) && id in c.nodes
    ensures Good(c.hist, c.nodes[id]) && c.nodes[id].Id() == id
  {
    assert NodeAt(c, id);
  }

  lemma {:induction false} PlaceKeeps(c: Cluster, id: NodeId, h': History, n': Node, sent: set<Message>)
    requires Inv(c) && id in c.nodes && Leads(c.hist, c.nodes[id], h', n')
    requires forall m | m in sent :: MsgOk(h', m)
    ensures Preserves(c, Place(c, n', h', sent))
  {
    NodeGood(c, id);
    ReadsStay(c.hist, h', id);
    PlaceTerms(c, n', h', sent);
    ExtendsGrows(c.hist, h', id);
    hide Inv, HistoryOk, NodeInv, NodeOk, Extends, Grows, ReadsKept, TermsKept;
    Advance(c, n', h', sent);
  }

  lemma {:induction false} PlaceTerms(c: Cluster, n': Node, h': History, sent: set<Message>)
    requires n'.Id() in c.nodes && c.nodes[n'.Id()].term <= n'.term
    ensures TermsKept(c, Place(c, n', h', sent))
  {
  }

  lemma {:induction false} ReadsStay(h: History, h': History, id: NodeId)
    requires Extends(h, h', id)
    ensures ReadsKept(h, h')
  {
  }

  lemma {:induction false} SameKeeps(c: Cluster)
    requires Inv(c)
    ensures Preserves(c, c)
  {
    ExtendsSelf(c.hist, 0);
    ExtendsGrows(c.hist, c.hist, 0);
  }

  // ---- clients and timers ----

  lemma {:induction false} ProposeKeeps(c: Cluster, id: NodeId, command: Command, recent: set<NodeId>)
    requires Inv(c) && id in c.nodes
    ensures Preserves(c, DoPropose(c, c.nodes[id], command, recent))
  {
    var n, h := c.nodes[id], c.hist;
    NodeGood(c, id);
    hide Inv, Good, Extends, AppendProposal, WithEntry, MaybeAdvanceCommit, WithCommit, AdmitProposal, Preserves, Place;
    if AdmitProposal(n, command, recent).Accepted? {
      ProposeGood(h, n, command, recent);
      var h1, n1 := WithEntry(h, n, command), AppendProposal(n, command);
      MaybeAdvanceGood(h1, n1);
      LeadsTransitive(h, n, h1, n1, WithCommit(h1, n1), MaybeAdvanceCommit(n1));
      PlaceKeeps(c, id, WithCommit(h1, n1), MaybeAdvanceCommit(n1), {});
    } else {
      SameKeeps(c);
    }
  }

  lemma {:induction false} ReadKeeps(c: Cluster, id: NodeId)
    requires Inv(c) && id in c.nodes
    ensures Preserves(c, DoRead(c, c.nodes[id]))
  {
    NodeGood(c, id);
    hide Inv, Good, Extends, HandleRead, WithRead, Preserves, Place;
    if c.nodes[id].role.Leader? {
      HandleReadGood(c.hist, c.nodes[id]);
      PlaceKeeps(c, id, WithRead(c.hist, c.nodes[id]), HandleRead(c.nodes[id]), {});
    } else {
      SameKeeps(c);
    }
  }

  lemma {:induction false} TimeoutKeeps(c: Cluster, id: NodeId)
    requires Inv(c) && id in c.nodes
    ensures Preserves(c, DoTimeout(c, c.nodes[id]))
  {
    var n, h := c.nodes[id], c.hist;
    NodeGood(c, id);
    hide Inv, Good, Extends, PreCampaign, WithElection, MaybeStartElection, Preserves, Place;
    if n.role.Leader? || n.Id() !in n.members {
      SameKeeps(c);
    } else {
      PreCampaignGood(h, n);
      var n1 := PreCampaign(n);
      MaybeElectGood(h, n1);
      LeadsTransitive(h, n, h, n1, WithElection(h, n1), MaybeStartElection(n1));
      PlaceKeeps(c, id, WithElection(h, n1), MaybeStartElection(n1), {});
    }
  }

  lemma {:induction false} TickKeeps(c: Cluster, id: NodeId, recent: set<NodeId>)
    requires Inv(c) && id in c.nodes
    ensures Preserves(c, Place(c, OnHeartbeatTick(c.nodes[id], recent), c.hist, {}))
  {
    var n, h := c.nodes[id], c.hist;
    NodeGood(c, id);
    FollowerGood(h, n, n.term, None);
    LeadsSelf(h, n);
    hide Inv, Good, Extends, Preserves, Place;
    PlaceKeeps(c, id, h, OnHeartbeatTick(n, recent), {});
  }

  // ---- elections ----

  lemma {:induction false} VoteReplyOk(h: History, n: Node, m: Message, granted: bool)
    requires m.VoteReq? && Entered(h, n.term) && (granted ==> VotedFor(h, n.Id(), m.term, m.from))
    ensures MsgOk(h, VoteResp(n.Id(), m.from, m.term, n.term, granted))
  {
  }

  lemma {:induction false} HandleVoteGood(h: History, n: Node, m: Message)
    requires Good(h, n) && m.VoteReq? && MsgOk(h, m)
    ensures var (n', reply) := HandleRequestVote(n, m);
      var h' := if reply.granted then WithBallot(h, AdoptTerm(n, m.term), m.from) else h;
      Leads(h, n, h', n') && MsgOk(h', reply)
  {
    var n1 := AdoptTerm(n, m.term);
    AdoptTermGood(h, n, m.term) by { assert Entered(h, m.term); }
    if GrantsVote(n1, m) {
      var h1 := WithBallot(h, n1, m.from);
      CastVoteGood(h, n1, m);
      hide Good, Extends, CastVote, MsgOk, WithBallot, AdoptTerm, LogUpToDate;
      LeadsTransitive(h, n, h, n1, h1, CastVote(n1, m.from));
      VoteReplyOk(h1, n1, m, true) by { TermEntered(h1, CastVote(n1, m.from)); VoteKeepsTerm(n1, m.from); }
    } else {
      hide Extends, MsgOk, WithBallot, GrantsVote, AdoptTerm;
      VoteReplyOk(h, n1, m, false);
    }
  }

  lemma {:induction false} VoteKeepsTerm(n: Node, candidate: NodeId)
    ensures CastVote(n, candidate).term == n.term
  {
  }

  lemma {:induction false} TermEntered(h: History, n: Node)
    requires Good(h, n)
    ensures Entered(h, n.term)
  {
  }

  lemma {:induction false} ReplyKeeps(c: Cluster, id: NodeId, h': History, n': Node, reply: Message)
    requires Inv(c) && id in c.nodes && Leads(c.hist, c.nodes[id], h', n') && MsgOk(h', reply)
    ensures Preserves(c, Place(c, n', h', {reply}))
  {
    hide Inv, Leads, MsgOk, Preserves, Place;
    PlaceKeeps(c, id, h', n', {reply});
  }

  lemma {:induction false} VoteReqKeeps(c: Cluster, id: NodeId, m: Message)
    requires Inv(c) && id in c.nodes && m.VoteReq? && MsgOk(c.hist, m)
    ensures Preserves(c, DoVoteReq(c, c.nodes[id], m))
  {
    var n, h := c.nodes[id], c.hist;
    NodeGood(c, id);
    hide Inv, Leads, Good, MsgOk, HandleRequestVote, WithBallot, AdoptTerm, Preserves, Place;
    HandleVoteGood(h, n, m);
    var (n', reply) := HandleRequestVote(n, m);
    ReplyKeeps(c, id, if reply.granted then WithBallot(h, AdoptTerm(n, m.term), m.from) else h, n', reply);
  }

  lemma {:induction false} PreVoteReqKeeps(c: Cluster, id: NodeId, m: Message, sticky: bool)
    requires Inv(c) && id in c.nodes && m.PreVoteReq?
    ensures Preserves(c, DoPreVoteReq(c, c.nodes[id], m, sticky))
  {
    var n, h := c.nodes[id], c.hist;
    NodeGood(c, id);
    var reply := HandlePreVote(n, m, sticky);
    assert MsgOk(WithPreGrant(h, reply), reply);
    hide Inv, Extends, Preserves, Place, HandlePreVote, WithPreGrant, MsgOk, NodeOk, NodeInv, HistoryOk;
    PreGrantGood(h, n, reply);
    ReplyKeeps(c, id, WithPreGrant(h, reply), n, reply);
  }

  lemma {:induction false} PreVoteRespGood(h: History, n: Node, m: Message)
    requires Good(h, n) && m.PreVoteResp? && MsgOk(h, m) && m.to == n.Id()
    ensures var h' :=
        if m.term > n.term || m.sentTerm != n.term + 1 || !m.granted || !n.role.PreCandidate? then h
        else WithElection(h, n.(role := PreCandidate(n.role.votes + {m.from})));
      Leads(h, n, h', OnPreVoteReply(n, m))
  {
    if m.term > n.term {
      FollowerGood(h, n, m.term, None);
    } else if m.sentTerm != n.term + 1 || !m.granted || !n.role.PreCandidate? {
      LeadsSelf(h, n);
    } else {
      PreVoteAdded(h, n, m.from);
      hide Good, Extends, MsgOk, WithElection, MaybeStartElection;
      var n1 := n.(role := PreCandidate(n.role.votes + {m.from}));
      MaybeElectGood(h, n1);
      LeadsTransitive(h, n, h, n1, WithElection(h, n1), MaybeStartElection(n1));
    }
  }

  lemma {:induction false} PreVoteRespKeeps(c: Cluster, id: NodeId, m: Message)
    requires Inv(c) && id in c.nodes && m.PreVoteResp? && MsgOk(c.hist, m) && m.to == id
    ensures Preserves(c, DoPreVoteResp(c, c.nodes[id], m))
  {
    var n, h := c.nodes[id], c.hist;
    NodeGood(c, id);
    hide Inv, Good, Extends, Preserves, Place, MsgOk, OnPreVoteReply, WithElection;
    PreVoteRespGood(h, n, m);
    var h' := if m.term > n.term || m.sentTerm != n.term + 1 || !m.granted || !n.role.PreCandidate? then h
      else WithElection(h, n.(role := PreCandidate(n.role.votes + {m.from})));
    PlaceKeeps(c, id, h', OnPreVoteReply(n, m), {});
  }

  lemma {:induction false} VoteRespGood(h: History, n: Node, m: Message)
    requires Good(h, n) && m.VoteResp? && MsgOk(h, m) && m.to == n.Id()
    ensures var h' :=
        if m.term > n.term || m.sentTerm != n.term || !m.granted || !n.role.Candidate? then h
        else WithLead(h, n.(role := Candidate(n.role.votes + {m.from})));
      Leads(h, n, h', OnVoteReply(n, m))
  {
    if m.term > n.term {
      FollowerGood(h, n, m.term, None);
    } else if m.sentTerm != n.term || !m.granted || !n.role.Candidate? {
      LeadsSelf(h, n);
    } else {
      VoteForMe(h, n, m);
      hide Good, Extends, MsgOk, WithLead, MaybeBecomeLeader;
      VoteAdded(h, n, m.from);
      var n1 := n.(role := Candidate(n.role.votes + {m.from}));
      MaybeLeadGood(h, n1);
      LeadsTransitive(h, n, h, n1, WithLead(h, n1), MaybeBecomeLeader(n1));
    }
  }

  lemma {:induction false} VoteForMe(h: History, n: Node, m: Message)
    requires m.VoteResp? && MsgOk(h, m) && m.granted
    ensures VotedFor(h, m.from, m.sentTerm, m.to)
  {
  }

  lemma {:induction false} VoteRespKeeps(c: Cluster, id: NodeId, m: Message)
    requires Inv(c) && id in c.nodes && m.VoteResp? && MsgOk(c.hist, m) && m.to == id
    ensures Preserves(c, DoVoteResp(c, c.nodes[id], m))
  {
    var n, h := c.nodes[id], c.hist;
    NodeGood(c, id);
    hide Inv, Good, Extends, Preserves, Place, MsgOk, OnVoteReply, WithLead;
    VoteRespGood(h, n, m);
    var h' := if m.term > n.term || m.sentTerm != n.term || !m.granted || !n.role.Candidate? then h
      else WithLead(h, n.(role := Candidate(n.role.votes + {m.from})));
    PlaceKeeps(c, id, h', OnVoteReply(n, m), {});
  }

  // ---- replication ----

  ghost function AfterAppendReq(h: History, n: Node, m: Message): History
    requires m.AppendReq?
  {
    if HandleAppendEntries(n, m).1.success then WithAck(h, n.Id(), m.term, m.prevIndex + |m.entries|) else h
  }

  lemma {:induction false} AppendReqLeads(h: History, n: Node, m: Message)
    requires Good(h, n) && m.AppendReq? && MsgOk(h, m)
    ensures Leads(h, n, AfterAppendReq(h, n, m), HandleAppendEntries(n, m).0)
    ensures MsgOk(AfterAppendReq(h, n, m), HandleAppendEntries(n, m).1)
  {
    hide Leads, Good, MsgOk, BecomeFollower, PrevMatches, FollowCommit, Accept, WithAck;
    HandleAppendGood(h, n, m);
  }

  lemma {:induction false} AppendReqKeeps(c: Cluster, id: NodeId, m: Message)
    requires Inv(c) && id in c.nodes && m.AppendReq? && MsgOk(c.hist, m)
    ensures Preserves(c, DoAppendReq(c, c.nodes[id], m))
  {
    hide Inv, Leads, Good, MsgOk, BecomeFollower, PrevMatches, FollowCommit, Accept, WithAck, Preserves, Place;
    NodeGood(c, id);
    AppendReqLeads(c.hist, c.nodes[id], m);
    var (n', reply) := HandleAppendEntries(c.nodes[id], m);
    ReplyKeeps(c, id, AfterAppendReq(c.hist, c.nodes[id], m), n', reply);
  }

  lemma {:induction false} SnapshotReqKeeps(c: Cluster, id: NodeId, m: Message)
    requires Inv(c) && id in c.nodes && m.SnapshotReq? && MsgOk(c.hist, m)
    ensures Preserves(c, DoSnapshotReq(c, c.nodes[id], m))
  {
    var n, h := c.nodes[id], c.hist;
    NodeGood(c, id);
    hide Inv, Leads, Good, MsgOk, HandleInstallSnapshot, WithAck, Preserves, Place;
    HandleSnapshotGood(h, n, m);
    var (n', reply) := HandleInstallSnapshot(n, m);
    ReplyKeeps(c, id, if reply.term == m.term then WithAck(h, n.Id(), m.term, m.snapshot.lastIndex) else h, n', reply);
  }

  lemma {:induction false} SuccessGood(h: History, n: Node, m: Message)
    requires Good(h, n) && n.role.Leader? && m.AppendResp? && AppendRespOk(h, m) && m.success && m.sentTerm == n.term
    requires Answered(h, m.from, n.term, m.sentBeat)
    ensures var n2 := RecordMatch(RecordAck(n, m.from, m.sentBeat), m.from, m.sentPrev + m.sentEntries);
      Leads(h, n, WithCommit(h, n2), ResolveReads(MaybeAdvanceCommit(n2)))
  {
    var n1 := RecordAck(n, m.from, m.sentBeat);
    hide Good, Extends, RecordMatch, WithCommit, MaybeAdvanceCommit, ResolveReads;
    RecordAckGood(h, n, m.from, m.sentBeat);
    RecordMatchGood(h, n1, m.from, m.sentPrev + m.sentEntries);
    var n2 := RecordMatch(n1, m.from, m.sentPrev + m.sentEntries);
    LeadsTransitive(h, n, h, n1, h, n2);
    MaybeAdvanceGood(h, n2);
    var h3, n3 := WithCommit(h, n2), MaybeAdvanceCommit(n2);
    LeadsTransitive(h, n, h, n2, h3, n3);
    ResolveReadsGood(h3, n3);
    LeadsTransitive(h, n, h3, n3, h3, ResolveReads(n3));
  }

  lemma {:induction false} RejectionGood(h: History, n: Node, m: Message)
    requires Good(h, n) && n.role.Leader? && m.AppendResp? && Answered(h, m.from, n.term, m.sentBeat)
    ensures Leads(h, n, h, ResolveReads(Backtrack(RecordAck(n, m.from, m.sentBeat), m.from, m.sentPrev)))
  {
    var n1 := RecordAck(n, m.from, m.sentBeat);
    hide Good, Extends, Backtrack, ResolveReads;
    RecordAckGood(h, n, m.from, m.sentBeat);
    BacktrackGood(h, n1, m.from, m.sentPrev);
    var n2 := Backtrack(n1, m.from, m.sentPrev);
    LeadsTransitive(h, n, h, n1, h, n2);
    ResolveReadsGood(h, n2);
    LeadsTransitive(h, n, h, n2, h, ResolveReads(n2));
  }

  ghost function AfterAppendResp(h: History, n: Node, m: Message): History
    requires m.AppendResp?
  {
    if m.term > n.term || m.sentTerm != n.term || !n.role.Leader? || !m.success then h
    else WithCommit(h, RecordMatch(RecordAck(n, m.from, m.sentBeat), m.from, m.sentPrev + m.sentEntries))
  }

  lemma {:induction false} MsgEntered(h: History, m: Message)
    requires MsgOk(h, m) && !m.PreVoteReq?
    ensures Entered(h, m.term)
  {
  }

  lemma {:induction false} OwnAppendResp(h: History, n: Node, m: Message)
    requires m.AppendResp? && MsgOk(h, m) && m.term <= n.term == m.sentTerm
    ensures AppendRespOk(h, m) && Answered(h, m.from, n.term, m.sentBeat)
  {
  }

  lemma {:induction false} AppendRespLeads(h: History, n: Node, m: Message)
    requires Good(h, n) && m.AppendResp? && MsgOk(h, m)
    ensures Leads(h, n, AfterAppendResp(h, n, m), OnAppendReply(n, m))
  {
    hide Leads, Good, RecordMatch, WithCommit, MaybeAdvanceCommit, ResolveReads, Backtrack, Answered, MsgOk,
      AppendRespOk, BecomeFollower;
    if m.term > n.term {
      MsgEntered(h, m);
      FollowerGood(h, n, m.term, None);
    } else if m.sentTerm != n.term || !n.role.Leader? {
      LeadsSelf(h, n);
    } else {
      OwnAppendResp(h, n, m);
      if m.success { SuccessGood(h, n, m); } else { RejectionGood(h, n, m); }
    }
  }

  lemma {:induction false} AppendRespKeeps(c: Cluster, id: NodeId, m: Message)
    requires Inv(c) && id in c.nodes && m.AppendResp? && MsgOk(c.hist, m)
    ensures Preserves(c, DoAppendResp(c, c.nodes[id], m))
  {
    var n, h := c.nodes[id], c.hist;
    NodeGood(c, id);
    hide Inv, Leads, Good, MsgOk, OnAppendReply, WithCommit, RecordMatch, Preserves, Place;
    AppendRespLeads(h, n, m);
    PlaceKeeps(c, id, AfterAppendResp(h, n, m), OnAppendReply(n, m), {});
  }

  ghost function AfterSnapshotResp(h: History, n: Node, m: Message): History
    requires m.SnapshotResp?
  {
    if m.term > n.term || m.sentTerm != n.term || !n.role.Leader? then h
    else WithCommit(h, RecordInstalled(n, m.from, m.lastIncluded))
  }

  lemma {:induction false} SnapshotRespLeads(h: History, n: Node, m: Message)
    requires Good(h, n) && m.SnapshotResp? && MsgOk(h, m)
    ensures Leads(h, n, AfterSnapshotResp(h, n, m), OnSnapshotReply(n, m))
  {
    if m.term > n.term {
      FollowerGood(h, n, m.term, None);
    } else if m.sentTerm != n.term || !n.role.Leader? {
      LeadsSelf(h, n);
    } else {
      assert Ack(m.from, n.term, m.lastIncluded) in h.acks;
      hide Good, Extends, RecordInstalled, WithCommit, MaybeAdvanceCommit, MsgOk;
      RecordInstalledGood(h, n, m.from, m.lastIncluded);
      var n1 := RecordInstalled(n, m.from, m.lastIncluded);
      MaybeAdvanceGood(h, n1);
      LeadsTransitive(h, n, h, n1, WithCommit(h, n1), MaybeAdvanceCommit(n1));
    }
  }

  lemma {:induction false} SnapshotRespKeeps(c: Cluster, id: NodeId, m: Message)
    requires Inv(c) && id in c.nodes && m.SnapshotResp? && MsgOk(c.hist, m)
    ensures Preserves(c, DoSnapshotResp(c, c.nodes[id], m))
  {
    var n, h := c.nodes[id], c.hist;
    NodeGood(c, id);
    hide Inv, Leads, Good, MsgOk, OnSnapshotReply, WithCommit, RecordInstalled, Preserves, Place;
    SnapshotRespLeads(h, n, m);
    PlaceKeeps(c, id, AfterSnapshotResp(h, n, m), OnSnapshotReply(n, m), {});
  }

  // ---- crashes ----

  lemma {:induction false} CrashKeeps(c: Cluster, id: NodeId)
    requires Inv(c) && id in c.nodes
    ensures Preserves(c, Place(c, Restart(c.nodes[id]), c.hist, {}))
  {
    NodeGood(c, id);
    hide Inv, Good, Extends, Preserves, Place, Restart;
    RestartGood(c.hist, c.nodes[id]);
    PlaceKeeps(c, id, c.hist, Restart(c.nodes[id]), {});
  }

  lemma {:induction false} DieOnTermKeeps(c: Cluster, id: NodeId, m: Message)
    requires Inv(c) && id in c.nodes && !m.PreVoteReq? && MsgOk(c.hist, m)
    ensures Preserves(c, Place(c, Restart(AdoptTerm(c.nodes[id], m.term)), c.hist, {}))
  {
    var n, h := c.nodes[id], c.hist;
    NodeGood(c, id);
    assert Entered(h, m.term);
    hide Inv, Good, Extends, Preserves, Place, Restart, AdoptTerm, MsgOk;
    AdoptTermGood(h, n, m.term);
    var n1 := AdoptTerm(n, m.term);
    RestartGood(h, n1);
    LeadsTransitive(h, n, h, n1, h, Restart(n1));
    PlaceKeeps(c, id, h, Restart(n1), {});
  }

  lemma {:induction false} DieAppendingKeeps(c: Cluster, id: NodeId, m: Message, kept: nat)
    requires Inv(c) && id in c.nodes && m.AppendReq? && MsgOk(c.hist, m)
    ensures Preserves(c, Place(c, DieInAppend(c.nodes[id], m, kept), c.hist, {}))
  {
    NodeGood(c, id);
    hide Inv, Leads, Good, Preserves, Place, DieInAppend, MsgOk;
    DieInAppendGood(c.hist, c.nodes[id], m, kept);
    PlaceKeeps(c, id, c.hist, DieInAppend(c.nodes[id], m, kept), {});
  }

  lemma {:induction false} RestartLeads(h: History, n: Node, h1: History, n1: Node)
    requires Leads(h, n, h1, n1)
    ensures Leads(h, n, h1, Restart(n1))
  {
    hide Good, Extends, Restart;
    RestartGood(h1, n1);
    LeadsTransitive(h, n, h1, n1, h1, Restart(n1));
  }

  lemma {:induction false} DieProposingKeeps(c: Cluster, id: NodeId, command: Command, recent: set<NodeId>)
    requires Inv(c) && id in c.nodes
    ensures Preserves(c, DoDieProposing(c, c.nodes[id], command, recent))
  {
    hide Inv, Good, Leads, AppendProposal, WithEntry, AdmitProposal, Preserves, Place, Restart;
    var n, h := c.nodes[id], c.hist;
    NodeGood(c, id);
    if AdmitProposal(n, command, recent).Accepted? {
      ProposeGood(h, n, command, recent);
      RestartLeads(h, n, WithEntry(h, n, command), AppendProposal(n, command));
      PlaceKeeps(c, id, WithEntry(h, n, command), Restart(AppendProposal(n, command)), {});
    } else {
      SameKeeps(c);
    }
  }

  lemma {:induction false} CountedGood(h: History, n: Node, m: Message)
    requires Good(h, n) && MsgOk(h, m) && m.to == n.Id()
    ensures Leads(h, n, h, Counted(n, m))
  {
    hide Good, Leads;
    LeadsSelf(h, n);
    if m.PreVoteResp? && m.sentTerm == n.term + 1 && m.granted && n.role.PreCandidate? { PreVoteAdded(h, n, m.from); }
    if m.VoteResp? && m.sentTerm == n.term && m.granted && n.role.Candidate? { VoteAdded(h, n, m.from); }
  }

  lemma {:induction false} DieStartingKeeps(c: Cluster, id: NodeId, n1: Node)
    requires Inv(c) && id in c.nodes && Leads(c.hist, c.nodes[id], c.hist, n1)
    ensures Preserves(c, DoDieStarting(c, n1))
  {
    hide Inv, Good, Extends, StartElection, WithCandidacy, HasMajority, Preserves, Place, Restart;
    var n, h := c.nodes[id], c.hist;
    if n1.role.PreCandidate? && HasMajority(n1, n1.role.votes) {
      var h2, n2 := WithCandidacy(h, n1), StartElection(n1);
      StartElectionGood(h, n1);
      LeadsTransitive(h, n, h, n1, h2, n2);
      RestartLeads(h, n, h2, n2);
      PlaceKeeps(c, id, h2, Restart(n2), {});
    } else {
      SameKeeps(c);
    }
  }

  lemma {:induction false} DieLeadingKeeps(c: Cluster, id: NodeId, h1: History, n1: Node)
    requires Inv(c) && id in c.nodes && Leads(c.hist, c.nodes[id], h1, n1)
    ensures Preserves(c, DoDieLeading(c, n1, h1))
  {
    hide Inv, Good, Extends, BecomeLeader, WithReign, HasMajority, Preserves, Place, Restart;
    var n, h := c.nodes[id], c.hist;
    if n1.role.Candidate? && HasMajority(n1, n1.role.votes) {
      var h2, n2 := WithReign(h1, n1), BecomeLeader(n1);
      LeadGood(h1, n1);
      LeadsTransitive(h, n, h1, n1, h2, n2);
      RestartLeads(h, n, h2, n2);
      PlaceKeeps(c, id, h2, Restart(n2), {});
    } else {
      SameKeeps(c);
    }
  }

  lemma {:induction false} DieAloneKeeps(c: Cluster, id: NodeId, led: bool)
    requires Inv(c) && id in c.nodes
    ensures Preserves(c, DoDieAlone(c, c.nodes[id], led))
  {
    hide Inv, Good, Extends, WithCandidacy, StartElection, HasMajority, Preserves, DoDieLeading, DoDieStarting;
    var n, h := c.nodes[id], c.hist;
    NodeGood(c, id);
    if n.role.Leader? || n.Id() !in n.members || !HasMajority(PreCampaign(n), {n.Id()}) {
      SameKeeps(c);
    } else {
      var n1 := PreCampaign(n);
      PreCampaignGood(h, n);
      if led {
        StartElectionGood(h, n1);
        LeadsTransitive(h, n, h, n1, WithCandidacy(h, n1), StartElection(n1));
        DieLeadingKeeps(c, id, WithCandidacy(h, n1), StartElection(n1));
      } else {
        DieStartingKeeps(c, id, n1);
      }
    }
  }

  lemma {:induction false} SendPreserves(c: Cluster, id: NodeId, peer: NodeId)
    requires Inv(c) && id in c.nodes
    ensures Preserves(c, DoSend(c, c.nodes[id], peer))
  {
    SendKeeps(c, id, peer);
    NodeGood(c, id);
    SameKeeps(c);
    if !c.nodes[id].role.Follower? && peer != id { SendGood(c.hist, c.nodes[id], peer); }
  }

  // ---- any step ----

  lemma {:induction false} NetOk(c: Cluster, m: Message)
    requires Inv(c) && m in c.net
    ensures MsgOk(c.hist, m)
  {
  }

  lemma {:induction false} CountedLeads(c: Cluster, m: Message)
    requires Inv(c) && m in c.net && m.to in c.nodes
    ensures Leads(c.hist, c.nodes[m.to], c.hist, Counted(c.nodes[m.to], m))
  {
    hide Inv, Good, Leads, MsgOk, Counted;
    NetOk(c, m);
    NodeGood(c, m.to);
    CountedGood(c.hist, c.nodes[m.to], m);
  }

  lemma {:induction false} DeliverKeeps(c: Cluster, m: Message, sticky: bool)
    requires Inv(c) && m in c.net && m.to in c.nodes
    ensures Preserves(c, DoDeliver(c, c.nodes[m.to], m, sticky))
  {
    hide Inv, Preserves, MsgOk, DoPreVoteReq, DoPreVoteResp, DoVoteReq, DoVoteResp, DoAppendReq, DoAppendResp,
      DoSnapshotReq, DoSnapshotResp;
    NetOk(c, m);
    match m {
      case PreVoteReq(_, _, _, _, _) => PreVoteReqKeeps(c, m.to, m, sticky);
      case PreVoteResp(_, _, _, _, _) => PreVoteRespKeeps(c, m.to, m);
      case VoteReq(_, _, _, _, _) => VoteReqKeeps(c, m.to, m);
      case VoteResp(_, _, _, _, _) => VoteRespKeeps(c, m.to, m);
      case AppendReq(_, _, _, _, _, _, _, _) => AppendReqKeeps(c, m.to, m);
      case AppendResp(_, _, _, _, _, _, _, _) => AppendRespKeeps(c, m.to, m);
      case SnapshotReq(_, _, _, _, _) => SnapshotReqKeeps(c, m.to, m);
      case SnapshotResp(_, _, _, _, _) => SnapshotRespKeeps(c, m.to, m);
    }
  }

  /** One step, whatever it is, keeps the invariant. */
  lemma {:induction false} StepKeeps(c: Cluster, a: Action)
    requires Inv(c)
    ensures Preserves(c, Step(c, a))
  {
    hide Inv, Preserves, MsgOk, DoPropose, DoRead, DoTimeout, DoDeliver, DoSend, Place, Restart, AdoptTerm, DieInAppend,
      OnHeartbeatTick, DoDieProposing, DoDieStarting, DoDieLeading, DoDieAlone, Counted, Good, Leads;
    SameKeeps(c);
    match a {
      case Propose(id, command, recent) => if id in c.nodes { ProposeKeeps(c, id, command, recent); }
      case Read(id) => if id in c.nodes { ReadKeeps(c, id); }
      case Timeout(id) => if id in c.nodes { TimeoutKeeps(c, id); }
      case Tick(id, recent) => if id in c.nodes { TickKeeps(c, id, recent); }
      case Deliver(m, sticky) => if m in c.net && m.to in c.nodes { DeliverKeeps(c, m, sticky); }
      case Send(id, peer) => if id in c.nodes { SendPreserves(c, id, peer); }
      case Crash(id) => if id in c.nodes { CrashKeeps(c, id); }
      case DieOnTerm(m) =>
        if m in c.net && m.to in c.nodes && !m.PreVoteReq? { NetOk(c, m); DieOnTermKeeps(c, m.to, m); }
      case DieAppending(m, kept) =>
        if m in c.net && m.to in c.nodes && m.AppendReq? { NetOk(c, m); DieAppendingKeeps(c, m.to, m, kept); }
      case DieProposing(id, command, recent) => if id in c.nodes { DieProposingKeeps(c, id, command, recent); }
      case DieStarting(m) =>
        if m in c.net && m.to in c.nodes {
          CountedLeads(c, m);
          DieStartingKeeps(c, m.to, Counted(c.nodes[m.to], m));
        }
      case DieLeading(m) =>
        if m in c.net && m.to in c.nodes {
          CountedLeads(c, m);
          DieLeadingKeeps(c, m.to, c.hist, Counted(c.nodes[m.to], m));
        }
      case DieAlone(id, led) => if id in c.nodes { DieAloneKeeps(c, id, led); }
    }
  }

  lemma {:induction false} BootGood(h: History, n: Node)
    requires h.reigns == map[] && h.ballots == map[] && h.candidacies == map[] && h.acks == {}
    requires n == Boot(n.config) && (n.config.boot == map[] || n.config.boot.Keys == h.boot)
    ensures NodeInv(n) && NodeOk(h, n)
  {
    BootOk(n.config);
  }

  lemma {:induction false} InitInv(c: Cluster, boot: set<NodeId>)
    requires Init(c, boot)
    ensures Inv(c)
  {
    forall id | id in c.nodes ensures NodeAt(c, id) {
      assert FreshAt(c, id, boot);
      BootGood(c.hist, c.nodes[id]);
    }
  }

  /** Every state of every run keeps the invariant, and nothing promised
      earlier in a run is ever taken back. */
  lemma {:induction false} RunKeeps(run: seq<Cluster>, k: nat)
    requires IsRun(run) && Inv(run[0]) && k < |run|
    ensures Preserves(run[0], run[k])
  {
    hide Inv, Step, Later;
    if k == 0 {
      SameKeeps(run[0]);
    } else {
      RunKeeps(run, k - 1);
      assert Moves(run, k);
      var a :| run[k] == Step(run[k - 1], a);
      StepKeeps(run[k - 1], a);
      LaterTransitive(run[0], run[k - 1], run[k]);
    }
  }

  lemma {:induction false} JoinedMoves(a: seq<Cluster>, b: seq<Cluster>, k: nat)
    requires IsRun(a) && IsRun(b) && a[|a| - 1] == b[0] && 0 < k < |a + b[1..]|
    ensures Moves(a + b[1..], k)
  {
    hide Next;
    var run := a + b[1..];
    if k < |a| {
      assert Moves(a, k);
      assert run[k] == a[k] && run[k - 1] == a[k - 1];
    } else {
      var i := k - |a| + 1;
      assert Moves(b, i);
      assert run[k] == b[i] && run[k - 1] == b[i - 1];
    }
  }

  lemma {:induction false} ReachesTransitive(c: Cluster, d: Cluster, e: Cluster)
    requires Reaches(c, d) && Reaches(d, e)
    ensures Reaches(c, e)
  {
    hide Next, Moves;
    var a :| IsRun(a) && a[0] == c && a[|a| - 1] == d;
    var b :| IsRun(b) && b[0] == d && b[|b| - 1] == e;
    var run := a + b[1..];
    forall k | 0 < k < |run| ensures Moves(run, k) { JoinedMoves(a, b, k); }
    assert IsRun(run) && run[0] == c && run[|run| - 1] == e;
  }

  lemma {:induction false} StepReaches(c: Cluster, a: Action)
    ensures Reaches(c, Step(c, a))
  {
    hide Step;
    var run := [c, Step(c, a)];
    assert Next(c, Step(c, a));
    assert IsRun(run);
  }
}
