/** Everything else a node does on its own: registering reads, recording
    replies, and campaigning. */
module Replies {
  import opened Types
  import opened Quorum
  import opened Storage
  import opened Rpc
  import opened Node
  import opened NodeInvariant
  import opened History
  import opened Completeness
  import opened Growth
  import opened Cluster
  import opened Invariant
  import opened Frame
  import opened Election
  import opened Followers
  import opened Leaders
  import opened Commitment

  // ---- a leader's own bookkeeping ----

  /** Only the leader's tables changed. */
  lemma {:induction false} TablesGood(h: History, n: Node, n': Node)
    requires Good(h, n) && n.role.Leader? && n'.role.Leader? && n' == n.(role := n'.role)
    requires LeaderOk(h, n') && forall p | p in n'.role.nextIndex :: 1 <= n'.role.nextIndex[p] <= |n.full| + 1
    ensures Leads(h, n, h, n')
  {
    hide HistoryOk, Extends, AnswerOk, LeaderOk;
    ExtendsSelf(h, n.Id());
    ExtendedAcks(h, n, n');
  }

  lemma {:induction false} NextBounds(n: Node)
    requires NodeInv(n) && n.role.Leader?
    ensures forall p | p in n.role.nextIndex :: 1 <= n.role.nextIndex[p] <= |n.full| + 1
  {
  }

  lemma {:induction false} RecordAckGood(h: History, n: Node, from: NodeId, beat: nat)
    requires Good(h, n) && n.role.Leader? && Answered(h, from, n.term, beat)
    ensures Leads(h, n, h, RecordAck(n, from, beat)) && RecordAck(n, from, beat).role.Leader?
  {
    TablesGood(h, n, RecordAck(n, from, beat));
  }

  /** A match index that an acknowledgement backs, and a next index within the log. */
  lemma {:induction false} MatchGood(h: History, n: Node, n': Node, from: NodeId, k: LogIndex, next: LogIndex)
    requires Good(h, n) && n.role.Leader? && n'.role.Leader? && n' == n.(role := n'.role)
    requires n'.role == n.role.(matchIndex := n.role.matchIndex[from := k], nextIndex := n'.role.nextIndex)
    requires k == 0 || Ack(from, n.term, k) in h.acks
    requires n'.role.nextIndex == n.role.nextIndex || n'.role.nextIndex == n.role.nextIndex[from := next]
    requires 1 <= next <= |n.full| + 1
    ensures Leads(h, n, h, n')
  {
    NextBounds(n);
    hide HistoryOk, NodeInv, LogOk, VotesOk, AcksKept, Committed, AnswerOk, Answered, WaitOk, CertAt;
    TablesGood(h, n, n');
  }

  lemma {:induction false} AckedWithin(h: History, n: Node, from: NodeId, k: LogIndex)
    requires Good(h, n) && n.role.Leader? && Ack(from, n.term, k) in h.acks
    ensures k <= |n.full|
    ensures MatchOf(n, from) == 0 || Ack(from, n.term, MatchOf(n, from)) in h.acks
  {
    hide NodeInv, LogOk, VotesOk, AcksKept, Committed, AnswerOk, Answered, WaitOk, CertAt, RecordsOk;
    assert AckOk(h, Ack(from, n.term, k));
  }

  lemma {:induction false} RecordMatchGood(h: History, n: Node, from: NodeId, confirmed: LogIndex)
    requires Good(h, n) && n.role.Leader? && Ack(from, n.term, confirmed) in h.acks
    ensures Leads(h, n, h, RecordMatch(n, from, confirmed))
  {
    hide Good, Extends;
    AckedWithin(h, n, from, confirmed);
    MatchGood(h, n, RecordMatch(n, from, confirmed), from, Max(confirmed, MatchOf(n, from)), confirmed + 1);
  }

  lemma {:induction false} BacktrackGood(h: History, n: Node, from: NodeId, sentPrev: LogIndex)
    requires Good(h, n) && n.role.Leader?
    ensures Leads(h, n, h, Backtrack(n, from, sentPrev))
  {
    TablesGood(h, n, Backtrack(n, from, sentPrev));
  }

  lemma {:induction false} RecordInstalledGood(h: History, n: Node, from: NodeId, boundary: LogIndex)
    requires Good(h, n) && n.role.Leader? && Ack(from, n.term, boundary) in h.acks
    ensures Leads(h, n, h, RecordInstalled(n, from, boundary))
  {
    AckedWithin(h, n, from, boundary);
    NextBounds(n);
    var n' := RecordInstalled(n, from, boundary);
    MatchGood(h, n, n', from, Max(MatchOf(n, from), boundary), n'.role.nextIndex[from]);
  }

  // ---- reads ----

  lemma {:induction false} GrantedNodeOk(h: History, n: Node, n': Node)
    requires Good(h, n) && n.role.Leader? && n' == n.(role := n'.role, answers := n'.answers) && SameButWaiting(n, n')
    requires forall a | a in n'.answers :: a in n.answers || IsGrant(n', n.role.waiting, a)
    ensures NodeOk(h, n')
  {
    hide HistoryOk, BodyOk, AnswerOk, LogOk, IsGrant;
    ExtendedAcks(h, n, n');
    SameFull(h, n, n');
    assert LeaderOk(h, n');
    assert n'.lastApplied == n'.commitIndex by { IndexesAgree(n); }
    AnswersTrue(h, n', n.role.waiting, n.answers);
  }

  lemma {:induction false} IndexesAgree(n: Node)
    requires NodeInv(n)
    ensures n.lastApplied == n.commitIndex <= |n.full|
  {
  }

  lemma {:induction false} GrantedInv(n: Node, n': Node)
    requires NodeInv(n) && n' == n.(role := n'.role, answers := n'.answers) && SameButWaiting(n, n')
    ensures NodeInv(n')
  {
  }

  lemma {:induction false} NotLeading(n: Node)
    requires !n.role.Leader?
    ensures ResolveReads(n) == n
  {
  }

  lemma {:induction false} ResolveReadsGood(h: History, n: Node)
    requires Good(h, n)
    ensures Leads(h, n, h, ResolveReads(n))
  {
    hide HistoryOk, NodeOk, Extends, ResolveReads, IsGrant, BodyOk;
    if n.role.Leader? {
      var n' := ResolveReads(n);
      ResolveReadsOk(n);
      forall a | a in n'.answers ensures a in n.answers || IsGrant(n', n.role.waiting, a) {
        if a !in n.answers { GrantStable(n, n', n.role.waiting, a); }
      }
      GrantedNodeOk(h, n, n');
      GrantedInv(n, n');
      ExtendsSelf(h, n.Id());
    } else {
      NotLeading(n);
      LeadsSelf(h, n);
    }
  }

  /** Until a later leader appears, the leader's read index is past every commit. */
  lemma {:induction false} ReadIndexCovers(h: History, n: Node, c: Cert)
    requires WellFormed(h) && n.role.Leader? && LeaderOk(h, n) && c in h.certs
    requires forall w | w in h.reigns :: w <= n.term
    ensures c.index <= Max(n.commitIndex, n.role.termStart)
  {
    assert CertOk(h, c) && ReignOk(h, n.term);
    if c.term < n.term {
      Complete(h, n.term, h.reigns[n.term].init, h.reigns[n.term].voters, c);
    }
  }

  lemma {:induction false} ReadExtends(h: History, n: Node)
    requires RecordsOk(h) && n.role.Leader? && LeaderOk(h, n)
    ensures Extends(h, WithRead(h, n), n.Id())
  {
    var h', key := WithRead(h, n), (n.term, h.reigns[n.term].beat + 1);
    assert key in h.readPoints ==> ReadPointOk(h, key);
    assert ReignGrows(h.reigns[n.term], h'.reigns[n.term]);
  }

  lemma {:induction false} NewReadPoint(h: History, n: Node)
    requires WellFormed(h) && n.role.Leader? && LeaderOk(h, n)
    ensures ReadPointOk(WithRead(h, n), (n.term, h.reigns[n.term].beat + 1))
  {
    var h' := WithRead(h, n);
    forall w, q | w in h'.reigns && q in h'.reigns[w].voters ensures (q, w) in h.ballots {
      assert ReignOk(h, w);
    }
    forall w, i | w in h'.reigns && 0 <= i < |h'.reigns[w].init| ensures h'.reigns[w].init[i].term in h.reigns {
      assert ReignOk(h, w);
      assert Rooted(h, h.reigns[w].log, i);
      assert h.reigns[w].log[i] == h.reigns[w].init[i];
    }
  }

  lemma {:induction false} ReadRecords(h: History, n: Node)
    requires HistoryOk(h) && n.role.Leader? && LeaderOk(h, n)
    ensures RecordsOk(WithRead(h, n))
  {
    var h' := WithRead(h, n);
    ReadExtends(h, n);
    NewReadPoint(h, n);
    forall k | k in h'.ballots ensures BallotFair(h', k) { assert BallotFair(h, k); }
    forall k | k in h'.readPoints ensures ReadPointOk(h', k) {
      if k in h.readPoints {
        assert ReadPointOk(h, k);
        ReadPointUnder(h, h', k);
      }
    }
    forall c | c in h'.campaigns ensures CampaignOk(h', c) { assert CampaignOk(h, c); }
    forall t | t in h'.reigns ensures ReignRecorded(h', t) { assert ReignRecorded(h, t); }
  }

  lemma {:induction false} ReadWellFormed(h: History, n: Node)
    requires HistoryOk(h) && n.role.Leader? && LeaderOk(h, n)
    ensures WellFormed(WithRead(h, n))
  {
    var h' := WithRead(h, n);
    ReadExtends(h, n);
    ExtendsGrows(h, h', n.Id());
    hide Extends, Grows, WellFormed, RecordsOk;
    assert NewPartsOk(h, h');
    StaysWellFormed(h, h');
  }

  lemma {:induction false} NewWait(h: History, n: Node)
    requires WellFormed(h) && n.role.Leader? && LeaderOk(h, n)
    ensures WaitOk(WithRead(h, n), n.term,
                   PendingRead(n.role.beat + 1, Max(n.commitIndex, n.role.termStart)))
  {
    if forall w | w in h.reigns :: w <= n.term {
      forall c | c in h.certs ensures c.index <= Max(n.commitIndex, n.role.termStart) {
        ReadIndexCovers(h, n, c);
      }
    }
  }

  lemma {:induction false} RegisteredLeader(h: History, n: Node)
    requires HistoryOk(h) && n.role.Leader? && LeaderOk(h, n)
    ensures LeaderOk(WithRead(h, n), RegisterRead(n))
  {
    var h', n' := WithRead(h, n), RegisterRead(n);
    ReadExtends(h, n);
    forall p | p in n'.role.acked ensures Answered(h', p, n.term, n'.role.acked[p]) {
      AnsweredGrows(h, h', n.Id(), p, n.term, n.role.acked[p]);
    }
    NewWait(h, n);
    WaitsGrow(h, h', n);
    if n.commitIndex > |h.reigns[n.term].init| { assert CertAt(h, n.term, n.commitIndex); }
  }

  lemma {:induction false} RegisteredNodeOk(h: History, h': History, n: Node, n': Node)
    requires NodeOk(h, n) && n.role.Leader? && Extends(h, h', n.Id()) && h'.acks == h.acks && h'.ballots == h.ballots
    requires h'.candidacies == h.candidacies && n'.role.Leader? && n' == n.(role := n'.role) && LeaderOk(h', n')
    ensures NodeOk(h', n')
  {
    hide Extends, AnswerOk, LogOk, LeaderOk, AckKept, Committed;
    OwnGrows(h, h', n);
    OwnAcksGrow(h, h', n);
    ExtendedAcks(h', n, n');
    SameFull(h', n, n');
    assert h'.boot == h.boot by { SameBoot(h, h', n.Id()); }
  }

  lemma {:induction false} SameBoot(h: History, h': History, id: NodeId)
    requires Extends(h, h', id)
    ensures h'.boot == h.boot
  {
  }

  lemma {:induction false} RegisterGood(h: History, n: Node)
    requires Good(h, n) && n.role.Leader?
    ensures Leads(h, n, WithRead(h, n), RegisterRead(n))
  {
    ReadExtends(h, n);
    ReadRecords(h, n);
    ReadWellFormed(h, n);
    RegisteredLeader(h, n);
    RegisteredBody(n);
    hide WellFormed, RecordsOk, NodeInv, Extends, NodeOk, LeaderOk;
    RegisteredNodeOk(h, WithRead(h, n), n, RegisterRead(n));
  }

  lemma {:induction false} RegisteredBody(n: Node)
    requires NodeInv(n) && n.role.Leader?
    ensures NodeInv(RegisterRead(n))
  {
  }

  lemma {:induction false} HandleReadGood(h: History, n: Node)
    requires Good(h, n) && n.role.Leader?
    ensures Leads(h, n, WithRead(h, n), HandleRead(n))
  {
    RegisterGood(h, n);
    hide Good, Extends;
    var h', n1 := WithRead(h, n), RegisterRead(n);
    ResolveReadsGood(h', n1);
    LeadsTransitive(h, n, h', n1, h', ResolveReads(n1));
  }

  // ---- campaigning ----

  lemma {:induction false} PreCampaignGood(h: History, n: Node)
    requires Good(h, n) && !n.role.Leader? && n.Id() in n.members
    ensures Leads(h, n, h, PreCampaign(n))
  {
    var n' := PreCampaign(n);
    ExtendsSelf(h, n.Id());
    ExtendedAcks(h, n, n');
    MemberIds(h, n);
  }

  /** A node that is a member knows the configuration its log implies. */
  lemma {:induction false} MemberIds(h: History, n: Node)
    requires MembersOk(n) && n.members.Keys != {} && (n.config.boot == map[] || n.config.boot.Keys == h.boot)
    ensures n.members.Keys == Ids(n.full, h.boot)
  {
  }

  lemma {:induction false} PreVoteAdded(h: History, n: Node, q: NodeId)
    requires Good(h, n) && n.role.PreCandidate? && (q, n.Id(), n.term + 1) in h.preGrants
    ensures Leads(h, n, h, n.(role := PreCandidate(n.role.votes + {q})))
  {
    ExtendsSelf(h, n.Id());
    ExtendedAcks(h, n, n.(role := PreCandidate(n.role.votes + {q})));
  }

  lemma {:induction false} VoteAdded(h: History, n: Node, q: NodeId)
    requires Good(h, n) && n.role.Candidate? && VotedFor(h, q, n.term, n.Id())
    ensures Leads(h, n, h, n.(role := Candidate(n.role.votes + {q})))
  {
    ExtendsSelf(h, n.Id());
    ExtendedAcks(h, n, n.(role := Candidate(n.role.votes + {q})));
  }

  lemma {:induction false} MaybeLeadGood(h: History, n: Node)
    requires Good(h, n)
    ensures Leads(h, n, WithLead(h, n), MaybeBecomeLeader(n))
  {
    hide Good, Extends, MaybeAdvanceCommit, WithCommit, BecomeLeader, WithReign;
    if n.role.Candidate? && HasMajority(n, n.role.votes) {
      LeadGood(h, n);
      var h1, n1 := WithReign(h, n), BecomeLeader(n);
      MaybeAdvanceGood(h1, n1);
      LeadsTransitive(h, n, h1, n1, WithCommit(h1, n1), MaybeAdvanceCommit(n1));
    } else {
      LeadsSelf(h, n);
    }
  }

  lemma {:induction false} MaybeElectGood(h: History, n: Node)
    requires Good(h, n)
    ensures Leads(h, n, WithElection(h, n), MaybeStartElection(n))
  {
    hide Good, Extends, WithLead, MaybeBecomeLeader, WithCandidacy, StartElection;
    if n.role.PreCandidate? && HasMajority(n, n.role.votes) {
      StartElectionGood(h, n);
      var h1, n1 := WithCandidacy(h, n), StartElection(n);
      MaybeLeadGood(h1, n1);
      LeadsTransitive(h, n, h1, n1, WithLead(h1, n1), MaybeBecomeLeader(n1));
    } else {
      LeadsSelf(h, n);
    }
  }

  lemma {:induction false} PreGrantExtends(h: History, n: Node, m: Message)
    requires m.PreVoteResp?
    ensures Extends(h, WithPreGrant(h, m), n.Id())
  {
  }

  lemma {:induction false} PreGrantGood(h: History, n: Node, m: Message)
    requires Good(h, n) && m.PreVoteResp?
    ensures Leads(h, n, WithPreGrant(h, m), n)
  {
    PreGrantExtends(h, n, m);
    PreGrantRecords(h, m);
    hide HistoryOk, NodeInv, Extends, NodeOk;
    PreGrantNodeOk(h, WithPreGrant(h, m), n);
  }

  lemma {:induction false} PreGrantNodeOk(h: History, h': History, n: Node)
    requires NodeOk(h, n) && Extends(h, h', n.Id()) && h' == h.(preGrants := h'.preGrants)
    ensures NodeOk(h', n)
  {
    hide Extends, AnswerOk, LogOk, AckKept, Committed, RoleOk;
    OwnGrows(h, h', n);
    OwnAcksGrow(h, h', n);
    RoleUnderBallots(h, h', n);
  }

  lemma {:induction false} NoNewParts(h: History, h': History)
    requires h'.reigns == h.reigns && h'.ballots == h.ballots && h'.acks == h.acks && h'.certs == h.certs
    ensures NewPartsOk(h, h')
  {
  }

  lemma {:induction false} PreGrantRecords(h: History, m: Message)
    requires HistoryOk(h) && m.PreVoteResp?
    ensures HistoryOk(WithPreGrant(h, m))
  {
    hide WellFormed, NewPartsOk;
    var h' := WithPreGrant(h, m);
    NoNewParts(h, h');
    StaysWellFormed(h, h');
    forall k | k in h'.ballots ensures BallotFair(h', k) { assert BallotFair(h, k); }
    forall k | k in h'.readPoints ensures ReadPointOk(h', k) {
      assert ReadPointOk(h, k);
      ReadPointStays(h, h', k);
    }
    forall c | c in h'.campaigns ensures CampaignOk(h', c) {
      assert CampaignOk(h, c);
      CampaignStays(h, h', c);
    }
    forall t | t in h'.reigns ensures ReignRecorded(h', t) { assert ReignRecorded(h, t); }
  }
}
