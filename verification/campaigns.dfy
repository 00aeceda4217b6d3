/** Where the recorded pre-votes and campaigns of a run come from: each
    pre-vote is a reply that was sent, and each campaign a state of the run in
    which the campaigner counted those votes against its own members. */
module Campaigns {
  import opened Types
  import opened Quorum
  import opened Rpc
  import opened Node
  import opened History
  import opened Cluster
  import opened Tenure

  /** Some reply sent so far grants this pre-vote. */
  ghost predicate Granted(net: set<Message>, granter: NodeId, candidate: NodeId, term: Term) {
    exists m ::
      m in net && m.PreVoteResp? && m.granted && m.from == granter && m.to == candidate && m.sentTerm == term
  }

  /** The votes of a campaign, as its node holds them at this point: its own
      at the timeout, or those counted up to and including some reply. */
  ghost predicate Tallied(c: Cluster, n: Node, grants: set<NodeId>) {
    || grants == {n.Id()}
    || exists m ::
      m in c.net && m.to == n.Id() && Counted(n, m).role.PreCandidate? && Counted(n, m).role.votes == grants
  }

  /** At this point the node is one term below the campaign's, does not lead,
      has exactly the campaign's members, and counts exactly its votes. */
  ghost predicate StoodAt(c: Cluster, k: Campaign) {
    && k.node in c.nodes && c.nodes[k.node].Id() == k.node && !c.nodes[k.node].role.Leader?
    && c.nodes[k.node].term + 1 == k.term && c.nodes[k.node].members.Keys == k.members
    && Tallied(c, c.nodes[k.node], k.grants)
  }

  ghost predicate SameTrail(h: History, h': History) {
    h'.campaigns == h.campaigns && h'.preGrants == h.preGrants
  }

  /** What a step adds to the trail it can account for. */
  ghost predicate Accounts(c: Cluster, c': Cluster) {
    && c.net <= c'.net
    && (forall k | k in c'.hist.campaigns :: k in c.hist.campaigns || StoodAt(c, k))
    && (forall p | p in c'.hist.preGrants :: p in c.hist.preGrants || Granted(c'.net, p.0, p.1, p.2))
  }

  lemma {:induction false} PlaceAccounts(c: Cluster, n': Node, h: History, sent: set<Message>)
    requires SameTrail(c.hist, h)
    ensures Accounts(c, Place(c, n', h, sent))
  {
    hide StoodAt, Granted;
  }

  // ---- the history functions ----

  lemma {:induction false} LeadTrail(h: History, n: Node)
    ensures SameTrail(h, WithLead(h, n))
  {
    hide CanCommit, CommitPick, Holders, HasMajority, BecomeLeader;
  }

  lemma {:induction false} CommitTrail(h: History, n: Node)
    ensures SameTrail(h, WithCommit(h, n))
  {
    hide CanCommit, CommitPick, Holders;
  }

  /** An election adds at most the one campaign of this node. */
  lemma {:induction false} ElectionTrail(h: History, n: Node)
    requires n.role.PreCandidate?
    ensures var h' := WithElection(h, n);
      && h'.preGrants == h.preGrants
      && forall k | k in h'.campaigns ::
        k in h.campaigns || k == Campaign(n.Id(), n.term + 1, n.role.votes, n.members.Keys)
  {
    hide WithLead, HasMajority;
    LeadTrail(WithCandidacy(h, n), StartElection(n));
  }

  // ---- the steps that campaign ----

  /** A campaign of a node whose votes have just been tallied. */
  lemma {:induction false} CampaignAccounts(c: Cluster, id: NodeId, n: Node, n': Node, h: History)
    requires id in c.nodes && c.nodes[id].Id() == id && n.role.PreCandidate? && !c.nodes[id].role.Leader?
    requires n.Id() == id && n.term == c.nodes[id].term && n.members == c.nodes[id].members
    requires Tallied(c, c.nodes[id], n.role.votes)
    requires h.preGrants == c.hist.preGrants
    requires forall k | k in h.campaigns ::
      k in c.hist.campaigns || k == Campaign(n.Id(), n.term + 1, n.role.votes, n.members.Keys)
    ensures Accounts(c, Place(c, n', h, {}))
  {
    hide Tallied, Granted;
  }

  lemma {:induction false} TimeoutAccounts(c: Cluster, id: NodeId)
    requires id in c.nodes && c.nodes[id].Id() == id
    ensures Accounts(c, DoTimeout(c, c.nodes[id]))
  {
    hide Accounts, OnElectionTimeout, WithElection, Place;
    var n := c.nodes[id];
    SameAccounts(c);
    if !n.role.Leader? && n.Id() in n.members {
      ElectionTrail(c.hist, PreCampaign(n));
      CampaignAccounts(c, id, PreCampaign(n), OnElectionTimeout(n), WithElection(c.hist, PreCampaign(n)));
    }
  }

  lemma {:induction false} SameAccounts(c: Cluster)
    ensures Accounts(c, c)
  {
    hide StoodAt, Granted;
  }

  lemma {:induction false} PreVoteRespAccounts(c: Cluster, m: Message)
    requires m in c.net && m.PreVoteResp? && m.to in c.nodes && c.nodes[m.to].Id() == m.to
    ensures Accounts(c, DoPreVoteResp(c, c.nodes[m.to], m))
  {
    hide Accounts, OnPreVoteReply, WithElection, Place;
    var n := c.nodes[m.to];
    PlaceAccounts(c, OnPreVoteReply(n, m), c.hist, {});
    if m.term <= n.term && m.sentTerm == n.term + 1 && m.granted && n.role.PreCandidate? {
      var n1 := n.(role := PreCandidate(n.role.votes + {m.from}));
      assert n1 == Counted(n, m);
      ElectionTrail(c.hist, n1);
      CampaignAccounts(c, m.to, n1, OnPreVoteReply(n, m), WithElection(c.hist, n1));
    }
  }

  lemma {:induction false} PreVoteReqAccounts(c: Cluster, m: Message, sticky: bool)
    requires m.PreVoteReq? && m.to in c.nodes
    ensures Accounts(c, DoPreVoteReq(c, c.nodes[m.to], m, sticky))
  {
    hide StoodAt, LogUpToDate;
    var c', reply := DoPreVoteReq(c, c.nodes[m.to], m, sticky), HandlePreVote(c.nodes[m.to], m, sticky);
    assert reply in c'.net;
    assert reply.granted ==> Granted(c'.net, reply.from, reply.to, reply.sentTerm);
  }

  lemma {:induction false} DieStartAccounts(c: Cluster, id: NodeId, n: Node)
    requires id in c.nodes && c.nodes[id].Id() == id && !c.nodes[id].role.Leader?
    requires n.Id() == id && n.term == c.nodes[id].term && n.members == c.nodes[id].members
    requires n.role.PreCandidate? ==> Tallied(c, c.nodes[id], n.role.votes)
    ensures Accounts(c, DoDieStarting(c, n))
  {
    hide Accounts, Place, Restart, HasMajority, Tallied;
    SameAccounts(c);
    if n.role.PreCandidate? && HasMajority(n, n.role.votes) {
      CampaignAccounts(c, id, n, Restart(StartElection(n)), WithCandidacy(c.hist, n));
    }
  }

  lemma {:induction false} DieAloneAccounts(c: Cluster, id: NodeId, led: bool)
    requires id in c.nodes && c.nodes[id].Id() == id
    ensures Accounts(c, DoDieAlone(c, c.nodes[id], led))
  {
    hide Accounts, Place, Restart, HasMajority, BecomeLeader;
    var n := c.nodes[id];
    SameAccounts(c);
    if !n.role.Leader? && n.Id() in n.members {
      var p := PreCampaign(n);
      DieStartAccounts(c, id, p);
      var s := StartElection(p);
      CampaignAccounts(c, id, p, Restart(BecomeLeader(s)), WithReign(WithCandidacy(c.hist, p), s));
    }
  }

  // ---- any step ----

  lemma {:induction false} DeliverAccounts(c: Cluster, m: Message, sticky: bool)
    requires m in c.net && m.to in c.nodes && c.nodes[m.to].Id() == m.to
    ensures Accounts(c, DoDeliver(c, c.nodes[m.to], m, sticky))
  {
    hide Accounts, DoPreVoteReq, DoPreVoteResp, Place, GrantsVote, PrevMatches, Accept, FollowCommit, InstallFrom,
      OnVoteReply, OnAppendReply, OnSnapshotReply, WithLead, WithCommit, RecordMatch, RecordInstalled, AdoptTerm;
    var n := c.nodes[m.to];
    match m {
      case PreVoteReq(_, _, _, _, _) => PreVoteReqAccounts(c, m, sticky);
      case PreVoteResp(_, _, _, _, _) => PreVoteRespAccounts(c, m);
      case VoteReq(_, _, _, _, _) =>
        var (n', reply) := HandleRequestVote(n, m);
        PlaceAccounts(c, n',
            if reply.granted then WithBallot(c.hist, AdoptTerm(n, m.term), m.from) else c.hist, {reply});
      case VoteResp(_, _, _, _, _) =>
        PlaceAccounts(c, OnVoteReply(n, m), c.hist, {});
        if n.role.Candidate? {
          var n1 := n.(role := Candidate(n.role.votes + {m.from}));
          LeadTrail(c.hist, n1);
          PlaceAccounts(c, OnVoteReply(n, m), WithLead(c.hist, n1), {});
        }
      case AppendReq(_, _, _, _, _, _, _, _) =>
        var (n', reply) := HandleAppendEntries(n, m);
        PlaceAccounts(c, n',
            if reply.success then WithAck(c.hist, n.Id(), m.term, m.prevIndex + |m.entries|) else c.hist, {reply});
      case AppendResp(_, _, _, _, _, _, _, _) =>
        PlaceAccounts(c, OnAppendReply(n, m), c.hist, {});
        if n.role.Leader? {
          var n1 := RecordMatch(RecordAck(n, m.from, m.sentBeat), m.from, m.sentPrev + m.sentEntries);
          CommitTrail(c.hist, n1);
          PlaceAccounts(c, OnAppendReply(n, m), WithCommit(c.hist, n1), {});
        }
      case SnapshotReq(_, _, _, _, _) =>
        var (n', reply) := HandleInstallSnapshot(n, m);
        PlaceAccounts(c, n',
            if reply.term == m.term then WithAck(c.hist, n.Id(), m.term, m.snapshot.lastIndex) else c.hist, {reply});
      case SnapshotResp(_, _, _, _, _) =>
        PlaceAccounts(c, OnSnapshotReply(n, m), c.hist, {});
        if n.role.Leader? {
          var n1 := RecordInstalled(n, m.from, m.lastIncluded);
          CommitTrail(c.hist, n1);
          PlaceAccounts(c, OnSnapshotReply(n, m), WithCommit(c.hist, n1), {});
        }
    }
  }

  lemma {:induction false} SendAccounts(c: Cluster, n: Node, peer: NodeId)
    ensures Accounts(c, DoSend(c, n, peer))
  {
    hide SendTo, StoodAt, Granted;
  }

  lemma {:induction false} ProposeAccounts(c: Cluster, n: Node, command: Command, recent: set<NodeId>)
    ensures Accounts(c, DoPropose(c, n, command, recent)) && Accounts(c, DoDieProposing(c, n, command, recent))
  {
    hide Accounts, AdmitProposal, HandlePropose, AppendProposal, WithCommit, Restart, Place;
    SameAccounts(c);
    var h := WithEntry(c.hist, n, command);
    CommitTrail(h, AppendProposal(n, command));
    PlaceAccounts(c, HandlePropose(n, command, recent), WithCommit(h, AppendProposal(n, command)), {});
    PlaceAccounts(c, Restart(AppendProposal(n, command)), h, {});
  }

  lemma {:induction false} DieLeadAccounts(c: Cluster, n: Node)
    ensures Accounts(c, DoDieLeading(c, n, c.hist))
  {
    hide Accounts, HasMajority, BecomeLeader, Restart, Place;
    SameAccounts(c);
    if n.role.Candidate? { PlaceAccounts(c, Restart(BecomeLeader(n)), WithReign(c.hist, n), {}); }
  }

  /** Every event accounts for what it adds to the trail. */
  lemma {:induction false} StepAccounts(c: Cluster, a: Action)
    requires IdsOk(c)
    ensures Accounts(c, Step(c, a))
  {
    hide Accounts, DoPropose, DoTimeout, DoDeliver, DoSend, Place, Restart, DieInAppend, OnHeartbeatTick, HandleRead,
      DoDieProposing, DoDieStarting, DoDieLeading, DoDieAlone, AdoptTerm, Tallied;
    SameAccounts(c);
    match a {
      case Propose(id, command, recent) => if id in c.nodes { ProposeAccounts(c, c.nodes[id], command, recent); }
      case Read(id) =>
        if id in c.nodes { PlaceAccounts(c, HandleRead(c.nodes[id]), WithRead(c.hist, c.nodes[id]), {}); }
      case Timeout(id) => if id in c.nodes { TimeoutAccounts(c, id); }
      case Tick(id, recent) =>
        if id in c.nodes { PlaceAccounts(c, OnHeartbeatTick(c.nodes[id], recent), c.hist, {}); }
      case Deliver(m, sticky) => if m in c.net && m.to in c.nodes { DeliverAccounts(c, m, sticky); }
      case Send(id, peer) => if id in c.nodes { SendAccounts(c, c.nodes[id], peer); }
      case Crash(id) => if id in c.nodes { PlaceAccounts(c, Restart(c.nodes[id]), c.hist, {}); }
      case DieOnTerm(m) =>
        if m.to in c.nodes { PlaceAccounts(c, Restart(AdoptTerm(c.nodes[m.to], m.term)), c.hist, {}); }
      case DieAppending(m, kept) =>
        if m.to in c.nodes && m.AppendReq? { PlaceAccounts(c, DieInAppend(c.nodes[m.to], m, kept), c.hist, {}); }
      case DieProposing(id, command, recent) => if id in c.nodes { ProposeAccounts(c, c.nodes[id], command, recent); }
      case DieStarting(m) => if m in c.net && m.to in c.nodes { DieCountedAccounts(c, m); }
      case DieLeading(m) => if m.to in c.nodes { DieLeadAccounts(c, Counted(c.nodes[m.to], m)); }
      case DieAlone(id, led) => if id in c.nodes { DieAloneAccounts(c, id, led); }
    }
  }

  lemma {:induction false} DieCountedAccounts(c: Cluster, m: Message)
    requires m in c.net && m.to in c.nodes && c.nodes[m.to].Id() == m.to
    ensures Accounts(c, DoDieStarting(c, Counted(c.nodes[m.to], m)))
  {
    hide Accounts, Place, Restart, HasMajority;
    SameAccounts(c);
    var n := c.nodes[m.to];
    if Counted(n, m).role.PreCandidate? { DieStartAccounts(c, m.to, Counted(n, m)); }
  }

  // ---- runs ----

  /** Every recorded pre-vote is a reply that was sent. */
  ghost predicate GrantsSent(c: Cluster) {
    forall p | p in c.hist.preGrants :: Granted(c.net, p.0, p.1, p.2)
  }

  lemma {:induction false} SentStay(net: set<Message>, net': set<Message>, p: (NodeId, NodeId, Term))
    requires net <= net' && Granted(net, p.0, p.1, p.2)
    ensures Granted(net', p.0, p.1, p.2)
  {
    var m :| m in net && m.PreVoteResp? && m.granted && m.from == p.0 && m.to == p.1 && m.sentTerm == p.2;
    assert m in net';
  }

  lemma {:induction false} RunGrants(run: seq<Cluster>, k: nat)
    requires IsRun(run) && IdsOk(run[0]) && GrantsSent(run[0]) && k < |run|
    ensures GrantsSent(run[k])
  {
    hide IdsOk, Step, Granted;
    if k > 0 {
      RunGrants(run, k - 1);
      RunSteady(run, k - 1);
      assert Moves(run, k);
      var a :| run[k] == Step(run[k - 1], a);
      StepAccounts(run[k - 1], a);
      forall p | p in run[k].hist.preGrants ensures Granted(run[k].net, p.0, p.1, p.2) {
        if p in run[k - 1].hist.preGrants { SentStay(run[k - 1].net, run[k].net, p); }
      }
    }
  }

  /** Every campaign of a run that starts without any stood at some state of it. */
  lemma {:induction false} RunCampaigns(run: seq<Cluster>, j: nat, k: Campaign) returns (i: nat)
    requires IsRun(run) && IdsOk(run[0]) && run[0].hist.campaigns == {} && j < |run| && k in run[j].hist.campaigns
    ensures i < j && StoodAt(run[i], k)
  {
    hide IdsOk, Step, StoodAt, Granted;
    assert j > 0;
    if k in run[j - 1].hist.campaigns {
      i := RunCampaigns(run, j - 1, k);
    } else {
      i := j - 1;
      RunSteady(run, i);
      assert Moves(run, j);
      var a :| run[j] == Step(run[j - 1], a);
      StepAccounts(run[j - 1], a);
    }
  }
}
