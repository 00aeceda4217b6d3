/** Two things every event keeps up at every node: a leader leaves nothing
    uncommitted that it could commit, and whoever a node takes for the leader
    of its term is that leader. */
module Prompt {
  import opened Types
  import opened Quorum
  import opened Storage
  import opened Rpc
  import opened Node
  import opened NodeInvariant
  import opened History
  import opened Completeness
  import opened Growth
  import opened Cluster
  import opened Invariant
  import opened Election
  import opened Followers
  import opened Leaders
  import opened Commitment
  import opened Replies
  import opened Steps
  import opened Tenure
  import opened Progress

  /** Every entry of the leader's term that more than half of the members hold is committed. */
  ghost predicate IsPrompt(n: Node) {
    n.role.Leader? ==>
      forall i | 0 < i <= |n.full| && TermAt(n.full, i) == n.term && MostHold(n, i) :: i <= n.commitIndex
  }

  /** Where a node's idea of the leader may come from: none, the one it had in
      this term, itself, or the leader on record. */
  ghost predicate HintFrom(h: History, n: Node, n': Node) {
    || n'.leaderId.None?
    || (n'.term == n.term && n'.leaderId == n.leaderId)
    || (n'.role.Leader? && n'.leaderId == Some(n'.Id()))
    || (n'.term in h.reigns && n'.leaderId == Some(h.reigns[n'.term].leader))
  }

  ghost predicate Apt(h: History, n: Node, n': Node) {
    n'.config == n.config && (IsPrompt(n) ==> IsPrompt(n')) && HintFrom(h, n, n')
  }

  // ---- parts ----

  /** Nothing a commit is counted from has changed. */
  lemma {:induction false} SameCount(n: Node, n': Node)
    requires n.role.Leader? && n'.role.Leader? && n'.role.matchIndex == n.role.matchIndex
    requires n'.config == n.config && n'.term == n.term && n'.full == n.full && n'.members == n.members
    requires n.commitIndex <= n'.commitIndex && IsPrompt(n)
    ensures IsPrompt(n')
  {
    forall i | 0 < i <= |n'.full| && TermAt(n'.full, i) == n'.term && MostHold(n', i) ensures i <= n'.commitIndex {
      assert MembersHolding(n', i) == MembersHolding(n, i);
      assert MostHold(n, i);
    }
  }

  /** Where every handler that makes or keeps a leader with new counts ends. */
  lemma {:induction false} AdvancePrompt(h: History, n: Node)
    requires Good(h, n) && n.role.Leader?
    ensures IsPrompt(MaybeAdvanceCommit(n))
    ensures MaybeAdvanceCommit(n).config == n.config
    ensures MaybeAdvanceCommit(n).leaderId == if MaybeAdvanceCommit(n).role.Leader? then n.leaderId else None
  {
    hide Good, AdvanceCommit, ResolveReads, MostHold, KeepsWaiters;
    AdvanceHint(n);
    AdvanceKeeps(n);
    var n' := MaybeAdvanceCommit(n);
    if n'.role.Leader? {
      forall i | 0 < i <= |n'.full| && TermAt(n'.full, i) == n'.term && MostHold(n', i) ensures i <= n'.commitIndex {
        SameHolding(n, n', i);
        if n.commitIndex < i { CommitsWhatMostHold(h, n, i); }
      }
    }
  }

  lemma {:induction false} GrantPrompt(n: Node)
    requires IsPrompt(n)
    ensures IsPrompt(ResolveReads(n)) && ResolveReads(n).config == n.config && ResolveReads(n).leaderId == n.leaderId
    ensures ResolveReads(n).role.Leader? <==> n.role.Leader?
  {
    hide ResolveReads, IsPrompt, KeepsWaiters;
    ResolveReadsKeeps(n);
    ResolveReadsOk(n);
    if n.role.Leader? { SameCount(n, ResolveReads(n)); } else { Powerless(ResolveReads(n)); }
  }

  lemma {:induction false} Powerless(n: Node)
    requires !n.role.Leader?
    ensures IsPrompt(n)
  {
  }

  // ---- client requests and timers ----

  lemma {:induction false} ProposeApt(h: History, n: Node, command: Command, recent: set<NodeId>)
    requires Good(h, n)
    ensures Apt(h, n, HandlePropose(n, command, recent))
  {
    hide Good, Leads, MaybeAdvanceCommit, AppendBatch, ValidateConfigChange, IsPrompt;
    if AdmitProposal(n, command, recent).Accepted? {
      var n1 := AppendProposal(n, command);
      ProposeGood(h, n, command, recent);
      GoodAfter(h, n, WithEntry(h, n, command), n1);
      AppendBatchKeeps(n, [LogEntry(n.term, n.storage.LastIndex() + 1, command)]);
      BatchHint(n, [LogEntry(n.term, n.storage.LastIndex() + 1, command)]);
      AdvancePrompt(WithEntry(h, n, command), n1);
      MaybeAdvanceServes(n1);
    }
  }

  lemma {:induction false} ReadApt(h: History, n: Node)
    ensures Apt(h, n, HandleRead(n))
  {
    hide ResolveReads, IsPrompt;
    if n.role.Leader? && IsPrompt(n) {
      SameCount(n, RegisterRead(n));
      GrantPrompt(RegisterRead(n));
    }
    ResolveReadsOk(if n.role.Leader? then RegisterRead(n) else n);
  }

  lemma {:induction false} TickApt(h: History, n: Node, recent: set<NodeId>)
    ensures Apt(h, n, OnHeartbeatTick(n, recent))
  {
    hide MostHold;
  }

  lemma {:induction false} LeadApt(h: History, n: Node)
    requires Good(h, n) && !n.role.Leader?
    ensures var n' := MaybeBecomeLeader(n);
      n'.config == n.config && IsPrompt(n') && (n'.leaderId.None? || n'.leaderId == n.leaderId
        || (n'.role.Leader? && n'.leaderId == Some(n'.Id())))
  {
    hide Good, Leads, MaybeAdvanceCommit, BecomeLeader, HasMajority, IsPrompt;
    if n.role.Candidate? && HasMajority(n, n.role.votes) {
      LeadGood(h, n);
      GoodAfter(h, n, WithReign(h, n), BecomeLeader(n));
      CrownedHint(n);
      AdvancePrompt(WithReign(h, n), BecomeLeader(n));
      MaybeAdvanceServes(BecomeLeader(n));
    } else {
      Powerless(n);
    }
  }

  lemma {:induction false} CrownedHint(n: Node)
    ensures BecomeLeader(n).leaderId == Some(n.Id()) && BecomeLeader(n).role.Leader? && BecomeLeader(n).config == n.config
  {
    hide Each;
  }

  lemma {:induction false} ElectApt(h: History, n: Node)
    requires Good(h, n) && n.role.PreCandidate?
    ensures var n' := MaybeStartElection(n);
      n'.config == n.config && IsPrompt(n') && (n'.leaderId.None? || (n' == n)
        || (n'.role.Leader? && n'.leaderId == Some(n'.Id())))
  {
    hide Good, Leads, MaybeBecomeLeader, HasMajority, IsPrompt;
    Powerless(n);
    if HasMajority(n, n.role.votes) {
      StartElectionGood(h, n);
      GoodAfter(h, n, WithCandidacy(h, n), StartElection(n));
      LeadApt(WithCandidacy(h, n), StartElection(n));
    }
  }

  lemma {:induction false} TimeoutApt(h: History, n: Node)
    requires Good(h, n)
    ensures Apt(h, n, OnElectionTimeout(n))
  {
    hide Good, Leads, MaybeStartElection, IsPrompt;
    if !n.role.Leader? && n.Id() in n.members {
      PreCampaignGood(h, n);
      GoodAfter(h, n, h, PreCampaign(n));
      ElectApt(h, PreCampaign(n));
    }
  }

  // ---- messages ----

  lemma {:induction false} PreVoteReplyApt(h: History, n: Node, m: Message)
    requires Good(h, n) && m.PreVoteResp? && MsgOk(h, m) && m.to == n.Id()
    ensures Apt(h, n, OnPreVoteReply(n, m))
  {
    hide Good, Leads, MaybeStartElection, IsPrompt, Entered;
    Powerless(BecomeFollower(n, m.term, None));
    if m.term <= n.term && m.sentTerm == n.term + 1 && m.granted && n.role.PreCandidate? {
      var n1 := n.(role := PreCandidate(n.role.votes + {m.from}));
      PreVoteAdded(h, n, m.from);
      GoodAfter(h, n, h, n1);
      ElectApt(h, n1);
    }
  }

  lemma {:induction false} VoteReplyApt(h: History, n: Node, m: Message)
    requires Good(h, n) && m.VoteResp? && MsgOk(h, m) && m.to == n.Id()
    ensures Apt(h, n, OnVoteReply(n, m))
  {
    hide Good, Leads, MaybeBecomeLeader, IsPrompt, Entered, VotedFor;
    Powerless(BecomeFollower(n, m.term, None));
    if m.term <= n.term && m.sentTerm == n.term && m.granted && n.role.Candidate? {
      var n1 := n.(role := Candidate(n.role.votes + {m.from}));
      VoteAdded(h, n, m.from);
      GoodAfter(h, n, h, n1);
      LeadApt(h, n1);
      LeadSteady(n1);
    }
  }

  lemma {:induction false} VoteApt(h: History, n: Node, m: Message)
    requires m.VoteReq?
    ensures Apt(h, n, HandleRequestVote(n, m).0)
  {
    hide LogUpToDate, IsPrompt;
    var n' := HandleRequestVote(n, m).0;
    if !n'.role.Leader? { Powerless(n'); } else if IsPrompt(n) { SameCount(n, n'); }
  }

  lemma {:induction false} AppendApt(h: History, n: Node, m: Message)
    requires m.AppendReq? && MsgOk(h, m)
    ensures Apt(h, n, HandleAppendEntries(n, m).0)
  {
    hide IsPrompt, Accept, FollowCommit, PrevMatches, Entered, Committed;
    HandledAs(n, m);
    AppendSteady(n, m);
    var n' := HandleAppendEntries(n, m).0;
    if n.term <= m.term { Powerless(n'); }
  }

  lemma {:induction false} SnapshotApt(h: History, n: Node, m: Message)
    requires m.SnapshotReq? && MsgOk(h, m)
    ensures Apt(h, n, HandleInstallSnapshot(n, m).0)
  {
    hide IsPrompt, Entered, Committed, SnapshotFor, Verdicts, Unresolved, Above, DeriveMembership;
    var n' := HandleInstallSnapshot(n, m).0;
    if n.term <= m.term { Powerless(n'); }
  }

  lemma {:induction false} AppendReplyApt(h: History, n: Node, m: Message)
    requires Good(h, n) && m.AppendResp? && MsgOk(h, m)
    ensures Apt(h, n, OnAppendReply(n, m))
  {
    hide Good, MsgOk, IsPrompt, MaybeAdvanceCommit, ResolveReads, RecordAck, RecordMatch, Backtrack;
    Powerless(BecomeFollower(n, m.term, None));
    if m.term <= n.term && m.sentTerm == n.term && n.role.Leader? {
      if m.success { SuccessApt(h, n, m); } else { RejectionApt(h, n, m); }
    }
  }

  lemma {:induction false} SuccessApt(h: History, n: Node, m: Message)
    requires Good(h, n) && n.role.Leader? && m.AppendResp? && MsgOk(h, m)
    requires m.success && m.sentTerm == n.term && m.term <= n.term
    ensures var n2 := RecordMatch(RecordAck(n, m.from, m.sentBeat), m.from, m.sentPrev + m.sentEntries);
      Apt(h, n, ResolveReads(MaybeAdvanceCommit(n2)))
  {
    hide Good, MsgOk, IsPrompt, MaybeAdvanceCommit, ResolveReads;
    var n2 := RecordMatch(RecordAck(n, m.from, m.sentBeat), m.from, m.sentPrev + m.sentEntries);
    Counts(h, n, m);
    AdvancePrompt(h, n2);
    GrantPrompt(MaybeAdvanceCommit(n2));
    MaybeAdvanceServes(n2);
    ResolveReadsKeeps(MaybeAdvanceCommit(n2));
  }

  lemma {:induction false} RejectionApt(h: History, n: Node, m: Message)
    requires n.role.Leader? && m.AppendResp?
    ensures Apt(h, n, ResolveReads(Backtrack(RecordAck(n, m.from, m.sentBeat), m.from, m.sentPrev)))
  {
    hide IsPrompt, ResolveReads;
    var n1 := Backtrack(RecordAck(n, m.from, m.sentBeat), m.from, m.sentPrev);
    if IsPrompt(n) {
      SameCount(n, n1);
      GrantPrompt(n1);
    }
    ResolveReadsKeeps(n1);
    ResolveReadsOk(n1);
  }

  lemma {:induction false} SnapshotReplyApt(h: History, n: Node, m: Message)
    requires Good(h, n) && m.SnapshotResp? && MsgOk(h, m)
    ensures Apt(h, n, OnSnapshotReply(n, m))
  {
    hide Good, Extends, IsPrompt, MaybeAdvanceCommit, Entered;
    Powerless(BecomeFollower(n, m.term, None));
    if m.term <= n.term && m.sentTerm == n.term && n.role.Leader? {
      var n1 := RecordInstalled(n, m.from, m.lastIncluded);
      RecordInstalledGood(h, n, m.from, m.lastIncluded);
      AdvancePrompt(h, n1);
      MaybeAdvanceServes(n1);
    }
  }

  lemma {:induction false} RestartApt(h: History, n: Node, n1: Node)
    requires n1.config == n.config
    ensures Apt(h, n, Restart(n1))
  {
    hide MostHold;
  }

  // ---- any step ----

  ghost predicate HintOk(h: History, n: Node) {
    n.leaderId.Some? ==> n.term in h.reigns && h.reigns[n.term].leader == n.leaderId.value
  }

  ghost predicate AptAt(c: Cluster, id: NodeId) {
    id in c.nodes && IsPrompt(c.nodes[id]) && HintOk(c.hist, c.nodes[id])
  }

  ghost predicate AllApt(c: Cluster) {
    forall id | id in c.nodes :: AptAt(c, id)
  }

  /** A step that placed an apt node left every node apt. */
  lemma {:induction false} PlacedApt(c: Cluster, id: NodeId, n': Node, h': History, sent: set<Message>)
    requires Inv(c) && AllApt(c) && id in c.nodes && Apt(c.hist, c.nodes[id], n')
    requires Inv(Place(c, n', h', sent)) && Grows(c.hist, h')
    ensures AllApt(Place(c, n', h', sent))
  {
    hide Inv, IsPrompt, Grows;
    NodeGood(c, id);
    var c' := Place(c, n', h', sent);
    forall x | x in c'.nodes ensures AptAt(c', x) {
      assert AptAt(c, x);
      if x != id {
        HintGrows(c.hist, h', c.nodes[x]);
      } else {
        NewHint(c, id, n', h', sent);
      }
    }
  }

  lemma {:induction false} HintGrows(h: History, h': History, n: Node)
    requires Grows(h, h') && HintOk(h, n)
    ensures HintOk(h', n)
  {
  }

  lemma {:induction false} NewHint(c: Cluster, id: NodeId, n': Node, h': History, sent: set<Message>)
    requires id in c.nodes && HintFrom(c.hist, c.nodes[id], n') && HintOk(c.hist, c.nodes[id]) && n'.Id() == id
    requires Inv(Place(c, n', h', sent)) && Grows(c.hist, h')
    ensures HintOk(h', n')
  {
    hide NodeInv, LogOk, VotesOk, AcksKept, AnswerOk, Committed, MsgOk, SeenOk, HistoryOk;
    assert NodeAt(Place(c, n', h', sent), id);
  }

  /** What a step leaves at its own node, whatever it sent. */
  ghost predicate Leaves(c: Cluster, id: NodeId, n': Node, c': Cluster) {
    id in c.nodes && Apt(c.hist, c.nodes[id], n') && exists h', sent :: c' == Place(c, n', h', sent)
  }

  lemma {:induction false} SettledApt(c: Cluster, id: NodeId, n': Node, c': Cluster)
    requires Inv(c) && AllApt(c) && Leaves(c, id, n', c') && Preserves(c, c')
    ensures AllApt(c')
  {
    hide Inv, AllApt, Apt, Grows, Place;
    var h', sent :| c' == Place(c, n', h', sent);
    assert Grows(c.hist, c'.hist);
    PlaceHistory(c, n', h', sent);
    PlacedApt(c, id, n', h', sent);
  }

  lemma {:induction false} PlaceHistory(c: Cluster, n: Node, h: History, sent: set<Message>)
    ensures Place(c, n, h, sent).hist == h
  {
  }

  lemma {:induction false} SelfApt(h: History, n: Node)
    ensures Apt(h, n, n) && Apt(h, n, n.Panic())
  {
    hide IsPrompt;
    if n.role.Leader? && IsPrompt(n) { SameCount(n, n.Panic()); }
    if !n.role.Leader? { Powerless(n.Panic()); }
  }

  lemma {:induction false} DeliverSettles(c: Cluster, m: Message, sticky: bool) returns (n': Node)
    requires Inv(c) && m in c.net && m.to in c.nodes
    ensures Leaves(c, m.to, n', DoDeliver(c, c.nodes[m.to], m, sticky))
  {
    hide Inv, Apt, Place, HandleRequestVote, HandleAppendEntries, HandleInstallSnapshot, HandlePreVote,
      OnPreVoteReply, OnVoteReply, OnAppendReply, OnSnapshotReply, WithElection, WithLead, WithCommit, RecordMatch,
      RecordAck, RecordInstalled, AdoptTerm, WithBallot, MsgOk, Good;
    var n, h := c.nodes[m.to], c.hist;
    NodeGood(c, m.to);
    NetOk(c, m);
    match m {
      case PreVoteReq(_, _, _, _, _) => n' := n; SelfApt(h, n);
      case PreVoteResp(_, _, _, _, _) => n' := OnPreVoteReply(n, m); PreVoteReplyApt(h, n, m);
      case VoteReq(_, _, _, _, _) => n' := HandleRequestVote(n, m).0; VoteApt(h, n, m);
      case VoteResp(_, _, _, _, _) => n' := OnVoteReply(n, m); VoteReplyApt(h, n, m);
      case AppendReq(_, _, _, _, _, _, _, _) => n' := HandleAppendEntries(n, m).0; AppendApt(h, n, m);
      case AppendResp(_, _, _, _, _, _, _, _) => n' := OnAppendReply(n, m); AppendReplyApt(h, n, m);
      case SnapshotReq(_, _, _, _, _) => n' := HandleInstallSnapshot(n, m).0; SnapshotApt(h, n, m);
      case SnapshotResp(_, _, _, _, _) => n' := OnSnapshotReply(n, m); SnapshotReplyApt(h, n, m);
    }
  }

  lemma {:induction false} SendSettles(c: Cluster, id: NodeId, peer: NodeId)
    requires Inv(c) && AllApt(c) && id in c.nodes
    ensures AllApt(DoSend(c, c.nodes[id], peer))
  {
    hide Inv, IsPrompt, SendTo, Later;
    NodeGood(c, id);
    SendPreserves(c, id, peer);
    SelfApt(c.hist, c.nodes[id]);
    var c' := DoSend(c, c.nodes[id], peer);
    if !c.nodes[id].role.Follower? && peer != c.nodes[id].Id() && SendTo(c.nodes[id], peer).None? {
      assert Leaves(c, id, c.nodes[id].Panic(), c');
      SettledApt(c, id, c.nodes[id].Panic(), c');
    } else {
      assert c'.nodes == c.nodes && c'.hist == c.hist;
      forall x | x in c'.nodes ensures AptAt(c', x) { assert AptAt(c, x); }
    }
  }

  lemma {:induction false} DieSettles(c: Cluster, id: NodeId, n1: Node, h: History)
    requires id in c.nodes && n1.config == c.nodes[id].config
    ensures DoDieStarting(c, n1) == c || Leaves(c, id, Restart(StartElection(n1)), DoDieStarting(c, n1))
    ensures DoDieLeading(c, n1, h) == c || Leaves(c, id, Restart(BecomeLeader(n1)), DoDieLeading(c, n1, h))
  {
    hide Restart, BecomeLeader, Apt, HasMajority, Place;
    RestartApt(c.hist, c.nodes[id], StartElection(n1));
    CrownedHint(n1);
    RestartApt(c.hist, c.nodes[id], BecomeLeader(n1));
  }

  lemma {:induction false} AloneSettles(c: Cluster, id: NodeId, led: bool)
    requires id in c.nodes
    ensures var c' := DoDieAlone(c, c.nodes[id], led); c' == c || exists n' :: Leaves(c, id, n', c')
  {
    hide Leaves, DoDieStarting, DoDieLeading, HasMajority;
    var p := PreCampaign(c.nodes[id]);
    DieSettles(c, id, p, c.hist);
    DieSettles(c, id, StartElection(p), WithCandidacy(c.hist, p));
  }

  lemma {:induction false} DiesProposing(c: Cluster, id: NodeId, command: Command, recent: set<NodeId>)
    requires id in c.nodes
    ensures var c' := DoDieProposing(c, c.nodes[id], command, recent);
      c' == c || Leaves(c, id, Restart(AppendProposal(c.nodes[id], command)), c')
  {
    hide Restart, Apt, AdmitProposal, AppendBatch, Place;
    var n := c.nodes[id];
    AppendBatchKeeps(n, [LogEntry(n.term, n.storage.LastIndex() + 1, command)]);
    RestartApt(c.hist, n, AppendProposal(n, command));
  }

  /** Every event leaves some node settled and the rest alone, or nothing changed. */
  lemma {:induction false} StepSettles(c: Cluster, a: Action)
    requires Inv(c) && !a.Send?
    ensures var c' := Step(c, a); c' == c || exists id, n' :: Leaves(c, id, n', c')
  {
    hide Inv, Leaves, DoPropose, DoRead, DoTimeout, DoDeliver, DoDieProposing, DoDieStarting, DoDieLeading, DoDieAlone,
      Place, Restart, DieInAppend, OnHeartbeatTick, Counted, AdoptTerm;
    match a {
      case Propose(id, command, recent) => if id in c.nodes { ClientSettles(c, id, command, recent); }
      case Read(id) => if id in c.nodes { ClientSettles(c, id, Noop, {}); }
      case Timeout(id) => if id in c.nodes { TimerSettles(c, id, {}); }
      case Tick(id, recent) => if id in c.nodes { TimerSettles(c, id, recent); }
      case Deliver(m, sticky) =>
        if m in c.net && m.to in c.nodes { var n' := DeliverSettles(c, m, sticky); }
      case Crash(id) => if id in c.nodes { CrashSettles(c, id, c.nodes[id]); }
      case DieOnTerm(m) =>
        if m.to in c.nodes {
          AdoptConfig(c.nodes[m.to], m.term);
          CrashSettles(c, m.to, AdoptTerm(c.nodes[m.to], m.term));
        }
      case DieAppending(m, kept) => if m.to in c.nodes && m.AppendReq? { DiesAppending(c, m, kept); }
      case DieProposing(id, command, recent) => if id in c.nodes { DiesProposing(c, id, command, recent); }
      case DieStarting(m) => if m.to in c.nodes { DieCounted(c, m); }
      case DieLeading(m) => if m.to in c.nodes { DieCounted(c, m); }
      case DieAlone(id, led) => if id in c.nodes { AloneSettles(c, id, led); }
    }
  }

  lemma {:induction false} AdoptConfig(n: Node, t: Term)
    ensures AdoptTerm(n, t).config == n.config
  {
  }

  lemma {:induction false} DieCounted(c: Cluster, m: Message)
    requires m.to in c.nodes
    ensures var n1 := Counted(c.nodes[m.to], m);
      && (DoDieStarting(c, n1) == c || Leaves(c, m.to, Restart(StartElection(n1)), DoDieStarting(c, n1)))
      && (DoDieLeading(c, n1, c.hist) == c || Leaves(c, m.to, Restart(BecomeLeader(n1)), DoDieLeading(c, n1, c.hist)))
  {
    hide Leaves, DoDieStarting, DoDieLeading, Restart, BecomeLeader;
    DieSettles(c, m.to, Counted(c.nodes[m.to], m), c.hist);
  }

  lemma {:induction false} CrashSettles(c: Cluster, id: NodeId, n1: Node)
    requires id in c.nodes && n1.config == c.nodes[id].config
    ensures Leaves(c, id, Restart(n1), Place(c, Restart(n1), c.hist, {}))
  {
    hide Apt, Restart, Place;
    RestartApt(c.hist, c.nodes[id], n1);
  }

  lemma {:induction false} DiesAppending(c: Cluster, m: Message, kept: nat)
    requires m.AppendReq? && m.to in c.nodes
    ensures var n' := DieInAppend(c.nodes[m.to], m, kept); Leaves(c, m.to, n', Place(c, n', c.hist, {}))
  {
    hide Apt, Restart, Place, AcceptUpTo, PrevMatches;
    var n := c.nodes[m.to];
    var n1 := BecomeFollower(n, m.term, Some(m.from));
    RestartApt(c.hist, n, n);
    RestartApt(c.hist, n, n1);
    AcceptKeeps(n1, m, kept);
    RestartApt(c.hist, n, AcceptUpTo(n1, m, kept));
  }

  lemma {:induction false} ClientSettles(c: Cluster, id: NodeId, command: Command, recent: set<NodeId>)
    requires Inv(c) && id in c.nodes
    ensures var c' := DoPropose(c, c.nodes[id], command, recent);
      c' == c || Leaves(c, id, HandlePropose(c.nodes[id], command, recent), c')
    ensures DoRead(c, c.nodes[id]) == c || Leaves(c, id, HandleRead(c.nodes[id]), DoRead(c, c.nodes[id]))
  {
    hide Inv, Good, Apt, AdmitProposal, HandlePropose, HandleRead, WithCommit, WithEntry, WithRead, AppendProposal, Place;
    NodeGood(c, id);
    ProposeApt(c.hist, c.nodes[id], command, recent);
    ReadApt(c.hist, c.nodes[id]);
  }

  lemma {:induction false} TimerSettles(c: Cluster, id: NodeId, recent: set<NodeId>)
    requires Inv(c) && id in c.nodes
    ensures DoTimeout(c, c.nodes[id]) == c || Leaves(c, id, OnElectionTimeout(c.nodes[id]), DoTimeout(c, c.nodes[id]))
    ensures var n' := OnHeartbeatTick(c.nodes[id], recent); Leaves(c, id, n', Place(c, n', c.hist, {}))
  {
    hide Inv, Good, Apt, OnElectionTimeout, OnHeartbeatTick, WithElection, Place;
    NodeGood(c, id);
    TimeoutApt(c.hist, c.nodes[id]);
    TickApt(c.hist, c.nodes[id], recent);
  }

  /** Every event keeps every node apt. */
  lemma {:induction false} StepApt(c: Cluster, a: Action)
    requires Inv(c) && AllApt(c)
    ensures AllApt(Step(c, a))
  {
    hide Inv, AllApt, Leaves, Preserves, DoSend, DoPropose, DoRead, DoTimeout, DoDeliver, DoDieProposing, DoDieStarting,
      DoDieLeading, DoDieAlone, Place;
    var c' := Step(c, a);
    if a.Send? {
      if a.id in c.nodes { SendSettles(c, a.id, a.peer); }
    } else {
      StepSettles(c, a);
      if c' != c {
        var id, n' :| Leaves(c, id, n', c');
        StepKeeps(c, a);
        SettledApt(c, id, n', c');
      }
    }
  }

  lemma {:induction false} RunApt(run: seq<Cluster>, k: nat)
    requires IsRun(run) && Inv(run[0]) && AllApt(run[0]) && k < |run|
    ensures AllApt(run[k])
  {
    hide Inv, AllApt, Step, Later;
    if k > 0 {
      RunApt(run, k - 1);
      RunKeeps(run, k - 1);
      assert Moves(run, k);
      var a :| run[k] == Step(run[k - 1], a);
      StepApt(run[k - 1], a);
    }
  }
}
