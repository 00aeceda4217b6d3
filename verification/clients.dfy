/** Where the entries of a run come from: every write in a leader's log was
    proposed at one step of the run, at exactly that term and index, and is
    the entry there from that step on. */
module Clients {
  import opened Types
  import opened Quorum
  import opened Storage
  import opened Rpc
  import opened Node
  import opened NodeInvariant
  import opened History
  import opened Completeness
  import opened Growth
  import opened Cluster
  import opened Invariant
  import opened Election
  import opened Steps
  import opened Safety
  import Store

  /** The step accepts the command as entry i of term t, whether or not the
      leader lives to answer. */
  ghost predicate Tries(c: Cluster, c': Cluster, command: Command, t: Term, i: LogIndex) {
    exists id, recent {:trigger AdmitProposal(c.nodes[id], command, recent)} ::
      && id in c.nodes && AdmitProposal(c.nodes[id], command, recent) == Accepted(t, i)
      && (c' == Step(c, Propose(id, command, recent)) || c' == Step(c, DieProposing(id, command, recent)))
  }

  /** A place in a leader's log that the step filled. */
  ghost predicate FreshSlot(h: History, h': History, t: Term, i: LogIndex) {
    && t in h'.reigns && 0 < i <= |h'.reigns[t].log| && h'.reigns[t].log[i - 1].term == t
    && !(t in h.reigns && i <= |h.reigns[t].log|)
  }

  /** Every write that the step put into a leader's log was proposed by it. */
  ghost predicate Sourced(c: Cluster, c': Cluster) {
    forall t, i | FreshSlot(c.hist, c'.hist, t, i) && Store.IsWrite(c'.hist.reigns[t].log[i - 1].command) ::
      Tries(c, c', c'.hist.reigns[t].log[i - 1].command, t, i)
  }

  // ---- steps that write nothing ----

  ghost predicate SameLogs(h: History, h': History) {
    h'.reigns.Keys == h.reigns.Keys && forall t | t in h.reigns :: h'.reigns[t].log == h.reigns[t].log
  }

  ghost predicate CrownedAt(h: History, h': History, t: Term) {
    && t in h'.reigns && h'.reigns == h.reigns[t := h'.reigns[t]]
    && var r := h'.reigns[t]; |r.log| == |r.init| + 1 && r.log[|r.init|].command.Noop?
  }

  /** At most one reign is new, and of it only the no-op. */
  ghost predicate Crowns(h: History, h': History) {
    h'.reigns == h.reigns || exists t :: CrownedAt(h, h', t)
  }

  lemma {:induction false} SameSourced(c: Cluster, c': Cluster)
    requires SameLogs(c.hist, c'.hist)
    ensures Sourced(c, c')
  {
    hide Tries;
  }

  lemma {:induction false} CrownSourced(c: Cluster, c': Cluster)
    requires Crowns(c.hist, c'.hist) && WellFormed(c'.hist)
    ensures Sourced(c, c')
  {
    hide Tries;
    forall t, i | FreshSlot(c.hist, c'.hist, t, i)
      ensures !Store.IsWrite(c'.hist.reigns[t].log[i - 1].command)
    {
      assert ReignOk(c'.hist, t);
    }
  }

  lemma {:induction false} LeadCrowns(h: History, n: Node)
    ensures Crowns(h, WithLead(h, n))
  {
    hide CanCommit, CommitPick, Holders, HasMajority, BecomeLeader;
    if n.role.Candidate? {
      assert CrownedAt(h, WithReign(h, n), n.term);
      CommitSame(WithReign(h, n), BecomeLeader(n));
      assert HasMajority(n, n.role.votes) ==> CrownedAt(h, WithLead(h, n), n.term);
    }
  }

  lemma {:induction false} ElectionCrowns(h: History, n: Node)
    requires n.role.PreCandidate?
    ensures Crowns(h, WithElection(h, n))
  {
    hide WithLead, HasMajority;
    var h1 := WithCandidacy(h, n);
    var h' := WithLead(h1, StartElection(n));
    LeadCrowns(h1, StartElection(n));
    assert forall t | CrownedAt(h1, h', t) :: CrownedAt(h, h', t);
  }

  lemma {:induction false} CommitSame(h: History, n: Node)
    ensures WithCommit(h, n).reigns == h.reigns
  {
    hide CanCommit, CommitPick, Holders;
  }

  // ---- proposals ----

  lemma {:induction false} EntryOnly(c: Cluster, id: NodeId, command: Command, recent: set<NodeId>,
      t: Term, i: LogIndex)
    requires Inv(c) && id in c.nodes && AdmitProposal(c.nodes[id], command, recent).Accepted?
    requires FreshSlot(c.hist, WithEntry(c.hist, c.nodes[id], command), t, i)
    ensures AdmitProposal(c.nodes[id], command, recent) == Accepted(t, i)
    ensures WithEntry(c.hist, c.nodes[id], command).reigns[t].log[i - 1].command == command
  {
    hide Inv, ValidateConfigChange;
    LastIndexIs(c, id);
    LeaderRecorded(c, id);
  }

  lemma {:induction false} ProposalSourced(c: Cluster, c': Cluster, id: NodeId, command: Command, recent: set<NodeId>)
    requires Inv(c) && id in c.nodes && AdmitProposal(c.nodes[id], command, recent).Accepted?
    requires c' == Step(c, Propose(id, command, recent)) || c' == Step(c, DieProposing(id, command, recent))
    requires c'.hist.reigns == WithEntry(c.hist, c.nodes[id], command).reigns
    ensures Sourced(c, c')
  {
    hide Inv, Step, AdmitProposal, WithEntry, Store.IsWrite;
    var h' := WithEntry(c.hist, c.nodes[id], command);
    forall t, i | FreshSlot(c.hist, c'.hist, t, i) ensures Tries(c, c', c'.hist.reigns[t].log[i - 1].command, t, i) {
      assert FreshSlot(c.hist, h', t, i);
      EntryOnly(c, id, command, recent, t, i);
    }
  }

  lemma {:induction false} ProposeSourced(c: Cluster, id: NodeId, command: Command, recent: set<NodeId>)
    requires Inv(c) && id in c.nodes
    ensures Sourced(c, Step(c, Propose(id, command, recent))) && Sourced(c, Step(c, DieProposing(id, command, recent)))
  {
    hide Inv, Sourced, AdmitProposal, HandlePropose, AppendProposal, WithCommit, WithEntry, Restart;
    SameSourced(c, c);
    if AdmitProposal(c.nodes[id], command, recent).Accepted? {
      var n := c.nodes[id];
      CommitSame(WithEntry(c.hist, n, command), AppendProposal(n, command));
      ProposalSourced(c, Step(c, Propose(id, command, recent)), id, command, recent);
      ProposalSourced(c, Step(c, DieProposing(id, command, recent)), id, command, recent);
    }
  }

  // ---- any step ----

  lemma {:induction false} DeliverCrowns(c: Cluster, n: Node, m: Message, sticky: bool)
    ensures Crowns(c.hist, DoDeliver(c, n, m, sticky).hist)
  {
    hide GrantsVote, PrevMatches, Accept, FollowCommit, InstallFrom, OnPreVoteReply, OnVoteReply, OnAppendReply,
      OnSnapshotReply, WithElection, WithLead, WithCommit, RecordMatch, RecordInstalled, AdoptTerm, Crowns, LogUpToDate;
    NoCrown(c.hist);
    match m {
      case PreVoteResp(_, _, _, _, _) =>
        if n.role.PreCandidate? { ElectionCrowns(c.hist, n.(role := PreCandidate(n.role.votes + {m.from}))); }
      case VoteResp(_, _, _, _, _) =>
        if n.role.Candidate? { LeadCrowns(c.hist, n.(role := Candidate(n.role.votes + {m.from}))); }
      case AppendResp(_, _, _, _, _, _, _, _) =>
        if n.role.Leader? {
          CommitSame(c.hist, RecordMatch(RecordAck(n, m.from, m.sentBeat), m.from, m.sentPrev + m.sentEntries));
        }
      case SnapshotResp(_, _, _, _, _) =>
        if n.role.Leader? { CommitSame(c.hist, RecordInstalled(n, m.from, m.lastIncluded)); }
      case _ =>
    }
  }

  lemma {:induction false} NoCrown(h: History)
    ensures forall h': History | h'.reigns == h.reigns :: Crowns(h, h')
  {
  }

  lemma {:induction false} DieCrowns(c: Cluster, n: Node, led: bool)
    ensures Crowns(c.hist, DoDieStarting(c, n).hist) && Crowns(c.hist, DoDieLeading(c, n, c.hist).hist)
    ensures Crowns(c.hist, DoDieAlone(c, n, led).hist)
  {
    hide HasMajority, Restart, BecomeLeader, Crowns;
    NoCrown(c.hist);
    ReignCrowns(c.hist, c.hist, n);
    ReignCrowns(c.hist, WithCandidacy(c.hist, PreCampaign(n)), StartElection(PreCampaign(n)));
  }

  lemma {:induction false} ReignCrowns(h: History, h1: History, n: Node)
    requires h1.reigns == h.reigns
    ensures n.role.Candidate? ==> Crowns(h, WithReign(h1, n))
  {
    if n.role.Candidate? {
      assert CrownedAt(h, WithReign(h1, n), n.term);
    }
  }

  lemma {:induction false} StepCrowns(c: Cluster, a: Action)
    requires !a.Propose? && !a.DieProposing? && !a.Read?
    ensures Crowns(c.hist, Step(c, a).hist)
  {
    hide Crowns, DoDeliver, DoSend, OnElectionTimeout, WithElection, DoDieStarting, DoDieLeading, DoDieAlone, Restart,
      OnHeartbeatTick, AdoptTerm, DieInAppend, Counted;
    NoCrown(c.hist);
    match a {
      case Timeout(id) => if id in c.nodes { ElectionCrowns(c.hist, PreCampaign(c.nodes[id])); }
      case Deliver(m, sticky) => if m.to in c.nodes { DeliverCrowns(c, c.nodes[m.to], m, sticky); }
      case Send(id, peer) => if id in c.nodes { SendCrowns(c, c.nodes[id], peer); }
      case DieStarting(m) => if m.to in c.nodes { DieCrowns(c, Counted(c.nodes[m.to], m), false); }
      case DieLeading(m) => if m.to in c.nodes { DieCrowns(c, Counted(c.nodes[m.to], m), false); }
      case DieAlone(id, led) => if id in c.nodes { DieCrowns(c, c.nodes[id], led); }
      case _ =>
    }
  }

  lemma {:induction false} SendCrowns(c: Cluster, n: Node, peer: NodeId)
    ensures DoSend(c, n, peer).hist == c.hist
  {
    hide SendTo;
  }

  lemma {:induction false} ReadSourced(c: Cluster, id: NodeId)
    ensures Sourced(c, Step(c, Read(id)))
  {
    hide HandleRead, Sourced;
    SameSourced(c, Step(c, Read(id)));
  }

  lemma {:induction false} StepSourced(c: Cluster, a: Action)
    requires Inv(c)
    ensures Sourced(c, Step(c, a))
  {
    hide Inv, Step, Sourced, Crowns, Later;
    match a {
      case Propose(id, command, recent) => StepProposes(c, id, command, recent);
      case DieProposing(id, command, recent) => StepProposes(c, id, command, recent);
      case Read(id) => ReadSourced(c, id);
      case _ =>
        StepCrowns(c, a);
        StepKeeps(c, a);
        HistoryWellFormed(Step(c, a));
        CrownSourced(c, Step(c, a));
    }
  }

  lemma {:induction false} StepProposes(c: Cluster, id: NodeId, command: Command, recent: set<NodeId>)
    requires Inv(c)
    ensures Sourced(c, Step(c, Propose(id, command, recent))) && Sourced(c, Step(c, DieProposing(id, command, recent)))
  {
    hide Inv, Sourced, DoPropose, DoDieProposing;
    SameSourced(c, c);
    if id in c.nodes { ProposeSourced(c, id, command, recent); }
  }

  lemma {:induction false} HistoryWellFormed(c: Cluster)
    requires Inv(c)
    ensures WellFormed(c.hist)
  {
  }

  // ---- runs ----

  ghost predicate TriedAt(run: seq<Cluster>, s: nat, command: Command, t: Term, i: LogIndex) {
    s + 1 < |run| && Tries(run[s], run[s + 1], command, t, i)
  }

  /** Every write in a leader's log, under its own term, was proposed at some
      step of the run as exactly that entry. */
  lemma {:induction false} WritesWereProposed(run: seq<Cluster>, j: nat, t: Term, i: LogIndex) returns (s: nat)
    requires IsRun(run) && Inv(run[0]) && run[0].hist.reigns == map[] && j < |run|
    requires t in run[j].hist.reigns && 0 < i <= |run[j].hist.reigns[t].log|
    requires run[j].hist.reigns[t].log[i - 1].term == t && Store.IsWrite(run[j].hist.reigns[t].log[i - 1].command)
    ensures s < j && TriedAt(run, s, run[j].hist.reigns[t].log[i - 1].command, t, i)
  {
    hide Inv, Step, Tries, Later, Store.IsWrite;
    assert j > 0;
    RunKeeps(run, j - 1);
    assert Moves(run, j);
    var a :| run[j] == Step(run[j - 1], a);
    StepKeeps(run[j - 1], a);
    if t in run[j - 1].hist.reigns && i <= |run[j - 1].hist.reigns[t].log| {
      SlotKept(run[j - 1], run[j], t, i);
      s := WritesWereProposed(run, j - 1, t, i);
    } else {
      StepSourced(run[j - 1], a);
      assert FreshSlot(run[j - 1].hist, run[j].hist, t, i);
      s := j - 1;
    }
  }

  /** A proposal finds its place empty and leaves its entry there. */
  lemma {:induction false} TriesFill(c: Cluster, c': Cluster, command: Command, t: Term, i: LogIndex)
    requires Inv(c) && Tries(c, c', command, t, i)
    ensures Inv(c') && Later(c, c')
    ensures t in c.hist.reigns && |c.hist.reigns[t].log| < i
    ensures t in c'.hist.reigns && 0 < i <= |c'.hist.reigns[t].log|
    ensures c'.hist.reigns[t].log[i - 1] == LogEntry(t, i, command)
  {
    hide Inv, Later, Step, AdmitProposal;
    var id, recent :| id in c.nodes && AdmitProposal(c.nodes[id], command, recent) == Accepted(t, i)
      && (c' == Step(c, Propose(id, command, recent)) || c' == Step(c, DieProposing(id, command, recent)));
    StepKeeps(c, Propose(id, command, recent));
    StepKeeps(c, DieProposing(id, command, recent));
    ProposedBeyond(c, id, command, recent);
    ProposalAppended(c, id, command, recent);
    DyingAppended(c, id, command, recent);
  }

  lemma {:induction false} DyingAppended(c: Cluster, id: NodeId, command: Command, recent: set<NodeId>)
    requires Inv(c) && id in c.nodes && AdmitProposal(c.nodes[id], command, recent).Accepted?
    ensures Step(c, DieProposing(id, command, recent)).hist.reigns == Step(c, Propose(id, command, recent)).hist.reigns
  {
    hide Inv, AdmitProposal, HandlePropose, AppendProposal, WithCommit, WithEntry, Restart;
    CommitSame(WithEntry(c.hist, c.nodes[id], command), AppendProposal(c.nodes[id], command));
  }
}
