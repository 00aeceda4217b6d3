/** What one step may do to a node's standing: a term's leader was its
    candidate, leading only adds to the log and to what is known of the peers,
    and a leader outside its configuration is still waiting for its removal to
    commit. Nothing here needs the safety invariant. */
module Tenure {
  import opened Types
  import opened Quorum
  import opened Storage
  import opened Rpc
  import opened Node
  import opened NodeInvariant
  import opened History
  import opened Cluster
  import Store

  /** A leader that its configuration leaves out waits for that configuration to commit. */
  predicate Serving(n: Node) {
    n.role.Leader? && n.members.Keys != {} && n.Id() !in n.members ==> n.commitIndex < n.membersIndex
  }

  ghost predicate ToldOf(n: Node, p: PendingProposal) {
    exists committed, at :: Resolved(p.term, p.index, committed, at) in n.answers
  }

  ghost predicate GrantedTo(n: Node, needed: nat) {
    exists applied :: ReadGranted(n.term, needed, applied) in n.answers
  }

  /** Nobody is forgotten: every proposal still waits or was told, every read
      still waits or was granted, and what was said stays said. */
  ghost predicate KeepsWaiters(n: Node, n': Node) {
    && n'.term == n.term
    && (forall a | a in n.answers :: a in n'.answers)
    && (forall p | p in n.pending :: p in n'.pending || ToldOf(n', p))
    && (n.role.Leader? && n'.role.Leader? ==>
          forall r | r in n.role.waiting :: r in n'.role.waiting || GrantedTo(n', r.needed))
  }

  lemma {:induction false} WaitersTransitive(a: Node, b: Node, c: Node)
    requires KeepsWaiters(a, b) && KeepsWaiters(b, c) && (a.role.Leader? && c.role.Leader? ==> b.role.Leader?)
    ensures KeepsWaiters(a, c)
  {
    forall p | p in a.pending ensures p in c.pending || ToldOf(c, p) {
      if ToldOf(b, p) {
        var committed, at :| Resolved(p.term, p.index, committed, at) in b.answers;
        assert Resolved(p.term, p.index, committed, at) in c.answers;
      }
    }
    if a.role.Leader? && c.role.Leader? {
      forall r | r in a.role.waiting ensures r in c.role.waiting || GrantedTo(c, r.needed) {
        if GrantedTo(b, r.needed) {
          var applied :| ReadGranted(b.term, r.needed, applied) in b.answers;
          assert ReadGranted(c.term, r.needed, applied) in c.answers;
        }
      }
    }
  }

  /** Still leading, with nothing taken back: log, commit index, beat, for
      every peer what it is known to hold and the latest beat it answered, and
      every client that waits. */
  ghost predicate Risen(n: Node, n': Node) {
    && n.role.Leader? && n'.role.Leader? && KeepsWaiters(n, n')
    && n.full <= n'.full && n.commitIndex <= n'.commitIndex
    && n'.role.termStart == n.role.termStart && n.role.beat <= n'.role.beat
    && (forall p :: MatchOf(n, p) <= MatchOf(n', p))
    && (forall p | p in n.role.acked :: p in n'.role.acked && n.role.acked[p] <= n'.role.acked[p])
  }

  lemma {:induction false} RisenTransitive(a: Node, b: Node, c: Node)
    requires Risen(a, b) && Risen(b, c)
    ensures Risen(a, c)
  {
    hide KeepsWaiters;
    WaitersTransitive(a, b, c);
    forall p ensures MatchOf(a, p) <= MatchOf(c, p) {
      assert MatchOf(a, p) <= MatchOf(b, p);
    }
  }

  /** What a step may do to a node. */
  ghost predicate Steady(n: Node, n': Node) {
    && n'.config == n.config && n.term <= n'.term
    && (Serving(n) ==> Serving(n'))
    && (n'.term == n.term && n'.role.Candidate? ==> n.role.Candidate?)
    && (n'.term == n.term && n'.role.Leader? ==> n.role.Candidate? || Risen(n, n'))
  }

  // ---- the parts of a handler ----

  lemma {:induction false} ApplyLoopKeeps(n: Node)
    ensures var n' := ApplyLoop(n);
      n' == n.(lastApplied := n'.lastApplied, kv := n'.kv, panicked := n'.panicked)
    decreases n.commitIndex - n.lastApplied
  {
    if n.lastApplied < n.commitIndex && n.storage.Entry(n.lastApplied + 1).Some? {
      var e := n.storage.Entry(n.lastApplied + 1).value;
      ApplyLoopKeeps(n.(lastApplied := n.lastApplied + 1, kv := Store.Apply(n.kv, e.command)));
    }
  }

  lemma {:induction false} MaybeCompactKeeps(n: Node)
    ensures var n' := MaybeCompact(n);
      n' == n.(storage := n'.storage, staged := n'.staged, panicked := n'.panicked)
  {
    hide CompactStaged, Stage;
    if n.config.threshold.Some? {
      var n1 := DropStale(n);
      var n2 := Stage(n1, n.config.threshold.value);
      StageKeeps(n1, n.config.threshold.value);
      CompactStagedKeeps(n2);
    }
  }

  lemma {:induction false} StageKeeps(n: Node, threshold: nat)
    ensures Stage(n, threshold) == n.(staged := Stage(n, threshold).staged)
  {
    hide MembershipAt;
  }

  lemma {:induction false} CompactStagedKeeps(n: Node)
    ensures var n' := CompactStaged(n);
      n' == n.(storage := n'.storage, staged := n'.staged, panicked := n'.panicked)
  {
  }

  /** What leading is about, apart from which reads wait. */
  ghost predicate SameStanding(n: Node, n': Node) {
    && n'.config == n.config && n'.term == n.term && n'.full == n.full
    && n'.members == n.members && n'.membersIndex == n.membersIndex
    && (if n.role.Leader? then n'.role.Leader? && n'.role == n.role.(waiting := n'.role.waiting)
        else n'.role == n.role)
  }

  lemma {:induction false} ResolveReadsKeeps(n: Node)
    ensures SameStanding(n, ResolveReads(n)) && ResolveReads(n).commitIndex == n.commitIndex
    ensures KeepsWaiters(n, ResolveReads(n))
  {
    hide Grants, Waiting, Confirmed;
    var n' := ResolveReads(n);
    if n.role.Leader? {
      forall r | r in n.role.waiting ensures r in n'.role.waiting || GrantedTo(n', r.needed) {
        WaitsOrGranted(n, n.role.waiting, r);
        assert Confirmed(n, r) ==> ReadGranted(n'.term, r.needed, n.lastApplied) in n'.answers;
      }
    }
  }

  lemma {:induction false} ResolvePendingKeeps(n: Node)
    ensures KeepsWaiters(n, ResolvePending(n))
  {
    hide Verdicts, Unresolved, IsHeld;
    var n' := ResolvePending(n);
    forall p | p in n.pending ensures p in n'.pending || ToldOf(n', p) {
      WaitsOrTold(n, n.pending, p);
      assert p !in n'.pending ==> Resolved(p.term, p.index, IsHeld(n, p), n.term) in n'.answers;
    }
  }

  lemma {:induction false} CommitToKeeps(n: Node, k: LogIndex)
    ensures SameStanding(n, CommitTo(n, k)) && CommitTo(n, k).commitIndex == k
    ensures KeepsWaiters(n, CommitTo(n, k))
  {
    hide ApplyLoop, ResolveReads, MaybeCompact, Verdicts, Unresolved, KeepsWaiters;
    var n0 := ApplyLoop(n.(commitIndex := k));
    ApplyLoopKeeps(n.(commitIndex := k));
    var n1 := ResolvePending(n0);
    ResolvePendingKeeps(n0);
    ResolveReadsKeeps(n1);
    MaybeCompactKeeps(ResolveReads(n1));
    SameWaiters(n, n0);
    SameWaiters(ResolveReads(n1), CommitTo(n, k));
    WaitersTransitive(n, n0, n1);
    WaitersTransitive(n, n1, ResolveReads(n1));
    WaitersTransitive(n, ResolveReads(n1), CommitTo(n, k));
  }

  lemma {:induction false} SameWaiters(n: Node, n': Node)
    requires n'.term == n.term && n'.answers == n.answers && n'.pending == n.pending
    requires n'.role == n.role || (n.role.Leader? && n'.role.Leader? && n'.role.waiting == n.role.waiting)
    ensures KeepsWaiters(n, n')
  {
  }

  lemma {:induction false} AdvanceKeeps(n: Node)
    ensures SameStanding(n, AdvanceCommit(n)) && n.commitIndex <= AdvanceCommit(n).commitIndex
    ensures KeepsWaiters(n, AdvanceCommit(n))
  {
    hide CommitTo, CommitPick, KeepsWaiters;
    SameWaiters(n, n);
    if CanCommit(n) { CommitToKeeps(n, CommitPick(n)); }
  }

  /** Where every handler that makes or keeps a leader ends. */
  lemma {:induction false} MaybeAdvanceServes(n: Node)
    ensures var n' := MaybeAdvanceCommit(n);
      && n'.config == n.config && n'.term == n.term && Serving(n')
      && (n'.role.Leader? ==> Risen(n, n'))
      && (n'.role.Candidate? ==> n.role.Candidate?)
  {
    hide AdvanceCommit;
    AdvanceKeeps(n);
  }

  lemma {:induction false} AppendBatchKeeps(n: Node, batch: seq<LogEntry>)
    ensures var n' := AppendBatch(n, batch);
      && n'.config == n.config && n'.term == n.term && n'.role == n.role && n'.commitIndex == n.commitIndex
      && n'.answers == n.answers && n'.pending == n.pending && n.full <= n'.full
  {
  }

  // ---- client requests and timers ----

  lemma {:induction false} ProposeSteady(n: Node, command: Command, recent: set<NodeId>)
    ensures Steady(n, HandlePropose(n, command, recent))
  {
    hide MaybeAdvanceCommit, AppendBatch, ValidateConfigChange;
    if AdmitProposal(n, command, recent).Accepted? {
      var n1 := AppendProposal(n, command);
      AppendBatchKeeps(n, [LogEntry(n.term, n.storage.LastIndex() + 1, command)]);
      MaybeAdvanceServes(n1);
      if MaybeAdvanceCommit(n1).role.Leader? { RisenTransitive(n, n1, MaybeAdvanceCommit(n1)); }
    }
  }

  lemma {:induction false} ReadSteady(n: Node)
    ensures Steady(n, HandleRead(n))
  {
    hide ResolveReads;
    if n.role.Leader? { ResolveReadsKeeps(RegisterRead(n)); }
  }

  lemma {:induction false} LeadSteady(n: Node)
    ensures var n' := MaybeBecomeLeader(n);
      && n'.config == n.config && n'.term == n.term && (Serving(n) ==> Serving(n'))
      && (n' == n || n.role.Candidate?)
  {
    hide MaybeAdvanceCommit, AppendBatch, HasMajority, Each;
    if n.role.Candidate? && HasMajority(n, n.role.votes) {
      MaybeAdvanceServes(BecomeLeader(n));
      var next := n.storage.LastIndex() + 1;
      AppendBatchKeeps(
        n.(role := Leader(Each(n.Peers(), next), Each(n.Peers(), 0), next, 0, map[], []), leaderId := Some(n.Id())),
        [LogEntry(n.term, next, Noop)]);
    }
  }

  lemma {:induction false} ElectSteady(n: Node)
    requires n.role.PreCandidate?
    ensures var n' := MaybeStartElection(n);
      && n'.config == n.config && n.term <= n'.term && Serving(n') && (n'.term == n.term ==> n' == n)
  {
    hide MaybeBecomeLeader, HasMajority;
    LeadSteady(StartElection(n));
  }

  lemma {:induction false} TimeoutSteady(n: Node)
    ensures Steady(n, OnElectionTimeout(n))
  {
    hide MaybeStartElection;
    if !n.role.Leader? && n.Id() in n.members { ElectSteady(PreCampaign(n)); }
  }

  lemma {:induction false} TickSteady(n: Node, recent: set<NodeId>)
    ensures Steady(n, OnHeartbeatTick(n, recent))
  {
  }

  // ---- requests ----

  lemma {:induction false} AcceptKeeps(n: Node, m: Message, kept: nat)
    requires m.AppendReq?
    ensures var n' := AcceptUpTo(n, m, kept);
      n'.config == n.config && n'.term == n.term && n'.role == n.role && n'.commitIndex == n.commitIndex
  {
    hide WalkFrom, AppendBatch, Verdicts, Unresolved, DeriveMembership;
    match WalkFrom(n.storage, m.entries, 0) {
      case Held =>
      case Missing(k) => if k < |m.entries| { AppendFromKeeps(n, m, m.entries[k].index, kept); }
      case Conflict(k) =>
        if k < |m.entries| {
          AppendFromKeeps(TruncateConflict(n, m.entries[k]), m, m.entries[k].index, kept);
        }
    }
  }

  lemma {:induction false} AppendFromKeeps(n: Node, m: Message, first: LogIndex, kept: nat)
    requires m.AppendReq?
    ensures var n' := AppendFrom(n, m, first, kept);
      n'.config == n.config && n'.term == n.term && n'.role == n.role && n'.commitIndex == n.commitIndex
  {
    hide AppendBatch;
    if m.prevIndex < first && first - m.prevIndex - 1 <= |m.entries| {
      var batch := m.entries[first - m.prevIndex - 1..];
      AppendBatchKeeps(n, batch[..Min(kept, |batch|)]);
    }
  }

  lemma {:induction false} AppendSteady(n: Node, m: Message)
    requires m.AppendReq?
    ensures Steady(n, HandleAppendEntries(n, m).0)
  {
    hide AcceptUpTo, CommitTo, PrevMatches;
    if m.term >= n.term {
      var n1 := BecomeFollower(n, m.term, Some(m.from));
      AcceptKeeps(n1, m, |m.entries|);
      CommitToKeeps(Accept(n1, m), Min(m.leaderCommit, m.prevIndex + |m.entries|));
    }
  }

  lemma {:induction false} SnapshotSteady(n: Node, m: Message)
    requires m.SnapshotReq?
    ensures Steady(n, HandleInstallSnapshot(n, m).0)
  {
    hide Verdicts, Unresolved, Above, DeriveMembership;
  }

  lemma {:induction false} VoteSteady(n: Node, m: Message)
    requires m.VoteReq?
    ensures Steady(n, HandleRequestVote(n, m).0)
  {
    hide LogUpToDate;
  }

  // ---- replies ----

  lemma {:induction false} PreVoteReplySteady(n: Node, m: Message)
    requires m.PreVoteResp?
    ensures Steady(n, OnPreVoteReply(n, m))
  {
    hide MaybeStartElection;
    if n.role.PreCandidate? { ElectSteady(n.(role := PreCandidate(n.role.votes + {m.from}))); }
  }

  lemma {:induction false} VoteReplySteady(n: Node, m: Message)
    requires m.VoteResp?
    ensures Steady(n, OnVoteReply(n, m))
  {
    hide MaybeBecomeLeader;
    if n.role.Candidate? { LeadSteady(n.(role := Candidate(n.role.votes + {m.from}))); }
  }

  /** A recorded answer only raises the tables, for its sender at least to what it says. */
  lemma {:induction false} AnswerRises(n: Node, from: NodeId, beat: nat, k: LogIndex)
    requires n.role.Leader?
    ensures Risen(n, RecordAck(n, from, beat))
    ensures Risen(n, RecordMatch(n, from, k)) && Risen(n, RecordInstalled(n, from, k))
    ensures Risen(n, Backtrack(n, from, k))
    ensures MatchOf(RecordMatch(n, from, k), from) >= k && RecordAck(n, from, beat).role.acked[from] >= beat
  {
    hide KeepsWaiters;
    SameWaiters(n, RecordAck(n, from, beat));
    SameWaiters(n, RecordMatch(n, from, k));
    SameWaiters(n, RecordInstalled(n, from, k));
    SameWaiters(n, Backtrack(n, from, k));
  }

  /** Granting reads changes nothing about a node's standing. */
  lemma {:induction false} GrantingKeeps(n: Node)
    ensures var n' := ResolveReads(n);
      && n'.config == n.config && n'.term == n.term && (Serving(n) <==> Serving(n'))
      && (n.role.Leader? ==> Risen(n, n')) && (n'.role.Leader? ==> n.role.Leader?)
      && (n'.role.Candidate? ==> n.role.Candidate?)
  {
    hide ResolveReads;
    ResolveReadsKeeps(n);
  }

  /** From a node that leads to one that has risen and then perhaps left. */
  lemma {:induction false} ThroughRisen(n: Node, n1: Node, n': Node)
    requires Risen(n, n1) && (n'.role.Leader? ==> Risen(n1, n')) && !n'.role.Candidate?
    requires n'.config == n.config && n'.term == n.term && (Serving(n) ==> Serving(n'))
    ensures Steady(n, n')
  {
    if n'.role.Leader? { RisenTransitive(n, n1, n'); }
  }

  lemma {:induction false} SuccessSteady(n: Node, m: Message)
    requires m.AppendResp? && n.role.Leader?
    ensures var n1 := RecordMatch(RecordAck(n, m.from, m.sentBeat), m.from, m.sentPrev + m.sentEntries);
      Steady(n, ResolveReads(MaybeAdvanceCommit(n1)))
  {
    hide ResolveReads, MaybeAdvanceCommit, Risen, Serving, Steady;
    var n0 := RecordAck(n, m.from, m.sentBeat);
    AnswerRises(n, m.from, m.sentBeat, 0);
    AnswerRises(n0, m.from, 0, m.sentPrev + m.sentEntries);
    var n1 := RecordMatch(n0, m.from, m.sentPrev + m.sentEntries);
    RisenTransitive(n, n0, n1);
    var n2 := MaybeAdvanceCommit(n1);
    MaybeAdvanceServes(n1);
    GrantingKeeps(n2);
    if n2.role.Leader? { RisenTransitive(n1, n2, ResolveReads(n2)); }
    ThroughRisen(n, n1, ResolveReads(n2));
  }

  lemma {:induction false} RejectionSteady(n: Node, m: Message)
    requires m.AppendResp? && n.role.Leader?
    ensures Steady(n, ResolveReads(Backtrack(RecordAck(n, m.from, m.sentBeat), m.from, m.sentPrev)))
  {
    hide ResolveReads, Risen, Steady;
    var n0 := RecordAck(n, m.from, m.sentBeat);
    AnswerRises(n, m.from, m.sentBeat, 0);
    AnswerRises(n0, m.from, 0, m.sentPrev);
    var n1 := Backtrack(n0, m.from, m.sentPrev);
    RisenTransitive(n, n0, n1);
    GrantingKeeps(n1);
    ThroughRisen(n, n1, ResolveReads(n1));
  }

  lemma {:induction false} AppendReplySteady(n: Node, m: Message)
    requires m.AppendResp?
    ensures Steady(n, OnAppendReply(n, m))
  {
    hide ResolveReads, MaybeAdvanceCommit, RecordAck, RecordMatch, Backtrack;
    if m.term <= n.term && m.sentTerm == n.term && n.role.Leader? {
      SuccessSteady(n, m);
      RejectionSteady(n, m);
    }
  }

  lemma {:induction false} InstalledSteady(n: Node, from: NodeId, k: LogIndex)
    requires n.role.Leader?
    ensures Steady(n, MaybeAdvanceCommit(RecordInstalled(n, from, k)))
  {
    hide MaybeAdvanceCommit, Risen, Steady;
    var n1 := RecordInstalled(n, from, k);
    AnswerRises(n, from, 0, k);
    MaybeAdvanceServes(n1);
    ThroughRisen(n, n1, MaybeAdvanceCommit(n1));
  }

  lemma {:induction false} SnapshotReplySteady(n: Node, m: Message)
    requires m.SnapshotResp?
    ensures Steady(n, OnSnapshotReply(n, m))
  {
    hide MaybeAdvanceCommit, RecordInstalled;
    if m.term <= n.term && m.sentTerm == n.term && n.role.Leader? {
      InstalledSteady(n, m.from, m.lastIncluded);
    }
  }

  // ---- any step ----

  ghost predicate IdsOk(c: Cluster) {
    forall id {:trigger c.nodes[id]} | id in c.nodes :: c.nodes[id].Id() == id
  }

  ghost predicate AllSteady(c: Cluster, c': Cluster) {
    && c'.nodes.Keys == c.nodes.Keys
    && forall id {:trigger c.nodes[id]} {:trigger c'.nodes[id]} | id in c.nodes :: Steady(c.nodes[id], c'.nodes[id])
  }

  lemma {:induction false} SelfSteady(n: Node)
    ensures Steady(n, n)
  {
  }

  lemma {:induction false} PlacedSteady(c: Cluster, id: NodeId, n': Node, h: History, sent: set<Message>)
    requires IdsOk(c) && id in c.nodes && Steady(c.nodes[id], n')
    ensures AllSteady(c, Place(c, n', h, sent)) && IdsOk(Place(c, n', h, sent))
  {
    hide Steady;
    assert n'.config == c.nodes[id].config by { KeepsConfig(c.nodes[id], n'); }
    var c' := Place(c, n', h, sent);
    forall x | x in c.nodes ensures Steady(c.nodes[x], c'.nodes[x]) {
      SelfSteady(c.nodes[x]);
    }
  }

  lemma {:induction false} KeepsConfig(n: Node, n': Node)
    requires Steady(n, n')
    ensures n'.config == n.config
  {
  }

  lemma {:induction false} SameSteady(c: Cluster)
    requires IdsOk(c)
    ensures AllSteady(c, c)
  {
    hide Steady;
    forall id | id in c.nodes ensures Steady(c.nodes[id], c.nodes[id]) { SelfSteady(c.nodes[id]); }
  }

  /** A node that restarts follows, at a term no lower. */
  lemma {:induction false} RestartSteady(n: Node, n1: Node)
    requires n1.config == n.config && n.term <= n1.term
    ensures Steady(n, Restart(n1))
  {
  }

  lemma {:induction false} DeliverSteady(c: Cluster, m: Message, sticky: bool)
    requires IdsOk(c) && m.to in c.nodes
    ensures AllSteady(c, DoDeliver(c, c.nodes[m.to], m, sticky)) && IdsOk(DoDeliver(c, c.nodes[m.to], m, sticky))
  {
    hide IdsOk, AllSteady, Steady, Place, HandleRequestVote, HandleAppendEntries, HandleInstallSnapshot, HandlePreVote,
      OnPreVoteReply, OnVoteReply, OnAppendReply, OnSnapshotReply, WithElection, WithLead, WithCommit, RecordMatch,
      RecordAck, RecordInstalled, AdoptTerm, WithBallot;
    var n, c' := c.nodes[m.to], DoDeliver(c, c.nodes[m.to], m, sticky);
    match m {
      case PreVoteReq(_, _, _, _, _) => SelfSteady(n); DeliveredSteady(c, m, c', n);
      case PreVoteResp(_, _, _, _, _) => PreVoteReplySteady(n, m); DeliveredSteady(c, m, c', OnPreVoteReply(n, m));
      case VoteReq(_, _, _, _, _) => VoteSteady(n, m); DeliveredSteady(c, m, c', HandleRequestVote(n, m).0);
      case VoteResp(_, _, _, _, _) => VoteReplySteady(n, m); DeliveredSteady(c, m, c', OnVoteReply(n, m));
      case AppendReq(_, _, _, _, _, _, _, _) =>
        AppendSteady(n, m);
        DeliveredSteady(c, m, c', HandleAppendEntries(n, m).0);
      case AppendResp(_, _, _, _, _, _, _, _) =>
        AppendReplySteady(n, m);
        DeliveredSteady(c, m, c', OnAppendReply(n, m));
      case SnapshotReq(_, _, _, _, _) =>
        SnapshotSteady(n, m);
        DeliveredSteady(c, m, c', HandleInstallSnapshot(n, m).0);
      case SnapshotResp(_, _, _, _, _) =>
        SnapshotReplySteady(n, m);
        DeliveredSteady(c, m, c', OnSnapshotReply(n, m));
    }
  }

  lemma {:induction false} DeliveredSteady(c: Cluster, m: Message, c': Cluster, n': Node)
    requires IdsOk(c) && m.to in c.nodes && Steady(c.nodes[m.to], n')
    requires exists h, sent :: c' == Place(c, n', h, sent)
    ensures AllSteady(c, c') && IdsOk(c')
  {
    hide Place, Steady;
    var h, sent :| c' == Place(c, n', h, sent);
    PlacedSteady(c, m.to, n', h, sent);
  }

  lemma {:induction false} SendSteady(c: Cluster, id: NodeId, peer: NodeId)
    requires IdsOk(c) && id in c.nodes
    ensures AllSteady(c, DoSend(c, c.nodes[id], peer)) && IdsOk(DoSend(c, c.nodes[id], peer))
  {
    hide SendTo, Place;
    SameSteady(c);
    PlacedSteady(c, id, c.nodes[id].Panic(), c.hist, {});
  }

  lemma {:induction false} DieAppendSteady(n: Node, m: Message, kept: nat)
    requires m.AppendReq?
    ensures Steady(n, DieInAppend(n, m, kept))
  {
    hide AcceptUpTo, PrevMatches, Restart, Steady;
    RestartSteady(n, n);
    if m.term >= n.term {
      var n1 := BecomeFollower(n, m.term, Some(m.from));
      AcceptKeeps(n1, m, kept);
      RestartSteady(n, if PrevMatches(n1, m) then AcceptUpTo(n1, m, kept) else n1);
    }
  }

  lemma {:induction false} DieProposeSteady(c: Cluster, id: NodeId, command: Command, recent: set<NodeId>)
    requires IdsOk(c) && id in c.nodes
    ensures var c' := DoDieProposing(c, c.nodes[id], command, recent); AllSteady(c, c') && IdsOk(c')
  {
    hide AdmitProposal, AppendBatch, Restart, Place, WithEntry, Steady;
    var n := c.nodes[id];
    SameSteady(c);
    AppendBatchKeeps(n, [LogEntry(n.term, n.storage.LastIndex() + 1, command)]);
    RestartSteady(n, AppendProposal(n, command));
    PlacedSteady(c, id, Restart(AppendProposal(n, command)), WithEntry(c.hist, n, command), {});
  }

  lemma {:induction false} DieStartSteady(c: Cluster, id: NodeId, n1: Node)
    requires IdsOk(c) && id in c.nodes && n1.config == c.nodes[id].config && n1.term == c.nodes[id].term
    ensures AllSteady(c, DoDieStarting(c, n1)) && IdsOk(DoDieStarting(c, n1))
  {
    hide Restart, Place, WithCandidacy, Steady, HasMajority;
    SameSteady(c);
    RestartSteady(c.nodes[id], StartElection(n1));
    if n1.role.PreCandidate? { PlacedSteady(c, id, Restart(StartElection(n1)), WithCandidacy(c.hist, n1), {}); }
  }

  lemma {:induction false} DieLeadSteady(c: Cluster, id: NodeId, n1: Node, h: History)
    requires IdsOk(c) && id in c.nodes && n1.config == c.nodes[id].config && n1.term >= c.nodes[id].term
    ensures AllSteady(c, DoDieLeading(c, n1, h)) && IdsOk(DoDieLeading(c, n1, h))
  {
    hide Restart, Place, WithReign, Steady, HasMajority, AppendBatch, Each;
    SameSteady(c);
    var next := n1.storage.LastIndex() + 1;
    AppendBatchKeeps(
      n1.(role := Leader(Each(n1.Peers(), next), Each(n1.Peers(), 0), next, 0, map[], []), leaderId := Some(n1.Id())),
      [LogEntry(n1.term, next, Noop)]);
    RestartSteady(c.nodes[id], BecomeLeader(n1));
    if n1.role.Candidate? { PlacedSteady(c, id, Restart(BecomeLeader(n1)), WithReign(h, n1), {}); }
  }

  lemma {:induction false} DieAloneSteady(c: Cluster, id: NodeId, led: bool)
    requires IdsOk(c) && id in c.nodes
    ensures AllSteady(c, DoDieAlone(c, c.nodes[id], led)) && IdsOk(DoDieAlone(c, c.nodes[id], led))
  {
    hide IdsOk, AllSteady, DoDieLeading, DoDieStarting, WithCandidacy, HasMajority;
    SameSteady(c);
    var p := PreCampaign(c.nodes[id]);
    DieLeadSteady(c, id, StartElection(p), WithCandidacy(c.hist, p));
    DieStartSteady(c, id, p);
  }

  /** Every event leaves every node steady. */
  lemma {:induction false} StepSteady(c: Cluster, a: Action)
    requires IdsOk(c)
    ensures AllSteady(c, Step(c, a)) && IdsOk(Step(c, a))
  {
    hide IdsOk, AllSteady, Steady, DoDeliver, DoSend, Place, Restart, DieInAppend, OnHeartbeatTick, HandlePropose,
      HandleRead, OnElectionTimeout, AdmitProposal, WithCommit, WithEntry, WithRead, WithElection, DoDieProposing,
      DoDieStarting, DoDieLeading, DoDieAlone, AppendProposal;
    SameSteady(c);
    match a {
      case Propose(id, command, recent) =>
        if id in c.nodes {
          var n := c.nodes[id];
          ProposeSteady(n, command, recent);
          PlacedSteady(c, id, HandlePropose(n, command, recent),
              WithCommit(WithEntry(c.hist, n, command), AppendProposal(n, command)), {});
        }
      case Read(id) =>
        if id in c.nodes {
          ReadSteady(c.nodes[id]);
          PlacedSteady(c, id, HandleRead(c.nodes[id]), WithRead(c.hist, c.nodes[id]), {});
        }
      case Timeout(id) =>
        if id in c.nodes {
          TimeoutSteady(c.nodes[id]);
          PlacedSteady(c, id, OnElectionTimeout(c.nodes[id]), WithElection(c.hist, PreCampaign(c.nodes[id])), {});
        }
      case Tick(id, recent) =>
        if id in c.nodes {
          TickSteady(c.nodes[id], recent);
          PlacedSteady(c, id, OnHeartbeatTick(c.nodes[id], recent), c.hist, {});
        }
      case Deliver(m, sticky) => if m in c.net && m.to in c.nodes { DeliverSteady(c, m, sticky); }
      case Send(id, peer) => if id in c.nodes { SendSteady(c, id, peer); }
      case Crash(id) =>
        if id in c.nodes {
          RestartSteady(c.nodes[id], c.nodes[id]);
          PlacedSteady(c, id, Restart(c.nodes[id]), c.hist, {});
        }
      case DieOnTerm(m) =>
        if m in c.net && m.to in c.nodes && !m.PreVoteReq? {
          RestartSteady(c.nodes[m.to], AdoptTerm(c.nodes[m.to], m.term));
          PlacedSteady(c, m.to, Restart(AdoptTerm(c.nodes[m.to], m.term)), c.hist, {});
        }
      case DieAppending(m, kept) =>
        if m in c.net && m.to in c.nodes && m.AppendReq? {
          DieAppendSteady(c.nodes[m.to], m, kept);
          PlacedSteady(c, m.to, DieInAppend(c.nodes[m.to], m, kept), c.hist, {});
        }
      case DieProposing(id, command, recent) => if id in c.nodes { DieProposeSteady(c, id, command, recent); }
      case DieStarting(m) =>
        if m in c.net && m.to in c.nodes { DieStartSteady(c, m.to, Counted(c.nodes[m.to], m)); }
      case DieLeading(m) =>
        if m in c.net && m.to in c.nodes { DieLeadSteady(c, m.to, Counted(c.nodes[m.to], m), c.hist); }
      case DieAlone(id, led) => if id in c.nodes { DieAloneSteady(c, id, led); }
    }
  }

  // ---- runs ----

  lemma {:induction false} SteadyTransitive(a: Node, b: Node, c: Node)
    requires Steady(a, b) && Steady(b, c)
    ensures Steady(a, c)
  {
    hide Risen, Serving;
    if Risen(a, b) && Risen(b, c) { RisenTransitive(a, b, c); }
    if Risen(b, c) { RisenLeads(b, c); }
  }

  lemma {:induction false} RisenLeads(n: Node, n': Node)
    requires Risen(n, n')
    ensures n.role.Leader? && n'.role.Leader?
  {
  }

  lemma {:induction false} AllSteadyTransitive(a: Cluster, b: Cluster, c: Cluster)
    requires AllSteady(a, b) && AllSteady(b, c)
    ensures AllSteady(a, c)
  {
    hide Steady;
    forall id | id in a.nodes ensures Steady(a.nodes[id], c.nodes[id]) {
      SteadyTransitive(a.nodes[id], b.nodes[id], c.nodes[id]);
    }
  }

  /** From the start of a run to any of its states. */
  lemma {:induction false} RunSteady(run: seq<Cluster>, k: nat)
    requires IsRun(run) && IdsOk(run[0]) && k < |run|
    ensures AllSteady(run[0], run[k]) && IdsOk(run[k])
  {
    hide IdsOk, AllSteady, Step;
    if k == 0 {
      SameSteady(run[0]);
    } else {
      RunSteady(run, k - 1);
      assert Moves(run, k);
      var a :| run[k] == Step(run[k - 1], a);
      StepSteady(run[k - 1], a);
      AllSteadyTransitive(run[0], run[k - 1], run[k]);
    }
  }

  lemma {:induction false} ReachesSteady(c: Cluster, c': Cluster)
    requires IdsOk(c) && Reaches(c, c')
    ensures AllSteady(c, c')
  {
    hide IdsOk, AllSteady, Moves;
    var run :| IsRun(run) && run[0] == c && run[|run| - 1] == c';
    RunSteady(run, |run| - 1);
  }
}
