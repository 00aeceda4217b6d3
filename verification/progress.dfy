module Progress {
  // What the operations must do, not only what they must not: who is voted
  // for, what is committed and when, what a follower applies, who leads. Each
  // is stated of the handler's arguments, with majorities counted out.

  import opened Types
  import opened Quorum
  import opened Storage
  import opened Rpc
  import opened Node
  import opened NodeInvariant
  import opened History
  import opened Completeness
  import opened Growth
  import opened Cluster
  import opened Invariant
  import opened Election
  import opened Followers
  import opened Leaders
  import opened Replies
  import opened Tenure
  import opened Behaviour
  import Store

  // ---- committing ----

  /** The members known to hold index i, the leader by its own log. */
  ghost function MembersHolding(n: Node, i: LogIndex): set<NodeId>
    requires n.role.Leader?
  {
    set p | p in n.members
      && (if p == n.Id() then i <= |n.full| else p in n.role.matchIndex && i <= n.role.matchIndex[p])
  }

  /** More than half of the members hold index i. */
  ghost predicate MostHold(n: Node, i: LogIndex)
    requires n.role.Leader?
  {
    2 * |MembersHolding(n, i)| > |n.members|
  }

  lemma {:induction false} MostHoldMeans(n: Node, i: LogIndex)
    requires Represents(n.storage, n.full) && n.role.Leader? && i > 0
    ensures MajorityHolds(n, i) <==> MostHold(n, i)
  {
    AnswersAsWhole(n.storage, n.full, i);
    assert Holders(n, i) == MembersHolding(n, i);
    assert |n.members| == |n.members.Keys|;
  }

  /** What most members hold lies within the leader's log. */
  lemma {:induction false} HeldWithin(h: History, n: Node, i: LogIndex)
    requires Good(h, n) && n.role.Leader? && i > 0 && MostHold(n, i)
    ensures i <= |n.full|
  {
    hide NodeInv, LogOk, VotesOk, AcksKept, AnswerOk, Committed;
    assert MembersHolding(n, i) != {};
    var p :| p in MembersHolding(n, i);
    if p != n.Id() {
      assert Ack(p, n.term, n.role.matchIndex[p]) in h.acks;
      assert AckOk(h, Ack(p, n.term, n.role.matchIndex[p]));
    }
  }

  lemma {:induction false} SortedAbove(h: History, n: Node, i: LogIndex, k: LogIndex)
    requires Good(h, n) && 0 < i <= k <= |n.full| && TermAt(n.full, i) == n.term
    ensures TermAt(n.full, k) == n.term
  {
    hide NodeInv, HistoryOk, VotesOk, AcksKept, AnswerOk, Committed, RoleOk;
    assert n.full[k - 1].term <= n.term;
    assert n.full[i - 1].term <= n.full[k - 1].term;
  }

  /** What a leader does after its tables or its log changed: an entry of its
      own term that was not committed is committed exactly when more than half
      of the members hold it. */
  lemma {:induction false} CommitsWhatMostHold(h: History, n: Node, i: LogIndex)
    requires Good(h, n) && n.role.Leader? && n.commitIndex < i <= |n.full| && TermAt(n.full, i) == n.term
    ensures MaybeAdvanceCommit(n).commitIndex >= i <==> MostHold(n, i)
  {
    hide Good, CommitTo, MostHold, CommitPick, MajorityHolds;
    LeaderLogged(h, n);
    MostHoldMeans(n, i);
    if n.members.Keys == {} {
      NoneHold(n, i);
    } else {
      var k := CommitPick(n);
      PickIsGreatest(n, i);
      CommitToKeeps(n, k);
      if i <= k {
        PickIsGreatest(n, k);
        MostHoldMeans(n, k);
        HeldWithin(h, n, k);
        SortedAbove(h, n, i, k);
        AnswersAsWhole(n.storage, n.full, k);
      }
    }
  }

  lemma {:induction false} LeaderLogged(h: History, n: Node)
    requires Good(h, n)
    ensures Represents(n.storage, n.full) && NodeInv(n) && n.lastApplied == n.commitIndex <= |n.full|
    ensures n.kv == Store.Fold(n.full[..n.commitIndex])
  {
  }

  lemma {:induction false} NoneHold(n: Node, i: LogIndex)
    requires n.role.Leader? && n.members.Keys == {}
    ensures !MostHold(n, i)
  {
    assert MembersHolding(n, i) == {};
  }

  /** It commits nothing else: a new commit index is that of an entry of its
      own term; and it goes on leading exactly while it is a member or its
      removal is not committed. */
  lemma {:induction false} AdvanceOnlyThat(h: History, n: Node)
    requires Good(h, n) && n.role.Leader?
    ensures var n' := MaybeAdvanceCommit(n);
      && n.commitIndex <= n'.commitIndex && n'.full == n.full && n'.members == n.members
      && (n'.commitIndex > n.commitIndex ==> n'.commitIndex <= |n.full| && TermAt(n.full, n'.commitIndex) == n.term)
      && (n'.role.Leader? <==>
            (n.Id() in n.members || n.members.Keys == {} || n'.commitIndex < n.membersIndex))
  {
    hide Good, AdvanceCommit, KeepsWaiters;
    AdvanceKeeps(n);
    LeaderLogged(h, n);
    NewCommit(n);
  }

  lemma {:induction false} NewCommit(n: Node)
    requires Represents(n.storage, n.full)
    ensures var k := AdvanceCommit(n).commitIndex;
      k > n.commitIndex ==> k <= |n.full| && TermAt(n.full, k) == n.term
  {
    hide CommitTo, CommitPick, KeepsWaiters;
    if CanCommit(n) {
      CommitToKeeps(n, CommitPick(n));
      AnswersAsWhole(n.storage, n.full, CommitPick(n));
    }
  }

  // ---- elections ----

  /** The members among some voters. */
  ghost function MemberVotes(n: Node, votes: set<NodeId>): set<NodeId> {
    set p | p in n.members && p in votes
  }

  lemma {:induction false} MostVoted(n: Node, votes: set<NodeId>)
    ensures HasMajority(n, votes) <==> 2 * |MemberVotes(n, votes)| > |n.members|
  {
    assert votes * n.members.Keys == MemberVotes(n, votes);
    assert |n.members| == |n.members.Keys|;
  }

  /** How a reign begins: the no-op at the end of the inherited log, every
      peer probed from it, nothing known of anyone. */
  ghost predicate ReignsFrom(n: Node, n': Node) {
    && n'.role.Leader? && n'.term == n.term && n'.leaderId == Some(n.Id()) && n'.votedFor == n.votedFor
    && n'.full == n.full + [LogEntry(n.term, |n.full| + 1, Noop)]
    && n'.role.termStart == |n.full| + 1 && n'.role.beat == 0 && n'.role.acked == map[]
    && n'.role.nextIndex.Keys == n'.role.matchIndex.Keys == n.members.Keys - {n.Id()}
    && forall p | p in n.members.Keys - {n.Id()} ::
         n'.role.nextIndex[p] == |n.full| + 1 && n'.role.matchIndex[p] == 0
  }

  lemma {:induction false} TakesOffice(n: Node)
    requires NodeInv(n) && n.Id() in n.members && n.role.Candidate?
    ensures ReignsFrom(n, MaybeAdvanceCommit(BecomeLeader(n)))
  {
    hide AdvanceCommit, NodeInv, Each;
    BecomeLeaderOk(n);
    NodeRepresents(n);
    AnswersAsWhole(n.storage, n.full, 0);
    var n1 := BecomeLeader(n);
    AdvanceKeeps(n1);
    AdvanceHint(n1);
  }

  lemma {:induction false} CommitToHint(n: Node, k: LogIndex)
    ensures CommitTo(n, k).leaderId == n.leaderId && CommitTo(n, k).votedFor == n.votedFor
  {
    hide ApplyLoop, ResolveReads, MaybeCompact;
    var n0 := n.(commitIndex := k);
    ApplyLoopKeeps(n0);
    ResolveReadsOk(ResolvePending(ApplyLoop(n0)));
    MaybeCompactKeeps(ResolveReads(ResolvePending(ApplyLoop(n0))));
  }

  lemma {:induction false} AdvanceHint(n: Node)
    ensures AdvanceCommit(n).leaderId == n.leaderId && AdvanceCommit(n).votedFor == n.votedFor
  {
    hide CommitTo, CommitPick;
    if CanCommit(n) { CommitToHint(n, CommitPick(n)); }
  }

  /** A granted vote of this term is counted, and the candidate leads exactly
      when more than half of its members voted for it. */
  lemma {:induction false} VotesMakeLeader(h: History, n: Node, m: Message)
    requires Good(h, n) && n.role.Candidate?
    requires m.VoteResp? && m.granted && m.sentTerm == n.term && m.term <= n.term
    ensures var n', votes := OnVoteReply(n, m), n.role.votes + {m.from};
      if 2 * |MemberVotes(n, votes)| > |n.members| then ReignsFrom(n, n') else n' == n.(role := Candidate(votes))
  {
    hide HistoryOk, LogOk, VotesOk, AcksKept, AnswerOk, Committed, BecomeLeader, MaybeAdvanceCommit, HasMajority;
    var n1 := n.(role := Candidate(n.role.votes + {m.from}));
    assert CandidateOk(h, n);
    MostVoted(n1, n1.role.votes);
    assert MemberVotes(n1, n1.role.votes) == MemberVotes(n, n1.role.votes);
    if HasMajority(n1, n1.role.votes) {
      SameBody(n, n1);
      TakesOffice(n1);
    }
  }

  lemma {:induction false} SameBody(n: Node, n1: Node)
    requires NodeInv(n) && !n.role.Leader? && !n1.role.Leader? && n1 == n.(role := n1.role)
    ensures NodeInv(n1)
  {
  }

  /** A granted pre-vote for the next term is counted, and the real election
      starts exactly when more than half of the members granted theirs. */
  lemma {:induction false} PreVotesStartElection(h: History, n: Node, m: Message)
    requires Good(h, n) && n.role.PreCandidate?
    requires m.PreVoteResp? && m.granted && m.sentTerm == n.term + 1 && m.term <= n.term
    ensures var n', votes := OnPreVoteReply(n, m), n.role.votes + {m.from};
      if 2 * |MemberVotes(n, votes)| > |n.members| then StoodFrom(n, n') else n' == n.(role := PreCandidate(votes))
  {
    hide HistoryOk, LogOk, VotesOk, AcksKept, AnswerOk, Committed, MaybeBecomeLeader, HasMajority, NodeInv;
    var n1 := n.(role := PreCandidate(n.role.votes + {m.from}));
    MostVoted(n1, n1.role.votes);
    assert MemberVotes(n1, n1.role.votes) == MemberVotes(n, n1.role.votes);
    assert PreCandidateOk(h, n);
    if HasMajority(n1, n1.role.votes) {
      SameBody(n, n1);
      Stands(n1);
      StoodSame(n, n1, MaybeBecomeLeader(StartElection(n1)));
    }
  }

  /** The real election: the next term, the own vote, and office at once for a
      node alone in its cluster. */
  ghost predicate StoodFrom(n: Node, n': Node) {
    && n'.term == n.term + 1 && n'.votedFor == Some(n.Id())
    && (if n.members.Keys == {n.Id()} then n'.role.Leader?
        else n'.role == Candidate({n.Id()}) && n'.full == n.full && n'.commitIndex == n.commitIndex)
  }

  lemma {:induction false} StoodSame(n: Node, n1: Node, n': Node)
    requires StoodFrom(n1, n') && n1 == n.(role := n1.role, leaderId := n1.leaderId)
    ensures StoodFrom(n, n')
  {
  }

  lemma {:induction false} Stands(n: Node)
    requires NodeInv(n) && n.Id() in n.members && !n.role.Leader?
    ensures StoodFrom(n, MaybeBecomeLeader(StartElection(n)))
  {
    hide NodeInv, BecomeLeader, MaybeAdvanceCommit, HasMajority;
    var s := StartElection(n);
    OwnVoteCounts(s);
    if n.members.Keys == {n.Id()} {
      StartedOk(n);
      TakesOffice(s);
    }
  }

  lemma {:induction false} OwnVoteCounts(n: Node)
    requires n.Id() in n.members
    ensures HasMajority(n, {n.Id()}) <==> n.members.Keys == {n.Id()}
  {
    assert {n.Id()} * n.members.Keys == {n.Id()};
    if n.members.Keys != {n.Id()} {
      var p :| p in n.members.Keys && p != n.Id();
      SubsetCardinality({n.Id(), p}, n.members.Keys);
      assert |{n.Id(), p}| == 2;
    }
  }

  lemma {:induction false} StartedOk(n: Node)
    requires NodeInv(n) && !n.role.Leader?
    ensures NodeInv(StartElection(n))
  {
  }

  /** An election timeout: a member that does not lead asks for pre-votes at
      its own term, a node alone in its cluster takes office; nobody else does
      anything. */
  lemma {:induction false} TimeoutCampaigns(h: History, n: Node)
    requires Good(h, n)
    ensures var n' := OnElectionTimeout(n);
      if n.role.Leader? || n.Id() !in n.members then n' == n
      else if n.members.Keys == {n.Id()} then StoodFrom(n, n')
      else n' == n.(role := PreCandidate({n.Id()}), leaderId := None)
  {
    hide HistoryOk, NodeOk, NodeInv, MaybeBecomeLeader, HasMajority;
    if !n.role.Leader? && n.Id() in n.members {
      var p := PreCampaign(n);
      OwnVoteCounts(p);
      if n.members.Keys == {n.Id()} {
        CampaignBody(n);
        Stands(p);
        StoodSame(n, p, MaybeBecomeLeader(StartElection(p)));
      }
    }
  }

  lemma {:induction false} CampaignBody(n: Node)
    requires NodeInv(n) && !n.role.Leader?
    ensures NodeInv(PreCampaign(n))
  {
  }

  // ---- voting ----

  /** The comparison of section 5.4.1 of the Raft paper, against a whole log:
      a later last term, or the same and no fewer entries. */
  predicate EndsNoEarlier(lastTerm: Term, lastIndex: LogIndex, log: Log) {
    LastTerm(log) < lastTerm || (LastTerm(log) == lastTerm && |log| <= lastIndex)
  }

  /** A vote is granted exactly to a candidate of a term no lower than the
      voter's, by a voter that is free or bound to it in that term, whose log
      ends no later than the candidate's. */
  lemma {:induction false} VoteGrantedIff(n: Node, m: Message)
    requires Represents(n.storage, n.full) && m.VoteReq?
    ensures var (n', reply) := HandleRequestVote(n, m);
      && reply == VoteResp(n.Id(), m.from, m.term, n'.term, reply.granted)
      && (reply.granted <==>
            (&& n.term <= m.term && (n.term < m.term || n.votedFor.None? || n.votedFor == Some(m.from))
             && EndsNoEarlier(m.lastTerm, m.lastIndex, n.full)))
      && n'.term == Max(n.term, m.term) && n'.full == n.full
      && n'.votedFor == (if reply.granted then Some(m.from) else if n.term < m.term then None else n.votedFor)
      && (n.term < m.term ==> n'.role.Follower?) && (n.term >= m.term ==> n'.role == n.role)
  {
    AnswersAsWhole(n.storage, n.full, 0);
  }

  /** A probe is granted exactly for a higher term, to a log that ends no
      earlier, by a node that does not lead and has not just heard a leader. */
  lemma {:induction false} ProbeGrantedIff(n: Node, m: Message, sticky: bool)
    requires Represents(n.storage, n.full) && m.PreVoteReq?
    ensures var reply := HandlePreVote(n, m, sticky);
      && reply == PreVoteResp(n.Id(), m.from, m.term, n.term, reply.granted)
      && (reply.granted <==>
            (n.term < m.term && EndsNoEarlier(m.lastTerm, m.lastIndex, n.full) && !n.role.Leader? && !sticky))
  {
    AnswersAsWhole(n.storage, n.full, 0);
  }

  /** Whoever holds everything the voter holds gets its vote for a new term,
      and its pre-vote unless it leads or has just heard a leader. */
  lemma {:induction false} LongerLogIsGranted(n: Node, log: Log, from: NodeId, term: Term)
    requires Represents(n.storage, n.full) && n.full <= log && SortedTerms(log) && n.term < term
    ensures HandleRequestVote(n, VoteReq(from, n.Id(), term, |log|, LastTerm(log))).1.granted
    ensures !n.role.Leader? ==>
      HandlePreVote(n, PreVoteReq(from, n.Id(), term, |log|, LastTerm(log)), false).granted
  {
    VoteGrantedIff(n, VoteReq(from, n.Id(), term, |log|, LastTerm(log)));
    ProbeGrantedIff(n, PreVoteReq(from, n.Id(), term, |log|, LastTerm(log)), false);
    if |n.full| > 0 {
      assert n.full[|n.full| - 1] == log[|n.full| - 1];
      assert log[|n.full| - 1].term <= log[|log| - 1].term;
    }
  }

  /** What a campaigner asks with: its own last position. */
  lemma {:induction false} CampaignSends(n: Node, peer: NodeId)
    requires Represents(n.storage, n.full)
    ensures n.role.PreCandidate? ==>
      SendTo(n, peer) == Some(PreVoteReq(n.Id(), peer, n.term + 1, |n.full|, LastTerm(n.full)))
    ensures n.role.Candidate? ==>
      SendTo(n, peer) == Some(VoteReq(n.Id(), peer, n.term, |n.full|, LastTerm(n.full)))
  {
    AnswersAsWhole(n.storage, n.full, 0);
  }

  // ---- following ----

  /** A vote is forgotten exactly with its term. */
  predicate VoteAfter(n: Node, n': Node) {
    n'.votedFor == if n.term < n'.term then None else n.votedFor
  }

  lemma {:induction false} PrevOnWhole(h: History, n: Node, m: Message)
    requires Good(h, n) && m.AppendReq? && AppendOk(h, m) && n.term <= m.term
    ensures PrevMatches(n, m) <==> m.prevIndex <= |n.full| && TermAt(n.full, m.prevIndex) == m.prevTerm
  {
    hide HistoryOk, NodeOk;
    LeaderLogged(h, n);
    AnswersAsWhole(n.storage, n.full, m.prevIndex);
    BoundaryBelow(n);
    if m.prevIndex < n.storage.SnapshotIndex() {
      CommittedShared(h, n, m.term);
      PrefixTerm(n.full, LeaderLog(h, m.term), n.commitIndex, m.prevIndex);
    }
  }

  lemma {:induction false} BoundaryBelow(n: Node)
    requires NodeInv(n)
    ensures n.storage.SnapshotIndex() <= n.commitIndex <= |n.full|
  {
  }

  lemma {:induction false} PrefixTerm(a: Log, b: Log, k: LogIndex, i: LogIndex)
    requires i <= k <= |a| && a[..k] <= b
    ensures TermAt(a, i) == TermAt(b, i)
  {
    if i > 0 { assert a[..k][i - 1] == b[i - 1]; }
  }

  /** AppendEntries succeeds exactly when the term is not stale and the log,
      compacted or not, has the entry the batch follows. */
  lemma {:induction false} AppendSucceedsIff(h: History, n: Node, m: Message)
    requires Good(h, n) && m.AppendReq? && MsgOk(h, m)
    ensures HandleAppendEntries(n, m).1.success <==>
      (n.term <= m.term && m.prevIndex <= |n.full| && TermAt(n.full, m.prevIndex) == m.prevTerm)
  {
    hide Good, PrevMatches, Accept, FollowCommit, AppendOk, Entered;
    if n.term <= m.term {
      PrevOnWhole(h, n, m);
      SamePrev(n, BecomeFollower(n, m.term, Some(m.from)), m);
    }
  }

  lemma {:induction false} SamePrev(n: Node, n1: Node, m: Message)
    requires m.AppendReq? && n1.storage == n.storage
    ensures PrevMatches(n1, m) <==> PrevMatches(n, m)
  {
  }

  /** What a follower does with an AppendEntries, from the message alone: it
      commits, and applies, up to what the leader had committed of what this
      request verified; after a rejection it commits nothing. */
  lemma {:induction false} AppendCommits(h: History, n: Node, m: Message)
    requires Good(h, n) && m.AppendReq? && MsgOk(h, m)
    ensures var (n', reply) := HandleAppendEntries(n, m);
      && reply == AppendResp(n.Id(), m.from, m.term, m.prevIndex, |m.entries|, m.beat, Max(n.term, m.term), reply.success)
      && n'.term == Max(n.term, m.term)
      && n'.commitIndex == (if reply.success then Max(n.commitIndex, Min(m.leaderCommit, m.prevIndex + |m.entries|))
                            else n.commitIndex)
      && n'.lastApplied == n'.commitIndex <= |n'.full| && n'.kv == Store.Fold(n'.full[..n'.commitIndex])
      && (if n.term <= m.term then n'.role.Follower? && n'.leaderId == Some(m.from) && VoteAfter(n, n') else n' == n)
  {
    hide Good, PrevMatches, Extends, MsgOk;
    HandleAppendGood(h, n, m);
    var (n', reply) := HandleAppendEntries(n, m);
    var h' := if reply.success then WithAck(h, n.Id(), m.term, m.prevIndex + |m.entries|) else h;
    LeaderLogged(h', n');
    HandledAs(n, m);
  }

  lemma {:induction false} HandledAs(n: Node, m: Message)
    requires m.AppendReq?
    ensures var (n', reply) := HandleAppendEntries(n, m);
      && reply == AppendResp(n.Id(), m.from, m.term, m.prevIndex, |m.entries|, m.beat, Max(n.term, m.term), reply.success)
      && n'.term == Max(n.term, m.term)
      && n'.commitIndex == (if reply.success then Max(n.commitIndex, Min(m.leaderCommit, m.prevIndex + |m.entries|))
                            else n.commitIndex)
      && (if n.term <= m.term then n'.role.Follower? && n'.leaderId == Some(m.from) && VoteAfter(n, n') else n' == n)
  {
    hide AcceptUpTo, CommitTo, PrevMatches;
    if n.term <= m.term {
      var n1 := BecomeFollower(n, m.term, Some(m.from));
      AcceptKeeps(n1, m, |m.entries|);
      AcceptHint(n1, m, |m.entries|);
      var n2 := Accept(n1, m);
      var k := Min(m.leaderCommit, m.prevIndex + |m.entries|);
      CommitToKeeps(n2, k);
      CommitToHint(n2, k);
    }
  }

  lemma {:induction false} AcceptHint(n: Node, m: Message, kept: nat)
    requires m.AppendReq?
    ensures AcceptUpTo(n, m, kept).leaderId == n.leaderId && AcceptUpTo(n, m, kept).votedFor == n.votedFor
  {
    hide WalkFrom, Verdicts, Unresolved, DeriveMembership, AppendBatch;
    match WalkFrom(n.storage, m.entries, 0) {
      case Held =>
      case Missing(k) => if k < |m.entries| { FromHint(n, m, m.entries[k].index, kept); }
      case Conflict(k) =>
        if k < |m.entries| { FromHint(TruncateConflict(n, m.entries[k]), m, m.entries[k].index, kept); }
    }
  }

  lemma {:induction false} FromHint(n: Node, m: Message, first: LogIndex, kept: nat)
    requires m.AppendReq?
    ensures AppendFrom(n, m, first, kept).leaderId == n.leaderId && AppendFrom(n, m, first, kept).votedFor == n.votedFor
  {
    hide AppendBatch;
    if m.prevIndex < first && first - m.prevIndex - 1 <= |m.entries| {
      var batch := m.entries[first - m.prevIndex - 1..];
      BatchHint(n, batch[..Min(kept, |batch|)]);
    }
  }

  lemma {:induction false} BatchHint(n: Node, batch: seq<LogEntry>)
    ensures AppendBatch(n, batch).leaderId == n.leaderId && AppendBatch(n, batch).votedFor == n.votedFor
  {
  }

  /** Taking a snapshot: unless the term is stale, everything it stands for is
      committed and applied, and nothing that already was is taken back. */
  lemma {:induction false} SnapshotCommits(h: History, n: Node, m: Message)
    requires Good(h, n) && m.SnapshotReq? && MsgOk(h, m)
    ensures var (n', reply) := HandleInstallSnapshot(n, m);
      && reply == SnapshotResp(n.Id(), m.from, m.term, m.snapshot.lastIndex, Max(n.term, m.term))
      && n'.term == Max(n.term, m.term) && (n.term > m.term ==> n' == n)
      && (n.term <= m.term ==>
            && n'.commitIndex == Max(n.commitIndex, m.snapshot.lastIndex)
            && n'.role.Follower? && n'.leaderId == Some(m.from) && m.whole <= n'.full && VoteAfter(n, n'))
      && n'.lastApplied == n'.commitIndex <= |n'.full| && n'.kv == Store.Fold(n'.full[..n'.commitIndex])
  {
    hide Good, Extends, InstallFrom, SnapshotFor, Store.Fold;
    HandleSnapshotGood(h, n, m);
    var (n', reply) := HandleInstallSnapshot(n, m);
    var h' := if reply.term == m.term then WithAck(h, n.Id(), m.term, m.snapshot.lastIndex) else h;
    LeaderLogged(h', n');
    if n.term <= m.term {
      var n1 := BecomeFollower(n, m.term, Some(m.from));
      FollowerGood(h, n, m.term, Some(m.from));
      if n1.commitIndex < m.snapshot.lastIndex {
        InstallsAll(h, n1, m);
      } else {
        WholeHeld(h, n1, m);
      }
    }
  }

  lemma {:induction false} InstallsAll(h: History, n: Node, m: Message)
    requires Good(h, n) && n.role.Follower? && m.SnapshotReq? && SnapshotReqOk(h, m) && n.term == m.term
    requires n.commitIndex < m.snapshot.lastIndex
    ensures var n' := InstallFrom(n, m);
      && n'.commitIndex == m.snapshot.lastIndex && n'.term == n.term && n'.role == n.role && n'.leaderId == n.leaderId
      && m.whole <= n'.full && n'.votedFor == n.votedFor
  {
    hide InstallFrom, NodeInv, HistoryOk, Store.Fold, LatestConfig;
    if |m.whole| <= |n.full| && TermAt(n.full, |m.whole|) == LastTerm(m.whole) {
      WholeMatches(h, n, m.whole, m.term);
    }
    CommittedInWhole(h, n, m);
    InstallOk(n, m);
  }

  lemma {:induction false} WholeHeld(h: History, n: Node, m: Message)
    requires Good(h, n) && m.SnapshotReq? && SnapshotReqOk(h, m) && n.term == m.term
    requires m.snapshot.lastIndex <= n.commitIndex
    ensures m.whole <= n.full
  {
    hide NodeInv, HistoryOk;
    AlreadyCommitted(h, n, m);
  }

  // ---- replies ----

  /** A reply of a higher term ends whatever the node was doing. */
  lemma {:induction false} HigherTermYields(n: Node, m: Message)
    requires n.term < m.term
    ensures var n' := n.(term := m.term, votedFor := None, role := Follower, leaderId := None);
      && (m.PreVoteResp? ==> OnPreVoteReply(n, m) == n') && (m.VoteResp? ==> OnVoteReply(n, m) == n')
      && (m.AppendResp? ==> OnAppendReply(n, m) == n') && (m.SnapshotResp? ==> OnSnapshotReply(n, m) == n')
  {
  }

  /** A reply to something the node no longer asks changes nothing. */
  lemma {:induction false} StaleReplyIgnored(n: Node, m: Message)
    requires m.term <= n.term
    ensures m.PreVoteResp? && (m.sentTerm != n.term + 1 || !m.granted || !n.role.PreCandidate?) ==> OnPreVoteReply(n, m) == n
    ensures m.VoteResp? && (m.sentTerm != n.term || !m.granted || !n.role.Candidate?) ==> OnVoteReply(n, m) == n
    ensures m.AppendResp? && (m.sentTerm != n.term || !n.role.Leader?) ==> OnAppendReply(n, m) == n
    ensures m.SnapshotResp? && (m.sentTerm != n.term || !n.role.Leader?) ==> OnSnapshotReply(n, m) == n
  {
  }

  /** A restart keeps what is durable, and nothing else: term, vote, snapshot
      and log; it follows, knows no leader, and is back at its snapshot. */
  lemma {:induction false} RestartKeepsDurable(n: Node)
    requires NodeInv(n)
    ensures var n' := Restart(n);
      && n'.config == n.config && n'.term == n.term && n'.votedFor == n.votedFor
      && n'.storage == n.storage && n'.full == n.full && n'.members == n.members
      && n'.role.Follower? && n'.leaderId.None? && n'.pending == [] && n'.staged.None?
      && n'.commitIndex == n'.lastApplied == n.storage.SnapshotIndex()
  {
    RestartOk(n);
  }

  /** A proposal is appended at the end of the log as it is, its configuration
      in effect at once; entries of this term that most members then hold are
      committed, and the leader goes on unless that removes it. */
  lemma {:induction false} ProposeAppends(h: History, n: Node, command: Command, recent: set<NodeId>)
    requires Good(h, n) && AdmitProposal(n, command, recent).Accepted?
    ensures var n', e := HandlePropose(n, command, recent), LogEntry(n.term, |n.full| + 1, command);
      && AdmitProposal(n, command, recent) == Accepted(n.term, |n.full| + 1)
      && n'.full == n.full + [e] && n'.term == n.term
      && n'.members == (if command.ConfigChange? then command.members else n.members)
      && n'.membersIndex == (if command.ConfigChange? then |n.full| + 1 else n.membersIndex)
      && (n'.role.Leader? <==> LeadsOn(n', n'.commitIndex))
      && (n'.role.Leader? ==>
            forall i | n.commitIndex < i <= |n'.full| && TermAt(n'.full, i) == n.term ::
              n'.commitIndex >= i <==> MostHold(n', i))
  {
    hide Good, Leads, MaybeAdvanceCommit, ValidateConfigChange, MostHold, AppendBatch;
    LeaderLogged(h, n);
    AnswersAsWhole(n.storage, n.full, 0);
    ProposeGood(h, n, command, recent);
    var n1, h1 := AppendProposal(n, command), WithEntry(h, n, command);
    GoodAfter(h, n, h1, n1);
    EntryAppended(n, command);
    AdvanceOnlyThat(h1, n1);
    AdvanceThenGrant(n1);
    AdvancedMembers(n1);
    var n' := MaybeAdvanceCommit(n1);
    if n'.role.Leader? {
      forall i | n.commitIndex < i <= |n'.full| && TermAt(n'.full, i) == n.term
        ensures n'.commitIndex >= i <==> MostHold(n', i)
      {
        CommitsWhatMostHold(h1, n1, i);
        SameHolding(n1, n', i);
      }
    }
  }

  lemma {:induction false} GoodAfter(h: History, n: Node, h': History, n': Node)
    requires Leads(h, n, h', n')
    ensures Good(h', n')
  {
  }

  lemma {:induction false} AdvancedMembers(n: Node)
    ensures MaybeAdvanceCommit(n).membersIndex == n.membersIndex && MaybeAdvanceCommit(n).config == n.config
    ensures MaybeAdvanceCommit(n).term == n.term && MaybeAdvanceCommit(n).full == n.full
  {
    hide AdvanceCommit;
    AdvanceKeeps(n);
  }

  lemma {:induction false} EntryAppended(n: Node, command: Command)
    requires NodeInv(n) && n.role.Leader?
    ensures var n1 := AppendProposal(n, command);
      && n1.full == n.full + [LogEntry(n.term, |n.full| + 1, command)] && n1.term == n.term && n1.role == n.role
      && n1.config == n.config && n1.commitIndex == n.commitIndex
      && n1.members == (if command.ConfigChange? then command.members else n.members)
      && n1.membersIndex == (if command.ConfigChange? then |n.full| + 1 else n.membersIndex)
  {
    hide BodyOk, MembersOk;
    NodeRepresents(n);
    AnswersAsWhole(n.storage, n.full, 0);
    var e := LogEntry(n.term, |n.full| + 1, command);
    AppendExtends(n.storage, n.full, [e]);
    ConfigOfOne(e);
  }

  /** Everything a table says of the peers other than one is as before. */
  ghost predicate OthersSame(n: Node, n': Node, from: NodeId)
    requires n.role.Leader? && n'.role.Leader?
  {
    forall p | p != from :: MatchOf(n', p) == MatchOf(n, p) && NextOf(n', p) == NextOf(n, p) && AckOf(n', p) == AckOf(n, p)
  }

  function AckOf(n: Node, p: NodeId): Option<nat>
    requires n.role.Leader?
  {
    if p in n.role.acked then Some(n.role.acked[p]) else None
  }

  /** The tables after a reply: the latest beat its sender answered, the most
      it is known to hold, and where to go on. */
  ghost predicate Learned(n: Node, n': Node, from: NodeId, beat: nat, held: LogIndex)
    requires n.role.Leader? && n'.role.Leader?
  {
    && OthersSame(n, n', from)
    && AckOf(n', from) == Some(if AckOf(n, from).Some? then Max(AckOf(n, from).value, beat) else beat)
    && MatchOf(n', from) == Max(MatchOf(n, from), held)
    && NextOf(n', from) == (if MatchOf(n, from) < held then held + 1 else NextOf(n, from))
  }

  /** A leader with this commit index goes on: it is a member, or its removal
      is not committed. */
  predicate LeadsOn(n: Node, commitIndex: LogIndex) {
    n.Id() in n.members || n.members.Keys == {} || commitIndex < n.membersIndex
  }

  /** No read that could be granted is left waiting. */
  ghost predicate NoneConfirmed(n: Node)
    requires n.role.Leader?
  {
    forall r | r in n.role.waiting :: !Confirmed(n, r)
  }

  lemma {:induction false} GrantsAll(n: Node)
    requires n.role.Leader?
    ensures ResolveReads(n).role.Leader? && NoneConfirmed(ResolveReads(n))
  {
    hide Grants, Confirmed;
    var n' := ResolveReads(n);
    StillWaiting(n, n.role.waiting);
    forall r | r in n'.role.waiting ensures !Confirmed(n', r) {
      GrantableMeans(n, r);
      SameConfirmed(n, n', r);
    }
  }

  lemma {:induction false} StillWaiting(n: Node, rs: seq<PendingRead>)
    requires n.role.Leader?
    ensures forall r | r in Waiting(n, rs) :: !Grantable(n, r)
  {
    hide Grantable;
    if |rs| > 0 { StillWaiting(n, rs[..|rs| - 1]); }
  }

  lemma {:induction false} SameConfirmed(n: Node, n': Node, r: PendingRead)
    requires n.role.Leader? && n' == n.(role := n'.role, answers := n'.answers)
    requires n'.role.Leader? && n'.role == n.role.(waiting := n'.role.waiting)
    ensures Confirmed(n', r) <==> Confirmed(n, r)
  {
    assert (set p | p in n'.members && (p == n'.Id() || (p in n'.role.acked && n'.role.acked[p] >= r.needed)))
        == (set p | p in n.members && (p == n.Id() || (p in n.role.acked && n.role.acked[p] >= r.needed)));
  }

  /** A success of this term teaches the leader what its sender holds. While
      it goes on leading, an entry of its term that was not committed is
      committed exactly when more than half of the members now hold it. */
  lemma {:induction false} SuccessTeaches(h: History, n: Node, m: Message)
    requires Good(h, n) && n.role.Leader? && m.AppendResp? && MsgOk(h, m)
    requires m.success && m.sentTerm == n.term && m.term <= n.term
    ensures var n' := OnAppendReply(n, m);
      && (n'.role.Leader? <==> LeadsOn(n, n'.commitIndex))
      && (n'.role.Leader? ==>
            && Learned(n, n', m.from, m.sentBeat, m.sentPrev + m.sentEntries)
            && n'.full == n.full && n'.members == n.members && NoneConfirmed(n')
            && forall i | n.commitIndex < i <= |n.full| && TermAt(n.full, i) == n.term ::
                 n'.commitIndex >= i <==> MostHold(n', i))
  {
    hide Good, Leads, MsgOk, Answered, AppendRespOk, MaybeAdvanceCommit, ResolveReads, MostHold, NoneConfirmed;
    var held := m.sentPrev + m.sentEntries;
    var n1 := RecordAck(n, m.from, m.sentBeat);
    var n2 := RecordMatch(n1, m.from, held);
    Counts(h, n, m);
    TablesLearn(n, m.from, m.sentBeat, held);
    AdvanceThenGrant(n2);
    var n' := OnAppendReply(n, m);
    AdvanceOnlyThat(h, n2);
    if n'.role.Leader? {
      GrantsAll(MaybeAdvanceCommit(n2));
      LearnedSame(n, n2, n', m.from, m.sentBeat, held);
      forall i | n.commitIndex < i <= |n.full| && TermAt(n.full, i) == n.term
        ensures n'.commitIndex >= i <==> MostHold(n', i)
      {
        CommitsWhatMostHold(h, n2, i);
        SameHolding(n2, n', i);
      }
    }
  }

  lemma {:induction false} Counts(h: History, n: Node, m: Message)
    requires Good(h, n) && n.role.Leader? && m.AppendResp? && MsgOk(h, m)
    requires m.success && m.sentTerm == n.term && m.term <= n.term
    ensures Good(h, RecordMatch(RecordAck(n, m.from, m.sentBeat), m.from, m.sentPrev + m.sentEntries))
  {
    hide Good, Extends, Answered, MsgOk, RecordMatch;
    assert AppendRespOk(h, m) && Answered(h, m.from, n.term, m.sentBeat) by { Answers(h, n, m); }
    RecordAckGood(h, n, m.from, m.sentBeat);
    RecordMatchGood(h, RecordAck(n, m.from, m.sentBeat), m.from, m.sentPrev + m.sentEntries);
  }

  lemma {:induction false} Answers(h: History, n: Node, m: Message)
    requires m.AppendResp? && MsgOk(h, m) && m.term <= n.term == m.sentTerm
    ensures AppendRespOk(h, m) && Answered(h, m.from, n.term, m.sentBeat)
  {
  }

  lemma {:induction false} TablesLearn(n: Node, from: NodeId, beat: nat, held: LogIndex)
    requires n.role.Leader?
    ensures var n2 := RecordMatch(RecordAck(n, from, beat), from, held);
      && n2 == n.(role := n2.role) && n2.role.Leader? && Learned(n, n2, from, beat, held)
  {
  }

  lemma {:induction false} LearnedSame(n: Node, n2: Node, n': Node, from: NodeId, beat: nat, held: LogIndex)
    requires n.role.Leader? && n2.role.Leader? && Learned(n, n2, from, beat, held) && SameStanding(n2, n')
    ensures Learned(n, n', from, beat, held)
  {
    forall p ensures MatchOf(n', p) == MatchOf(n2, p) && NextOf(n', p) == NextOf(n2, p) && AckOf(n', p) == AckOf(n2, p) {
    }
    forall p | p != from
      ensures MatchOf(n', p) == MatchOf(n, p) && NextOf(n', p) == NextOf(n, p) && AckOf(n', p) == AckOf(n, p)
    {
      assert MatchOf(n2, p) == MatchOf(n, p);
    }
  }

  lemma {:induction false} SameHolding(n: Node, n': Node, i: LogIndex)
    requires n.role.Leader? && SameStanding(n, n')
    ensures MostHold(n', i) <==> MostHold(n, i)
  {
    assert MembersHolding(n', i) == MembersHolding(n, i);
  }

  lemma {:induction false} AdvanceThenGrant(n: Node)
    requires n.role.Leader?
    ensures var n1 := MaybeAdvanceCommit(n);
      var n' := ResolveReads(n1);
      && n'.commitIndex == n1.commitIndex && (n1.role.Leader? <==> n'.role.Leader?)
      && (n'.role.Leader? ==> SameStanding(n, n1) && SameStanding(n, n'))
  {
    hide AdvanceCommit, ResolveReads, KeepsWaiters;
    AdvanceKeeps(n);
    ResolveReadsKeeps(MaybeAdvanceCommit(n));
  }

  /** A rejection of this term: its sender has answered, and is probed from
      below the rejected position, or from where it was if that is lower. */
  lemma {:induction false} RejectionSteps(n: Node, m: Message)
    requires n.role.Leader? && m.AppendResp? && !m.success && m.sentTerm == n.term && m.term <= n.term
    ensures var n' := OnAppendReply(n, m);
      && n'.role.Leader? && OthersSame(n, n', m.from) && n'.full == n.full && n'.commitIndex == n.commitIndex
      && AckOf(n', m.from) == Some(if AckOf(n, m.from).Some? then Max(AckOf(n, m.from).value, m.sentBeat) else m.sentBeat)
      && MatchOf(n', m.from) == MatchOf(n, m.from)
      && NextOf(n', m.from) <= Max(m.sentPrev, 1) && NextOf(n', m.from) in {NextOf(n, m.from), Max(m.sentPrev, 1)}
      && (m.sentPrev > 0 && NextOf(n, m.from) == m.sentPrev + 1 ==> NextOf(n', m.from) < NextOf(n, m.from))
      && NoneConfirmed(n')
  {
    hide Waiting, Grants, NoneConfirmed;
    GrantsAll(Backtrack(RecordAck(n, m.from, m.sentBeat), m.from, m.sentPrev));
  }

  /** A snapshot reply of this term teaches that its sender holds the boundary. */
  lemma {:induction false} InstallTeaches(h: History, n: Node, m: Message)
    requires Good(h, n) && n.role.Leader? && m.SnapshotResp? && MsgOk(h, m) && m.sentTerm == n.term && m.term <= n.term
    ensures var n' := OnSnapshotReply(n, m);
      && (n'.role.Leader? <==> LeadsOn(n, n'.commitIndex))
      && (n'.role.Leader? ==>
            && OthersSame(n, n', m.from) && n'.full == n.full && n'.members == n.members
            && MatchOf(n', m.from) == Max(MatchOf(n, m.from), m.lastIncluded)
            && NextOf(n', m.from) == Max(NextOf(n, m.from), m.lastIncluded + 1)
            && forall i | n.commitIndex < i <= |n.full| && TermAt(n.full, i) == n.term ::
                 n'.commitIndex >= i <==> MostHold(n', i))
  {
    hide Good, Extends, MaybeAdvanceCommit, MostHold;
    var n1 := RecordInstalled(n, m.from, m.lastIncluded);
    RecordInstalledGood(h, n, m.from, m.lastIncluded);
    var n' := MaybeAdvanceCommit(n1);
    AdvanceOnlyThat(h, n1);
    AdvanceThenGrant(n1);
    if n'.role.Leader? {
      forall i | n.commitIndex < i <= |n.full| && TermAt(n.full, i) == n.term
        ensures n'.commitIndex >= i <==> MostHold(n', i)
      {
        CommitsWhatMostHold(h, n1, i);
        SameHolding(n1, n', i);
      }
    }
  }

  // ---- timers and admission ----

  /** CheckQuorum: a leader goes on exactly while more than half of the
      members, itself while one, were heard within the window. */
  lemma {:induction false} TickStepsDown(n: Node, recent: set<NodeId>)
    requires n.role.Leader?
    ensures OnHeartbeatTick(n, recent) ==
      if 2 * |Heard(n, recent)| > |n.members| then n else n.(role := Follower, leaderId := None)
  {
    hide Heard;
    HeardIs(n, recent);
  }

  ghost function Heard(n: Node, recent: set<NodeId>): set<NodeId> {
    set p | p in n.members && (p == n.Id() || p in recent)
  }

  lemma {:induction false} HeardIs(n: Node, recent: set<NodeId>)
    ensures (recent * n.Peers()) + (if n.Id() in n.members then {n.Id()} else {}) == Heard(n, recent)
    ensures |n.members| == |n.members.Keys|
  {
  }

  /** The members of a new configuration that count as reachable. */
  ghost function Reachables(n: Node, new_: Membership, recent: set<NodeId>): set<NodeId>
    requires n.role.Leader?
  {
    set p | p in new_ && (p == n.Id() || (p in n.role.acked && p in recent))
  }

  /** The rules for a configuration change, in the order they are checked. */
  lemma {:induction false} ChangeAdmittedIff(n: Node, new_: Membership, recent: set<NodeId>)
    requires n.role.Leader?
    ensures var started, settled := n.role.termStart <= n.commitIndex, n.membersIndex <= n.commitIndex;
      var single := |new_.Keys - n.members.Keys| + |n.members.Keys - new_.Keys| == 1;
      var live := 2 * |Reachables(n, new_, recent)| > |new_|;
      match ValidateConfigChange(n, new_, recent)
      case None => started && settled && new_ != map[] && single && live
      case Some(NoopNotCommitted) => !started
      case Some(ChangeInFlight) => started && !settled
      case Some(NoMembers) => started && settled && new_ == map[]
      case Some(NotSingleChange) => started && settled && new_ != map[] && !single
      case Some(Unreachable) => started && settled && new_ != map[] && single && !live
  {
    assert Reachables(n, new_, recent)
        == set p | p in new_.Keys && (p == n.Id() || (p in n.role.acked && p in recent));
    assert |new_| == |new_.Keys|;
    assert new_.Keys == {} <==> new_ == map[];
  }

  /** Any other command is accepted by every leader, at the end of its log,
      and refused by everyone else with a hint. */
  lemma {:induction false} CommandAdmittedIff(n: Node, command: Command, recent: set<NodeId>)
    requires Represents(n.storage, n.full) && !command.ConfigChange?
    ensures AdmitProposal(n, command, recent)
         == if n.role.Leader? then Accepted(n.term, |n.full| + 1) else NotLeader(n.leaderId)
  {
    AnswersAsWhole(n.storage, n.full, 0);
  }
}
