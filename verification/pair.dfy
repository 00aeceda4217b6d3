/** A run of two nodes, derived event by event: an election, a crash, a second
    election, a rejected probe, a replicated commit, and then the two events
    that two comments of the program rule out. A late copy of the rejection
    takes the next index back below the match index, and a member that was
    removed counts as reachable when it is added again. */
module Pair {
  import opened Types
  import opened Quorum
  import opened Storage
  import opened Rpc
  import opened Node
  import opened NodeInvariant
  import opened History
  import opened Cluster
  import opened Invariant
  import opened Observer
  import opened Election
  import opened Steps
  import opened Tenure
  import opened Progress
  import opened Safety
  import opened Behaviour
  import opened Witness
  import Store

  /** A member of the pair that never compacts and has seen no change. */
  ghost predicate Plain(n: Node, id: NodeId) {
    && n.Id() == id && n.config.threshold.None? && n.config.boot.Keys == {1, 2}
    && n.members == n.config.boot && n.membersIndex == 0 && n.storage == Retained(None, n.full)
  }

  ghost predicate Two(c: Cluster) {
    && Reachable(c) && c.nodes.Keys == {1, 2}
    && Plain(c.nodes[1], 1) && Plain(c.nodes[2], 2)
  }

  lemma {:induction false} OneIsTooFew(n: Node)
    requires n.members.Keys == {1, 2}
    ensures !HasMajority(n, {1}) && HasMajority(n, {1, 2})
  {
    assert {1} * n.members.Keys == {1} && {1, 2} * n.members.Keys == {1, 2};
  }

  lemma {:induction false} Then(c: Cluster, a: Action)
    requires Reachable(c)
    ensures Reachable(Step(c, a))
  {
    hide Reachable, Reaches, Step;
    StepReaches(c, a);
    ReachableReaches(c, Step(c, a));
  }

  // ---- an election ----

  /** Node 2 would vote for node 1. */
  ghost predicate Electable(c: Cluster) {
    && Two(c) && c.nodes[1].role.Follower? && c.nodes[2].role.Follower?
    && c.nodes[2].term <= c.nodes[1].term
    && LogUpToDate(c.nodes[2], c.nodes[1].storage.LastLogTerm(), c.nodes[1].storage.LastIndex())
  }

  lemma {:induction false} TimesOut(c: Cluster) returns (c': Cluster)
    requires Two(c) && c.nodes[1].role.Follower?
    ensures Two(c') && c'.nodes == c.nodes[1 := PreCampaign(c.nodes[1])]
  {
    hide Reachable, WithElection, LogUpToDate;
    OneIsTooFew(PreCampaign(c.nodes[1]));
    Then(c, Timeout(1));
    c' := Step(c, Timeout(1));
  }

  lemma {:induction false} Sends(c: Cluster, m: Message) returns (c': Cluster)
    requires Two(c) && !c.nodes[1].role.Follower? && SendTo(c.nodes[1], 2) == Some(m)
    ensures Two(c') && c'.nodes == c.nodes && c'.net == c.net + {m} && Reaches(c, c')
  {
    hide Reachable, SendTo, Inspect, Reaches;
    Then(c, Send(1, 2));
    StepReaches(c, Send(1, 2));
    c' := Step(c, Send(1, 2));
  }

  lemma {:induction false} Probed(c: Cluster, m: Message) returns (c': Cluster)
    requires Two(c) && m in c.net && m.PreVoteReq? && m.from == 1 && m.to == 2 && m.term > c.nodes[2].term
    requires c.nodes[2].role.Follower? && LogUpToDate(c.nodes[2], m.lastTerm, m.lastIndex)
    ensures Two(c') && c'.nodes == c.nodes && c'.net == c.net + {PreVoteResp(2, 1, m.term, c.nodes[2].term, true)}
  {
    hide Reachable, LogUpToDate;
    Then(c, Deliver(m, false));
    c' := Step(c, Deliver(m, false));
    assert c'.nodes == c.nodes[2 := c.nodes[2]];
  }

  lemma {:induction false} CountsBoth(n: Node, m: Message)
    requires n.Id() == 1 && n.members.Keys == {1, 2} && n.role == PreCandidate({1})
    requires m.PreVoteResp? && m.from == 2 && m.sentTerm == n.term + 1 && m.term <= n.term && m.granted
    ensures OnPreVoteReply(n, m) == StartElection(n)
  {
    hide MaybeBecomeLeader;
    var n1 := n.(role := PreCandidate({1, 2}));
    assert n.role.votes + {2} == {1, 2};
    OneIsTooFew(n1);
    AloneStands(StartElection(n1));
  }

  lemma {:induction false} Stands(c: Cluster, m: Message) returns (c': Cluster)
    requires Two(c) && m in c.net && c.nodes[1].role == PreCandidate({1})
    requires m.PreVoteResp? && m.from == 2 && m.to == 1 && m.sentTerm == c.nodes[1].term + 1
    requires m.term <= c.nodes[1].term && m.granted
    ensures Two(c') && c'.nodes == c.nodes[1 := StartElection(c.nodes[1])]
  {
    hide Reachable, WithElection, OnPreVoteReply;
    CountsBoth(c.nodes[1], m);
    Then(c, Deliver(m, false));
    c' := Step(c, Deliver(m, false));
  }

  lemma {:induction false} AloneStands(n: Node)
    requires n.members.Keys == {1, 2} && n.role == Candidate({1})
    ensures MaybeBecomeLeader(n) == n
  {
    hide MaybeAdvanceCommit, BecomeLeader;
    OneIsTooFew(n);
  }

  lemma {:induction false} Votes(c: Cluster, m: Message) returns (c': Cluster)
    requires Two(c) && m in c.net && m.VoteReq? && m.from == 1 && m.to == 2 && m.term > c.nodes[2].term
    requires LogUpToDate(c.nodes[2], m.lastTerm, m.lastIndex)
    ensures Two(c') && c'.nodes == c.nodes[2 := CastVote(BecomeFollower(c.nodes[2], m.term, None), 1)]
    ensures c'.net == c.net + {VoteResp(2, 1, m.term, m.term, true)}
  {
    hide Reachable, WithBallot;
    Then(c, Deliver(m, false));
    c' := Step(c, Deliver(m, false));
  }

  /** A leader just elected by the pair: no-op appended, nothing known of the peer. */
  ghost predicate Leading(n: Node, before: Node) {
    && n == before.(role := n.role, leaderId := Some(1), full := n.full, storage := n.storage)
    && n.full == before.full + [LogEntry(before.term, |before.full| + 1, Noop)]
    && n.storage == Retained(None, n.full)
    && n.role == Leader(map[2 := |before.full| + 1], map[2 := 0], |before.full| + 1, 0, map[], [])
  }

  /** A log without a boundary takes one entry. */
  lemma {:induction false} TakesOne(n: Node, e: LogEntry)
    requires n.storage == Retained(None, n.full) && e.index == |n.full| + 1
    ensures var n1 := n.(storage := Retained(None, n.full + [e]), full := n.full + [e]);
      AppendBatch(n, [e]) ==
      if e.command.ConfigChange? then n1.(members := e.command.members, membersIndex := e.index) else n1
  {
    FirstGapMeans([e], |n.full| + 1);
    ConfigOfOne(e);
    assert [e][0] == e;
  }

  lemma {:induction false} Elevates(n: Node)
    requires Plain(n, 1)
    ensures Leading(BecomeLeader(n), n) && Plain(BecomeLeader(n), 1)
  {
    hide AppendBatch, Each;
    assert n.Peers() == {2};
    var next := |n.full| + 1;
    assert Each({2}, next) == map[2 := next] && Each({2}, 0) == map[2 := 0];
    var n1 := n.(role := Leader(map[2 := next], map[2 := 0], next, 0, map[], []), leaderId := Some(1));
    TakesOne(n1, LogEntry(n.term, next, Noop));
  }

  /** One of two holds too little to commit. */
  lemma {:induction false} NothingToCommit(n: Node)
    requires n.Id() == 1 && n.members.Keys == {1, 2} && n.role.Leader? && n.role.matchIndex == map[2 := 0]
    ensures MaybeAdvanceCommit(n) == n
  {
    var i := n.commitIndex + 1;
    assert Holders(n, i) <= {1};
    SubsetCardinality(Holders(n, i), {1});
    PickIsGreatest(n, i);
  }

  lemma {:induction false} CountsVotes(n: Node, m: Message)
    requires Plain(n, 1) && n.role == Candidate({1})
    requires m.VoteResp? && m.from == 2 && m.sentTerm == n.term == m.term && m.granted
    ensures Leading(OnVoteReply(n, m), n) && Plain(OnVoteReply(n, m), 1)
  {
    hide BecomeLeader, MaybeAdvanceCommit;
    var n1 := n.(role := Candidate({1, 2}));
    assert n.role.votes + {2} == {1, 2};
    OneIsTooFew(n1);
    Elevates(n1);
    NothingToCommit(BecomeLeader(n1));
  }

  lemma {:induction false} Wins(c: Cluster, m: Message) returns (c': Cluster)
    requires Two(c) && m in c.net && c.nodes[1].role == Candidate({1})
    requires m.VoteResp? && m.from == 2 && m.to == 1 && m.sentTerm == c.nodes[1].term == m.term && m.granted
    ensures Two(c') && c'.nodes[2] == c.nodes[2] && Leading(c'.nodes[1], c.nodes[1])
  {
    hide Reachable, WithLead, OnVoteReply;
    CountsVotes(c.nodes[1], m);
    Then(c, Deliver(m, false));
    c' := Step(c, Deliver(m, false));
  }

  /** Both votes of a pair make node 1 leader of the next term. */
  lemma {:induction false} Elects(c: Cluster) returns (c': Cluster)
    requires Electable(c)
    ensures Two(c') && Leading(c'.nodes[1], StartElection(c.nodes[1]))
    ensures c'.nodes[2] == CastVote(BecomeFollower(c.nodes[2], c.nodes[1].term + 1, None), 1)
  {
    hide Reachable, LogUpToDate, Leading;
    var n := c.nodes[1];
    var t, last, lastTerm := n.term + 1, n.storage.LastIndex(), n.storage.LastLogTerm();
    var c1 := TimesOut(c);
    var c2 := Sends(c1, PreVoteReq(1, 2, t, last, lastTerm));
    var c3 := Probed(c2, PreVoteReq(1, 2, t, last, lastTerm));
    var c4 := Stands(c3, PreVoteResp(2, 1, t, c.nodes[2].term, true));
    assert StartElection(PreCampaign(n)) == StartElection(n);
    var c5 := Sends(c4, VoteReq(1, 2, t, last, lastTerm));
    var c6 := Votes(c5, VoteReq(1, 2, t, last, lastTerm));
    c' := Wins(c6, VoteResp(2, 1, t, t, true));
  }

  // ---- the start, the first reign, the crash ----

  ghost function Start(boot: Membership): Cluster {
    Cluster(map[1 := Boot(Config(1, boot, None, 0)), 2 := Boot(Config(2, boot, None, 0))], {},
            History({1, 2}, map[], map[], map[], {}, {}, {}, {}, map[]), NOTHING)
  }

  lemma {:induction false} Starts(boot: Membership)
    requires boot.Keys == {1, 2}
    ensures Electable(Start(boot))
    ensures forall x | x in {1, 2} :: Start(boot).nodes[x].term == Start(boot).nodes[x].commitIndex == 0
    ensures forall x | x in {1, 2} :: Start(boot).nodes[x].full == [] && Start(boot).nodes[x].config.boot == boot
  {
    hide Moves;
    var c := Start(boot);
    assert FreshAt(c, 1, {1, 2}) && FreshAt(c, 2, {1, 2});
    assert Init(c, {1, 2});
    assert IsRun([c]);
    assert Reaches(c, c);
    assert Reachable(c);
  }

  lemma {:induction false} Crashes(c: Cluster) returns (c': Cluster)
    requires Two(c) && ConfigIndex(c.nodes[1].full) == 0
    ensures Two(c') && c'.nodes[2] == c.nodes[2]
    ensures var n, n' := c.nodes[1], c'.nodes[1];
      && n'.role.Follower? && n'.config == n.config && n'.term == n.term && n'.full == n.full && n'.commitIndex == 0
  {
    hide Reachable;
    Then(c, Crash(1));
    c' := Step(c, Crash(1));
  }

  const FIRST := LogEntry(1, 1, Noop)
  const SECOND := LogEntry(2, 2, Noop)

  /** Node 1 leads term 2 with two no-ops and knows nothing of node 2, which
      holds `held`, except that it is to be probed from `next`. */
  ghost predicate Ahead(c: Cluster, held: Log, next: LogIndex) {
    && Two(c) && c.nodes[1].term == c.nodes[2].term == 2 && c.nodes[2].role.Follower?
    && c.nodes[1].full == [FIRST, SECOND] && c.nodes[2].full == held
    && c.nodes[1].commitIndex == c.nodes[2].commitIndex == 0
    && c.nodes[1].role.Leader? && c.nodes[1].role.termStart == 2 && c.nodes[1].role.beat == 0
    && c.nodes[1].role.matchIndex == map[2 := 0] && c.nodes[1].role.nextIndex == map[2 := next]
    && c.nodes[1].role.waiting == [] && (c.nodes[1].role.acked == map[] || c.nodes[1].role.acked == map[2 := 0])
  }

  lemma {:induction false} LeadsAndCrashes(boot: Membership) returns (c: Cluster)
    requires boot.Keys == {1, 2}
    ensures Electable(c) && c.nodes[1].term == c.nodes[2].term == 1
    ensures c.nodes[1].full == [FIRST] && c.nodes[2].full == [] && c.nodes[1].commitIndex == c.nodes[2].commitIndex == 0
  {
    hide Reachable;
    Starts(boot);
    var c1 := Elects(Start(boot));
    assert c1.nodes[1].full == [FIRST];
    ConfigOfOne(FIRST);
    c := Crashes(c1);
  }

  lemma {:induction false} LeadsTwice(boot: Membership) returns (c: Cluster)
    requires boot.Keys == {1, 2}
    ensures Ahead(c, [], 2)
  {
    hide Reachable, LogUpToDate;
    var c1 := LeadsAndCrashes(boot);
    c := Elects(c1);
    assert c.nodes[1].full == [FIRST] + [SECOND];
  }

  // ---- a rejected probe and a replicated commit ----

  const REJECTED := AppendResp(2, 1, 2, 1, 1, 0, 2, false)
  const CONFIRMED := AppendResp(2, 1, 2, 0, 2, 0, 2, true)

  /** What the leader of term 2 sends its peer, at either next index. */
  lemma {:induction false} Tails(n: Node)
    requires Plain(n, 1) && n.term == 2 && n.full == [FIRST, SECOND] && n.commitIndex == 0
    requires n.role.Leader? && n.role.beat == 0
    ensures n.role.nextIndex == map[2 := 2] ==> SendTo(n, 2) == Some(AppendReq(1, 2, 2, 1, 1, [SECOND], 0, 0))
    ensures n.role.nextIndex == map[2 := 1] ==> SendTo(n, 2) == Some(AppendReq(1, 2, 2, 0, 0, [FIRST, SECOND], 0, 0))
  {
    var log := [FIRST, SECOND];
    assert log[1..] == [SECOND] && log[0..] == log;
    assert n.storage.EntriesFrom(2) == [SECOND] && n.storage.EntriesFrom(1) == log;
  }

  lemma {:induction false} Probes(c: Cluster) returns (c': Cluster)
    requires Ahead(c, [], 2)
    ensures Ahead(c', [], 2) && c'.net == c.net + {AppendReq(1, 2, 2, 1, 1, [SECOND], 0, 0)}
    ensures c'.nodes == c.nodes
  {
    hide Reachable, SendTo;
    Tails(c.nodes[1]);
    c' := Sends(c, AppendReq(1, 2, 2, 1, 1, [SECOND], 0, 0));
  }

  lemma {:induction false} Rejects(c: Cluster) returns (c': Cluster)
    requires Ahead(c, [], 2) && AppendReq(1, 2, 2, 1, 1, [SECOND], 0, 0) in c.net
    ensures Ahead(c', [], 2) && REJECTED in c'.net && c'.nodes[1] == c.nodes[1]
  {
    hide Reachable, Accept, FollowCommit;
    var m := AppendReq(1, 2, 2, 1, 1, [SECOND], 0, 0);
    Then(c, Deliver(m, false));
    c' := Step(c, Deliver(m, false));
  }

  /** What a rejection of the probe at index 1 does to the leader of term 2. */
  lemma {:induction false} Retreats(n: Node)
    requires n.role.Leader? && n.term == 2 && 2 in n.role.nextIndex && n.role.nextIndex[2] >= 1
    ensures var n' := OnAppendReply(n, REJECTED);
      && n' == n.(role := n'.role, answers := n'.answers) && n'.role.Leader?
      && n'.role == n.role.(nextIndex := n.role.nextIndex[2 := 1], acked := n'.role.acked, waiting := n'.role.waiting)
      && (n.role.waiting == [] ==> n'.role.waiting == [])
      && (n.role.acked == map[] || n.role.acked == map[2 := 0] ==> n'.role.acked == map[2 := 0])
  {
    hide Grants;
  }

  lemma {:induction false} Retries(c: Cluster) returns (c': Cluster)
    requires Ahead(c, [], 2) && REJECTED in c.net
    ensures Ahead(c', [], 1) && REJECTED in c'.net
  {
    hide Reachable, OnAppendReply, WithCommit;
    Retreats(c.nodes[1]);
    Then(c, Deliver(REJECTED, false));
    c' := Step(c, Deliver(REJECTED, false));
  }

  lemma {:induction false} SendsAll(c: Cluster) returns (c': Cluster)
    requires Ahead(c, [], 1)
    ensures Ahead(c', [], 1) && c'.net == c.net + {AppendReq(1, 2, 2, 0, 0, [FIRST, SECOND], 0, 0)}
    ensures c'.nodes == c.nodes
  {
    hide Reachable, SendTo;
    Tails(c.nodes[1]);
    c' := Sends(c, AppendReq(1, 2, 2, 0, 0, [FIRST, SECOND], 0, 0));
  }

  lemma {:induction false} TakesBoth(n: Node)
    requires Plain(n, 2) && n.full == []
    ensures AppendBatch(n, [FIRST, SECOND]) == n.(full := [FIRST, SECOND], storage := Retained(None, [FIRST, SECOND]))
  {
    FirstGapMeans([FIRST, SECOND], 1);
    assert [FIRST, SECOND][..1] == [FIRST];
    ConfigOfOne(FIRST);
  }

  lemma {:induction false} AcceptsBoth(n: Node)
    requires Plain(n, 2) && n.full == [] && n.term == 2 && n.role.Follower? && n.commitIndex == 0
    ensures var (n', reply) := HandleAppendEntries(n, AppendReq(1, 2, 2, 0, 0, [FIRST, SECOND], 0, 0));
      && Plain(n', 2) && n'.full == [FIRST, SECOND] && n'.term == 2 && n'.role.Follower? && n'.commitIndex == 0
      && reply == CONFIRMED
  {
    hide AppendBatch, CommitTo;
    var n1 := BecomeFollower(n, 2, Some(1));
    TakesBoth(n1);
    assert [FIRST, SECOND][0..] == [FIRST, SECOND] && [FIRST, SECOND][..2] == [FIRST, SECOND];
    assert WalkFrom(n1.storage, [FIRST, SECOND], 0) == Missing(0);
  }

  lemma {:induction false} Accepts(c: Cluster) returns (c': Cluster)
    requires Ahead(c, [], 1) && AppendReq(1, 2, 2, 0, 0, [FIRST, SECOND], 0, 0) in c.net
    ensures Ahead(c', [FIRST, SECOND], 1) && c'.net == c.net + {CONFIRMED} && c'.nodes[1] == c.nodes[1]
  {
    hide Reachable, HandleAppendEntries;
    var m := AppendReq(1, 2, 2, 0, 0, [FIRST, SECOND], 0, 0);
    AcceptsBoth(c.nodes[2]);
    Then(c, Deliver(m, false));
    c' := Step(c, Deliver(m, false));
  }

  lemma {:induction false} CommitsInPlace(n: Node, k: LogIndex)
    requires n.config.threshold.None?
    ensures CommitTo(n, k).storage == n.storage
    ensures n.role.Leader? && n.role.waiting == [] ==> CommitTo(n, k).role == n.role
  {
    hide ApplyLoop, ResolveReads;
    ApplyLoopKeeps(n.(commitIndex := k));
    var n1 := ResolvePending(ApplyLoop(n.(commitIndex := k)));
    ResolveReadsOk(n1);
    if n1.role.Leader? && n1.role.waiting == [] { NobodyWaits(n1); }
  }

  lemma {:induction false} NobodyWaits(n: Node)
    requires n.role.Leader? && n.role.waiting == []
    ensures ResolveReads(n).role == n.role
  {
  }

  lemma {:induction false} HoldersAre(n: Node)
    requires Plain(n, 1) && |n.full| == 2 && n.role.Leader? && n.role.matchIndex == map[2 := 2]
    ensures Holders(n, 2) == {1, 2} && Holders(n, 3) == {}
  {
    assert n.Peers() == {2};
  }

  lemma {:induction false} BothHold(n: Node)
    requires Plain(n, 1) && n.full == [FIRST, SECOND] && n.term == 2 && n.commitIndex == 0
    requires n.role.Leader? && n.role.matchIndex == map[2 := 2]
    ensures CanCommit(n) && CommitPick(n) == 2
  {
    hide CommitPick, Holders;
    HoldersAre(n);
    PickIsGreatest(n, 2);
    PickIsGreatest(n, 3);
  }

  /** Node 1 leads term 2 with both entries committed on both nodes. */
  ghost predicate Agreed(n: Node) {
    && Plain(n, 1) && n.term == 2 && n.full == [FIRST, SECOND] && n.commitIndex == 2
    && n.role.Leader? && n.role.termStart == 2 && n.role.beat == 0 && n.role.acked == map[2 := 0]
    && n.role.matchIndex == map[2 := 2] && n.role.nextIndex == map[2 := 3] && n.role.waiting == []
  }

  lemma {:induction false} Settles(n: Node)
    requires Plain(n, 1) && n.full == [FIRST, SECOND] && n.term == 2 && n.commitIndex == 0
    requires n.role.Leader? && n.role.termStart == 2 && n.role.beat == 0 && n.role.acked == map[2 := 0]
    requires n.role.matchIndex == map[2 := 2] && n.role.nextIndex == map[2 := 3] && n.role.waiting == []
    ensures Agreed(ResolveReads(MaybeAdvanceCommit(n)))
  {
    hide CanCommit, CommitPick, CommitTo, KeepsWaiters;
    BothHold(n);
    CommitToKeeps(n, 2);
    CommitsInPlace(n, 2);
    assert Waiting(CommitTo(n, 2), []) == [];
  }

  lemma {:induction false} Confirms(n: Node)
    requires Plain(n, 1) && n.full == [FIRST, SECOND] && n.term == 2 && n.commitIndex == 0
    requires n.role.Leader? && n.role.termStart == 2 && n.role.beat == 0 && n.role.waiting == []
    requires n.role.acked == map[] || n.role.acked == map[2 := 0]
    requires n.role.matchIndex == map[2 := 0] && n.role.nextIndex == map[2 := 1]
    ensures Agreed(OnAppendReply(n, CONFIRMED))
  {
    hide MaybeAdvanceCommit, ResolveReads;
    Settles(RecordMatch(RecordAck(n, 2, 0), 2, 2));
  }

  lemma {:induction false} Commits(c: Cluster) returns (c': Cluster)
    requires Ahead(c, [FIRST, SECOND], 1) && CONFIRMED in c.net
    ensures Two(c') && Agreed(c'.nodes[1]) && c'.nodes[2] == c.nodes[2] && c'.net == c.net
  {
    hide Reachable, OnAppendReply, WithCommit;
    Confirms(c.nodes[1]);
    Then(c, Deliver(CONFIRMED, false));
    c' := Step(c, Deliver(CONFIRMED, false));
  }

  /** Two nodes agree: a leader of term 2, two entries on both, committed by
      counting both; and the rejection on the way is still in the network. */
  lemma {:induction false} CommitsTogether(boot: Membership) returns (c: Cluster)
    requires boot.Keys == {1, 2}
    ensures Two(c) && Agreed(c.nodes[1]) && REJECTED in c.net
    ensures c.nodes[2].full == [FIRST, SECOND] && c.nodes[2].term == 2 && c.nodes[2].commitIndex == 0
  {
    hide Reachable, Agreed;
    var c0 := LeadsTwice(boot);
    var c1 := Probes(c0);
    var c2 := Rejects(c1);
    var c3 := Retries(c2);
    var c4 := SendsAll(c3);
    var c5 := Accepts(c4);
    c := Commits(c5);
  }

  // ---- a read confirmed by the other node ----

  const HEARTBEAT := AppendReq(1, 2, 2, 2, 2, [], 2, 1)
  const HEARD := AppendResp(2, 1, 2, 2, 0, 1, 2, true)
  const ASKED := PendingRead(1, 2)

  /** The leader has registered one read and waits for the other's answer. */
  ghost predicate Asking(n: Node) {
    && Plain(n, 1) && n.term == 2 && n.full == [FIRST, SECOND] && n.commitIndex == 2
    && n.role.Leader? && n.role.beat == 1 && n.role.acked == map[2 := 0] && n.role.waiting == [ASKED]
    && n.role.matchIndex == map[2 := 2] && n.role.nextIndex == map[2 := 3]
  }

  lemma {:induction false} Asks(n: Node)
    requires Agreed(n)
    ensures Asking(HandleRead(n)) && HandleRead(n).answers == n.answers
  {
    var r := RegisterRead(n);
    assert r.role.waiting == [ASKED] && [ASKED][..0] == [];
    assert r.Peers() == {2};
    assert Confirming(r, 1) == {1};
    assert !Grantable(r, ASKED);
    assert Waiting(r, [ASKED]) == Waiting(r, []) + [ASKED] && Grants(r, [ASKED]) == Grants(r, []);
  }

  lemma {:induction false} Beats(n: Node)
    requires Asking(n)
    ensures SendTo(n, 2) == Some(HEARTBEAT)
  {
    assert n.storage.EntriesFrom(3) == [];
  }

  /** The heartbeat makes the follower commit and apply both entries. */
  lemma {:induction false} Follows(c: Cluster) returns (c': Cluster)
    requires Two(c) && Asking(c.nodes[1]) && HEARTBEAT in c.net
    requires c.nodes[2].full == [FIRST, SECOND] && c.nodes[2].term == 2 && c.nodes[2].commitIndex == 0
    ensures Reachable(c') && Reaches(c, c') && c'.nodes.Keys == {1, 2} && c'.nodes[1] == c.nodes[1] && HEARD in c'.net
    ensures c'.nodes[2].commitIndex == c'.nodes[2].lastApplied == 2
  {
    hide Reachable, Reaches, Inv, Good, MsgOk, HandleAppendEntries;
    ReachableInv(c);
    NodeGood(c, 2);
    NetOk(c, HEARTBEAT);
    AppendSucceedsIff(c.hist, c.nodes[2], HEARTBEAT);
    AppendCommits(c.hist, c.nodes[2], HEARTBEAT);
    AppendSteady(c.nodes[2], HEARTBEAT);
    Then(c, Deliver(HEARTBEAT, false));
    StepReaches(c, Deliver(HEARTBEAT, false));
    c' := Step(c, Deliver(HEARTBEAT, false));
  }

  lemma {:induction false} NothingNew(n: Node)
    requires Asking(n)
    ensures var n1 := RecordMatch(RecordAck(n, 2, 1), 2, 2);
      && MaybeAdvanceCommit(n1) == n1 && n1.role.Leader? && n1 == n.(role := n1.role)
      && n1.role.acked == map[2 := 1] && n1.role.waiting == [ASKED]
  {
    hide CommitPick, CommitTo, MajorityHolds;
    var n1 := RecordMatch(RecordAck(n, 2, 1), 2, 2);
    assert n1.role.matchIndex == map[2 := 2];
    TooFewHold(n1);
    PickIsGreatest(n1, 3);
  }

  lemma {:induction false} TooFewHold(n: Node)
    requires Plain(n, 1) && |n.full| == 2 && n.role.Leader? && n.role.matchIndex == map[2 := 2]
    ensures !MajorityHolds(n, 3)
  {
    HoldersAre(n);
  }

  lemma {:induction false} AnswerGrants(n: Node)
    requires Asking(n) && n.lastApplied == 2
    ensures ReadGranted(2, 1, 2) in OnAppendReply(n, HEARD).answers && OnAppendReply(n, HEARD).Id() == 1
  {
    hide Waiting, Grants, MaybeAdvanceCommit, Confirmed;
    var n1 := RecordMatch(RecordAck(n, 2, 1), 2, 2);
    NothingNew(n);
    BothAnswered(n1);
    assert ASKED in n1.role.waiting;
    WaitsOrGranted(n1, n1.role.waiting, ASKED);
  }

  lemma {:induction false} BothAnswered(n: Node)
    requires n.role.Leader? && n.Id() == 1 && n.members.Keys == {1, 2} && n.role.acked == map[2 := 1] && n.lastApplied == 2
    ensures Confirmed(n, ASKED)
  {
    assert (set p | p in n.members && (p == n.Id() || (p in n.role.acked && n.role.acked[p] >= 1))) == {1, 2};
    assert |n.members| == |n.members.Keys|;
  }

  lemma {:induction false} ReadWaits(boot: Membership) returns (c: Cluster)
    requires boot.Keys == {1, 2}
    ensures Two(c) && Asking(c.nodes[1])
    ensures c.nodes[2].full == [FIRST, SECOND] && c.nodes[2].term == 2 && c.nodes[2].commitIndex == 0
  {
    hide Reachable, HandleRead, WithRead;
    var c0 := CommitsTogether(boot);
    Asks(c0.nodes[1]);
    Then(c0, Read(1));
    c := Step(c0, Read(1));
  }

  /** A read in a cluster of two: it waits at first, the follower commits and
      applies with the heartbeat it causes, and the answer grants it. */
  lemma {:induction false} ReadIsConfirmed(boot: Membership) returns (c: Cluster, c': Cluster)
    requires boot.Keys == {1, 2}
    ensures Reachable(c) && c.nodes.Keys == {1, 2} && c.nodes[1].role.Leader? && ASKED in c.nodes[1].role.waiting
    ensures Reaches(c, c') && c'.nodes.Keys == {1, 2}
    ensures c'.nodes[2].commitIndex == c'.nodes[2].lastApplied == 2 && ReadGranted(2, 1, 2) in c'.nodes[1].answers
  {
    hide Reachable, Reaches, Inv, OnAppendReply, WithCommit, SendTo;
    c := ReadWaits(boot);
    Beats(c.nodes[1]);
    var c1 := Sends(c, HEARTBEAT);
    var c2 := Follows(c1);
    ReachableInv(c2);
    NodeCommitted(c2, 1);
    AnswerGrants(c2.nodes[1]);
    c' := Step(c2, Deliver(HEARD, false));
    StepReaches(c2, Deliver(HEARD, false));
    ReachesTransitive(c, c1, c2);
    ReachesTransitive(c, c2, c');
  }

  // ---- what two comments rule out ----

  /** A rejection delivered late takes the next index from above the match
      index to below it. */
  lemma {:induction false} StaleRejectionUndoes(boot: Membership) returns (c: Cluster, m: Message)
    requires boot.Keys == {1, 2}
    ensures Reachable(c) && m in c.net && m.AppendResp? && !m.success && m.from == 2 && m.to == 1 && 1 in c.nodes
    ensures c.nodes[1].role.Leader? && NextOf(c.nodes[1], 2) == 3 > MatchOf(c.nodes[1], 2) == 2
    ensures var n' := Step(c, Deliver(m, false)).nodes[1];
      n'.role.Leader? && NextOf(n', 2) == 1 < MatchOf(n', 2) == 2
  {
    hide Reachable, OnAppendReply, WithCommit;
    c := CommitsTogether(boot);
    m := REJECTED;
    Retreats(c.nodes[1]);
  }

  lemma {:induction false} Shrinks(n: Node, addr: MemberAddr)
    requires Agreed(n)
    ensures var command := ConfigChange(map[1 := addr]);
      && AdmitProposal(n, command, {}).Accepted?
      && Shrunk(HandlePropose(n, command, {}))
  {
    hide MaybeAdvanceCommit, AppendBatch;
    var new_ := map[1 := addr];
    assert new_.Keys - n.members.Keys == {} && n.members.Keys - new_.Keys == {2};
    assert (set p | p in new_.Keys && (p == n.Id() || (p in n.role.acked && p in {}))) == {1};
    TakesOne(n, LogEntry(2, 3, ConfigChange(new_)));
    CommitsAlone(AppendProposal(n, ConfigChange(new_)));
  }

  /** A lone leader that its former peer answered in this term. */
  ghost predicate Shrunk(n: Node) {
    && IsAlone(n) && n.role.Leader? && n.role.termStart == 2 && n.membersIndex == n.commitIndex == 3
    && 2 in n.role.acked && n.storage == Retained(None, n.full) && |n.full| == 3
  }

  lemma {:induction false} CommitsAlone(n: Node)
    requires IsAlone(n) && n.role.Leader? && n.role.termStart == 2 && n.membersIndex == 3 && n.commitIndex == 2
    requires 2 in n.role.acked && n.storage == Retained(None, n.full) && |n.full| == 3 && n.full[2].term == n.term
    requires n.config.threshold.None?
    ensures Shrunk(MaybeAdvanceCommit(n))
  {
    hide CommitPick, CommitTo;
    OwnPick(n, 3);
    CommitToKeeps(n, 3);
    CommitsInPlace(n, 3);
  }

  /** A member removed in this term that had answered and is still heard makes
      a lone leader accept growing again, though it is not a member. */
  lemma {:induction false} RemovedCountsAsReachable(boot: Membership) returns (c: Cluster)
    requires boot.Keys == {1, 2}
    ensures Reachable(c) && 1 in c.nodes && c.nodes[1].role.Leader? && c.nodes[1].members.Keys == {1}
    ensures var grown := c.nodes[1].members[2 := boot[2]];
      && AdmitProposal(c.nodes[1], ConfigChange(grown), {2}).Accepted?
      && Step(c, Propose(1, ConfigChange(grown), {2})).nodes[1].members == grown
  {
    hide Reachable, AdmitProposal, HandlePropose, WithCommit, AppendProposal;
    var c0 := CommitsTogether(boot);
    var shrink := ConfigChange(map[1 := boot[1]]);
    Shrinks(c0.nodes[1], boot[1]);
    Then(c0, Propose(1, shrink, {}));
    c := Step(c0, Propose(1, shrink, {}));
    Regrows(c.nodes[1], boot[2]);
  }

  lemma {:induction false} Regrows(n: Node, addr: MemberAddr)
    requires Shrunk(n)
    ensures var grown := n.members[2 := addr];
      && AdmitProposal(n, ConfigChange(grown), {2}).Accepted?
      && HandlePropose(n, ConfigChange(grown), {2}).members == grown
      && HandlePropose(n, ConfigChange(grown), {2}).Id() == 1
  {
    hide ValidateConfigChange, AdvanceCommit, AppendBatch;
    var grown := n.members[2 := addr];
    GrowingFromOne(n, 2, addr, {2});
    TakesOne(n, LogEntry(n.term, 4, ConfigChange(grown)));
    AdvanceKeeps(AppendProposal(n, ConfigChange(grown)));
  }
}
