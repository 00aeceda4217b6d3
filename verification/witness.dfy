module Witness {
  // The theorems are about something: from a fresh start a node alone in its
  // cluster becomes leader, commits, and grants a read. The values are
  // computed from the model's own functions.

  import opened Types
  import opened Quorum
  import opened Storage
  import opened Rpc
  import opened Node
  import opened NodeInvariant
  import opened History
  import opened Growth
  import opened Cluster
  import opened Invariant
  import opened Observer
  import opened Election
  import opened Followers
  import opened Replies
  import opened Steps
  import opened Safety

  ghost function Alone(addr: MemberAddr): Cluster {
    var n := Boot(Config(1, map[1 := addr], None, 0));
    Cluster(map[1 := n], {}, History({1}, map[], map[], map[], {}, {}, {}, {}, map[]), NOTHING)
  }

  lemma {:induction false} AloneStarts(addr: MemberAddr)
    ensures Init(Alone(addr), {1}) && Inv(Alone(addr)) && Reachable(Alone(addr))
  {
    var c := Alone(addr);
    assert FreshAt(c, 1, {1});
    InitInv(c, {1});
    hide Inv, Init;
    assert IsRun([c]);
    assert Reaches(c, c);
  }

  lemma {:induction false} AloneBooted(addr: MemberAddr)
    ensures var n := Alone(addr).nodes[1];
      && n.members == map[1 := addr] && n.full == [] && n.term == 0 && n.commitIndex == 0 && n.role.Follower? && n.Id() == 1
  {
    BootOk(Config(1, map[1 := addr], None, 0));
  }

  ghost predicate IsAlone(n: Node) {
    n.Id() == 1 && n.members.Keys == {1}
  }

  lemma {:induction false} OwnMajority(n: Node)
    requires IsAlone(n)
    ensures HasMajority(n, {1})
  {
    assert {1} * n.members.Keys == {1};
  }

  lemma {:induction false} OwnPick(n: Node, k: LogIndex)
    requires IsAlone(n) && n.role.Leader? && n.storage.LastIndex() == k
    ensures CommitPick(n) == k
  {
    assert n.Peers() == {};
    assert Holders(n, k) == {1} && Holders(n, k + 1) == {};
    PickIsGreatest(n, k);
    PickIsGreatest(n, k + 1);
  }

  /** The node right after it has taken leadership of term 1, before committing. */
  ghost predicate JustLed(n: Node) {
    && IsAlone(n) && NodeInv(n) && n.role.Leader? && n.term == 1 && n.commitIndex == 0
    && n.full == [LogEntry(1, 1, Noop)] && n.role.termStart == 1 && n.role.beat == 0 && n.role.waiting == []
  }

  lemma {:induction false} TakesOver(h: History, n: Node)
    requires Good(h, n) && IsAlone(n) && n.role.Follower? && n.full == [] && n.term == 0 && n.commitIndex == 0
    ensures var s := StartElection(PreCampaign(n));
      && OnElectionTimeout(n) == MaybeAdvanceCommit(BecomeLeader(s)) && JustLed(BecomeLeader(s))
  {
    hide HistoryOk, NodeOk, Extends, MaybeAdvanceCommit;
    var p := PreCampaign(n);
    PreCampaignGood(h, n);
    OwnMajority(p);
    StartElectionGood(h, p);
    var s := StartElection(p);
    OwnMajority(s);
    BecomeLeaderOk(s);
  }

  lemma {:induction false} MayCommit(n: Node)
    requires JustLed(n)
    ensures CanCommit(n) && CommitPick(n) == 1
  {
    hide MembersOk, CommitPick;
    AnswersAsWhole(n.storage, n.full, 1);
    OwnPick(n, 1);
  }

  lemma {:induction false} StillEmpty(n: Node, n': Node, k: LogIndex)
    requires n.role.Leader? && n.role.waiting == [] && CommitsTo(n, n', k)
    ensures n'.role.Leader? && n'.role.waiting == []
  {
    SomeLeft(n'.role.waiting, n.role.waiting);
  }

  lemma {:induction false} SomeLeft(s: seq<PendingRead>, t: seq<PendingRead>)
    requires forall r | r in s :: r in t
    ensures s != [] ==> t != []
  {
    if s != [] { assert s[0] in t; }
  }

  lemma {:induction false} CommitsAtOnce(n: Node)
    requires JustLed(n)
    ensures var n' := MaybeAdvanceCommit(n);
      && IsAlone(n') && n'.role.Leader? && n'.term == 1 && n'.commitIndex == 1 && n'.lastApplied == 1
      && n'.role.termStart == 1 && n'.role.beat == 0 && n'.role.waiting == []
  {
    hide CommitTo, CommitPick, NodeInv, CanCommit, IsVerdict, IsGrant;
    MayCommit(n);
    CommitToOk(n, 1);
    StillEmpty(n, CommitTo(n, 1), 1);
  }

  lemma {:induction false} GrantsAtOnce(n: Node)
    requires IsAlone(n) && n.role.Leader? && n.term == 1 && n.commitIndex == 1 && n.lastApplied == 1
    requires n.role.termStart == 1 && n.role.beat == 0 && n.role.waiting == []
    ensures ReadGranted(1, 1, 1) in HandleRead(n).answers
  {
    var r, w := RegisterRead(n), PendingRead(1, 1);
    assert r.role.waiting == [w] && [w][..0] == [];
    assert r.Peers() == {};
    assert Confirming(r, 1) == {1};
    assert Grantable(r, w);
    assert Grants(r, [w]) == Grants(r, []) + [ReadGranted(1, 1, 1)];
  }

  /** A reachable state with a leader, a committed entry and, one step later,
      a granted read. */
  lemma {:induction false} SomeReadIsGranted(addr: MemberAddr) returns (c: Cluster)
    ensures Reachable(c) && 1 in c.nodes && c.nodes[1].role.Leader? && c.nodes[1].term == 1
      && c.nodes[1].commitIndex == 1
    ensures ReadGranted(1, c.nodes[1].role.beat + 1, 1) in Step(c, Read(1)).nodes[1].answers
  {
    hide Inv, Reachable, Reaches, Good, OnElectionTimeout, MaybeAdvanceCommit, HandleRead, Init, WithElection,
      WithRead, NodeInv;
    var start := Alone(addr);
    AloneStarts(addr);
    AloneBooted(addr);
    NodeGood(start, 1);
    var n := start.nodes[1];
    TakesOver(start.hist, n);
    CommitsAtOnce(BecomeLeader(StartElection(PreCampaign(n))));
    GrantsAtOnce(OnElectionTimeout(n));
    c := Step(start, Timeout(1));
    StepReaches(start, Timeout(1));
    ReachableReaches(start, c);
    KeepsId(n, start.hist);
  }

  lemma {:induction false} KeepsId(n: Node, h: History)
    requires Good(h, n)
    ensures OnElectionTimeout(n).Id() == n.Id()
    ensures OnElectionTimeout(n).role.Leader? ==> HandleRead(OnElectionTimeout(n)).Id() == n.Id()
  {
    hide Good, Extends, MaybeStartElection, WithElection;
    if !n.role.Leader? && n.Id() in n.members {
      PreCampaignGood(h, n);
      MaybeElectGood(h, PreCampaign(n));
    }
  }
}
