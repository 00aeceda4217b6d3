/** The observer sees everything: its record is that of all AppendEntries ever
    sent, so its silence is a statement about the whole network. */
module Watch {
  import opened Types
  import opened Rpc
  import opened Node
  import opened History
  import opened Cluster
  import opened Observer

  /** Nothing but a send adds an AppendEntries or changes the record. */
  ghost predicate Unseen(c: Cluster, c': Cluster) {
    c'.seen == c.seen && forall m | m in c'.net && m.AppendReq? :: m in c.net
  }

  lemma {:induction false} PlaceUnseen(c: Cluster, n: Node, h: History, sent: set<Message>)
    requires forall m | m in sent :: !m.AppendReq?
    ensures Unseen(c, Place(c, n, h, sent))
  {
  }

  lemma {:induction false} DeliverUnseen(c: Cluster, n: Node, m: Message, sticky: bool)
    ensures Unseen(c, DoDeliver(c, n, m, sticky))
  {
    hide GrantsVote, PrevMatches, Accept, FollowCommit, InstallFrom, LogUpToDate, OnPreVoteReply, OnVoteReply,
      OnAppendReply, OnSnapshotReply, WithElection, WithLead, WithCommit, RecordMatch, RecordInstalled, AdoptTerm;
  }

  lemma {:induction false} StepUnseen(c: Cluster, a: Action)
    requires !a.Send?
    ensures Unseen(c, Step(c, a))
  {
    hide DoDeliver, HandlePropose, HandleRead, OnElectionTimeout, OnHeartbeatTick, Restart, AdmitProposal, AppendProposal,
      WithCommit, WithEntry, WithElection, WithRead, AdoptTerm, DieInAppend, HasMajority, BecomeLeader, Counted;
    match a {
      case Deliver(m, sticky) => if m.to in c.nodes { DeliverUnseen(c, c.nodes[m.to], m, sticky); }
      case _ =>
    }
  }

  /** The record of these messages, in the order they were sent; every
      AppendEntries in the network is one of them. */
  ghost predicate SeenAs(c: Cluster, ms: seq<Message>) {
    c.seen == InspectAll(ms) && forall m | m in c.net && m.AppendReq? :: m in ms
  }

  lemma {:induction false} SendSeen(c: Cluster, n: Node, peer: NodeId, ms: seq<Message>) returns (ms': seq<Message>)
    requires SeenAs(c, ms)
    ensures SeenAs(DoSend(c, n, peer), ms')
  {
    hide SendTo, Inspect;
    ms' := ms;
    if !n.role.Follower? && peer != n.Id() && SendTo(n, peer).Some? {
      var m := SendTo(n, peer).value;
      ms' := ms + [m];
      assert ms'[..|ms|] == ms;
    }
  }

  lemma {:induction false} RunSeen(run: seq<Cluster>, k: nat) returns (ms: seq<Message>)
    requires IsRun(run) && run[0].seen == NOTHING && run[0].net == {} && k < |run|
    ensures SeenAs(run[k], ms)
  {
    hide Step, InspectAll;
    if k == 0 {
      ms := [];
      NothingInspected();
    } else {
      ms := RunSeen(run, k - 1);
      assert Moves(run, k);
      var a :| run[k] == Step(run[k - 1], a);
      if a.Send? { ms := StepSent(run[k - 1], a, ms); } else { StepUnseen(run[k - 1], a); }
    }
  }

  lemma {:induction false} NothingInspected()
    ensures InspectAll([]) == NOTHING
  {
  }

  lemma {:induction false} StepSent(c: Cluster, a: Action, ms: seq<Message>) returns (ms': seq<Message>)
    requires a.Send? && SeenAs(c, ms)
    ensures SeenAs(Step(c, a), ms')
  {
    hide DoSend, InspectAll;
    ms' := ms;
    if a.id in c.nodes { ms' := SendSeen(c, c.nodes[a.id], a.peer, ms); }
  }
}
