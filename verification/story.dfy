/** One story told in full: a node alone in its cluster takes a write and
    serves a read, and the two records satisfy everything the linearizability
    theorem asks of records. */
module Storyline {
  import opened Types
  import opened Quorum
  import opened Storage
  import opened Rpc
  import opened Node
  import opened NodeInvariant
  import opened History
  import opened Completeness
  import opened Cluster
  import opened Invariant
  import opened Election
  import opened Steps
  import opened Tenure
  import opened Safety
  import opened Clients
  import opened Witness
  import opened Pair
  import opened LogOrder
  import opened Linearization
  import Lin
  import Locality
  import Store

  const WRITE := Types.Put("k", "v", None)

  /** Alone, leading term 1 with one entry committed, nothing waiting. */
  ghost predicate Idle(n: Node) {
    && IsAlone(n) && n.config.threshold.None? && n.role.Leader? && n.term == 1 && n.commitIndex == n.lastApplied == 1
    && n.full == [FIRST] && n.storage == Retained(None, n.full) && n.role.termStart == 1 && n.role.beat == 0
    && n.role.waiting == []
  }

  /** The same, with the write committed and told. */
  ghost predicate Served(n: Node) {
    && IsAlone(n) && n.role.Leader? && n.term == 1 && n.commitIndex == 2
    && n.full == [FIRST, LogEntry(1, 2, WRITE)] && n.role.termStart == 1 && n.role.beat == 0
    && Resolved(1, 2, true, 1) in n.answers
  }

  /** A committed proposal is told so. */
  lemma {:induction false} CommitTells(n: Node, p: PendingProposal, k: LogIndex)
    requires n.config.threshold.None? && p in n.pending && p.index <= k && IsHeld(n, p)
    ensures Resolved(p.term, p.index, true, n.term) in CommitTo(n, k).answers
  {
    hide ApplyLoop, ResolveReads, Verdicts, Unresolved;
    var n0 := n.(commitIndex := k);
    ApplyLoopKeeps(n0);
    var n1 := ApplyLoop(n0);
    WaitsOrTold(n1, n1.pending, p);
    ResolveReadsOk(ResolvePending(n1));
    GrantsAdd(ResolvePending(n1), Resolved(p.term, p.index, true, n.term));
  }

  lemma {:induction false} GrantsAdd(n: Node, a: Answer)
    requires a in n.answers
    ensures a in ResolveReads(n).answers
  {
  }

  lemma {:induction false} TakesWrite(n: Node)
    requires Idle(n)
    ensures AdmitProposal(n, WRITE, {}) == Accepted(1, 2) && Served(HandlePropose(n, WRITE, {}))
  {
    hide AppendBatch, CommitTo, CommitPick;
    TakesOne(n, LogEntry(1, 2, WRITE));
    var n1 := AppendProposal(n, WRITE);
    assert n1.full == [FIRST, LogEntry(1, 2, WRITE)];
    assert PendingProposal(1, 2) in n1.pending;
    OwnPick(n1, 2);
    CommitToKeeps(n1, 2);
    CommitTells(n1, PendingProposal(1, 2), 2);
  }

  lemma {:induction false} LeadsIdle(h: History, n: Node)
    requires Good(h, n) && IsAlone(n) && n.role.Follower? && n.full == [] && n.term == 0 && n.commitIndex == 0
    requires n.config.threshold.None? && n.storage == Retained(None, [])
    ensures Idle(OnElectionTimeout(n))
  {
    hide Good, CommitTo, CommitPick, NodeInv, CanCommit, BecomeLeader, OnElectionTimeout;
    TakesOver(h, n);
    var s := StartElection(PreCampaign(n));
    var n1 := BecomeLeader(s);
    StartsPlain(s);
    MayCommit(n1);
    CommitToKeeps(n1, 1);
    CommitsInPlace(n1, 1);
    CommitsAtOnce(n1);
  }

  lemma {:induction false} StartsPlain(n: Node)
    requires n.storage == Retained(None, []) && n.full == [] && n.term == 1
    ensures BecomeLeader(n).storage == Retained(None, [FIRST]) && BecomeLeader(n).config == n.config
  {
    hide AppendBatch, Each;
    var n1 := n.(role := Leader(Each(n.Peers(), 1), Each(n.Peers(), 0), 1, 0, map[], []), leaderId := Some(n.Id()));
    TakesOne(n1, FIRST);
    assert [] + [FIRST] == [FIRST];
  }

  lemma {:induction false} ServesRead(n: Node)
    requires Served(n) && n.lastApplied == 2
    ensures ReadGranted(1, 1, 2) in HandleRead(n).answers
    ensures HandleRead(n).kv == n.kv && HandleRead(n).lastApplied == 2 && HandleRead(n).Id() == 1
  {
    var r, w := RegisterRead(n), PendingRead(1, 2);
    assert r.role.waiting == n.role.waiting + [w] && r.role.waiting[..|n.role.waiting|] == n.role.waiting;
    assert r.Peers() == {};
    assert Confirming(r, 1) == {1};
    assert Grantable(r, w);
    assert Grants(r, r.role.waiting) == Grants(r, n.role.waiting) + [ReadGranted(1, 1, 2)];
  }

  /** What the two entries make of an empty store. */
  lemma {:induction false} Holds()
    ensures Store.Fold([FIRST, LogEntry(1, 2, WRITE)]).entries == map["k" := "v"]
  {
    var log := [FIRST, LogEntry(1, 2, WRITE)];
    assert log[..1] == [FIRST] && [FIRST][..0] == [];
    assert Store.Fold([FIRST]) == Store.EMPTY;
  }

  // ---- the run ----

  /** Start, leadership, write, read. */
  ghost predicate Short(run: seq<Cluster>) {
    && |run| == 4 && Init(run[0], {1}) && (forall k | 0 <= k < 4 :: run[k].nodes.Keys == {1})
    && run[0].nodes[1].role.Follower? && run[1] == Step(run[0], Timeout(1))
    && Idle(run[1].nodes[1]) && run[2] == Step(run[1], Propose(1, WRITE, {}))
    && Served(run[2].nodes[1]) && run[3] == Step(run[2], Read(1))
  }

  lemma {:induction false} ShortRun(addr: MemberAddr) returns (run: seq<Cluster>)
    ensures Short(run)
  {
    hide Inv, Reachable, Good, OnElectionTimeout, HandlePropose, HandleRead, WithElection, WithCommit, WithEntry,
      WithRead, AdmitProposal, AppendProposal, NodeInv;
    var c0 := Alone(addr);
    AloneStarts(addr);
    AloneBooted(addr);
    NodeGood(c0, 1);
    var n := c0.nodes[1];
    LeadsIdle(c0.hist, n);
    var c1 := Step(c0, Timeout(1));
    TakesWrite(c1.nodes[1]);
    var c2 := Step(c1, Propose(1, WRITE, {}));
    Lasts(c2.nodes[1]);
    run := [c0, c1, c2, Step(c2, Read(1))];
  }

  lemma {:induction false} Lasts(n: Node)
    requires Served(n)
    ensures HandleRead(n).Id() == 1
  {
    hide ResolveReads;
    ResolveReadsOk(RegisterRead(n));
  }

  lemma {:induction false} ShortIsRun(run: seq<Cluster>)
    requires Short(run)
    ensures IsRun(run) && Inv(run[0]) && run[0].hist.reigns == map[]
    ensures forall k | 0 <= k < 4 :: Inv(run[k])
  {
    hide Inv, Step, Idle, Served, Later;
    assert Next(run[0], run[1]) && Next(run[1], run[2]) && Next(run[2], run[3]);
    assert Moves(run, 1) && Moves(run, 2) && Moves(run, 3);
    InitInv(run[0], {1});
    forall k | 0 <= k < 4 ensures Inv(run[k]) { RunKeeps(run, k); }
  }

  // ---- the story ----

  lemma {:induction false} ReadTriesNothing(c: Cluster, id: NodeId, command: Command, t: Term, i: LogIndex)
    requires Inv(c)
    ensures !Tries(c, Step(c, Read(id)), command, t, i)
  {
    hide Inv, Tries, HandleRead, Later;
    if Tries(c, Step(c, Read(id)), command, t, i) { TriesFill(c, Step(c, Read(id)), command, t, i); }
  }

  lemma {:induction false} FollowerTriesNothing(c: Cluster, c': Cluster, command: Command, t: Term, i: LogIndex)
    requires forall id | id in c.nodes :: !c.nodes[id].role.Leader?
    ensures !Tries(c, c', command, t, i)
  {
    hide Step;
  }

  /** The only write of the run is the one proposed. */
  lemma {:induction false} OneTry(run: seq<Cluster>, s: nat, command: Command, t: Term, i: LogIndex)
    requires Short(run) && TriedAt(run, s, command, t, i)
    ensures s == 1 && command == WRITE && t == 1 && i == 2
  {
    hide Inv, Step, Later, Tries;
    ShortIsRun(run);
    FollowerTriesNothing(run[0], run[1], command, t, i);
    ReadTriesNothing(run[2], 1, command, t, i);
    TriesFill(run[1], run[2], command, t, i);
    TriesTwo(run[1], run[2], command, t, i);
    LeaderRecorded(run[2], 1);
  }

  lemma {:induction false} TriesTwo(c: Cluster, c': Cluster, command: Command, t: Term, i: LogIndex)
    requires Tries(c, c', command, t, i) && c.nodes.Keys == {1} && Idle(c.nodes[1])
    ensures t == 1 && i == 2
  {
    hide Step, ValidateConfigChange;
  }

  ghost function ShortStory(run: seq<Cluster>, log: Log): Story {
    Story(run, [0, 1, 2, 3],
          [Lin.Recorded(0, "k", Lin.Write(Lin.Put("v"), Lin.Happened), 1, 2),
           Lin.Recorded(0, "k", Lin.Read(Some("v")), 2, 3)],
          [Wrote(WRITE, {(1, 2)}), Saw(1, 3)], log)
  }

  lemma {:induction false} WriteFacts(run: seq<Cluster>)
    requires Short(run)
    ensures TriedAt(run, 1, WRITE, 1, 2) && ToldAt(run, 2, 1, 1, 2, 1)
  {
    hide Inv, Step, AdmitProposal, HandlePropose;
    TakesWrite(run[1].nodes[1]);
    assert Tries(run[1], run[2], WRITE, 1, 2);
  }

  lemma {:induction false} WriteTrue(run: seq<Cluster>, log: Log)
    requires Short(run)
    ensures WroteOk(ShortStory(run, log), 0)
  {
    hide TriedAt, ToldAt, Short;
    var w := ShortStory(run, log);
    WriteFacts(run);
    assert TriedAt(w.run, 1, WRITE, 1, 2) && w.trace[0].invoked <= w.clock[1];
    assert ToldAt(w.run, 2, 1, 1, 2, 1) && w.clock[2] <= w.trace[0].returned;
  }

  lemma {:induction false} ReadStep(c: Cluster)
    requires Inv(c) && c.nodes.Keys == {1} && Served(c.nodes[1])
    ensures var n := Step(c, Read(1)).nodes[1];
      ReadGranted(1, 1, 2) in n.answers && n.lastApplied == 2 && n.kv == c.nodes[1].kv
  {
    hide Inv, HandleRead, WithRead;
    NodeCommitted(c, 1);
    ServesRead(c.nodes[1]);
  }

  lemma {:induction false} ReadFacts(run: seq<Cluster>)
    requires Short(run)
    ensures ReadAt(run, 2, 3, 1, 1, 2) && run[3].nodes[1].kv.entries == map["k" := "v"]
  {
    hide Inv, Step, Idle, Init;
    ShortIsRun(run);
    ReadStep(run[2]);
    NodeCommitted(run[2], 1);
    FoldedAt(run[2], 1);
    Holds();
    assert run[2].nodes[1].full[..2] == [FIRST, LogEntry(1, 2, WRITE)];
  }

  lemma {:induction false} ReadTrue(run: seq<Cluster>, log: Log)
    requires Short(run)
    ensures SawOk(ShortStory(run, log), 1)
  {
    hide ReadAt, Init, Idle, Served, Step;
    ReadFacts(run);
    var w := ShortStory(run, log);
    assert ReadAt(w.run, 2, 3, 1, 1, 2) && w.trace[1].invoked <= w.clock[2];
  }

  lemma {:induction false} RecordsExplain(run: seq<Cluster>, log: Log)
    requires Short(run)
    ensures Explains(ShortStory(run, log))
  {
    hide Inv, Step, Idle, Served, TriedAt, WroteOk, SawOk;
    var w := ShortStory(run, log);
    WriteTrue(run, log);
    ReadTrue(run, log);
    assert forall k | 0 <= k < |w.deeds| :: DeedOk(w, k);
    assert Owns(w, 0, 1, 2);
    forall s, command, t, i | TriedAt(w.run, s, command, t, i) ensures exists k :: Owns(w, k, t, i) {
      OneTry(run, s, command, t, i);
    }
  }

  /** No client of this run has a session, so none leaves its window. */
  lemma {:induction false} Windowless(run: seq<Cluster>, log: Log)
    requires Short(run) && CommittedLog(run[3], log)
    ensures WithinWindows(log)
  {
    hide Inv, Step, Idle, Served, TriedAt, CommittedLog, WellFormed, Store.FoldUnbounded;
    ShortIsRun(run);
    HistoryWellFormed(run[3]);
    forall k | 0 <= k < |log| ensures Store.InWindowAt(log, k) {
      LogSlot(run[3], log, k + 1);
      if Store.IsWrite(log[k].command) {
        var s := WritesWereProposed(run, 3, log[k].term, k + 1);
        OneTry(run, s, log[k].command, log[k].term, k + 1);
      }
    }
  }

  /** The theorem's hypotheses hold of a write that returned and of a read
      that saw it. */
  lemma {:induction false} SomeStory(addr: MemberAddr) returns (w: Story)
    ensures IsRun(w.run) && Init(w.run[0], {1}) && Explains(w) && CommittedLog(Final(w), w.log) && WithinWindows(w.log)
    ensures |w.trace| == 2 && w.trace[0].op == Lin.Write(Lin.Put("v"), Lin.Happened)
    ensures w.trace[1].op == Lin.Read(Some("v")) && w.trace[0].key == w.trace[1].key
    ensures w.trace[0].returned <= w.trace[1].invoked
  {
    hide Inv, Step, Idle, Served, Explains, CommittedLog, WithinWindows;
    var run := ShortRun(addr);
    ShortIsRun(run);
    RunSplits(run, 3);
    assert Reachable(run[3]);
    var log := CommittedLogExists(run[3]);
    RecordsExplain(run, log);
    Windowless(run, log);
    w := ShortStory(run, log);
  }
}
