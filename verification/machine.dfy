module Machine {
  // The node as the program has it: an object that owns its storage and state
  // machine and changes its own fields step by step. Every method is proved to
  // take the view of the object to what the transition functions say, so the
  // cluster theorems hold of it.

  import opened Types
  import opened Quorum
  import opened Storage
  import opened Rpc
  import opened Ranking
  import Spec = Node
  import Disk
  import Store

  /** Each waiting proposal is told, or kept waiting. */
  method Settle(s: Retained, commitIndex: LogIndex, term: Term, waiting: seq<Spec.PendingProposal>, ghost n: Spec.Node)
    returns (kept: seq<Spec.PendingProposal>, told: seq<Spec.Answer>)
    requires n.storage == s && n.commitIndex == commitIndex && n.term == term
    ensures kept == Spec.Unresolved(n, waiting) && told == Spec.Verdicts(n, waiting)
  {
    kept, told := [], [];
    var i := 0;
    while i < |waiting|
      invariant 0 <= i <= |waiting|
      invariant kept == Spec.Unresolved(n, waiting[..i]) && told == Spec.Verdicts(n, waiting[..i])
    {
      var p := waiting[i];
      assert waiting[..i + 1][..i] == waiting[..i];
      if s.TermOf(p.index) != Some(p.term) {
        told := told + [Spec.Resolved(p.term, p.index, false, term)];
      } else if commitIndex >= p.index {
        told := told + [Spec.Resolved(p.term, p.index, true, term)];
      } else {
        kept := kept + [p];
      }
      i := i + 1;
    }
    assert waiting[..i] == waiting;
  }

  /** The members outside `left` that answered beat `needed` or a later one, the leader included. */
  ghost function Heard(id: NodeId, members: set<NodeId>, acked: map<NodeId, nat>, needed: nat,
      left: set<NodeId>): set<NodeId> {
    set p | p in members && (p == id || (p !in left && p in acked && acked[p] >= needed))
  }

  lemma {:induction false} HeardStarts(id: NodeId, members: set<NodeId>, acked: map<NodeId, nat>, needed: nat)
    ensures Heard(id, members, acked, needed, members - {id}) == if id in members then {id} else {}
  {
  }

  lemma {:induction false} HeardOne(id: NodeId, members: set<NodeId>, acked: map<NodeId, nat>, needed: nat,
      left: set<NodeId>, p: NodeId)
    requires p in left && left <= members - {id}
    ensures |Heard(id, members, acked, needed, left - {p})|
      == |Heard(id, members, acked, needed, left)| + (if p in acked && acked[p] >= needed then 1 else 0)
  {
    var before, after := Heard(id, members, acked, needed, left), Heard(id, members, acked, needed, left - {p});
    if p in acked && acked[p] >= needed { assert after == before + {p}; } else { assert after == before; }
  }

  lemma {:induction false} HeardAll(n: Spec.Node, needed: nat)
    requires n.role.Leader?
    ensures Heard(n.Id(), n.members.Keys, n.role.acked, needed, {}) == Spec.Confirming(n, needed)
  {
  }

  method CountConfirming(id: NodeId, members: set<NodeId>, acked: map<NodeId, nat>, needed: nat, ghost n: Spec.Node)
    returns (count: nat)
    requires n.role.Leader? && n.Id() == id && n.members.Keys == members && n.role.acked == acked
    ensures count == |Spec.Confirming(n, needed)|
  {
    hide Heard, Spec.Confirming;
    var left := members - {id};
    HeardStarts(id, members, acked, needed);
    count := if id in members then 1 else 0;
    while left != {}
      invariant left <= members - {id} && count == |Heard(id, members, acked, needed, left)|
      decreases |left|
    {
      var p :| p in left;
      HeardOne(id, members, acked, needed, left, p);
      if p in acked && acked[p] >= needed { count := count + 1; }
      left := left - {p};
    }
    HeardAll(n, needed);
  }

  /** Each waiting read is granted, or kept waiting. */
  method Grant(id: NodeId, members: set<NodeId>, acked: map<NodeId, nat>, term: Term, lastApplied: LogIndex,
               waiting: seq<Spec.PendingRead>, ghost n: Spec.Node)
    returns (kept: seq<Spec.PendingRead>, told: seq<Spec.Answer>)
    requires n.role.Leader? && n.Id() == id && n.members.Keys == members && n.role.acked == acked
    requires n.term == term && n.lastApplied == lastApplied
    ensures kept == Spec.Waiting(n, waiting) && told == Spec.Grants(n, waiting)
  {
    hide Spec.Confirming;
    kept, told := [], [];
    var i := 0;
    while i < |waiting|
      invariant 0 <= i <= |waiting|
      invariant kept == Spec.Waiting(n, waiting[..i]) && told == Spec.Grants(n, waiting[..i])
    {
      var r := waiting[i];
      assert waiting[..i + 1][..i] == waiting[..i];
      var acks := CountConfirming(id, members, acked, r.needed, n);
      if acks >= |members| / 2 + 1 && lastApplied >= r.readIndex {
        told := told + [Spec.ReadGranted(term, r.needed, lastApplied)];
      } else {
        kept := kept + [r];
      }
      i := i + 1;
    }
    assert waiting[..i] == waiting;
  }

  // ---- the commit index a majority reaches ----

  /** The peers outside `left` known to hold index i. */
  ghost function HeldBy(n: Spec.Node, i: LogIndex, left: set<NodeId>): set<NodeId>
    requires n.role.Leader?
  {
    set p | p in n.Peers() && p !in left && Spec.MatchOf(n, p) >= i
  }

  lemma {:induction false} HeldStarts(n: Spec.Node, i: LogIndex)
    requires n.role.Leader?
    ensures HeldBy(n, i, n.Peers()) == {}
  {
  }

  lemma {:induction false} HeldOne(n: Spec.Node, i: LogIndex, left: set<NodeId>, p: NodeId)
    requires n.role.Leader? && p in left && left <= n.Peers()
    ensures |HeldBy(n, i, left - {p})| == |HeldBy(n, i, left)| + (if Spec.MatchOf(n, p) >= i then 1 else 0)
  {
    var before, after := HeldBy(n, i, left), HeldBy(n, i, left - {p});
    if Spec.MatchOf(n, p) >= i { assert after == before + {p}; } else { assert after == before; }
  }

  lemma {:induction false} HeldAll(n: Spec.Node, i: LogIndex)
    requires n.role.Leader?
    ensures |Spec.Holders(n, i)| == |HeldBy(n, i, {})| + (if n.Id() in n.members
      && n.storage.LastIndex() >= i then 1 else 0)
  {
    var held := HeldBy(n, i, {});
    if n.Id() in n.members && n.storage.LastIndex() >= i {
      assert Spec.Holders(n, i) == held + {n.Id()};
    } else {
      assert Spec.Holders(n, i) == held;
    }
  }

  method MatchedByPeers(ghost n: Spec.Node, peers: set<NodeId>, matchIndex: map<NodeId,
      LogIndex>) returns (replicated: seq<LogIndex>)
    requires n.role.Leader? && n.Peers() == peers && n.role.matchIndex == matchIndex
    ensures |replicated| == |peers|
    ensures forall i :: Reaching(replicated, i) == |HeldBy(n, i, {})|
  {
    hide HeldBy;
    replicated := [];
    var left := peers;
    forall i: nat ensures Reaching(replicated, i) == |HeldBy(n, i, left)| { HeldStarts(n, i); }
    while left != {}
      invariant left <= peers && |replicated| == |peers| - |left|
      invariant forall i: nat :: Reaching(replicated, i) == |HeldBy(n, i, left)|
      decreases |left|
    {
      var p :| p in left;
      var v := if p in matchIndex then matchIndex[p] else 0;
      forall i: nat ensures Reaching(replicated + [v], i) == |HeldBy(n, i, left - {p})| {
        HeldOne(n, i, left, p);
        ReachingSplit(replicated, [v], i);
        ReachingOne(v, i);
      }
      replicated := replicated + [v];
      left := left - {p};
    }
  }

  lemma {:induction false} PickUnique(n: Spec.Node, k: LogIndex)
    requires n.role.Leader? && n.members.Keys != {} && Spec.IsCommitPick(n, k)
    ensures k == Spec.CommitPick(n)
  {
    hide Spec.MajorityHolds;
    Spec.PickIsGreatest(n, k);
    Spec.PickIsGreatest(n, k + 1);
  }

  /** Sort what everyone holds and take the majority-th from the end. */
  method PickCommit(ghost n: Spec.Node, id: NodeId, members: set<NodeId>, matchIndex: map<NodeId, LogIndex>,
      last: LogIndex)
    returns (k: LogIndex)
    requires n.role.Leader? && n.Id() == id && n.members.Keys == members != {}
    requires n.role.matchIndex == matchIndex && n.storage.LastIndex() == last
    ensures k == Spec.CommitPick(n)
  {
    hide HeldBy, Spec.Holders, Spec.CommitPick, Reaching;
    var replicated := MatchedByPeers(n, members - {id}, matchIndex);
    ghost var peers := replicated;
    if id in members {
      assert members == members - {id} + {id};
      replicated := replicated + [last];
    } else {
      assert members - {id} == members;
    }
    forall i: nat ensures Reaching(replicated, i) == |Spec.Holders(n, i)| {
      HeldAll(n, i);
      ReachingSplit(peers, [last], i);
      ReachingOne(last, i);
    }
    var sorted := SortAscending(replicated);
    var majority := |members| / 2 + 1;
    KthFromEnd(sorted, majority);
    k := sorted[|sorted| - majority];
    PickUnique(n, k);
  }

  method ForEach(keys: set<NodeId>, v: nat) returns (m: map<NodeId, nat>)
    ensures m == Spec.Each(keys, v)
  {
    m := map[];
    var left := keys;
    while left != {}
      invariant left <= keys && m.Keys == keys - left && forall k | k in m :: m[k] == v
      decreases |left|
    {
      var k :| k in left;
      m := m[k := v];
      left := left - {k};
    }
    assert m == Spec.Each(keys, v);
  }

  /** A read is refused with a hint, or waits for its beat to be answered. */
  datatype ReadReply = NotLeading(hint: Option<NodeId>) | Ticket(term: Term, needed: nat)

  /** A message as it goes on the wire: without the model's log prefix. */
  function Wire(m: Message): Message {
    if m.SnapshotReq? then m.(whole := []) else m
  }

  class RaftNode {
    const config: Spec.Config
    const storage: Disk.LogStorage
    const store: Store.KvStore
    var term: Term
    var votedFor: Option<NodeId>
    var role: Spec.Role
    var leaderId: Option<NodeId>
    var commitIndex: LogIndex
    var lastApplied: LogIndex
    var pending: seq<Spec.PendingProposal>
    var staged: Option<Spec.Staged>
    var members: Membership
    var membersIndex: LogIndex
    /** What clients were told. */
    var answers: seq<Spec.Answer>
    /** A failed `expect` or `assert`. */
    var panicked: bool

    ghost predicate Valid()
      reads this, storage
    {
      storage.Valid()
    }

    ghost function View(): Spec.Node
      reads this, storage, store
    {
      Spec.Node(config, term, votedFor, storage.State(), storage.full, role, leaderId, commitIndex, lastApplied,
                store.State(), pending, staged, members, membersIndex, answers, panicked)
    }

    /** Starting a node on durable state: the snapshot goes to the state
        machine, everything else is derived. */
    constructor Spawn(config: Spec.Config, storage: Disk.LogStorage, store: Store.KvStore, term: Term,
        votedFor: Option<NodeId>)
      requires storage.Valid() && store.State() == Store.EMPTY
      modifies store
      ensures Valid() && this.config == config && this.storage == storage && this.store == store
      ensures View() == Spec.Restart(
        Spec.Node(config, term, votedFor, storage.State(), storage.full, Spec.Follower, None, 0, 0, Store.EMPTY, [], None, map[], 0, [], false))
    {
      this.config, this.storage, this.store := config, storage, store;
      this.term, this.votedFor := term, votedFor;
      role, leaderId := Spec.Follower, None;
      commitIndex, lastApplied := storage.State().SnapshotIndex(), storage.State().SnapshotIndex();
      pending, staged, answers, panicked := [], None, [], false;
      members, membersIndex := map[], 0;
      new;
      if storage.snapshot.Some? { store.Import(storage.snapshot.value.state); }
      members, membersIndex := Derive();
    }

    // ---- membership ----

    /** Position past the newest ConfigChange of a list, from the end backwards. */
    static method FindLatestChange(entries: seq<LogEntry>) returns (k: LogIndex)
      ensures k == ConfigIndex(entries)
    {
      k := |entries|;
      assert entries[..k] == entries;
      while k > 0 && !entries[k - 1].command.ConfigChange?
        invariant 0 <= k <= |entries| && ConfigIndex(entries) == ConfigIndex(entries[..k])
      {
        assert entries[..k][..k - 1] == entries[..k - 1];
        k := k - 1;
      }
      if k > 0 { assert entries[..k][k - 1] == entries[k - 1]; }
    }

    method Derive() returns (derived: Membership, index: LogIndex)
      ensures (derived, index) == Spec.DeriveMembership(storage.State(), config.boot)
    {
      var k := FindLatestChange(storage.log);
      if k > 0 { return storage.log[k - 1].command.members, storage.log[k - 1].index; }
      if storage.snapshot.Some? && storage.snapshot.value.membership.Some? {
        return storage.snapshot.value.membership.value, storage.snapshot.value.lastIndex;
      }
      return config.boot, 0;
    }

    method MembershipAt(index: LogIndex) returns (m: Option<Membership>)
      ensures m == Spec.MembershipAt(storage.State(), index)
    {
      var k := |storage.log|;
      assert storage.log[..k] == storage.log;
      while k > 0
        invariant 0 <= k <= |storage.log|
        invariant Spec.LatestUpTo(storage.log, index) == Spec.LatestUpTo(storage.log[..k], index)
      {
        var e := storage.log[k - 1];
        assert storage.log[..k][..k - 1] == storage.log[..k - 1];
        if e.index <= index && e.command.ConfigChange? { return Some(e.command.members); }
        k := k - 1;
      }
      m := if storage.snapshot.Some? then storage.snapshot.value.membership else None;
    }

    method AdoptMembership(new_: Membership, index: LogIndex)
      requires Valid()
      modifies this`members, this`membersIndex
      ensures Valid() && View() == Spec.AdoptMembership(old(View()), new_, index)
    {
      members := new_;
      membersIndex := index;
    }

    method RescanMembership()
      requires Valid()
      modifies this`members, this`membersIndex
      ensures Valid() && View() == Spec.RescanMembership(old(View()))
    {
      var derived, index := Derive();
      AdoptMembership(derived, index);
    }

    // ---- role transitions ----

    method BecomeFollower(newTerm: Term, leader: Option<NodeId>)
      requires Valid()
      modifies this`term, this`votedFor, this`role, this`leaderId
      ensures Valid() && View() == Spec.BecomeFollower(old(View()), newTerm, leader)
    {
      if newTerm > term {
        term := newTerm;
        votedFor := None;
      }
      role := Spec.Follower;
      leaderId := leader;
    }

    // ---- applying ----

    method ApplyLoop()
      requires Valid()
      modifies this`lastApplied, this`panicked, store
      ensures Valid() && View() == Spec.ApplyLoop(old(View()))
    {
      hide Disk.Holds, Represents, Store.Apply, Disk.Lawful;
      while lastApplied < commitIndex
        invariant Valid() && Spec.ApplyLoop(View()) == Spec.ApplyLoop(old(View()))
        decreases commitIndex - lastApplied
      {
        var entry := storage.State().Entry(lastApplied + 1);
        if entry.None? {
          panicked := true;
          return;
        }
        lastApplied := lastApplied + 1;
        store.ApplyEntry(entry.value);
      }
    }

    method ResolvePending()
      requires Valid()
      modifies this`pending, this`answers
      ensures Valid() && View() == Spec.ResolvePending(old(View()))
    {
      hide Disk.Holds, Represents, Disk.Lawful;
      var kept, told := Settle(storage.State(), commitIndex, term, pending, View());
      pending := kept;
      answers := answers + told;
    }

    method ResolveReads()
      requires Valid()
      modifies this`role, this`answers
      ensures Valid() && View() == Spec.ResolveReads(old(View()))
    {
      hide Disk.Holds, Represents, Disk.Lawful;
      if !role.Leader? { return; }
      var kept, told := Grant(config.id, members.Keys, role.acked, term, lastApplied, role.waiting, View());
      role := role.(waiting := kept);
      answers := answers + told;
    }

    method DropStale()
      requires Valid()
      modifies this`staged
      ensures Valid() && View() == Spec.DropStale(old(View()))
    {
      if staged.Some? && staged.value.index <= storage.State().SnapshotIndex() { staged := None; }
    }

    method Stage(threshold: nat)
      requires Valid()
      modifies this`staged
      ensures Valid() && View() == Spec.Stage(old(View()), threshold)
    {
      if staged.None? && lastApplied >= storage.State().SnapshotIndex() + (if threshold >= 1 then threshold else 1) {
        var state := store.Export();
        var membership := MembershipAt(lastApplied);
        staged := Some(Spec.Staged(lastApplied, state, membership));
      }
    }

    method CompactStaged()
      requires Valid()
      modifies this`staged, this`panicked, storage
      ensures Valid() && View() == Spec.CompactStaged(old(View()))
    {
      hide Disk.CalledOn, Disk.Lawful, Disk.Encode, Disk.Holds, Represents;
      if staged.Some? && lastApplied >= staged.value.index + config.trailing {
        var capture := staged.value;
        CompactKeepsWhole(storage.State(), storage.full, capture.index, capture.state, capture.membership);
        var r := storage.CompactTo(capture.index, capture.state, capture.membership);
        if r.Err? { panicked := true; } else { staged := None; }
      }
    }

    method MaybeCompact()
      requires Valid()
      modifies this`staged, this`panicked, storage
      ensures Valid() && View() == Spec.MaybeCompact(old(View()))
    {
      hide Spec.DropStale, Spec.Stage, Spec.CompactStaged;
      if config.threshold.None? { return; }
      DropStale();
      Stage(config.threshold.value);
      CompactStaged();
    }

    method ApplyCommitted()
      requires Valid()
      modifies this`lastApplied, this`pending, this`answers, this`role, this`staged, this`panicked, store, storage
      ensures Valid() && View() == Spec.ApplyCommitted(old(View()))
    {
      hide Spec.ApplyLoop, Spec.ResolvePending, Spec.ResolveReads, Spec.MaybeCompact;
      ApplyLoop();
      ResolvePending();
      ResolveReads();
      MaybeCompact();
    }

    // ---- appending ----

    method MustAppend(entries: seq<LogEntry>)
      requires Valid()
      modifies this`panicked, storage
      ensures Valid() && View() == Spec.MustAppend(old(View()), entries)
    {
      hide Disk.CalledOn, Disk.Lawful, Disk.Encode, Disk.Holds, Represents, Continues;
      var r := storage.Append(entries);
      if r.Err? { panicked := true; }
    }

    method AppendBatch(batch: seq<LogEntry>)
      requires Valid()
      modifies this`panicked, this`members, this`membersIndex, storage
      ensures Valid() && View() == Spec.AppendBatch(old(View()), batch)
    {
      hide Spec.MustAppend;
      MustAppend(batch);
      var k := FindLatestChange(batch);
      if k > 0 { AdoptMembership(batch[k - 1].command.members, batch[k - 1].index); }
    }

    // ---- committing as leader ----

    method AdvanceCommit()
      requires Valid()
      modifies this, store, storage
      ensures Valid() && View() == Spec.AdvanceCommit(old(View()))
    {
      hide Disk.Holds, Represents, Disk.Lawful, Spec.ApplyCommitted, Spec.Holders;
      if !role.Leader? || members.Keys == {} { return; }
      var candidate := PickCommit(View(), config.id, members.Keys, role.matchIndex, storage.State().LastIndex());
      if candidate > commitIndex && storage.State().TermOf(candidate) == Some(term) {
        commitIndex := candidate;
        ApplyCommitted();
      }
    }

    method MaybeAdvanceCommit()
      requires Valid()
      modifies this, store, storage
      ensures Valid() && View() == Spec.MaybeAdvanceCommit(old(View()))
    {
      hide Spec.AdvanceCommit, Spec.BecomeFollower;
      if !role.Leader? { return; }
      AdvanceCommit();
      if role.Leader? && members.Keys != {} && config.id !in members && commitIndex >= membersIndex {
        BecomeFollower(term, None);
      }
    }

    // ---- elections ----

    method MaybeBecomeLeader()
      requires Valid()
      modifies this, store, storage
      ensures Valid() && View() == Spec.MaybeBecomeLeader(old(View()))
    {
      hide Spec.AppendBatch, Spec.MaybeAdvanceCommit, Represents, Disk.Holds, Disk.Lawful;
      if !role.Candidate? || |role.votes * members.Keys| < |members.Keys| / 2 + 1 { return; }
      var next := storage.State().LastIndex() + 1;
      var peers := members.Keys - {config.id};
      var nextIndex := ForEach(peers, next);
      var matchIndex := ForEach(peers, 0);
      role := Spec.Leader(nextIndex, matchIndex, next, 0, map[], []);
      leaderId := Some(config.id);
      AppendBatch([LogEntry(term, next, Noop)]);
      MaybeAdvanceCommit();
    }

    method StartElection()
      requires Valid()
      modifies this, store, storage
      ensures Valid() && View() == Spec.MaybeBecomeLeader(Spec.StartElection(old(View())))
    {
      hide Spec.MaybeBecomeLeader, Represents, Disk.Holds, Disk.Lawful;
      term := term + 1;
      votedFor := Some(config.id);
      role := Spec.Candidate({config.id});
      leaderId := None;
      MaybeBecomeLeader();
    }

    method MaybeStartElection()
      requires Valid()
      modifies this, store, storage
      ensures Valid() && View() == Spec.MaybeStartElection(old(View()))
    {
      hide Spec.MaybeBecomeLeader, Spec.StartElection;
      if role.PreCandidate? && |role.votes * members.Keys| >= |members.Keys| / 2 + 1 {
        StartElection();
      }
    }

    method OnElectionTimeout()
      requires Valid()
      modifies this, store, storage
      ensures Valid() && View() == Spec.OnElectionTimeout(old(View()))
    {
      hide Spec.MaybeStartElection;
      if role.Leader? || config.id !in members { return; }
      role := Spec.PreCandidate({config.id});
      leaderId := None;
      MaybeStartElection();
    }

    /** `recent`: the peers heard within the election timeout. */
    method OnHeartbeatTick(recent: set<NodeId>)
      requires Valid()
      modifies this`term, this`votedFor, this`role, this`leaderId
      ensures Valid() && View() == Spec.OnHeartbeatTick(old(View()), recent)
    {
      hide Spec.BecomeFollower;
      if role.Leader? {
        var heard := (recent * (members.Keys - {config.id})) + (if config.id in members then {config.id} else {});
        if |heard| < |members.Keys| / 2 + 1 { BecomeFollower(term, None); }
      }
    }

    // ---- client requests ----

    method ValidateConfigChange(new_: Membership, recent: set<NodeId>) returns (e: Option<Spec.ConfigError>)
      requires role.Leader?
      ensures e == Spec.ValidateConfigChange(View(), new_, recent)
    {
      if commitIndex < role.termStart { return Some(Spec.NoopNotCommitted); }
      if membersIndex > commitIndex { return Some(Spec.ChangeInFlight); }
      if new_.Keys == {} { return Some(Spec.NoMembers); }
      var added := new_.Keys - members.Keys;
      var removed := members.Keys - new_.Keys;
      if |added| + |removed| != 1 { return Some(Spec.NotSingleChange); }
      var reachable := set p | p in new_.Keys && (p == config.id || (p in role.acked && p in recent));
      if |reachable| < |new_.Keys| / 2 + 1 { return Some(Spec.Unreachable); }
      e := None;
    }

    method HandlePropose(command: Command, recent: set<NodeId>) returns (r: Spec.ProposeResult)
      requires Valid()
      modifies this, store, storage
      ensures Valid() && View() == Spec.HandlePropose(old(View()), command, recent)
      ensures r == Spec.AdmitProposal(old(View()), command, recent)
    {
      hide Spec.AppendBatch, Spec.MaybeAdvanceCommit, Spec.ValidateConfigChange, Represents, Disk.Holds, Disk.Lawful;
      if !role.Leader? { return Spec.NotLeader(leaderId); }
      if command.ConfigChange? {
        var e := ValidateConfigChange(command.members, recent);
        if e.Some? { return Spec.InvalidConfigChange(e.value); }
      }
      var index := storage.State().LastIndex() + 1;
      r := Spec.Accepted(term, index);
      AppendBatch([LogEntry(term, index, command)]);
      pending := pending + [Spec.PendingProposal(r.term, index)];
      MaybeAdvanceCommit();
    }

    method HandleRead() returns (r: ReadReply)
      requires Valid()
      modifies this`role, this`answers
      ensures Valid() && View() == Spec.HandleRead(old(View()))
      ensures r == if old(role.Leader?) then Ticket(old(term), old(role.beat) + 1) else NotLeading(old(leaderId))
    {
      hide Spec.ResolveReads;
      if !role.Leader? { return NotLeading(leaderId); }
      var readIndex := if commitIndex >= role.termStart then commitIndex else role.termStart;
      var needed := role.beat + 1;
      role := role.(beat := needed, waiting := role.waiting + [Spec.PendingRead(needed, readIndex)]);
      r := Ticket(term, needed);
      ResolveReads();
    }

    // ---- inbound requests ----

    method HandleRequestVote(m: Message) returns (reply: Message)
      requires Valid() && m.VoteReq?
      modifies this`term, this`votedFor, this`role, this`leaderId
      ensures Valid() && (View(), reply) == Spec.HandleRequestVote(old(View()), m)
    {
      hide Spec.BecomeFollower, Represents, Disk.Holds, Disk.Lawful;
      if m.term > term { BecomeFollower(m.term, None); }
      ghost var adopted := View();
      assert adopted == Spec.AdoptTerm(old(View()), m.term);
      var granted := false;
      if m.term == term {
        var canVote := votedFor.None? || votedFor == Some(m.from);
        var upToDate := UpToDate(m.lastTerm, m.lastIndex, storage.State().LastLogTerm(), storage.State().LastIndex());
        granted := canVote && upToDate;
      }
      assert granted == Spec.GrantsVote(adopted, m);
      if granted { votedFor := Some(m.from); }
      reply := VoteResp(config.id, m.from, m.term, term, granted);
    }

    /** `sticky`: a leader was heard within the minimum election timeout. */
    method HandlePreVote(m: Message, sticky: bool) returns (reply: Message)
      requires Valid() && m.PreVoteReq?
      ensures reply == Spec.HandlePreVote(View(), m, sticky)
    {
      var upToDate := UpToDate(m.lastTerm, m.lastIndex, storage.State().LastLogTerm(), storage.State().LastIndex());
      reply := PreVoteResp(config.id, m.from, m.term, term, m.term > term && upToDate && !(role.Leader? || sticky));
    }

    /** Where the batch stops agreeing with the log. */
    method Walk(entries: seq<LogEntry>) returns (w: Spec.Walk)
      ensures w == Spec.WalkFrom(storage.State(), entries, 0)
      ensures w.Held? || w.at < |entries|
    {
      var k := 0;
      while k < |entries|
        invariant 0 <= k <= |entries|
        invariant Spec.WalkFrom(storage.State(), entries, 0) == Spec.WalkFrom(storage.State(), entries, k)
      {
        var e := entries[k];
        if e.index > storage.State().SnapshotIndex() {
          var existing := storage.State().TermOf(e.index);
          if existing.None? { return Spec.Missing(k); }
          if existing.value != e.term { return Spec.Conflict(k); }
        }
        k := k + 1;
      }
      w := Spec.Held;
    }

    method Cut(from: LogIndex)
      requires Valid()
      modifies this`panicked, storage
      ensures Valid() && View() == Spec.Cut(old(View()), from)
    {
      hide Disk.CalledOn, Disk.Lawful, Disk.Encode;
      TruncateCuts(storage.State(), storage.full, from);
      var r := storage.TruncateFrom(from);
      if r.Err? { panicked := true; }
    }

    method TruncateConflict(e: LogEntry)
      requires Valid()
      modifies this`panicked, this`pending, this`answers, this`members, this`membersIndex, storage
      ensures Valid() && View() == Spec.TruncateConflict(old(View()), e)
    {
      hide Spec.Cut, Spec.ResolvePending, Spec.RescanMembership;
      if e.index <= commitIndex {
        panicked := true;
        return;
      }
      var inEffect := e.index <= membersIndex;
      Cut(e.index);
      ResolvePending();
      KeepsMembers(old(View()), e.index);
      if inEffect { RescanMembership(); }
    }

    method AppendFrom(m: Message, first: LogIndex)
      requires Valid() && m.AppendReq?
      modifies this`panicked, this`members, this`membersIndex, storage
      ensures Valid() && View() == Spec.AppendFrom(old(View()), m, first, |m.entries|)
    {
      hide Spec.AppendBatch;
      if first <= m.prevIndex || first - m.prevIndex - 1 > |m.entries| {
        panicked := true;
        return;
      }
      var batch := m.entries[first - m.prevIndex - 1..];
      assert batch[..|batch|] == batch;
      AppendBatch(batch);
    }

    method HandleAppendEntries(m: Message) returns (reply: Message)
      requires Valid() && m.AppendReq?
      modifies this, store, storage
      ensures Valid() && (View(), reply) == Spec.HandleAppendEntries(old(View()), m)
    {
      hide Spec.BecomeFollower, Spec.TruncateConflict, Spec.AppendFrom, Spec.ApplyCommitted, Represents,
        Disk.Holds, Disk.Lawful;
      if m.term < term {
        return AppendResp(config.id, m.from, m.term, m.prevIndex, |m.entries|, m.beat, term, false);
      }
      BecomeFollower(m.term, Some(m.from));
      ghost var n1 := View();
      var known := storage.State().TermOf(m.prevIndex);
      var matches := if known.Some? then known.value == m.prevTerm else m.prevIndex < storage.State().SnapshotIndex();
      assert matches == Spec.PrevMatches(n1, m);
      if !matches {
        return AppendResp(config.id, m.from, m.term, m.prevIndex, |m.entries|, m.beat, term, false);
      }
      Accept(m);
      FollowCommit(m);
      reply := AppendResp(config.id, m.from, m.term, m.prevIndex, |m.entries|, m.beat, term, true);
    }

    method Accept(m: Message)
      requires Valid() && m.AppendReq?
      modifies this`panicked, this`pending, this`answers, this`members, this`membersIndex, storage
      ensures Valid() && View() == Spec.Accept(old(View()), m)
    {
      hide Spec.TruncateConflict, Spec.AppendFrom, Spec.WalkFrom, Represents, Disk.Holds, Disk.Lawful;
      var w := Walk(m.entries);
      if w.Held? { return; }
      if w.Conflict? { TruncateConflict(m.entries[w.at]); }
      AppendFrom(m, m.entries[w.at].index);
    }

    method FollowCommit(m: Message)
      requires Valid() && m.AppendReq?
      modifies this, store, storage
      ensures Valid() && View() == Spec.FollowCommit(old(View()), m)
    {
      hide Spec.ApplyCommitted;
      var lastVerified := m.prevIndex + |m.entries|;
      var newCommit := if m.leaderCommit <= lastVerified then m.leaderCommit else lastVerified;
      if newCommit > commitIndex {
        commitIndex := newCommit;
        ApplyCommitted();
      }
    }

    static method RetainAbove(ps: seq<Spec.PendingProposal>,
        boundary: LogIndex) returns (kept: seq<Spec.PendingProposal>)
      ensures kept == Spec.Above(ps, boundary)
    {
      kept := [];
      var i := 0;
      while i < |ps|
        invariant 0 <= i <= |ps| && kept == Spec.Above(ps[..i], boundary)
      {
        assert ps[..i + 1][..i] == ps[..i];
        if ps[i].index > boundary { kept := kept + [ps[i]]; }
        i := i + 1;
      }
      assert ps[..i] == ps;
    }

    /** `whole` is what the snapshot stands for; no decision depends on it. */
    method HandleInstallSnapshot(m: Message, ghost whole: Log) returns (reply: Message)
      requires Valid() && m.SnapshotReq? && Contiguous(whole)
      requires m.snapshot.lastIndex == |whole| > 0 && m.snapshot.lastTerm == LastTerm(whole)
      modifies this, store, storage
      ensures Valid() && (View(), reply) == Spec.HandleInstallSnapshot(old(View()), m.(whole := whole))
    {
      hide Spec.BecomeFollower, Spec.InstallFrom, Represents, Disk.Holds, Disk.Lawful;
      var boundary := m.snapshot.lastIndex;
      if m.term < term { return SnapshotResp(config.id, m.from, m.term, boundary, term); }
      BecomeFollower(m.term, Some(m.from));
      if boundary > commitIndex { Install(m, whole); }
      reply := SnapshotResp(config.id, m.from, m.term, boundary, term);
    }

    /** Log, state machine and indexes replaced by what the snapshot holds. */
    method Replace(s: Snapshot, ghost whole: Log) returns (r: Result<()>)
      requires Valid() && Contiguous(whole) && s.lastIndex == |whole| > 0 && s.lastTerm == LastTerm(whole)
      modifies this`commitIndex, this`lastApplied, store, storage
      ensures Valid() && (r.Ok? <==> old(storage.State()).Install(s).Ok?)
      ensures r.Err? ==> View() == old(View())
      ensures r.Ok? ==> View() == old(View()).(
        storage := old(storage.State()).Install(s).value, full := Installed(old(storage.full), whole),
        kv := s.state, commitIndex := s.lastIndex, lastApplied := s.lastIndex)
    {
      hide Installed, Represents, Disk.Holds, Disk.Lawful, Contiguous, LastTerm;
      InstalledWhole(storage, s, whole);
      r := storage.InstallSnapshot(s, whole);
      if r.Err? { return; }
      store.Import(s.state);
      commitIndex := s.lastIndex;
      lastApplied := s.lastIndex;
    }

    method Install(m: Message, ghost whole: Log)
      requires Valid() && m.SnapshotReq? && Contiguous(whole)
      requires m.snapshot.lastIndex == |whole| > 0 && m.snapshot.lastTerm == LastTerm(whole)
      modifies this, store, storage
      ensures Valid() && View() == Spec.InstallFrom(old(View()), m.(whole := whole)) && term == old(term)
    {
      hide Spec.ResolvePending, Spec.RescanMembership, Installed, Represents, Disk.Holds, Disk.Lawful, Contiguous,
        LastTerm;
      InstalledWhole(storage, m.snapshot, whole);
      var r := Replace(m.snapshot, whole);
      if r.Err? {
        panicked := true;
        return;
      }
      RescanMembership();
      pending := RetainAbove(pending, m.snapshot.lastIndex);
      ResolvePending();
    }

    // ---- replies ----

    method OnPreVoteReply(m: Message)
      requires Valid() && m.PreVoteResp?
      modifies this, store, storage
      ensures Valid() && View() == Spec.OnPreVoteReply(old(View()), m)
    {
      hide Spec.BecomeFollower, Spec.MaybeStartElection;
      if m.term > term {
        BecomeFollower(m.term, None);
        return;
      }
      if m.sentTerm != term + 1 || !m.granted || !role.PreCandidate? { return; }
      role := Spec.PreCandidate(role.votes + {m.from});
      MaybeStartElection();
    }

    method OnVoteReply(m: Message)
      requires Valid() && m.VoteResp?
      modifies this, store, storage
      ensures Valid() && View() == Spec.OnVoteReply(old(View()), m)
    {
      hide Spec.BecomeFollower, Spec.MaybeBecomeLeader;
      if m.term > term {
        BecomeFollower(m.term, None);
        return;
      }
      if m.sentTerm != term || !m.granted || !role.Candidate? { return; }
      role := Spec.Candidate(role.votes + {m.from});
      MaybeBecomeLeader();
    }

    method RecordAck(from: NodeId, beat: nat)
      requires Valid() && role.Leader?
      modifies this`role
      ensures Valid() && View() == Spec.RecordAck(old(View()), from, beat)
    {
      var known := if from in role.acked then role.acked[from] else 0;
      role := role.(acked := role.acked[from := if known >= beat then known else beat]);
    }

    method RecordMatch(from: NodeId, confirmed: LogIndex)
      requires Valid() && role.Leader?
      modifies this`role
      ensures Valid() && View() == Spec.RecordMatch(old(View()), from, confirmed)
    {
      var matched := if from in role.matchIndex then role.matchIndex[from] else 0;
      if confirmed > matched {
        role := role.(matchIndex := role.matchIndex[from := confirmed], nextIndex := role.nextIndex[from := confirmed + 1]);
      } else {
        role := role.(matchIndex := role.matchIndex[from := matched]);
      }
    }

    method Backtrack(from: NodeId, sentPrev: LogIndex)
      requires Valid() && role.Leader?
      modifies this`role
      ensures Valid() && View() == Spec.Backtrack(old(View()), from, sentPrev)
    {
      var next := if from in role.nextIndex then role.nextIndex[from] else 1;
      var below := if sentPrev >= 1 then sentPrev else 1;
      role := role.(nextIndex := role.nextIndex[from := if next <= below then next else below]);
    }

    method OnAppendReply(m: Message)
      requires Valid() && m.AppendResp?
      modifies this, store, storage
      ensures Valid() && View() == Spec.OnAppendReply(old(View()), m)
    {
      hide Spec.BecomeFollower, Spec.MaybeAdvanceCommit, Spec.ResolveReads, Represents, Disk.Holds, Disk.Lawful;
      if m.term > term {
        BecomeFollower(m.term, None);
        return;
      }
      if m.sentTerm != term || !role.Leader? { return; }
      RecordAck(m.from, m.sentBeat);
      if m.success {
        RecordMatch(m.from, m.sentPrev + m.sentEntries);
        MaybeAdvanceCommit();
      } else {
        Backtrack(m.from, m.sentPrev);
      }
      ResolveReads();
    }

    method OnSnapshotReply(m: Message)
      requires Valid() && m.SnapshotResp?
      modifies this, store, storage
      ensures Valid() && View() == Spec.OnSnapshotReply(old(View()), m)
    {
      hide Spec.BecomeFollower, Spec.MaybeAdvanceCommit, Represents, Disk.Holds, Disk.Lawful;
      if m.term > term {
        BecomeFollower(m.term, None);
        return;
      }
      if m.sentTerm != term || !role.Leader? { return; }
      var matched := if m.from in role.matchIndex then role.matchIndex[m.from] else 0;
      var next := if m.from in role.nextIndex then role.nextIndex[m.from] else 1;
      role := role.(
        matchIndex := role.matchIndex[m.from := if matched >= m.lastIncluded then matched else m.lastIncluded],
        nextIndex := role.nextIndex[m.from := if next >= m.lastIncluded + 1 then next else m.lastIncluded + 1]);
      MaybeAdvanceCommit();
    }

    // ---- sending ----

    /** What goes to a peer now. None stands for a failed `expect`. */
    method Send(peer: NodeId) returns (m: Option<Message>)
      requires Valid() && !role.Follower?
      ensures m.Some? <==> Spec.SendTo(View(), peer).Some?
      ensures m.Some? ==> m.value == Wire(Spec.SendTo(View(), peer).value)
    {
      hide Disk.Holds, Disk.Lawful;
      var s := storage.State();
      match role {
        case PreCandidate(_) =>
          m := Some(PreVoteReq(config.id, peer, term + 1, s.LastIndex(), s.LastLogTerm()));
        case Candidate(_) =>
          m := Some(VoteReq(config.id, peer, term, s.LastIndex(), s.LastLogTerm()));
        case Leader(nextIndex, _, _, beat, _, _) =>
          var next := if peer in nextIndex then nextIndex[peer] else s.LastIndex() + 1;
          if next <= s.SnapshotIndex() {
            if s.snapshot.None? { return None; }
            return Some(SnapshotReq(config.id, peer, term, s.snapshot.value, []));
          }
          if next == 0 { return None; }
          var prevTerm := s.TermOf(next - 1);
          if prevTerm.None? { return None; }
          m := Some(AppendReq(config.id, peer, term, next - 1, prevTerm.value, s.EntriesFrom(next), commitIndex, beat));
      }
    }
  }

  lemma {:induction false} InstalledWhole(storage: Disk.LogStorage, s: Snapshot, whole: Log)
    requires storage.Valid() && s.lastIndex == |whole| > 0 && s.lastTerm == LastTerm(whole)
    ensures s.lastIndex > storage.State().SnapshotIndex() ==>
      Installed(storage.full, whole) ==
        if storage.State().TermOf(s.lastIndex) == Some(s.lastTerm) && s.lastIndex <= |storage.full|
        then whole + storage.full[s.lastIndex..] else whole
    ensures storage.State().Install(s).Ok? <==> s.lastIndex > storage.State().SnapshotIndex()
  {
    AnswersAsWhole(storage.State(), storage.full, s.lastIndex);
  }

  lemma {:induction false} KeepsMembers(n: Spec.Node, from: LogIndex)
    ensures Spec.ResolvePending(Spec.Cut(n, from)).membersIndex == n.membersIndex
  {
  }
}
