/** What holds of one node on its own between steps, and that every micro
    step of a handler keeps it. */
module NodeInvariant {
  import opened Types
  import opened Quorum
  import opened Storage
  import opened Rpc
  import opened Node
  import Store

  /** The snapshot carries the state and configuration of exactly its boundary. */
  ghost predicate SnapshotOk(s: Retained, full: Log) {
    s.snapshot.Some? && s.SnapshotIndex() <= |full| ==>
      && s.snapshot.value.membership == LatestConfig(full[..s.SnapshotIndex()])
      && s.snapshot.value.state == Store.Fold(full[..s.SnapshotIndex()])
  }

  ghost predicate StagedOk(n: Node) {
    n.staged.Some? ==>
      && n.staged.value.index <= n.lastApplied
      && (n.staged.value.index <= |n.full| ==>
            && n.staged.value.state == Store.Fold(n.full[..n.staged.value.index])
            && n.staged.value.membership == LatestConfig(n.full[..n.staged.value.index]))
  }

  /** The cached membership is the one durable state implies. */
  ghost predicate MembersOk(n: Node) {
    && n.members == MembersOf(n.full, n.config.boot)
    && (n.membersIndex == ConfigIndex(n.full)
        || (n.membersIndex <= n.storage.SnapshotIndex() && ConfigIndex(n.full) <= n.storage.SnapshotIndex()))
  }

  ghost predicate IndexesOk(n: Node) {
    && n.storage.SnapshotIndex() <= n.lastApplied == n.commitIndex <= |n.full|
    && (forall p | p in n.pending :: p.index > n.commitIndex)
    && (n.role.Leader? ==> forall p | p in n.role.nextIndex :: 1 <= n.role.nextIndex[p] <= |n.full| + 1)
  }

  ghost predicate BodyOk(n: Node) {
    && Represents(n.storage, n.full)
    && SnapshotOk(n.storage, n.full)
    && IndexesOk(n)
    && n.kv == Store.Fold(n.full[..n.lastApplied])
    && StagedOk(n)
    && !n.panicked
  }

  ghost predicate NodeInv(n: Node) {
    BodyOk(n) && MembersOk(n)
  }

  lemma {:induction false} NodeRepresents(n: Node)
    requires NodeInv(n)
    ensures Represents(n.storage, n.full)
  {
  }

  // ---- membership ----

  lemma {:induction false} ConfigOfTail(full: Log, s: nat)
    requires s <= |full|
    ensures ConfigIndex(full) > s ==> ConfigIndex(full[s..]) == ConfigIndex(full) - s
    ensures ConfigIndex(full) <= s ==> ConfigIndex(full[s..]) == 0
  {
    ConfigIndexIsLatest(full);
    var c := ConfigIndex(full);
    var tail := full[s..];
    assert forall k | 0 <= k < |tail| :: tail[k] == full[s + k];
    ConfigIndexUnique(tail, if c > s then c - s else 0);
  }

  lemma {:induction false} ConfigOfConcat(a: Log, b: Log)
    ensures ConfigIndex(a + b) == if ConfigIndex(b) > 0 then |a| + ConfigIndex(b) else ConfigIndex(a)
  {
    ConfigIndexIsLatest(a);
    ConfigIndexIsLatest(b);
    var k := ConfigIndex(b);
    assert forall j | 0 <= j < |b| :: (a + b)[|a| + j] == b[j];
    ConfigIndexUnique(a + b, if k > 0 then |a| + k else ConfigIndex(a));
  }

  lemma {:induction false} LatestOfConcat(a: Log, b: Log)
    ensures LatestConfig(a + b) == if ConfigIndex(b) > 0 then LatestConfig(b) else LatestConfig(a)
  {
    ConfigOfConcat(a, b);
    var k, j := ConfigIndex(b), ConfigIndex(a);
    if k > 0 {
      assert (a + b)[|a| + k - 1] == b[k - 1];
    } else if j > 0 {
      assert (a + b)[j - 1] == a[j - 1];
    }
  }

  /** What durable state implies is the whole log's configuration. */
  lemma {:induction false} DeriveIsWhole(s: Retained, full: Log, boot: Membership)
    requires Represents(s, full) && SnapshotOk(s, full)
    ensures DeriveMembership(s, boot).0 == MembersOf(full, boot)
    ensures var i := DeriveMembership(s, boot).1;
      i == ConfigIndex(full) || (i <= s.SnapshotIndex() && ConfigIndex(full) <= s.SnapshotIndex())
  {
    hide ConfigIndex, Store.Fold;
    var b := s.SnapshotIndex();
    ConfigOfTail(full, b);
    if ConfigIndex(full) <= b {
      SameConfig(full, b);
    }
  }

  lemma {:induction false} RescanOk(n: Node)
    requires Represents(n.storage, n.full) && SnapshotOk(n.storage, n.full)
    ensures MembersOk(RescanMembership(n))
  {
    DeriveIsWhole(n.storage, n.full, n.config.boot);
  }

  lemma {:induction false} LatestUpToIs(full: Log, s: nat, n: nat, i: LogIndex)
    requires Contiguous(full) && s <= n <= |full| && s <= i <= |full|
    ensures LatestUpTo(full[s..n], i) ==
      if ConfigIndex(full[..if i <= n then i else n]) > s
      then LatestConfig(full[..if i <= n then i else n]) else None
    decreases n
  {
    hide ConfigIndex, LatestConfig, LatestUpTo;
    LatestUpToStep(full, s, n, i);
    if s < n {
      LatestUpToIs(full, s, n - 1, i);
      ConfigOfPrefix(full, n);
    }
  }

  lemma {:induction false} LatestUpToStep(full: Log, s: nat, n: nat, i: LogIndex)
    requires Contiguous(full) && s <= n <= |full|
    ensures LatestUpTo(full[s..n], i) ==
      if s == n then None
      else if n <= i && full[n - 1].command.ConfigChange? then Some(full[n - 1].command.members)
      else LatestUpTo(full[s..n - 1], i)
  {
    if s < n {
      assert full[s..n][..n - s - 1] == full[s..n - 1] && full[s..n][n - s - 1] == full[n - 1];
    }
  }

  lemma {:induction false} ConfigOfPrefix(full: Log, n: nat)
    requires 0 < n <= |full|
    ensures ConfigIndex(full[..n]) == if full[n - 1].command.ConfigChange? then n else ConfigIndex(full[..n - 1])
    ensures LatestConfig(full[..n]) ==
      if full[n - 1].command.ConfigChange? then Some(full[n - 1].command.members) else LatestConfig(full[..n - 1])
  {
    assert full[..n][..n - 1] == full[..n - 1] && full[..n][n - 1] == full[n - 1];
  }

  /** The configuration staged with a capture is the one in effect at its index. */
  lemma {:induction false} MembershipAtIs(s: Retained, full: Log, i: LogIndex)
    requires Represents(s, full) && SnapshotOk(s, full) && s.SnapshotIndex() <= i <= |full|
    ensures MembershipAt(s, i) == LatestConfig(full[..i])
  {
    var b := s.SnapshotIndex();
    LatestUpToIs(full, b, |full|, i);
    assert full[b..|full|] == full[b..];
    if ConfigIndex(full[..i]) <= b {
      SameConfig(full[..i], b);
      assert full[..i][..b] == full[..b];
    }
  }

  // ---- applying ----

  lemma {:induction false} ApplyLoopIs(n: Node)
    requires Represents(n.storage, n.full)
    requires n.storage.SnapshotIndex() <= n.lastApplied <= n.commitIndex <= |n.full|
    requires n.kv == Store.Fold(n.full[..n.lastApplied])
    ensures ApplyLoop(n) == n.(lastApplied := n.commitIndex, kv := Store.Fold(n.full[..n.commitIndex]))
    decreases n.commitIndex - n.lastApplied
  {
    hide Represents, Store.Fold, Store.Apply;
    if n.lastApplied < n.commitIndex {
      var e := n.full[n.lastApplied];
      AnswersAsWhole(n.storage, n.full, n.lastApplied + 1);
      Store.FoldStep(n.full, n.lastApplied);
      var next := n.(lastApplied := n.lastApplied + 1, kv := Store.Apply(n.kv, e.command));
      assert ApplyLoop(n) == ApplyLoop(next);
      ApplyLoopIs(next);
    }
  }

  lemma {:induction false} UnresolvedAre(n: Node, ps: seq<PendingProposal>)
    ensures forall p | p in Unresolved(n, ps) :: p in ps && p.index > n.commitIndex
  {
    if |ps| > 0 {
      UnresolvedAre(n, ps[..|ps| - 1]);
      assert ps == ps[..|ps| - 1] + [ps[|ps| - 1]];
    }
  }

  /** A positive verdict names an entry this node holds and has committed. */
  ghost predicate IsVerdict(n: Node, a: Answer) {
    && a.Resolved? && a.at == n.term
    && (a.committed ==> 0 < a.index <= n.commitIndex <= |n.full| && a.term == TermAt(n.full, a.index))
  }

  lemma {:induction false} VerdictsAre(n: Node, ps: seq<PendingProposal>)
    requires Represents(n.storage, n.full) && n.commitIndex <= |n.full|
    requires forall p | p in ps :: p.index > 0
    ensures forall a | a in Verdicts(n, ps) :: IsVerdict(n, a)
  {
    if |ps| > 0 {
      var p := ps[|ps| - 1];
      assert ps == ps[..|ps| - 1] + [p];
      VerdictsAre(n, ps[..|ps| - 1]);
      AnswersAsWhole(n.storage, n.full, p.index);
    }
  }

  /** Every proposal either still waits, exactly when it is held and not yet
      committed, or has been told whether it is held. */
  lemma {:induction false} WaitsOrTold(n: Node, ps: seq<PendingProposal>, p: PendingProposal)
    requires p in ps
    ensures if IsHeld(n, p) && n.commitIndex < p.index then p in Unresolved(n, ps)
            else Resolved(p.term, p.index, IsHeld(n, p), n.term) in Verdicts(n, ps)
  {
    hide IsHeld;
    var last := ps[|ps| - 1];
    assert ps == ps[..|ps| - 1] + [last];
    if p != last { WaitsOrTold(n, ps[..|ps| - 1], p); }
  }

  /** More than half of the members answered a beat at least `needed`, the
      leader counting as one of them, and the read index is applied. */
  ghost predicate Confirmed(n: Node, r: PendingRead)
    requires n.role.Leader?
  {
    && r.readIndex <= n.lastApplied
    && 2 * |set p | p in n.members && (p == n.Id() || (p in n.role.acked && n.role.acked[p] >= r.needed))|
       > |n.members|
  }

  lemma {:induction false} GrantableMeans(n: Node, r: PendingRead)
    requires n.role.Leader?
    ensures Grantable(n, r) <==> Confirmed(n, r)
  {
    assert Confirming(n, r.needed)
        == set p | p in n.members && (p == n.Id() || (p in n.role.acked && n.role.acked[p] >= r.needed));
    assert |n.members| == |n.members.Keys|;
  }

  /** Every read is granted, exactly when it is confirmed, or still waits. */
  lemma {:induction false} WaitsOrGranted(n: Node, rs: seq<PendingRead>, r: PendingRead)
    requires n.role.Leader? && r in rs
    ensures if Confirmed(n, r) then ReadGranted(n.term, r.needed, n.lastApplied) in Grants(n, rs)
            else r in Waiting(n, rs)
  {
    hide Grantable, Confirmed;
    var last := rs[|rs| - 1];
    assert rs == rs[..|rs| - 1] + [last];
    GrantableMeans(n, r);
    if r != last { WaitsOrGranted(n, rs[..|rs| - 1], r); }
  }

  /** A grant answers a registered read that is confirmed and applied. */
  ghost predicate IsGrant(n: Node, waiting: seq<PendingRead>, a: Answer) {
    && a.ReadGranted? && n.role.Leader? && a.term == n.term && a.applied == n.lastApplied
    && exists r | r in waiting :: r.needed == a.needed && Grantable(n, r)
  }

  lemma {:induction false} GrantsAre(n: Node, ws: seq<PendingRead>)
    requires n.role.Leader?
    ensures forall a | a in Grants(n, ws) :: IsGrant(n, ws, a)
    ensures forall r | r in Waiting(n, ws) :: r in ws
  {
    if |ws| > 0 {
      GrantsAre(n, ws[..|ws| - 1]);
      assert ws == ws[..|ws| - 1] + [ws[|ws| - 1]];
    }
  }

  // ---- compaction ----

  lemma {:induction false} MaybeCompactOk(n: Node)
    requires NodeInv(n)
    ensures NodeInv(MaybeCompact(n))
    ensures MaybeCompact(n) == n.(storage := MaybeCompact(n).storage, staged := MaybeCompact(n).staged)
  {
    if n.config.threshold.Some? {
      var n1 := DropStale(n);
      var n2 := Stage(n1, n.config.threshold.value);
      StageOk(n1, n.config.threshold.value);
      CompactStagedOk(n2);
    }
  }

  lemma {:induction false} StageOk(n: Node, threshold: nat)
    requires NodeInv(n)
    requires n.staged.Some? ==> n.staged.value.index > n.storage.SnapshotIndex()
    ensures NodeInv(Stage(n, threshold))
    ensures Stage(n, threshold) == n.(staged := Stage(n, threshold).staged)
    ensures Stage(n, threshold).staged.Some? ==> Stage(n, threshold).staged.value.index > n.storage.SnapshotIndex()
  {
    MembershipAtIs(n.storage, n.full, n.lastApplied);
  }

  lemma {:induction false} CompactStagedOk(n: Node)
    requires NodeInv(n)
    requires n.staged.Some? ==> n.staged.value.index > n.storage.SnapshotIndex()
    ensures NodeInv(CompactStaged(n))
    ensures CompactStaged(n) == n.(storage := CompactStaged(n).storage, staged := CompactStaged(n).staged)
  {
    if n.staged.Some? {
      var c := n.staged.value;
      CompactKeepsWhole(n.storage, n.full, c.index, c.state, c.membership);
    }
  }

  // ---- committing ----

  /** A commit leaves everything the protocol reasons about alone, except the
      commit index and which reads still wait. */
  ghost predicate CommitsTo(n: Node, n': Node, k: LogIndex) {
    && n'.config == n.config && n'.term == n.term && n'.votedFor == n.votedFor && n'.full == n.full
    && n'.leaderId == n.leaderId && n'.members == n.members && n'.membersIndex == n.membersIndex
    && n'.commitIndex == k && n'.lastApplied == k
    && SameButWaiting(n, n')
    && (forall a | a in n'.answers :: a in n.answers || IsVerdict(n', a) || IsGrant(n', WaitingOf(n), a))
  }

  function WaitingOf(n: Node): seq<PendingRead> {
    if n.role.Leader? then n.role.waiting else []
  }

  ghost predicate SameButWaiting(n: Node, n': Node) {
    if n.role.Leader? then
      && n'.role.Leader?
      && n'.role == n.role.(waiting := n'.role.waiting)
      && forall r | r in n'.role.waiting :: r in n.role.waiting
    else n'.role == n.role
  }

  lemma {:induction false} ResolvePendingOk(n: Node)
    requires Represents(n.storage, n.full) && n.commitIndex <= |n.full|
    requires forall p | p in n.pending :: p.index > 0
    ensures var n' := ResolvePending(n);
      && n' == n.(pending := n'.pending, answers := n'.answers)
      && (forall p | p in n'.pending :: p in n.pending && p.index > n.commitIndex)
      && (forall a | a in n'.answers :: a in n.answers || IsVerdict(n, a))
  {
    UnresolvedAre(n, n.pending);
    VerdictsAre(n, n.pending);
  }

  lemma {:induction false} ResolvePendingBody(n: Node)
    requires BodyOk(n)
    ensures BodyOk(ResolvePending(n))
  {
    ResolvePendingOk(n);
  }

  lemma {:induction false} RescanBody(n: Node)
    requires BodyOk(n)
    ensures NodeInv(RescanMembership(n))
  {
    RescanOk(n);
  }

  lemma {:induction false} ResolveReadsOk(n: Node)
    ensures var n' := ResolveReads(n);
      && n' == n.(role := n'.role, answers := n'.answers)
      && SameButWaiting(n, n')
      && (forall a | a in n'.answers :: a in n.answers || IsGrant(n, WaitingOf(n), a))
  {
    if n.role.Leader? { GrantsAre(n, n.role.waiting); }
  }

  /** Whether a read can be granted does not depend on which reads wait. */
  lemma {:induction false} GrantStable(n: Node, n': Node, ws: seq<PendingRead>, a: Answer)
    requires IsGrant(n, ws, a) && SameButWaiting(n, n')
    requires n'.config == n.config && n'.term == n.term && n'.members == n.members && n'.lastApplied == n.lastApplied
    ensures IsGrant(n', ws, a)
  {
    var r :| r in ws && r.needed == a.needed && Grantable(n, r);
    assert Confirming(n', r.needed) == Confirming(n, r.needed);
    assert Grantable(n', r);
  }

  lemma {:induction false} CommitToOk(n: Node, k: LogIndex)
    requires NodeInv(n) && n.commitIndex < k <= |n.full|
    ensures NodeInv(CommitTo(n, k)) && CommitsTo(n, CommitTo(n, k), k)
  {
    var n0 := n.(commitIndex := k);
    ApplyLoopIs(n0);
    var n1 := ApplyLoop(n0);
    ResolvePendingOk(n1);
    var n2 := ResolvePending(n1);
    ResolveReadsOk(n2);
    var n3 := ResolveReads(n2);
    assert NodeInv(n3);
    MaybeCompactOk(n3);
    var n' := MaybeCompact(n3);
    forall a | a in n'.answers && a !in n.answers
      ensures IsVerdict(n', a) || IsGrant(n', WaitingOf(n), a)
    {
      if IsGrant(n2, WaitingOf(n2), a) { GrantStable(n2, n', WaitingOf(n2), a); }
    }
  }

  // ---- changing the log ----

  lemma {:induction false} FollowerOk(n: Node, term: Term, leader: Option<NodeId>)
    requires NodeInv(n)
    ensures NodeInv(BecomeFollower(n, term, leader))
  {
  }

  lemma {:induction false} PrefixesKept(full: Log, more: Log, k: nat)
    requires k <= |full|
    ensures (full + more)[..k] == full[..k]
  {
  }

  /** The node with a longer log and the configuration that log implies. */
  ghost function Extended(n: Node, batch: seq<LogEntry>): Node {
    var k := ConfigIndex(batch);
    n.(storage := n.storage.(log := n.storage.log + batch), full := n.full + batch,
       members := if k > 0 then batch[k - 1].command.members else n.members,
       membersIndex := if k > 0 then batch[k - 1].index else n.membersIndex)
  }

  lemma {:induction false} AppendBatchIs(n: Node, batch: seq<LogEntry>)
    requires Represents(n.storage, n.full) && Continues(batch, |n.full| + 1)
    ensures AppendBatch(n, batch) == Extended(n, batch)
    ensures Represents(Extended(n, batch).storage, n.full + batch)
  {
    AppendExtends(n.storage, n.full, batch);
  }

  lemma {:induction false} ExtendedMembers(n: Node, batch: seq<LogEntry>)
    requires MembersOk(n) && Continues(batch, |n.full| + 1)
    ensures MembersOk(Extended(n, batch))
  {
    var k := ConfigIndex(batch);
    ConfigOfConcat(n.full, batch);
    if k > 0 {
      assert (n.full + batch)[|n.full| + k - 1] == batch[k - 1];
      assert batch[k - 1].index == |n.full| + k;
    } else if ConfigIndex(n.full) > 0 {
      assert (n.full + batch)[ConfigIndex(n.full) - 1] == n.full[ConfigIndex(n.full) - 1];
    }
  }

  lemma {:induction false} ExtendedOk(n: Node, batch: seq<LogEntry>)
    requires NodeInv(n) && Continues(batch, |n.full| + 1)
    ensures NodeInv(Extended(n, batch)) && AppendBatch(n, batch) == Extended(n, batch)
  {
    AppendBatchIs(n, batch);
    ExtendedMembers(n, batch);
    PrefixesKept(n.full, batch, n.lastApplied);
    PrefixesKept(n.full, batch, n.storage.SnapshotIndex());
    if n.staged.Some? { PrefixesKept(n.full, batch, n.staged.value.index); }
  }

  lemma {:induction false} ConfigOfOne(e: LogEntry)
    ensures ConfigIndex([e]) == if e.command.ConfigChange? then 1 else 0
  {
  }

  function Registered(n: Node, p: PendingProposal): Node {
    n.(pending := n.pending + [p])
  }

  lemma {:induction false} RegisteredOk(n: Node, p: PendingProposal)
    requires NodeInv(n) && p.index > n.commitIndex
    ensures NodeInv(Registered(n, p))
  {
  }

  /** A leader's proposal extends its log by one entry of its own term. */
  ghost function Proposed(n: Node, command: Command): Node {
    var e := LogEntry(n.term, |n.full| + 1, command);
    Registered(Extended(n, [e]), PendingProposal(n.term, |n.full| + 1))
  }

  lemma {:induction false} ProposedIs(n: Node, command: Command)
    requires Represents(n.storage, n.full)
    ensures AppendProposal(n, command) == Proposed(n, command)
  {
    AppendBatchIs(n, [LogEntry(n.term, |n.full| + 1, command)]);
  }

  lemma {:induction false} ProposedOk(n: Node, command: Command)
    requires NodeInv(n)
    ensures NodeInv(Proposed(n, command))
  {
    hide NodeInv, Extended, Registered;
    CommitWithin(n);
    ExtendedRegisteredOk(n, [LogEntry(n.term, |n.full| + 1, command)], PendingProposal(n.term, |n.full| + 1));
  }

  lemma {:induction false} CommitWithin(n: Node)
    requires NodeInv(n)
    ensures n.commitIndex <= |n.full|
  {
  }

  lemma {:induction false} ExtendedRegisteredOk(n: Node, batch: seq<LogEntry>, p: PendingProposal)
    requires NodeInv(n) && Continues(batch, |n.full| + 1) && p.index > n.commitIndex
    ensures NodeInv(Registered(Extended(n, batch), p))
  {
    ExtendedOk(n, batch);
    RegisteredOk(Extended(n, batch), p);
  }

  ghost function Crowned(n: Node): Node {
    var next := |n.full| + 1;
    n.(role := Leader(Each(n.Peers(), next), Each(n.Peers(), 0), next, 0, map[], []),
       leaderId := Some(n.Id()))
  }

  lemma {:induction false} CrownedOk(n: Node)
    requires NodeInv(n)
    ensures NodeInv(Crowned(n))
  {
  }

  /** A new leader's log is its inherited one plus its no-op. */
  ghost function Elevated(n: Node): Node {
    var e := LogEntry(n.term, |n.full| + 1, Noop);
    Crowned(n).(storage := n.storage.(log := n.storage.log + [e]), full := n.full + [e])
  }

  lemma {:induction false} BecomeLeaderOk(n: Node)
    requires NodeInv(n)
    ensures BecomeLeader(n) == Elevated(n) && NodeInv(Elevated(n))
  {
    CrownedOk(n);
    var e := LogEntry(n.term, |n.full| + 1, Noop);
    ExtendedOk(Crowned(n), [e]);
    ConfigOfOne(e);
    assert Extended(Crowned(n), [e]) == Elevated(n);
  }

  lemma {:induction false} CutMembers(n: Node, from: LogIndex, cut: Node)
    requires MembersOk(n) && n.storage.SnapshotIndex() < from <= |n.full|
    requires cut.full == n.full[..from - 1] && cut.storage.snapshot == n.storage.snapshot
    requires cut.config == n.config && cut.members == n.members && cut.membersIndex == n.membersIndex
    requires n.membersIndex < from
    ensures MembersOk(cut)
  {
    SameConfig(n.full, from - 1);
  }

  lemma {:induction false} CutBody(n: Node, from: LogIndex)
    requires BodyOk(n) && n.role.Follower? && n.commitIndex < from <= |n.full|
    ensures var c := Cut(n, from);
      && BodyOk(c) && c.full == n.full[..from - 1] && c.storage.snapshot == n.storage.snapshot
      && c == n.(storage := c.storage, full := c.full)
  {
    TruncateCuts(n.storage, n.full, from);
    CutKeepsPrefixes(n, from - 1);
  }

  lemma {:induction false} CutResolved(n: Node, from: LogIndex)
    requires BodyOk(n) && n.role.Follower? && n.commitIndex < from <= |n.full|
    ensures var r := ResolvePending(Cut(n, from));
      && BodyOk(r) && r.full == n.full[..from - 1] && r.storage.snapshot == n.storage.snapshot
      && r == n.(storage := r.storage, full := r.full, pending := r.pending, answers := r.answers)
      && (forall a | a in r.answers :: a in n.answers || IsVerdict(r, a))
  {
    CutBody(n, from);
    var c := Cut(n, from);
    ResolvePendingBody(c);
    ResolvePendingOk(c);
  }

  /** Whoever waits for an entry past the end of the log is told it is lost. */
  lemma {:induction false} LostAreTold(n: Node, p: PendingProposal)
    requires Represents(n.storage, n.full) && p in n.pending && p.index > |n.full|
    ensures Resolved(p.term, p.index, false, n.term) in ResolvePending(n).answers
  {
    AnswersAsWhole(n.storage, n.full, p.index);
    WaitsOrTold(n, n.pending, p);
  }

  /** Cutting at an uncommitted entry keeps the node's invariant and everything
      below the cut, and tells every waiter of a cut entry that it is lost. */
  lemma {:induction false} TruncateConflictOk(n: Node, e: LogEntry)
    requires NodeInv(n) && n.role.Follower? && n.commitIndex < e.index <= |n.full|
    ensures var n' := TruncateConflict(n, e);
      && NodeInv(n') && n'.full == n.full[..e.index - 1]
      && n' == n.(storage := n'.storage, full := n'.full, pending := n'.pending, answers := n'.answers,
                  members := n'.members, membersIndex := n'.membersIndex)
      && (forall a | a in n'.answers :: a in n.answers || IsVerdict(n', a))
      && (forall p | p in n.pending && p.index >= e.index :: Resolved(p.term, p.index, false, n.term) in n'.answers)
  {
    CutBody(n, e.index);
    CutResolved(n, e.index);
    var r := ResolvePending(Cut(n, e.index));
    forall p | p in n.pending && p.index >= e.index ensures Resolved(p.term, p.index, false, n.term) in r.answers {
      LostAreTold(Cut(n, e.index), p);
    }
    if e.index <= n.membersIndex {
      RescanBody(r);
    } else {
      CutMembers(n, e.index, r);
    }
  }

  lemma {:induction false} CutKeepsPrefixes(n: Node, cut: nat)
    requires BodyOk(n) && n.commitIndex <= cut <= |n.full|
    ensures n.full[..cut][..n.lastApplied] == n.full[..n.lastApplied]
    ensures n.full[..cut][..n.storage.SnapshotIndex()] == n.full[..n.storage.SnapshotIndex()]
    ensures n.staged.Some? ==> n.full[..cut][..n.staged.value.index] == n.full[..n.staged.value.index]
  {
  }

  /** What a snapshot message must carry for the installation to be sound. */
  ghost predicate SnapshotFor(s: Snapshot, whole: Log) {
    && |whole| > 0 && Contiguous(whole)
    && s.lastIndex == |whole| && s.lastTerm == LastTerm(whole)
    && s.membership == LatestConfig(whole)
    && s.state == Store.Fold(whole)
  }

  lemma {:induction false} AboveAre(ps: seq<PendingProposal>, boundary: LogIndex)
    ensures forall p | p in Above(ps, boundary) :: p in ps && p.index > boundary
  {
    if |ps| > 0 {
      AboveAre(ps[..|ps| - 1], boundary);
      assert ps == ps[..|ps| - 1] + [ps[|ps| - 1]];
    }
  }

  /** The node right after its log and state were replaced. */
  ghost function Replaced(n: Node, s: Retained, full: Log, state: Store.KvState, b: LogIndex): Node {
    n.(storage := s, full := full, kv := state, commitIndex := b, lastApplied := b,
       pending := Above(n.pending, b))
  }

  lemma {:induction false} ReplacedOk(n: Node, s: Retained, full: Log, whole: Log)
    requires BodyOk(n) && n.role.Follower? && n.commitIndex < |whole| && whole <= full
    requires n.full[..n.commitIndex] <= whole
    requires Represents(s, full) && s.snapshot.Some? && SnapshotFor(s.snapshot.value, whole)
    ensures BodyOk(Replaced(n, s, full, s.snapshot.value.state, |whole|))
  {
    AboveAre(n.pending, |whole|);
    assert full[..|whole|] == whole;
    if n.staged.Some? {
      var k := n.staged.value.index;
      assert full[..k] == n.full[..n.commitIndex][..k] == n.full[..k];
    }
  }

  lemma {:induction false} InstalledIs(n: Node, m: Message)
    requires Represents(n.storage, n.full) && m.SnapshotReq? && SnapshotFor(m.snapshot, m.whole)
    requires n.storage.SnapshotIndex() < |m.whole|
    requires |m.whole| <= |n.full| && TermAt(n.full, |m.whole|) == LastTerm(m.whole) ==> m.whole <= n.full
    ensures n.storage.Install(m.snapshot).Ok?
    ensures var s, full := n.storage.Install(m.snapshot).value, if m.whole <= n.full then n.full else m.whole;
      && Represents(s, full) && s.snapshot == Some(m.snapshot)
      && (if n.storage.TermOf(|m.whole|) == Some(m.snapshot.lastTerm) && |m.whole| <= |n.full|
          then m.whole + n.full[|m.whole|..] else m.whole) == full
  {
    hide Represents, Contiguous, Store.Fold, LatestConfig;
    var b := |m.whole|;
    InstallReplaces(n.storage, n.full, m.snapshot, m.whole);
    AnswersAsWhole(n.storage, n.full, b);
    assert m.whole <= n.full ==> m.whole + n.full[b..] == n.full;
  }

  lemma {:induction false} InstallOk(n: Node, m: Message)
    requires NodeInv(n) && n.role.Follower? && m.SnapshotReq? && SnapshotFor(m.snapshot, m.whole)
    requires n.commitIndex < |m.whole| && n.full[..n.commitIndex] <= m.whole
    requires |m.whole| <= |n.full| && TermAt(n.full, |m.whole|) == LastTerm(m.whole) ==> m.whole <= n.full
    ensures var n' := InstallFrom(n, m);
      && NodeInv(n') && n'.commitIndex == |m.whole|
      && n'.full == (if m.whole <= n.full then n.full else m.whole)
      && n' == n.(storage := n'.storage, full := n'.full, kv := n'.kv, commitIndex := n'.commitIndex,
                  lastApplied := n'.lastApplied, pending := n'.pending, answers := n'.answers,
                  members := n'.members, membersIndex := n'.membersIndex)
      && (forall a | a in n'.answers :: a in n.answers || IsVerdict(n', a))
  {
    InstalledIs(n, m);
    var s := n.storage.Install(m.snapshot).value;
    var full := if m.whole <= n.full then n.full else m.whole;
    ReplacedOk(n, s, full, m.whole);
    var replaced := Replaced(n, s, full, m.snapshot.state, |m.whole|);
    RescanBody(replaced);
    var adopted := RescanMembership(replaced);
    ResolvePendingBody(adopted);
    ResolvePendingOk(adopted);
    assert InstallFrom(n, m) == ResolvePending(adopted);
  }

  lemma {:induction false} RestartOk(n: Node)
    requires NodeInv(n)
    ensures NodeInv(Restart(n))
  {
    DeriveIsWhole(n.storage, n.full, n.config.boot);
    assert n.full[..0] == [];
  }

  lemma {:induction false} BootOk(config: Config)
    ensures NodeInv(Boot(config)) && Boot(config).full == [] && Boot(config).role.Follower?
  {
    var blank := Node(config, 0, None, Retained(None, []), [], Follower, None, 0, 0, Store.EMPTY, [], None, map[], 0, [], false);
    DeriveIsWhole(blank.storage, blank.full, config.boot);
  }
}
