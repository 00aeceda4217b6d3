module Behaviour {
  // What single operations of the node promise beyond safety: how far compaction
  // lags, what a rejection does to the next index, and what the availability guard refuses.

  import opened Types
  import opened Quorum
  import opened Storage
  import opened Rpc
  import opened Node
  import opened NodeInvariant
  import Store

  // ---- compaction ----

  lemma {:induction false} CompactedTo(n: Node)
    requires NodeInv(n) && n.staged.Some? && n.staged.value.index > n.storage.SnapshotIndex()
    ensures var n' := CompactStaged(n);
      if n.lastApplied >= n.staged.value.index + n.config.trailing
      then n'.staged.None? && n'.storage.SnapshotIndex() == n.staged.value.index
      else n' == n
  {
    var s := n.staged.value;
    CompactKeepsWhole(n.storage, n.full, s.index, s.state, s.membership);
  }

  /** After a compaction check: a capture that is still staged lies above the
      boundary and less than the trailing window behind; a boundary that moved
      moved to a capture at least the window behind; and otherwise fewer
      entries than the threshold have been applied past the boundary. */
  lemma {:induction false} CompactionKeepsUp(n: Node)
    requires NodeInv(n) && n.config.threshold.Some?
    ensures var n', b := MaybeCompact(n), n.storage.SnapshotIndex();
      var b' := n'.storage.SnapshotIndex();
      && n'.lastApplied == n.lastApplied && n'.full == n.full && b <= b' <= n.lastApplied
      && (n'.staged.Some? ==> b' < n'.staged.value.index <= n.lastApplied < n'.staged.value.index + n.config.trailing)
      && (b' > b ==> n'.staged.None? && b' + n.config.trailing <= n.lastApplied)
      && (b' == b && n'.staged.None? ==> n.lastApplied < b + Max(n.config.threshold.value, 1))
  {
    hide NodeInv, DropStale, Stage, CompactStaged;
    var n1 := DropStale(n);
    var n2 := Stage(n1, n.config.threshold.value);
    StaleDropped(n);
    StagedAt(n1, n.config.threshold.value);
    if n2.staged.Some? { CompactedTo(n2); } else { NothingStaged(n2); }
    MaybeCompactOk(n);
    BoundaryApplied(MaybeCompact(n));
  }

  /** What a compaction check decides. A capture above the boundary is kept
      until the trailing window has passed it, and then becomes the boundary. A
      missing or overtaken one is replaced once the threshold is applied past
      the boundary. Without a threshold nothing happens. */
  lemma {:induction false} CompactionDecides(n: Node)
    requires NodeInv(n)
    ensures var n', b := MaybeCompact(n), n.storage.SnapshotIndex();
      if n.config.threshold.None? then n' == n
      else if n.staged.Some? && n.staged.value.index > b then
        (if n.lastApplied >= n.staged.value.index + n.config.trailing
         then n'.staged.None? && n'.storage.SnapshotIndex() == n.staged.value.index
         else n' == n)
      else if n.lastApplied < b + Max(n.config.threshold.value, 1) then n' == n.(staged := None)
      else if n.config.trailing == 0 then n'.staged.None? && n'.storage.SnapshotIndex() == n.lastApplied
      else n'.storage == n.storage && n'.staged.Some? && n'.staged.value.index == n.lastApplied
  {
    hide NodeInv, CompactStaged, MembershipAt;
    if n.config.threshold.Some? {
      var n1 := DropStale(n);
      var n2 := Stage(n1, n.config.threshold.value);
      StaleDropped(n);
      StagedAt(n1, n.config.threshold.value);
      if n2.staged.Some? { CompactedTo(n2); } else { NothingStaged(n2); }
    }
  }

  lemma {:induction false} StaleDropped(n: Node)
    requires NodeInv(n)
    ensures var n1 := DropStale(n);
      && NodeInv(n1) && n1 == n.(staged := n1.staged)
      && (n1.staged.Some? ==> n.storage.SnapshotIndex() < n1.staged.value.index <= n.lastApplied)
  {
  }

  lemma {:induction false} StagedAt(n: Node, threshold: nat)
    requires NodeInv(n) && (n.staged.Some? ==> n.storage.SnapshotIndex() < n.staged.value.index <= n.lastApplied)
    ensures var n2, b := Stage(n, threshold), n.storage.SnapshotIndex();
      && NodeInv(n2) && n2 == n.(staged := n2.staged)
      && (if n2.staged.Some? then b < n2.staged.value.index <= n.lastApplied else n.lastApplied < b + Max(threshold, 1))
  {
    hide BodyOk, MembersOk, MembershipAt;
    StageOk(n, threshold);
  }

  lemma {:induction false} NothingStaged(n: Node)
    requires n.staged.None?
    ensures CompactStaged(n) == n
  {
  }

  lemma {:induction false} BoundaryApplied(n: Node)
    requires NodeInv(n)
    ensures n.storage.SnapshotIndex() <= n.lastApplied
  {
  }

  // ---- replication tables ----

  /** Where a peer is probed next; a peer without an entry is probed from the start. */
  function NextOf(n: Node, p: NodeId): LogIndex
    requires n.role.Leader?
  {
    if p in n.role.nextIndex then n.role.nextIndex[p] else 1
  }

  /** A rejection never raises the next index of its sender, leaves everyone
      else's and every match index alone, and leaves the next index above what
      the sender is known to hold exactly when it was so before and the
      rejected probe started above it. */
  lemma {:induction false} RejectionRetreats(n: Node, m: Message)
    requires n.role.Leader? && m.AppendResp? && !m.success && m.sentTerm == n.term && m.term <= n.term
    ensures var n' := OnAppendReply(n, m);
      && n'.role.Leader? && n'.role.matchIndex == n.role.matchIndex
      && (forall p | p != m.from :: NextOf(n', p) == NextOf(n, p))
      && NextOf(n', m.from) <= NextOf(n, m.from)
      && (NextOf(n', m.from) > MatchOf(n', m.from) <==>
            (NextOf(n, m.from) > MatchOf(n, m.from) && Max(m.sentPrev, 1) > MatchOf(n, m.from)))
  {
    hide Waiting, Grants;
  }

  // ---- the availability guard ----

  /** A single-node cluster asked to grow: once the two safety gates pass, the
      change is refused exactly when the new member has not both answered in
      this term and been heard recently. */
  lemma {:induction false} GrowingFromOne(n: Node, added: NodeId, addr: MemberAddr, recent: set<NodeId>)
    requires n.role.Leader? && n.members.Keys == {n.Id()} && added != n.Id()
    requires n.commitIndex >= n.role.termStart && n.membersIndex <= n.commitIndex
    ensures ValidateConfigChange(n, n.members[added := addr], recent).None? <==>
      (added in n.role.acked && added in recent)
    ensures ValidateConfigChange(n, n.members[added := addr], recent).Some? ==>
      ValidateConfigChange(n, n.members[added := addr], recent) == Some(Unreachable)
  {
    var new_ := n.members[added := addr];
    assert new_.Keys == {n.Id(), added};
    assert new_.Keys - n.members.Keys == {added} && n.members.Keys - new_.Keys == {};
    var reachable := set p | p in new_.Keys && (p == n.Id() || (p in n.role.acked && p in recent));
    if added in n.role.acked && added in recent {
      assert reachable == {n.Id(), added};
    } else {
      assert reachable == {n.Id()};
    }
  }
}
