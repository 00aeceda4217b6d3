/** Whatever a node sends is backed by the history, and the observer that
    inspects it never has a complaint. */
module Sending {
  import opened Types
  import opened Storage
  import opened Rpc
  import opened Observer
  import opened Node
  import opened NodeInvariant
  import opened History
  import opened Completeness
  import opened Growth
  import opened Cluster
  import opened Invariant
  import opened Election
  import opened Followers

  function NextFor(n: Node, peer: NodeId): LogIndex
    requires n.role.Leader?
  {
    if peer in n.role.nextIndex then n.role.nextIndex[peer] else n.storage.LastIndex() + 1
  }

  lemma {:induction false} NextIsHeld(n: Node, peer: NodeId)
    requires NodeInv(n) && n.role.Leader?
    ensures 1 <= NextFor(n, peer) <= |n.full| + 1
  {
    AnswersAsWhole(n.storage, n.full, 0);
  }

  lemma {:induction false} TailSent(s: Retained, full: Log, next: LogIndex)
    requires Represents(s, full) && s.SnapshotIndex() < next <= |full| + 1
    ensures s.TermOf(next - 1) == Some(TermAt(full, next - 1)) && s.EntriesFrom(next) == full[next - 1..]
  {
    AnswersAsWhole(s, full, next - 1);
    AnswersAsWhole(s, full, next);
  }

  lemma {:induction false} EntriesSent(h: History, n: Node, m: Message)
    requires HistoryOk(h) && NodeOk(h, n) && n.role.Leader? && m.AppendReq? && m.from == n.Id() != m.to
      && m.term == n.term
    requires m.prevIndex <= |n.full| && m.prevTerm == TermAt(n.full, m.prevIndex) && m.entries == n.full[m.prevIndex..]
    requires m.leaderCommit == n.commitIndex && m.beat == n.role.beat
    ensures MsgOk(h, m)
  {
    hide HistoryOk, LogOk, VotesOk, AcksKept, AnswerOk, Committed, CertAt, Answered, WaitOk;
    assert AppendOk(h, m);
  }

  lemma {:induction false} SnapshotSent(h: History, n: Node, m: Message)
    requires HistoryOk(h) && NodeOk(h, n) && n.role.Leader? && m.SnapshotReq? && m.from == n.Id() != m.to
      && m.term == n.term
    requires SnapshotFor(m.snapshot, m.whole) && m.whole <= n.full && |m.whole| <= n.commitIndex
    ensures MsgOk(h, m)
  {
    CommittedOf(h, n.term, n.full, n.commitIndex, n.term, n.full, |m.whole|);
    hide HistoryOk, LogOk, VotesOk, AcksKept, AnswerOk, Committed, CertAt, Answered, WaitOk;
    assert SnapshotReqOk(h, m);
  }

  lemma {:induction false} SnapshotHeld(n: Node)
    requires NodeInv(n) && n.storage.SnapshotIndex() > 0
    ensures n.storage.snapshot.Some? && n.storage.SnapshotIndex() <= n.commitIndex <= |n.full|
    ensures SnapshotFor(n.storage.snapshot.value, n.full[..n.storage.SnapshotIndex()])
  {
  }

  /** A leader always has what it has to send: the rest of its log from the
      peer's next index, or else the snapshot. */
  lemma {:induction false} SendAppendIs(n: Node, peer: NodeId)
    requires NodeInv(n) && n.role.Leader?
    ensures 1 <= NextFor(n, peer) <= |n.full| + 1
    ensures SendAppend(n, peer).Some?
    ensures var m, next := SendAppend(n, peer).value, NextFor(n, peer);
      && m.from == n.Id() && m.to == peer && m.term == n.term
      && if next <= n.storage.SnapshotIndex() then
           m.SnapshotReq? && SnapshotFor(m.snapshot, m.whole) && m.whole <= n.full && |m.whole| <= n.commitIndex
         else
           && m.AppendReq? && m.prevIndex == next - 1 && m.prevTerm == TermAt(n.full, next - 1)
           && m.entries == n.full[next - 1..] && m.leaderCommit == n.commitIndex && m.beat == n.role.beat
  {
    hide NodeInv, SnapshotFor;
    NextIsHeld(n, peer);
    NodeRepresents(n);
    if NextFor(n, peer) <= n.storage.SnapshotIndex() {
      SnapshotHeld(n);
    } else {
      TailSent(n.storage, n.full, NextFor(n, peer));
    }
  }

  lemma {:induction false} SendAppendGood(h: History, n: Node, peer: NodeId)
    requires Good(h, n) && n.role.Leader? && peer != n.Id()
    ensures SendAppend(n, peer).Some? && MsgOk(h, SendAppend(n, peer).value)
  {
    hide SendAppend, NodeInv, NodeOk, HistoryOk, SnapshotFor, MsgOk;
    SendAppendIs(n, peer);
    var m := SendAppend(n, peer).value;
    if m.SnapshotReq? { SnapshotSent(h, n, m); } else { EntriesSent(h, n, m); }
  }

  lemma {:induction false} SendGood(h: History, n: Node, peer: NodeId)
    requires Good(h, n) && !n.role.Follower? && peer != n.Id()
    ensures SendTo(n, peer).Some? && MsgOk(h, SendTo(n, peer).value)
  {
    if n.role.Leader? {
      SendAppendGood(h, n, peer);
    } else {
      AnswersAsWhole(n.storage, n.full, 0);
    }
  }

  // ---- the observer ----

  /** The entry is the one its term's leader wrote at its index. */
  ghost predicate Known(h: History, e: LogEntry) {
    && e.term in h.reigns && 0 < e.index <= |h.reigns[e.term].log|
    && h.reigns[e.term].log[e.index - 1] == e
  }

  lemma {:induction false} SentIsKnown(h: History, m: Message, k: nat)
    requires HistoryOk(h) && m.AppendReq? && AppendOk(h, m) && k < |m.entries|
    ensures Known(h, m.entries[k])
  {
    EntryIs(h, m, k);
    LeaderLogCanonical(h, m.term);
    assert Rooted(h, LeaderLog(h, m.term), m.prevIndex + k);
  }

  lemma {:induction false} SeeEntriesOk(h: History, o: Observed, entries: seq<LogEntry>)
    requires SeenOk(h, o) && forall e | e in entries :: Known(h, e)
    ensures SeenOk(h, SeeEntries(o, entries))
  {
    if |entries| > 0 {
      SeeEntriesOk(h, o, entries[..|entries| - 1]);
      assert Known(h, entries[|entries| - 1]);
    }
  }

  lemma {:induction false} SentIsShaped(h: History, m: Message)
    requires HistoryOk(h) && m.AppendReq? && AppendOk(h, m)
    ensures WellShaped(m)
  {
    var log := LeaderLog(h, m.term);
    LeaderLogCanonical(h, m.term);
    forall k | 0 <= k < |m.entries| ensures ShapedAt(m, k) {
      EntryIs(h, m, k);
      if k > 0 { EntryIs(h, m, k - 1); }
    }
  }

  lemma {:induction false} InspectOk(h: History, o: Observed, m: Message)
    requires HistoryOk(h) && SeenOk(h, o) && MsgOk(h, m)
    ensures SeenOk(h, Inspect(o, m))
  {
    if m.AppendReq? {
      forall e | e in m.entries ensures Known(h, e) {
        var k :| 0 <= k < |m.entries| && m.entries[k] == e;
        SentIsKnown(h, m, k);
      }
      SentIsShaped(h, m);
      ShapeCheckIsExact(SeeClaim(o, m), m);
      SeeEntriesOk(h, SeeClaim(o, m), m.entries);
    }
  }

  lemma {:induction false} SendKeeps(c: Cluster, id: NodeId, peer: NodeId)
    requires Inv(c) && id in c.nodes
    ensures Inv(DoSend(c, c.nodes[id], peer))
  {
    hide HistoryOk, NodeInv, NodeOk, MsgOk, SeenOk, SendTo, Inspect;
    var n := c.nodes[id];
    assert NodeAt(c, id);
    if !n.role.Follower? && peer != id {
      SendGood(c.hist, n, peer);
      InspectOk(c.hist, c.seen, SendTo(n, peer).value);
      forall x | x in c.nodes ensures NodeAt(DoSend(c, n, peer), x) { assert NodeAt(c, x); }
    }
  }
}
