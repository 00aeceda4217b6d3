/** The follower side: accepting entries, following the commit index,
    installing a snapshot, and restarting. */
module Followers {
  import opened Types
  import opened Quorum
  import opened Storage
  import opened Rpc
  import opened Node
  import opened NodeInvariant
  import opened History
  import opened Completeness
  import opened Growth
  import opened Cluster
  import opened Invariant
  import opened Frame
  import opened Election

  ghost function LeaderLog(h: History, t: Term): Log
    requires t in h.reigns
  {
    h.reigns[t].log
  }

  /** What a node has committed is in the log of the leader it listens to. */
  lemma {:induction false} CommittedShared(h: History, n: Node, t: Term)
    requires Good(h, n) && t in h.reigns && n.term <= t
    ensures n.full[..n.commitIndex] <= LeaderLog(h, t)
    ensures n.commitIndex <= |LeaderLog(h, t)|
  {
    CommittedInLeader(h, n.term, n.full, n.commitIndex, t);
  }

  lemma {:induction false} LeaderLogCanonical(h: History, t: Term)
    requires HistoryOk(h) && t in h.reigns
    ensures Canonical(h, LeaderLog(h, t)) && SortedTerms(LeaderLog(h, t)) && TermsUpTo(LeaderLog(h, t), t)
    ensures Contiguous(LeaderLog(h, t))
  {
    var r := h.reigns[t];
    assert ReignOk(h, t) && ReignRecorded(h, t);
    forall k | 0 <= k < |r.log| ensures r.log[k].term <= t {
      if k < |r.init| { assert r.log[k] == r.init[k]; }
    }
  }

  /** The consistency check passes only if the log matches through prev. */
  lemma {:induction false} PrevShared(h: History, n: Node, m: Message)
    requires Good(h, n) && m.AppendReq? && AppendOk(h, m) && n.term == m.term && PrevMatches(n, m)
    ensures m.prevIndex <= |n.full| && n.full[..m.prevIndex] <= LeaderLog(h, m.term)
  {
    hide NodeInv, NodeOk, HistoryOk;
    var log := LeaderLog(h, m.term);
    NodeComparable(h, n, m.term);
    PrevIs(n, m) by { assert Comparable(h, n, log); }
    if m.prevIndex >= n.storage.SnapshotIndex() {
      LogMatching(h, n.full, log, m.prevIndex);
    } else {
      assert n.full[..m.prevIndex] == n.full[..n.commitIndex][..m.prevIndex];
    }
  }

  lemma {:induction false} PrevIs(n: Node, m: Message)
    requires Represents(n.storage, n.full) && m.AppendReq? && PrevMatches(n, m)
    ensures m.prevIndex <= |n.full|
    ensures m.prevIndex >= n.storage.SnapshotIndex() ==> TermAt(n.full, m.prevIndex) == m.prevTerm
  {
    AnswersAsWhole(n.storage, n.full, m.prevIndex);
  }

  /** Where the walk over the batch stops, in terms of the two whole logs. */
  ghost predicate WalkMeans(n: Node, m: Message, log: Log, w: Walk)
    requires m.AppendReq?
  {
    match w
    case Held => m.prevIndex + |m.entries| <= |log| && log[..m.prevIndex + |m.entries|] <= n.full
    case Missing(k) =>
      k < |m.entries| && m.prevIndex + k == |n.full| <= |log| && n.full == log[..m.prevIndex + k]
    case Conflict(k) =>
      && k < |m.entries| && n.commitIndex <= m.prevIndex + k < |n.full| && m.prevIndex + k < |log|
      && n.full[..m.prevIndex + k] == log[..m.prevIndex + k]
      && n.full[m.prevIndex + k] != log[m.prevIndex + k]
  }

  lemma {:induction false} EntryIs(h: History, m: Message, k: nat)
    requires HistoryOk(h) && m.AppendReq? && AppendOk(h, m) && k < |m.entries|
    ensures m.prevIndex + k < |LeaderLog(h, m.term)| && m.entries[k] == LeaderLog(h, m.term)[m.prevIndex + k]
    ensures m.entries[k].index == m.prevIndex + k + 1
  {
    LeaderLogCanonical(h, m.term);
  }

  /** A node's stored log against a leader's log that holds all it committed. */
  ghost predicate Comparable(h: History, n: Node, log: Log) {
    && Represents(n.storage, n.full) && n.storage.SnapshotIndex() <= n.commitIndex <= |n.full|
    && n.full[..n.commitIndex] <= log
    && Canonical(h, n.full) && Canonical(h, log)
  }

  lemma {:induction false} EntryShared(h: History, n: Node, log: Log, i: LogIndex)
    requires Comparable(h, n, log) && 0 < i <= |log|
    requires i <= n.storage.SnapshotIndex() || n.storage.TermOf(i) == Some(log[i - 1].term)
    ensures i <= |n.full| && n.full[..i] == log[..i]
  {
    hide Represents, Canonical;
    AnswersAsWhole(n.storage, n.full, i);
    if i <= n.storage.SnapshotIndex() {
      assert n.full[..i] == n.full[..n.commitIndex][..i];
    } else {
      LogMatching(h, n.full, log, i);
    }
  }

  lemma {:induction false} EntryMissing(h: History, n: Node, log: Log, i: LogIndex)
    requires Comparable(h, n, log) && 0 < i <= |log| && n.storage.SnapshotIndex() < i && i - 1 <= |n.full|
    requires n.full[..i - 1] == log[..i - 1]
    ensures n.storage.TermOf(i).None? ==> |n.full| == i - 1
    ensures n.storage.TermOf(i).Some? && n.storage.TermOf(i).value != log[i - 1].term ==>
      n.commitIndex < i <= |n.full| && n.full[i - 1] != log[i - 1]
  {
    AnswersAsWhole(n.storage, n.full, i);
    assert i <= n.commitIndex ==> n.full[..n.commitIndex][i - 1] == log[i - 1];
  }

  /** One step of the walk: skip an entry the log shares, stop at another. */
  lemma {:induction false} WalkStep(s: Retained, entries: seq<LogEntry>, k: nat, i: LogIndex)
    requires k < |entries| && entries[k].index == i
    ensures WalkFrom(s, entries, k) ==
      if i <= s.SnapshotIndex() || s.TermOf(i) == Some(entries[k].term) then WalkFrom(s, entries, k + 1)
      else if s.TermOf(i).None? then Missing(k) else Conflict(k)
  {
  }

  lemma {:induction false} WalkStops(h: History, n: Node, m: Message, log: Log, k: nat)
    requires m.AppendReq? && Comparable(h, n, log) && k < |m.entries| && m.prevIndex + k < |log|
    requires m.prevIndex + k <= |n.full| && n.full[..m.prevIndex + k] == log[..m.prevIndex + k]
    requires var i := m.prevIndex + k + 1; n.storage.SnapshotIndex() < i && n.storage.TermOf(i) != Some(log[i - 1].term)
    ensures WalkMeans(n, m, log, if n.storage.TermOf(m.prevIndex + k + 1).None? then Missing(k) else Conflict(k))
  {
    hide Comparable;
    EntryMissing(h, n, log, m.prevIndex + k + 1);
    assert |n.full| == m.prevIndex + k ==> n.full == n.full[..m.prevIndex + k];
  }

  lemma {:induction false} WalkIs(h: History, n: Node, m: Message, log: Log, k: nat)
    requires m.AppendReq? && Comparable(h, n, log)
    requires m.prevIndex + |m.entries| <= |log| && m.entries == log[m.prevIndex..m.prevIndex + |m.entries|]
    requires Contiguous(log)
    requires k <= |m.entries| && m.prevIndex + k <= |n.full| && n.full[..m.prevIndex + k] == log[..m.prevIndex + k]
    ensures WalkMeans(n, m, log, WalkFrom(n.storage, m.entries, k))
    decreases |m.entries| - k
  {
    if k < |m.entries| {
      hide Comparable, WalkMeans, WalkFrom;
      var i := m.prevIndex + k + 1;
      assert m.entries[k] == log[i - 1];
      WalkStep(n.storage, m.entries, k, i);
      if i <= n.storage.SnapshotIndex() || n.storage.TermOf(i) == Some(m.entries[k].term) {
        EntryShared(h, n, log, i);
        WalkIs(h, n, m, log, k + 1);
      } else {
        WalkStops(h, n, m, log, k);
      }
    }
  }

  lemma {:induction false} NodeComparable(h: History, n: Node, t: Term)
    requires Good(h, n) && t in h.reigns && n.term <= t
    ensures Comparable(h, n, LeaderLog(h, t))
  {
    CommittedShared(h, n, t);
    LeaderLogCanonical(h, t);
  }

  lemma {:induction false} WalkResult(h: History, n: Node, m: Message)
    requires Good(h, n) && m.AppendReq? && AppendOk(h, m) && n.term == m.term && PrevMatches(n, m)
    ensures WalkMeans(n, m, LeaderLog(h, m.term), WalkFrom(n.storage, m.entries, 0))
  {
    PrevShared(h, n, m);
    NodeComparable(h, n, m.term);
    LeaderLogCanonical(h, m.term);
    WalkIs(h, n, m, LeaderLog(h, m.term), 0);
  }

  // ---- cutting ----

  /** Losing an acknowledged suffix to the leader of a later term is being overruled. */
  lemma {:induction false} CutKeeps(h: History, n: Node, log: Log, cut: nat, a: Ack, i: LogIndex)
    requires HistoryOk(h) && AckKept(h, a, n.full, n.term) && i <= a.index
    requires n.term in h.reigns && log == LeaderLog(h, n.term)
    requires cut < |n.full| && cut < |log| && n.full[..cut] == log[..cut] && n.full[cut] != log[cut]
    ensures Keeps(h, a.term, i, n.full[..cut], n.term)
  {
    assert Keeps(h, a.term, i, n.full, n.term);
    var p := h.reigns[a.term].log[..i];
    assert ReignOk(h, n.term);
    if p <= n.full && !(p <= n.full[..cut]) {
      assert i > cut && p[cut] == n.full[cut];
      assert a.term != n.term;
      var init := h.reigns[n.term].init;
      assert cut < |init| ==> init[cut] == log[cut];
      assert Overruled(h, a.term, i, n.term);
    }
  }

  lemma {:induction false} CutAcks(h: History, n: Node, n': Node, log: Log)
    requires HistoryOk(h) && AcksKept(h, n) && n.term in h.reigns && log == LeaderLog(h, n.term)
    requires n'.Id() == n.Id() && n'.term == n.term
    requires |n'.full| < |n.full| && |n'.full| < |log| && n'.full == n.full[..|n'.full|] == log[..|n'.full|]
    requires n.full[|n'.full|] != log[|n'.full|]
    ensures AcksKept(h, n')
  {
    forall a | a in h.acks && a.node == n'.Id() ensures AckKept(h, a, n'.full, n'.term) {
      assert AckKept(h, a, n.full, n.term);
      forall i | 0 <= i <= a.index ensures Keeps(h, a.term, i, n'.full, n'.term) {
        CutKeeps(h, n, log, |n'.full|, a, i);
      }
    }
  }

  lemma {:induction false} PrefixLogOk(h: History, n: Node, n': Node)
    requires LogOk(h, n) && n'.term == n.term && n'.full <= n.full
    ensures LogOk(h, n')
  {
    PrefixCanonical(h, n.full, |n'.full|);
    assert n'.full == n.full[..|n'.full|];
  }

  /** New verdicts are true, whatever else changed. */
  lemma {:induction false} VerdictsTrue(h: History, n: Node, n': Node)
    requires forall a | a in n.answers :: AnswerOk(h, a)
    requires forall a | a in n'.answers :: a in n.answers || IsVerdict(n', a)
    requires WellFormed(h) && Committed(h, n'.term, n'.full, n'.commitIndex)
    ensures forall a | a in n'.answers :: AnswerOk(h, a)
  {
    forall a | a in n'.answers ensures AnswerOk(h, a) {
      if a !in n.answers { VerdictTrue(h, n', a); }
    }
  }

  lemma {:induction false} VerdictTrue(h: History, n: Node, a: Answer)
    requires IsVerdict(n, a) && Committed(h, n.term, n.full, n.commitIndex)
    ensures AnswerOk(h, a)
  {
    if a.committed {
      var c :| Covers(h, c, n.term, n.full, n.commitIndex);
      assert n.full[..n.commitIndex][a.index - 1] == Promise(h, c)[a.index - 1];
      assert Settles(h, c, a.term, a.index, a.at);
    }
  }

  /** What a follower's new state has to satisfy, once its log is dealt with. */
  lemma {:induction false} FollowerNodeOk(h: History, n: Node, n': Node)
    requires NodeOk(h, n) && n'.role.Follower?
    requires n'.config == n.config && n'.term == n.term && n'.votedFor == n.votedFor
    requires LogOk(h, n') && AcksKept(h, n') && Committed(h, n'.term, n'.full, n'.commitIndex)
    requires forall a | a in n'.answers :: AnswerOk(h, a)
    ensures NodeOk(h, n')
  {
  }

  lemma {:induction false} CutNodeOk(h: History, n: Node, n': Node)
    requires HistoryOk(h) && NodeOk(h, n) && n.term in h.reigns && n'.role.Follower?
    requires n'.config == n.config && n'.term == n.term && n'.votedFor == n.votedFor && n'.commitIndex == n.commitIndex
    requires var log := LeaderLog(h, n.term);
      && n.commitIndex <= |n'.full| < |n.full| && |n'.full| < |log|
      && n'.full == n.full[..|n'.full|] == log[..|n'.full|] && n.full[|n'.full|] != log[|n'.full|]
    requires forall a | a in n'.answers :: a in n.answers || IsVerdict(n', a)
    ensures NodeOk(h, n')
  {
    PrefixLogOk(h, n, n');
    CutAcks(h, n, n', LeaderLog(h, n.term));
    assert n'.full[..n.commitIndex] == n.full[..n.commitIndex];
    CommittedOf(h, n.term, n.full, n.commitIndex, n.term, n'.full, n.commitIndex);
    VerdictsTrue(h, n, n');
    FollowerNodeOk(h, n, n');
  }

  lemma {:induction false} TruncateGood(h: History, n: Node, m: Message, k: nat)
    requires Good(h, n) && n.role.Follower? && m.AppendReq? && AppendOk(h, m) && n.term == m.term
    requires WalkMeans(n, m, LeaderLog(h, m.term), Conflict(k))
    ensures var n' := TruncateConflict(n, m.entries[k]);
      && Good(h, n') && n'.full == n.full[..m.prevIndex + k] && n'.role.Follower? && n'.config == n.config
      && n'.term == n.term && n'.commitIndex == n.commitIndex
  {
    hide TruncateConflict, NodeInv, NodeOk, HistoryOk;
    EntryIs(h, m, k);
    TruncateConflictOk(n, m.entries[k]);
    CutNodeOk(h, n, TruncateConflict(n, m.entries[k]));
  }

  // ---- appending ----

  lemma {:induction false} LongerNodeOk(h: History, n: Node, n': Node)
    requires HistoryOk(h) && NodeOk(h, n) && n.term in h.reigns && n'.role.Follower?
    requires n'.config == n.config && n'.term == n.term && n'.votedFor == n.votedFor
    requires n'.commitIndex == n.commitIndex && n'.answers == n.answers
    requires n.full <= n'.full <= LeaderLog(h, n.term)
    ensures NodeOk(h, n')
  {
    LeaderLogCanonical(h, n.term);
    FollowsLeader(h, LeaderLog(h, n.term), n');
    ExtendedAcks(h, n, n');
    assert n'.full[..n.commitIndex] == n.full[..n.commitIndex];
    CommittedOf(h, n.term, n.full, n.commitIndex, n.term, n'.full, n.commitIndex);
    FollowerNodeOk(h, n, n');
  }

  lemma {:induction false} AppendGood(h: History, n: Node, batch: seq<LogEntry>)
    requires Good(h, n) && n.role.Follower? && n.term in h.reigns
    requires n.full + batch <= LeaderLog(h, n.term)
    ensures var n' := AppendBatch(n, batch);
      && Good(h, n') && n'.full == n.full + batch && n'.role.Follower? && n'.config == n.config
      && n'.term == n.term && n'.commitIndex == n.commitIndex
  {
    LeaderLogCanonical(h, n.term);
    BatchContinues(n.full, batch, LeaderLog(h, n.term));
    ExtendedOk(n, batch);
    LongerNodeOk(h, n, Extended(n, batch));
  }

  lemma {:induction false} BatchContinues(full: Log, batch: Log, log: Log)
    requires Contiguous(log) && full + batch <= log
    ensures Storage.Continues(batch, |full| + 1)
  {
    forall k | 0 <= k < |batch| ensures batch[k].index == |full| + 1 + k {
      assert (full + batch)[|full| + k] == log[|full| + k];
    }
  }

  lemma {:induction false} FollowsLeader(h: History, log: Log, n: Node)
    requires Canonical(h, log) && SortedTerms(log) && TermsUpTo(log, n.term) && n.full <= log
    ensures LogOk(h, n)
  {
    PrefixCanonical(h, log, |n.full|);
    assert n.full == log[..|n.full|];
  }

  // ---- the whole batch ----

  lemma {:induction false} BatchFrom(h: History, m: Message, k: nat, kept: nat)
    requires HistoryOk(h) && m.AppendReq? && AppendOk(h, m) && k < |m.entries|
    ensures var log := LeaderLog(h, m.term);
      var batch := m.entries[k..][..Min(kept, |m.entries| - k)];
      && log[..m.prevIndex + k] + batch <= log
      && (kept >= |m.entries| ==> log[..m.prevIndex + k] + batch == log[..m.prevIndex + |m.entries|])
  {
  }

  lemma {:induction false} AppendFromGood(h: History, n: Node, m: Message, k: nat, kept: nat)
    requires Good(h, n) && n.role.Follower? && m.AppendReq? && AppendOk(h, m) && n.term == m.term
    requires k < |m.entries| && m.prevIndex + k == |n.full| && n.full <= LeaderLog(h, m.term)
    ensures var n' := AppendFrom(n, m, m.entries[k].index, kept);
      && Good(h, n') && n'.role.Follower? && n'.config == n.config
      && n'.term == n.term && n'.commitIndex == n.commitIndex && n'.full <= LeaderLog(h, m.term)
      && (kept >= |m.entries| ==> n'.full == LeaderLog(h, m.term)[..m.prevIndex + |m.entries|])
  {
    hide NodeInv, NodeOk, HistoryOk, AppendOk, AppendBatch, LeaderLog;
    LedBy(h, m);
    EntryIs(h, m, k);
    var log := LeaderLog(h, m.term);
    assert n.full == log[..m.prevIndex + k];
    var batch := m.entries[k..][..Min(kept, |m.entries| - k)];
    BatchFrom(h, m, k, kept);
    AppendGood(h, n, batch);
    assert AppendFrom(n, m, m.entries[k].index, kept) == AppendBatch(n, batch);
  }

  lemma {:induction false} LedBy(h: History, m: Message)
    requires m.AppendReq? && AppendOk(h, m)
    ensures m.term in h.reigns
  {
  }

  /** After the walk the node holds the leader's log through the batch (all of
      it unless it died while appending), and everything it committed. */
  lemma {:induction false} AcceptGood(h: History, n: Node, m: Message, kept: nat)
    requires Good(h, n) && n.role.Follower? && m.AppendReq? && AppendOk(h, m) && n.term == m.term
    requires PrevMatches(n, m)
    ensures var n' := AcceptUpTo(n, m, kept);
      && Good(h, n') && n'.role.Follower? && n'.config == n.config
      && n'.term == n.term && n'.commitIndex == n.commitIndex
      && (kept >= |m.entries| ==> LeaderLog(h, m.term)[..m.prevIndex + |m.entries|] <= n'.full)
  {
    hide TruncateConflict, AppendFrom, NodeInv, NodeOk, HistoryOk, AppendOk, PrevMatches;
    WalkResult(h, n, m);
    match WalkFrom(n.storage, m.entries, 0) {
      case Held =>
      case Missing(k) => AppendFromGood(h, n, m, k, kept);
      case Conflict(k) =>
        TruncateGood(h, n, m, k);
        AppendFromGood(h, TruncateConflict(n, m.entries[k]), m, k, kept);
    }
  }

  // ---- acknowledging ----

  lemma {:induction false} NoLaterVoter(h: History, n: Node, t: Term)
    requires WellFormed(h) && VotesOk(h, n) && t in h.reigns && n.Id() in h.reigns[t].voters
    ensures t <= n.term
  {
    VoterVoted(h, t, n.Id());
  }

  lemma {:induction false} AckWellFormed(h: History, n: Node, i: LogIndex)
    requires WellFormed(h) && VotesOk(h, n) && n.term in h.reigns && i <= |LeaderLog(h, n.term)|
    ensures WellFormed(WithAck(h, n.Id(), n.term, i)) && Extends(h, WithAck(h, n.Id(), n.term, i), n.Id())
  {
    var h' := WithAck(h, n.Id(), n.term, i);
    ExtendsGrows(h, h', n.Id());
    assert AckOk(h', Ack(n.Id(), n.term, i));
    forall t | t in h.reigns && n.Id() in h.reigns[t].voters ensures t <= n.term {
      NoLaterVoter(h, n, t);
    }
    StaysWellFormed(h, h');
  }

  lemma {:induction false} AckRecords(h: History, a: Ack)
    requires RecordsOk(h)
    ensures RecordsOk(WithAck(h, a.node, a.term, a.index))
  {
    var h' := WithAck(h, a.node, a.term, a.index);
    forall k | k in h'.ballots ensures BallotFair(h', k) { assert BallotFair(h, k); }
    forall k | k in h'.readPoints ensures ReadPointOk(h', k) { assert ReadPointOk(h, k); }
    forall c | c in h'.campaigns ensures CampaignOk(h', c) { assert CampaignOk(h, c); }
    forall t | t in h'.reigns ensures ReignRecorded(h', t) { assert ReignRecorded(h, t); }
  }

  /** A follower that holds its leader's log through i may say so. */
  lemma {:induction false} AckGood(h: History, n: Node, i: LogIndex)
    requires Good(h, n) && n.role.Follower? && n.term in h.reigns
    requires i <= |LeaderLog(h, n.term)| && LeaderLog(h, n.term)[..i] <= n.full
    ensures Leads(h, n, WithAck(h, n.Id(), n.term, i), n)
  {
    var h' := WithAck(h, n.Id(), n.term, i);
    AckWellFormed(h, n, i);
    AckRecords(h, Ack(n.Id(), n.term, i));
    OwnGrows(h, h', n);
    OwnAck(h, h', n, i);
  }

  // ---- following the commit index ----

  lemma {:induction false} FollowCommitGood(h: History, n: Node, k: LogIndex)
    requires Good(h, n) && n.role.Follower? && n.commitIndex < k && Committed(h, n.term, n.full, k)
    ensures Good(h, CommitTo(n, k)) && CommitTo(n, k).role.Follower? && CommitTo(n, k).config == n.config
    ensures CommitTo(n, k).term == n.term && CommitTo(n, k).full == n.full
  {
    hide CommitTo, NodeOk, HistoryOk;
    CommitToOk(n, k);
    FollowedNodeOk(h, n, CommitTo(n, k), k);
  }

  lemma {:induction false} FollowedNodeOk(h: History, n: Node, n': Node, k: LogIndex)
    requires HistoryOk(h) && NodeOk(h, n) && n.role.Follower? && Committed(h, n.term, n.full, k)
    requires CommitsTo(n, n', k)
    ensures NodeOk(h, n')
  {
    forall a | a in h.acks && a.node == n'.Id() ensures AckKept(h, a, n'.full, n'.term) {
      assert AckKept(h, a, n.full, n.term);
    }
    VerdictsTrue(h, n, n');
    FollowerNodeOk(h, n, n');
  }

  // ---- the AppendEntries handler ----

  lemma {:induction false} AppendRespGood(h: History, n: Node, m: Message, success: bool)
    requires HistoryOk(h) && NodeOk(h, n) && m.AppendReq? && AppendOk(h, m) && n.term >= m.term
    requires success ==> Ack(n.Id(), m.term, m.prevIndex + |m.entries|) in h.acks
    ensures MsgOk(h, AppendReply(n, m, success))
  {
    forall k, w | (m.term, k) in h.readPoints && k <= m.beat && w > n.term
      ensures (n.Id(), w) !in h.readPoints[(m.term, k)].ballots
    {
      assert ReadPointOk(h, (m.term, k));
    }
    assert n.term == m.term ==> Answered(h, n.Id(), m.term, m.beat);
  }

  lemma {:induction false} AcceptedGood(h: History, n: Node, m: Message)
    requires Good(h, n) && n.role.Follower? && m.AppendReq? && AppendOk(h, m) && n.term == m.term
    requires PrevMatches(n, m)
    ensures var n' := FollowCommit(Accept(n, m), m);
      && Good(h, n') && n'.role.Follower? && n'.config == n.config && n'.term == n.term
      && LeaderLog(h, m.term)[..m.prevIndex + |m.entries|] <= n'.full
  {
    hide AcceptUpTo, NodeInv, NodeOk, HistoryOk, PrevMatches, CommitTo;
    AcceptGood(h, n, m, |m.entries|);
    var n1 := Accept(n, m);
    var last := m.prevIndex + |m.entries|;
    var k := Min(m.leaderCommit, last);
    var log := LeaderLog(h, m.term);
    if k > n1.commitIndex {
      assert log[..last][..k] == n1.full[..k];
      CommittedOf(h, m.term, log, m.leaderCommit, n1.term, n1.full, k);
      FollowCommitGood(h, n1, k);
    }
  }

  /** Handling AppendEntries. */
  lemma {:induction false} HandleAppendGood(h: History, n: Node, m: Message)
    requires Good(h, n) && m.AppendReq? && MsgOk(h, m)
    ensures var (n', reply) := HandleAppendEntries(n, m);
      var h' := if reply.success then WithAck(h, n.Id(), m.term, m.prevIndex + |m.entries|) else h;
      Leads(h, n, h', n') && MsgOk(h', reply)
  {
    hide NodeInv, NodeOk, HistoryOk, PrevMatches, FollowCommit, Accept, Extends, AppendOk, Entered;
    if m.term < n.term {
      LeadsSelf(h, n);
      AppendRespGood(h, n, m, false);
    } else {
      FollowerGood(h, n, m.term, Some(m.from));
      var n1 := BecomeFollower(n, m.term, Some(m.from));
      if !PrevMatches(n1, m) {
        AppendRespGood(h, n1, m, false);
      } else {
        AcceptedGood(h, n1, m);
        HandledAppend(h, n1, FollowCommit(Accept(n1, m), m), m);
      }
    }
  }

  lemma {:induction false} HandledAppend(h: History, n: Node, n': Node, m: Message)
    requires Good(h, n') && n'.role.Follower? && n'.config == n.config && n'.term == m.term >= n.term
    requires m.AppendReq? && AppendOk(h, m)
    requires LeaderLog(h, m.term)[..m.prevIndex + |m.entries|] <= n'.full
    ensures var h' := WithAck(h, n.Id(), m.term, m.prevIndex + |m.entries|);
      Leads(h, n, h', n') && MsgOk(h', AppendReply(n', m, true))
  {
    hide NodeInv, NodeOk, HistoryOk, Extends, MsgOk;
    var i := m.prevIndex + |m.entries|;
    var h' := WithAck(h, n.Id(), m.term, i);
    AckGood(h, n', i);
    ExtendsGrows(h, h', n.Id());
    AppendGrows(h, h', m);
    AppendRespGood(h', n', m, true);
  }

  /** Dying while appending leaves a state another node could have left. */
  lemma {:induction false} DieInAppendGood(h: History, n: Node, m: Message, kept: nat)
    requires Good(h, n) && m.AppendReq? && MsgOk(h, m)
    ensures Leads(h, n, h, DieInAppend(n, m, kept))
  {
    hide NodeInv, NodeOk, HistoryOk, PrevMatches, AcceptUpTo, Extends, AppendOk, Entered, Restart;
    ExtendsSelf(h, n.Id());
    if m.term < n.term {
      RestartGood(h, n);
    } else {
      FollowerGood(h, n, m.term, Some(m.from));
      var n1 := BecomeFollower(n, m.term, Some(m.from));
      if PrevMatches(n1, m) {
        AcceptGood(h, n1, m, kept);
        RestartGood(h, AcceptUpTo(n1, m, kept));
      } else {
        RestartGood(h, n1);
      }
    }
  }

  // ---- restarting ----

  lemma {:induction false} RestartGood(h: History, n: Node)
    requires Good(h, n)
    ensures Leads(h, n, h, Restart(n))
  {
    ExtendsSelf(h, n.Id());
    RestartOk(n);
    RestartedNodeOk(h, n, Restart(n));
  }

  lemma {:induction false} RestartedNodeOk(h: History, n: Node, n': Node)
    requires NodeOk(h, n) && n'.role.Follower? && n'.commitIndex <= n.commitIndex <= |n.full|
    requires n'.config == n.config && n'.term == n.term && n'.votedFor == n.votedFor && n'.full == n.full
    requires n'.answers == n.answers
    ensures NodeOk(h, n')
  {
    forall a | a in h.acks && a.node == n'.Id() ensures AckKept(h, a, n'.full, n'.term) {
      assert AckKept(h, a, n.full, n.term);
    }
    CommittedOf(h, n.term, n.full, n.commitIndex, n.term, n.full, n'.commitIndex);
  }

  // ---- installing a snapshot ----

  lemma {:induction false} ReplaceKeeps(h: History, n: Node, whole: Log, a: Ack, i: LogIndex)
    requires HistoryOk(h) && AckKept(h, a, n.full, n.term) && i <= a.index && n.term in h.reigns
    requires whole <= LeaderLog(h, n.term) && !(whole <= n.full)
    ensures Keeps(h, a.term, i, whole, n.term)
  {
    assert Keeps(h, a.term, i, n.full, n.term);
    var p, log, init := h.reigns[a.term].log[..i], LeaderLog(h, n.term), h.reigns[n.term].init;
    assert ReignOk(h, n.term);
    if p <= n.full && !(p <= whole) {
      assert p <= log ==> p <= whole || whole <= p;
      assert init <= log;
      assert a.term != n.term;
      assert Overruled(h, a.term, i, n.term);
    }
  }

  lemma {:induction false} ReplaceAcks(h: History, n: Node, n': Node)
    requires HistoryOk(h) && AcksKept(h, n) && n.term in h.reigns && n'.Id() == n.Id() && n'.term == n.term
    requires n'.full <= LeaderLog(h, n.term) && !(n'.full <= n.full)
    ensures AcksKept(h, n')
  {
    forall a | a in h.acks && a.node == n'.Id() ensures AckKept(h, a, n'.full, n'.term) {
      assert AckKept(h, a, n.full, n.term);
      forall i | 0 <= i <= a.index ensures Keeps(h, a.term, i, n'.full, n'.term) {
        ReplaceKeeps(h, n, n'.full, a, i);
      }
    }
  }

  lemma {:induction false} InstalledNodeOk(h: History, n: Node, n': Node, whole: Log)
    requires HistoryOk(h) && NodeOk(h, n) && n'.role.Follower? && n.term in h.reigns
    requires n'.config == n.config && n'.term == n.term && n'.votedFor == n.votedFor
    requires whole <= LeaderLog(h, n.term) && Committed(h, n.term, LeaderLog(h, n.term), |whole|)
    requires n'.commitIndex == |whole| && n'.full == (if whole <= n.full then n.full else whole)
    requires forall a | a in n'.answers :: a in n.answers || IsVerdict(n', a)
    ensures NodeOk(h, n')
  {
    var log := LeaderLog(h, n.term);
    if whole <= n.full {
      ExtendedAcks(h, n, n');
      PrefixLogOk(h, n, n');
    } else {
      ReplaceAcks(h, n, n');
      LeaderLogCanonical(h, n.term);
      FollowsLeader(h, log, n');
    }
    assert n'.full[..|whole|] == log[..|whole|];
    CommittedOf(h, n.term, log, |whole|, n.term, n'.full, |whole|);
    VerdictsTrue(h, n, n');
    FollowerNodeOk(h, n, n');
  }

  lemma {:induction false} WholeMatches(h: History, n: Node, whole: Log, t: Term)
    requires HistoryOk(h) && Canonical(h, n.full) && t in h.reigns && whole <= LeaderLog(h, t)
    requires |whole| <= |n.full| && TermAt(n.full, |whole|) == LastTerm(whole)
    ensures whole <= n.full
  {
    LeaderLogCanonical(h, t);
    LogMatching(h, n.full, LeaderLog(h, t), |whole|);
  }

  /** What a node committed is a prefix of the log a snapshot stands for. */
  lemma {:induction false} CommittedInWhole(h: History, n: Node, m: Message)
    requires Good(h, n) && m.SnapshotReq? && SnapshotReqOk(h, m) && n.term == m.term
    requires n.commitIndex < |m.whole|
    ensures n.commitIndex <= |n.full| && n.full[..n.commitIndex] <= m.whole
  {
    CommittedShared(h, n, m.term);
  }

  lemma {:induction false} InstallGood(h: History, n: Node, m: Message)
    requires Good(h, n) && n.role.Follower? && m.SnapshotReq? && SnapshotReqOk(h, m) && n.term == m.term
    requires n.commitIndex < |m.whole|
    ensures var n' := InstallFrom(n, m);
      && Good(h, n') && n'.role.Follower? && n'.config == n.config && n'.term == n.term && m.whole <= n'.full
  {
    hide InstallFrom, NodeInv, HistoryOk, Store.Fold, LatestConfig;
    if |m.whole| <= |n.full| && TermAt(n.full, |m.whole|) == LastTerm(m.whole) {
      WholeMatches(h, n, m.whole, m.term);
    }
    CommittedInWhole(h, n, m);
    InstallOk(n, m);
    InstalledNodeOk(h, n, InstallFrom(n, m), m.whole);
  }

  lemma {:induction false} HandledSnapshot(h: History, n: Node, n': Node, m: Message)
    requires Good(h, n') && n'.role.Follower? && n'.config == n.config && n'.term == m.term >= n.term
    requires m.SnapshotReq? && SnapshotReqOk(h, m) && m.whole <= n'.full
    ensures var h' := WithAck(h, n.Id(), m.term, m.snapshot.lastIndex);
      && Leads(h, n, h', n')
      && MsgOk(h', SnapshotResp(n.Id(), m.from, m.term, m.snapshot.lastIndex, n'.term))
  {
    var h' := WithAck(h, n.Id(), m.term, m.snapshot.lastIndex);
    AckGood(h, n', |m.whole|);
    SnapshotRespOk(h', n', m) by { PrefixStays(h, h', m.term, |m.whole|); }
  }

  lemma {:induction false} SnapshotRespOk(h: History, n: Node, m: Message)
    requires NodeOk(h, n) && n.term == m.term && m.SnapshotReq? && m.term in h.reigns
    requires m.snapshot.lastIndex <= |LeaderLog(h, m.term)| && Ack(n.Id(), m.term, m.snapshot.lastIndex) in h.acks
    ensures MsgOk(h, SnapshotResp(n.Id(), m.from, m.term, m.snapshot.lastIndex, n.term))
  {
  }

  /** Handling InstallSnapshot. */
  lemma {:induction false} HandleSnapshotGood(h: History, n: Node, m: Message)
    requires Good(h, n) && m.SnapshotReq? && MsgOk(h, m)
    ensures var (n', reply) := HandleInstallSnapshot(n, m);
      var h' := if reply.term == m.term then WithAck(h, n.Id(), m.term, m.snapshot.lastIndex) else h;
      Leads(h, n, h', n') && MsgOk(h', reply)
  {
    hide NodeInv, HistoryOk, InstallFrom, Extends;
    if m.term < n.term {
      LeadsSelf(h, n);
    } else {
      FollowerGood(h, n, m.term, Some(m.from));
      var n1 := BecomeFollower(n, m.term, Some(m.from));
      if m.snapshot.lastIndex <= n1.commitIndex {
        AlreadyCommitted(h, n1, m);
        HandledSnapshot(h, n1, n1, m);
      } else {
        InstallGood(h, n1, m);
        HandledSnapshot(h, n1, InstallFrom(n1, m), m);
      }
    }
  }

  /** A snapshot at or below the commit index: the node holds all it stands for. */
  lemma {:induction false} AlreadyCommitted(h: History, n: Node, m: Message)
    requires Good(h, n) && m.SnapshotReq? && SnapshotReqOk(h, m) && n.term == m.term && |m.whole| <= n.commitIndex
    ensures m.whole <= n.full
  {
    CommittedShared(h, n, m.term);
    assert n.full[..n.commitIndex][..|m.whole|] == m.whole;
  }
}
