module Invariant {
  // What every reachable cluster state satisfies.

  import opened Types
  import opened Quorum
  import opened Storage
  import opened Rpc
  import opened Node
  import opened NodeInvariant
  import opened History
  import opened Completeness
  import opened Observer
  import opened Cluster

  ghost predicate TermsUpTo(log: Log, t: Term) {
    forall k | 0 <= k < |log| :: log[k].term <= t
  }

  /** Term t came into being through an election that a pre-vote majority allowed. */
  ghost predicate Entered(h: History, t: Term) {
    t == 0 || exists c | c in h.campaigns :: c.term == t
  }

  /** The node's current log honours acknowledgement a. */
  ghost predicate AckKept(h: History, a: Ack, log: Log, t: Term) {
    && a.term <= t && AckOk(h, a)
    && forall i {:trigger Keeps(h, a.term, i, log, t)} | 0 <= i <= a.index :: Keeps(h, a.term, i, log, t)
  }

  /** p answered beat b of the leader of t before voting in any term that had
      begun when a read waiting for b (or an earlier beat) was registered. */
  ghost predicate Answered(h: History, p: NodeId, t: Term, b: nat) {
    && t in h.reigns && b <= h.reigns[t].beat
    && forall k, w {:trigger h.readPoints[(t, k)], (p, w)} | (t, k) in h.readPoints && k <= b && w > t ::
         (p, w) !in h.readPoints[(t, k)].ballots
  }

  /** A registered read covers all that was committed then, unless a later
      leader had already been elected. */
  ghost predicate WaitOk(h: History, t: Term, r: PendingRead) {
    && t in h.reigns && r.needed <= h.reigns[t].beat && (t, r.needed) in h.readPoints
    && r.readIndex > |h.reigns[t].init|
    && var p := h.readPoints[(t, r.needed)];
       (forall i | i in p.commits :: i <= r.readIndex) || (exists w | w in p.reigns :: w > t)
  }

  ghost predicate CertAt(h: History, t: Term, i: LogIndex) {
    exists c | c in h.certs :: c.term == t && c.index == i
  }

  ghost predicate PreCandidateOk(h: History, n: Node)
    requires n.role.PreCandidate?
  {
    && n.Id() in n.role.votes && n.Id() in n.members
    && forall q | q in n.role.votes :: q == n.Id() || (q, n.Id(), n.term + 1) in h.preGrants
  }

  ghost predicate VotedFor(h: History, q: NodeId, t: Term, candidate: NodeId) {
    (q, t) in h.ballots && h.ballots[(q, t)].candidate == candidate
  }

  ghost predicate CandidateOk(h: History, n: Node)
    requires n.role.Candidate?
  {
    && (n.Id(), n.term) in h.candidacies && h.candidacies[(n.Id(), n.term)] == n.full
    && n.term > 0 && TermsBelow(n.full, n.term) && n.Id() in n.members
    && (n.term in h.reigns ==> h.reigns[n.term].leader != n.Id())
    && forall q | q in n.role.votes :: VotedFor(h, q, n.term, n.Id())
  }

  ghost predicate LeaderOk(h: History, n: Node)
    requires n.role.Leader?
  {
    && n.term in h.reigns
    && var r := h.reigns[n.term];
    && r.leader == n.Id() && r.log == n.full && n.role.termStart == |r.init| + 1 && n.role.beat == r.beat
    && Ack(n.Id(), n.term, |n.full|) in h.acks
    && (forall p | p in n.role.matchIndex ::
          n.role.matchIndex[p] == 0 || Ack(p, n.term, n.role.matchIndex[p]) in h.acks)
    && (n.commitIndex > |r.init| ==> CertAt(h, n.term, n.commitIndex))
    && (forall c | c in h.certs && c.term == n.term :: c.index <= n.commitIndex)
    && (forall p | p in n.role.acked :: Answered(h, p, n.term, n.role.acked[p]))
    && (forall r | r in n.role.waiting :: WaitOk(h, n.term, r))
  }

  ghost predicate RoleOk(h: History, n: Node) {
    && (!n.role.Follower? ==> n.members.Keys == Ids(n.full, h.boot))
    && match n.role
       case Follower => true
       case PreCandidate(_) => PreCandidateOk(h, n)
       case Candidate(_) => CandidateOk(h, n)
       case Leader(_, _, _, _, _, _) => LeaderOk(h, n)
  }

  /** What a node told its clients is true and stays true. */
  ghost predicate AnswerOk(h: History, a: Answer) {
    match a
    case Resolved(term, index, committed, at) =>
      committed ==> exists c :: Settles(h, c, term, index, at)
    case ReadGranted(term, needed, applied) =>
      && (term, needed) in h.readPoints && CertAt(h, term, applied)
      && forall i | i in h.readPoints[(term, needed)].commits :: i <= applied
  }

  ghost predicate Settles(h: History, c: Cert, term: Term, index: LogIndex, at: Term) {
    && c in h.certs && CertOk(h, c) && c.term <= at
    && 0 < index <= c.index && TermAt(Promise(h, c), index) == term
  }

  ghost predicate LogOk(h: History, n: Node) {
    Canonical(h, n.full) && SortedTerms(n.full) && TermsUpTo(n.full, n.term)
  }

  ghost predicate VotesOk(h: History, n: Node) {
    && (forall t {:trigger (n.Id(), t)} | (n.Id(), t) in h.ballots :: t <= n.term)
    && (forall t {:trigger (n.Id(), t)} | (n.Id(), t) in h.candidacies :: t <= n.term)
    && ((n.Id(), n.term) in h.ballots ==> n.votedFor == Some(h.ballots[(n.Id(), n.term)].candidate))
  }

  ghost predicate AcksKept(h: History, n: Node) {
    forall a {:trigger AckKept(h, a, n.full, n.term)} | a in h.acks && a.node == n.Id() ::
      AckKept(h, a, n.full, n.term)
  }

  ghost predicate NodeOk(h: History, n: Node) {
    && LogOk(h, n)
    && VotesOk(h, n)
    && AcksKept(h, n)
    && Committed(h, n.term, n.full, n.commitIndex)
    && RoleOk(h, n)
    && (forall a {:trigger AnswerOk(h, a)} | a in n.answers :: AnswerOk(h, a))
    && Entered(h, n.term)
    && (n.config.boot == map[] || n.config.boot.Keys == h.boot)
  }

  ghost predicate FromLeader(h: History, from: NodeId, to: NodeId, t: Term) {
    t in h.reigns && h.reigns[t].leader == from && to != from
  }

  ghost predicate AppendOk(h: History, m: Message)
    requires m.AppendReq?
  {
    && FromLeader(h, m.from, m.to, m.term)
    && var r := h.reigns[m.term];
    && m.prevIndex + |m.entries| <= |r.log|
    && m.prevTerm == TermAt(r.log, m.prevIndex)
    && m.entries == r.log[m.prevIndex..m.prevIndex + |m.entries|]
    && Committed(h, m.term, r.log, m.leaderCommit)
    && m.beat <= r.beat
  }

  ghost predicate AppendRespOk(h: History, m: Message)
    requires m.AppendResp?
  {
    && m.sentTerm in h.reigns && m.sentTerm <= m.term
    && m.sentPrev + m.sentEntries <= |h.reigns[m.sentTerm].log|
    && (m.success ==> Ack(m.from, m.sentTerm, m.sentPrev + m.sentEntries) in h.acks)
    && (m.term == m.sentTerm ==> Answered(h, m.from, m.sentTerm, m.sentBeat))
    && m.sentBeat <= h.reigns[m.sentTerm].beat
  }

  ghost predicate SnapshotReqOk(h: History, m: Message)
    requires m.SnapshotReq?
  {
    && FromLeader(h, m.from, m.to, m.term)
    && m.whole <= h.reigns[m.term].log
    && SnapshotFor(m.snapshot, m.whole)
    && Committed(h, m.term, h.reigns[m.term].log, |m.whole|)
  }

  ghost predicate MsgOk(h: History, m: Message) {
    && (m.PreVoteReq? || Entered(h, m.term))
    && match m
       case PreVoteReq(_, _, _, _, _) => true
       case PreVoteResp(from, to, sentTerm, _, granted) => granted ==> (from, to, sentTerm) in h.preGrants
       case VoteReq(from, _, term, lastIndex, lastTerm) =>
         && (from, term) in h.candidacies
         && lastIndex == |h.candidacies[(from, term)]| && lastTerm == LastTerm(h.candidacies[(from, term)])
       case VoteResp(from, to, sentTerm, _, granted) => granted ==> VotedFor(h, from, sentTerm, to)
       case AppendReq(_, _, _, _, _, _, _, _) => AppendOk(h, m)
       case AppendResp(_, _, _, _, _, _, _, _) => AppendRespOk(h, m)
       case SnapshotReq(_, _, _, _, _) => SnapshotReqOk(h, m)
       case SnapshotResp(from, _, sentTerm, lastIncluded, term) =>
         && sentTerm in h.reigns && sentTerm <= term && lastIncluded <= |h.reigns[sentTerm].log|
         && (term == sentTerm ==> Ack(from, sentTerm, lastIncluded) in h.acks)
  }

  /** A ballot went to a candidate whose log was at least as up to date as the voter's. */
  ghost predicate BallotFair(h: History, k: (NodeId, Term)) {
    && k in h.ballots
    && var b := h.ballots[k];
    && (b.candidate, k.1) in h.candidacies
    && var l := h.candidacies[(b.candidate, k.1)];
       UpToDate(LastTerm(l), |l|, LastTerm(b.log), |b.log|)
  }

  ghost predicate ReadPointOk(h: History, k: (Term, nat)) {
    && k in h.readPoints && k.0 in h.reigns && k.1 <= h.reigns[k.0].beat
    && var p := h.readPoints[k];
    && p.reigns <= h.reigns.Keys && k.0 in p.reigns && p.ballots <= h.ballots.Keys
    && (forall w, q {:trigger (q, w)} | w in p.reigns && w in h.reigns && q in h.reigns[w].voters :: (q, w) in p.ballots)
    && (forall w, i {:trigger h.reigns[w].init[i]} | w in p.reigns && w in h.reigns && 0 <= i < |h.reigns[w].init| ::
          h.reigns[w].init[i].term in p.reigns)
  }

  /** Whoever started a real election held pre-votes for exactly that term from
      a majority of its own members, its own included. */
  ghost predicate CampaignOk(h: History, c: Campaign) {
    && c.node in c.grants && c.node in c.members
    && |c.grants * c.members| >= Majority(c.members)
    && (forall g | g in c.grants :: g == c.node || (g, c.node, c.term) in h.preGrants)
    && c.term > 0
  }

  /** A leader campaigned with the log it was elected with. */
  ghost predicate ReignRecorded(h: History, t: Term) {
    && t in h.reigns && (h.reigns[t].leader, t) in h.candidacies
    && h.candidacies[(h.reigns[t].leader, t)] == h.reigns[t].init
    && Contiguous(h.reigns[t].log)
  }

  ghost predicate RecordsOk(h: History) {
    && (forall k {:trigger BallotFair(h, k)} | k in h.ballots :: BallotFair(h, k))
    && (forall k {:trigger ReadPointOk(h, k)} | k in h.readPoints :: ReadPointOk(h, k))
    && (forall c {:trigger CampaignOk(h, c)} | c in h.campaigns :: CampaignOk(h, c))
    && (forall t {:trigger ReignRecorded(h, t)} | t in h.reigns :: ReignRecorded(h, t))
  }

  /** Nothing the observer has seen was a violation. */
  ghost predicate SeenOk(h: History, o: Observed) {
    && o.violations == []
    && (forall t | t in o.leaders :: t in h.reigns && o.leaders[t] == h.reigns[t].leader)
    && (forall k | k in o.commands ::
          && k.0 in h.reigns && 0 < k.1 <= |h.reigns[k.0].log|
          && h.reigns[k.0].log[k.1 - 1].term == k.0 && o.commands[k] == h.reigns[k.0].log[k.1 - 1].command)
  }

  ghost predicate HistoryOk(h: History) {
    WellFormed(h) && RecordsOk(h)
  }

  ghost predicate NodeAt(c: Cluster, id: NodeId) {
    id in c.nodes && c.nodes[id].Id() == id && NodeInv(c.nodes[id]) && NodeOk(c.hist, c.nodes[id])
  }

  ghost predicate Inv(c: Cluster) {
    && HistoryOk(c.hist)
    && (forall id {:trigger NodeAt(c, id)} | id in c.nodes :: NodeAt(c, id))
    && (forall m {:trigger MsgOk(c.hist, m)} | m in c.net :: MsgOk(c.hist, m))
    && SeenOk(c.hist, c.seen)
  }
}
