module History {
  // What a cluster has durably promised so far, and the two theorems that follow
  // from those promises alone: leader completeness and election safety under
  // single-server membership changes.
  //
  // Nothing here mentions messages, roles or time. The cluster model keeps such
  // a history beside its state and shows that every step keeps it well formed.

  import opened Types
  import opened Quorum

  /** One term's leadership: the log it was elected with, the log it has
      written since, the members whose ballots elected it and the highest
      heartbeat sequence number it has used. */
  datatype Reign = Reign(leader: NodeId, init: Log, log: Log, voters: set<NodeId>, beat: nat)

  /** A binding vote, with the log the voter held when it cast it. */
  datatype Ballot = Ballot(candidate: NodeId, log: Log)

  /** `node` confirmed, while at `term`, that it holds that leader's log through `index`. */
  datatype Ack = Ack(node: NodeId, term: Term, index: LogIndex)

  /** Leader of `term` advanced its commit index to `index` when its log was
      `length` long, on the strength of `quorum`. */
  datatype Cert = Cert(term: Term, index: LogIndex, length: nat, quorum: set<NodeId>)

  /** A real election that a pre-vote majority allowed. */
  datatype Campaign = Campaign(node: NodeId, term: Term, grants: set<NodeId>, members: set<NodeId>)

  /** The cluster as it was when a linearizable read was registered: every
      index any leader had committed, and the elections so far. */
  datatype ReadPoint = ReadPoint(commits: set<LogIndex>, ballots: set<(NodeId, Term)>, reigns: set<Term>)

  datatype History = History(
    boot: set<NodeId>,
    reigns: map<Term, Reign>,
    candidacies: map<(NodeId, Term), Log>,
    ballots: map<(NodeId, Term), Ballot>,
    acks: set<Ack>,
    certs: set<Cert>,
    preGrants: set<(NodeId, NodeId, Term)>,
    campaigns: set<Campaign>,
    readPoints: map<(Term, nat), ReadPoint>)

  ghost predicate SortedTerms(log: Log) {
    forall j, k | 0 <= j <= k < |log| :: log[j].term <= log[k].term
  }

  ghost predicate TermsBelow(log: Log, t: Term) {
    forall k | 0 <= k < |log| :: log[k].term < t
  }

  /** The entry at position k sits where the leader of its term put it, after
      the same prefix. */
  ghost predicate Rooted(h: History, log: Log, k: nat)
    requires k < |log|
  {
    log[k].term in h.reigns && log[..k + 1] <= h.reigns[log[k].term].log
  }

  ghost predicate Canonical(h: History, log: Log) {
    forall k {:trigger Rooted(h, log, k)} | 0 <= k < |log| :: Rooted(h, log, k)
  }

  ghost predicate ReignOk(h: History, t: Term)
    requires t in h.reigns
  {
    var r := h.reigns[t];
    && t > 0
    && |r.init| < |r.log| && r.init <= r.log
    && TermsBelow(r.init, t)
    && (forall k | |r.init| <= k < |r.log| :: r.log[k].term == t)
    && SortedTerms(r.log)
    && Canonical(h, r.log)
    && !r.log[|r.init|].command.ConfigChange?
    && Elected(h, t, r.init, r.voters)
    && (forall q | q in r.voters :: h.ballots[(q, t)].candidate == r.leader)
  }

  /** `voters` is a majority of the configuration of `log`, each of whom cast
      a ballot at term t while holding a log no more up to date than it. */
  ghost predicate Elected(h: History, t: Term, log: Log, voters: set<NodeId>) {
    && TermsBelow(log, t)
    && SortedTerms(log)
    && Canonical(h, log)
    && IsQuorum(voters, Ids(log, h.boot))
    && (forall q | q in voters ::
          && (q, t) in h.ballots
          && var b := h.ballots[(q, t)].log;
             UpToDate(LastTerm(log), |log|, LastTerm(b), |b|))
  }

  ghost predicate Overruled(h: History, t: Term, i: LogIndex, until: Term)
    requires t in h.reigns && i <= |h.reigns[t].log|
  {
    exists u | t < u <= until && u in h.reigns :: !(h.reigns[t].log[..i] <= h.reigns[u].init)
  }

  /** `log` still holds what was acknowledged at term t through i, unless a
      leader of a later term (at most `until`) was elected without it. */
  ghost predicate Keeps(h: History, t: Term, i: LogIndex, log: Log, until: Term)
    requires t in h.reigns && i <= |h.reigns[t].log|
  {
    h.reigns[t].log[..i] <= log || Overruled(h, t, i, until)
  }

  ghost predicate AckOk(h: History, a: Ack) {
    a.term in h.reigns && a.index <= |h.reigns[a.term].log|
  }

  /** A node that acknowledged and later voted had not lost what it acknowledged. */
  ghost predicate BallotKeeps(h: History, a: Ack, t: Term, until: Term) {
    && AckOk(h, a) && (a.node, t) in h.ballots
    && forall i {:trigger Keeps(h, a.term, i, h.ballots[(a.node, t)].log, until)} | 0 <= i <= a.index ::
         Keeps(h, a.term, i, h.ballots[(a.node, t)].log, until)
  }

  ghost predicate BallotsOk(h: History) {
    && (forall v, t {:trigger h.ballots[(v, t)]} | (v, t) in h.ballots :: Canonical(h, h.ballots[(v, t)].log))
    && (forall a, t {:trigger BallotKeeps(h, a, t, t)} | a in h.acks && a.term < t && (a.node, t) in h.ballots ::
          BallotKeeps(h, a, t, t))
    && (forall a, t {:trigger BallotKeeps(h, a, t, t - 1)} | a in h.acks && a.term < t && t in h.reigns && a.node in h.reigns[t].voters ::
          BallotKeeps(h, a, t, t - 1))
  }

  ghost predicate Acked(h: History, q: NodeId, t: Term, i: LogIndex) {
    exists j :: j >= i && Ack(q, t, j) in h.acks
  }

  ghost predicate CertOk(h: History, c: Cert) {
    && c.term in h.reigns
    && var r := h.reigns[c.term];
    && |r.init| < c.index <= c.length <= |r.log|
    && IsQuorum(c.quorum, Ids(r.log[..c.length], h.boot))
    && (forall q | q in c.quorum :: Acked(h, q, c.term, c.index))
  }

  /** The certificate that let the leader of t append the ConfigChange at
      position k: the configuration before it was committed in this term. */
  ghost predicate Gates(h: History, t: Term, k: nat, c: Cert)
    requires t in h.reigns && k < |h.reigns[t].log|
  {
    && c in h.certs && c.term == t
    && ConfigIndex(h.reigns[t].log[..k]) <= c.index && c.length <= k
  }

  ghost predicate GateOk(h: History, t: Term, k: nat)
    requires t in h.reigns && k < |h.reigns[t].log|
  {
    && Adjacent(Ids(h.reigns[t].log[..k], h.boot), Ids(h.reigns[t].log[..k + 1], h.boot))
    && exists c :: Gates(h, t, k, c)
  }

  ghost predicate GatesOk(h: History) {
    forall t, k {:trigger GateOk(h, t, k)} | t in h.reigns && |h.reigns[t].init| <= k < |h.reigns[t].log|
      && h.reigns[t].log[k].command.ConfigChange? :: GateOk(h, t, k)
  }

  ghost predicate WellFormed(h: History) {
    && (forall t {:trigger ReignOk(h, t)} | t in h.reigns :: ReignOk(h, t))
    && (forall a {:trigger AckOk(h, a)} | a in h.acks :: AckOk(h, a))
    && (forall c {:trigger CertOk(h, c)} | c in h.certs :: CertOk(h, c))
    && BallotsOk(h)
    && GatesOk(h)
  }
}
