/** Terms, votes and leaderships: each micro step keeps the invariant. */
module Election {
  import opened Types
  import opened Quorum
  import opened Storage
  import opened Rpc
  import opened Node
  import opened NodeInvariant
  import opened History
  import opened Completeness
  import opened Growth
  import opened Cluster
  import opened Invariant
  import opened Frame

  /** A history, and a node whose state agrees with it. */
  ghost predicate Good(h: History, n: Node) {
    HistoryOk(h) && NodeInv(n) && NodeOk(h, n)
  }

  ghost predicate Leads(h: History, n: Node, h': History, n': Node) {
    Good(h', n') && Extends(h, h', n.Id()) && n'.config == n.config && n.term <= n'.term
  }

  lemma {:induction false} LeadsTransitive(h: History, n: Node, h1: History, n1: Node, h2: History, n2: Node)
    requires Leads(h, n, h1, n1) && Leads(h1, n1, h2, n2)
    ensures Leads(h, n, h2, n2)
  {
    ExtendsTransitive(h, h1, h2, n.Id());
  }

  lemma {:induction false} LeadsSelf(h: History, n: Node)
    requires Good(h, n)
    ensures Leads(h, n, h, n)
  {
    ExtendsSelf(h, n.Id());
  }

  // ---- what does not depend on the role ----

  lemma {:induction false} OwnGrows(h: History, h': History, n: Node)
    requires Extends(h, h', n.Id()) && NodeOk(h, n)
    ensures LogOk(h', n) && Committed(h', n.term, n.full, n.commitIndex) && Entered(h', n.term)
    ensures forall a | a in n.answers :: AnswerOk(h', a)
  {
    ExtendsGrows(h, h', n.Id());
    CanonicalGrows(h, h', n.full);
    CommittedGrows(h, h', n.term, n.full, n.commitIndex);
    EnteredGrows(h, h', n.term);
    forall a | a in n.answers ensures AnswerOk(h', a) {
      assert AnswerOk(h, a);
      AnswerGrows(h, h', n.Id(), a);
    }
  }

  /** No new acknowledgement by this node: the old ones are still kept. */
  lemma {:induction false} OwnAcksGrow(h: History, h': History, n: Node)
    requires Extends(h, h', n.Id()) && AcksKept(h, n)
    requires forall a | a in h'.acks && a.node == n.Id() :: a in h.acks
    ensures AcksKept(h', n)
  {
    ExtendsGrows(h, h', n.Id());
    forall a | a in h'.acks && a.node == n.Id() ensures AckKept(h', a, n.full, n.term) {
      assert AckKept(h, a, n.full, n.term);
      AckKeptGrows(h, h', a, n.full, n.term);
    }
  }

  lemma {:induction false} AcksKeptLater(h: History, n: Node, t: Term)
    requires AcksKept(h, n) && n.term <= t
    ensures AcksKept(h, n.(term := t))
  {
    var n' := n.(term := t);
    forall a | a in h.acks && a.node == n'.Id() ensures AckKept(h, a, n'.full, t) {
      assert AckKept(h, a, n.full, n.term);
      forall i | 0 <= i <= a.index ensures Keeps(h, a.term, i, n.full, t) {
        assert Keeps(h, a.term, i, n.full, n.term);
      }
    }
  }

  // ---- adopting a term ----

  lemma {:induction false} FollowerGood(h: History, n: Node, term: Term, leader: Option<NodeId>)
    requires Good(h, n) && term >= n.term && Entered(h, term)
    ensures Leads(h, n, h, BecomeFollower(n, term, leader))
  {
    var n' := BecomeFollower(n, term, leader);
    FollowerOk(n, term, leader);
    ExtendsSelf(h, n.Id());
    AcksKeptLater(h, n, term);
    forall a | a in h.acks && a.node == n'.Id() ensures AckKept(h, a, n'.full, n'.term) {
      assert AckKept(h, a, n.(term := term).full, term);
    }
    CommittedOf(h, n.term, n.full, n.commitIndex, term, n.full, n.commitIndex);
  }

  lemma {:induction false} AdoptTermGood(h: History, n: Node, term: Term)
    requires Good(h, n) && Entered(h, term)
    ensures Leads(h, n, h, AdoptTerm(n, term))
  {
    if term > n.term { FollowerGood(h, n, term, None); } else { LeadsSelf(h, n); }
  }

  // ---- ballots ----

  /** Only ballots changed: leaders and candidates stand as they did. */
  lemma {:induction false} RoleUnderBallots(h: History, h': History, n: Node)
    requires RoleOk(h, n) && Extends(h, h', n.Id())
    requires h'.reigns == h.reigns && h'.certs == h.certs && h'.readPoints == h.readPoints
    ensures RoleOk(h', n)
  {
    match n.role {
      case Follower =>
      case PreCandidate(_) =>
      case Candidate(votes) =>
        assert h'.candidacies[(n.Id(), n.term)] == h.candidacies[(n.Id(), n.term)];
        forall q | q in votes ensures VotedFor(h', q, n.term, n.Id()) {
          assert VotedFor(h, q, n.term, n.Id());
          assert h'.ballots[(q, n.term)] == h.ballots[(q, n.term)];
        }
      case Leader(_, _, _, _, acked, waiting) =>
        forall p | p in acked ensures Answered(h', p, n.term, acked[p]) {
          AnsweredGrows(h, h', n.Id(), p, n.term, acked[p]);
        }
        forall r | r in waiting ensures WaitOk(h', n.term, r) {
          WaitGrows(h, h', n.Id(), n.term, r);
        }
    }
  }

  /** A ballot cast with the log the node holds now honours all it acknowledged. */
  lemma {:induction false} NewBallotKeeps(h: History, h': History, n: Node, a: Ack, t: Term)
    requires AcksKept(h, n) && a in h.acks && a.node == n.Id() && n.term <= t
    requires Grows(h, h') && (n.Id(), t) in h'.ballots && h'.ballots[(n.Id(), t)].log == n.full
    ensures BallotKeeps(h', a, t, t)
  {
    assert AckKept(h, a, n.full, n.term);
    AckGrows(h, h', a);
    forall i | 0 <= i <= a.index ensures Keeps(h', a.term, i, n.full, t) {
      assert Keeps(h, a.term, i, n.full, n.term);
      KeepsGrows(h, h', a.term, i, n.full, n.term);
      KeepsLonger(h', a.term, i, n.full, n.term, t);
    }
  }

  /** History h' adds to h one ballot, by n, at term t. */
  ghost predicate AddsBallot(h: History, h': History, n: Node, t: Term, candidate: NodeId) {
    && (n.Id(), t) !in h.ballots && t >= n.term
    && h'.ballots == h.ballots[(n.Id(), t) := Ballot(candidate, n.full)]
    && h'.reigns == h.reigns && h'.acks == h.acks && h'.certs == h.certs && h'.boot == h.boot
    && h'.readPoints == h.readPoints
  }

  lemma {:induction false} BallotWellFormed(h: History, h': History, n: Node, t: Term, candidate: NodeId)
    requires WellFormed(h) && NodeOk(h, n) && AddsBallot(h, h', n, t, candidate) && Grows(h, h')
    ensures WellFormed(h')
  {
    var key := (n.Id(), t);
    CanonicalGrows(h, h', n.full);
    forall a, u | a in h'.acks && a.term < u && (a.node, u) in h'.ballots && (a in h.acks ==> (a.node, u) !in h.ballots)
      ensures BallotKeeps(h', a, u, u)
    {
      assert (a.node, u) == key;
      NewBallotKeeps(h, h', n, a, t);
    }
    StaysWellFormed(h, h');
  }

  lemma {:induction false} ReadPointStays(h: History, h': History, k: (Term, nat))
    requires ReadPointOk(h, k) && h'.reigns == h.reigns && h'.readPoints == h.readPoints
    requires h.ballots.Keys <= h'.ballots.Keys
    ensures ReadPointOk(h', k)
  {
  }

  lemma {:induction false} CampaignStays(h: History, h': History, c: Campaign)
    requires CampaignOk(h, c) && h.preGrants <= h'.preGrants
    ensures CampaignOk(h', c)
  {
  }

  lemma {:induction false} BallotFairGrows(h: History, h': History, id: NodeId, k: (NodeId, Term))
    requires BallotFair(h, k) && BallotsGrow(h, h', id)
    ensures BallotFair(h', k)
  {
    assert h'.ballots[k] == h.ballots[k];
    var c := (h.ballots[k].candidate, k.1);
    assert h'.candidacies[c] == h.candidacies[c];
  }

  lemma {:induction false} BallotRecords(h: History, h': History, n: Node, t: Term, candidate: NodeId)
    requires RecordsOk(h) && AddsBallot(h, h', n, t, candidate) && Extends(h, h', n.Id())
    requires BallotFair(h', (n.Id(), t))
    requires forall c | c in h'.campaigns && c !in h.campaigns :: CampaignOk(h', c)
    ensures RecordsOk(h')
  {
    forall k | k in h'.ballots ensures BallotFair(h', k) {
      if k != (n.Id(), t) {
        assert BallotFair(h, k);
        BallotFairGrows(h, h', n.Id(), k);
      }
    }
    forall k | k in h'.readPoints ensures ReadPointOk(h', k) {
      assert ReadPointOk(h, k);
      ReadPointStays(h, h', k);
    }
    forall c | c in h'.campaigns ensures CampaignOk(h', c) {
      if c in h.campaigns {
        assert CampaignOk(h, c);
        CampaignStays(h, h', c);
      }
    }
    forall u | u in h'.reigns ensures ReignRecorded(h', u) {
      assert ReignRecorded(h, u);
      var k := (h.reigns[u].leader, u);
      assert h'.candidacies[k] == h.candidacies[k];
    }
  }

  /** Granting a vote. */
  lemma {:induction false} CastVoteGood(h: History, n: Node, m: Message)
    requires Good(h, n) && m.VoteReq? && MsgOk(h, m) && GrantsVote(n, m)
    ensures Leads(h, n, WithBallot(h, n, m.from), CastVote(n, m.from))
    ensures VotedFor(WithBallot(h, n, m.from), n.Id(), n.term, m.from)
  {
    var key := (n.Id(), n.term);
    if key in h.ballots {
      assert n.votedFor == Some(h.ballots[key].candidate);
      assert CastVote(n, m.from) == n;
      LeadsSelf(h, n);
    } else {
      NewVoteGood(h, n, m);
    }
  }

  lemma {:induction false} NewVoteGood(h: History, n: Node, m: Message)
    requires Good(h, n) && m.VoteReq? && MsgOk(h, m) && GrantsVote(n, m)
    requires (n.Id(), n.term) !in h.ballots
    ensures Leads(h, n, WithBallot(h, n, m.from), CastVote(n, m.from))
    ensures VotedFor(WithBallot(h, n, m.from), n.Id(), n.term, m.from)
  {
    var h', n' := WithBallot(h, n, m.from), CastVote(n, m.from);
    assert Extends(h, h', n.Id());
    ExtendsGrows(h, h', n.Id());
    AnswersAsWhole(n.storage, n.full, 0);
    BallotWellFormed(h, h', n, n.term, m.from);
    assert BallotFair(h', (n.Id(), n.term));
    BallotRecords(h, h', n, n.term, m.from);
    OwnGrows(h, h', n);
    OwnAcksGrow(h, h', n);
    RoleUnderBallots(h, h', n);
    VotedNodeOk(h', n, n', m.from);
  }

  lemma {:induction false} VotedNodeOk(h: History, n: Node, n': Node, candidate: NodeId)
    requires NodeInv(n) && n' == CastVote(n, candidate)
    requires LogOk(h, n) && AcksKept(h, n) && RoleOk(h, n) && Committed(h, n.term, n.full, n.commitIndex)
    requires (forall a | a in n.answers :: AnswerOk(h, a)) && Entered(h, n.term)
    requires n.config.boot == map[] || n.config.boot.Keys == h.boot
    requires (n.Id(), n.term) in h.ballots && h.ballots[(n.Id(), n.term)].candidate == candidate
    requires forall t | (n.Id(), t) in h.ballots :: t <= n.term
    requires forall t | (n.Id(), t) in h.candidacies :: t <= n.term
    ensures NodeInv(n') && NodeOk(h, n')
  {
    hide AnswerOk, LogOk, AcksKept, Committed, Entered;
    ExtendedAcks(h, n, n');
    SameFull(h, n, n');
    assert RoleOk(h, n');
  }

  lemma {:induction false} SameFull(h: History, n: Node, n': Node)
    requires LogOk(h, n) && n'.full == n.full && n'.term == n.term
    ensures LogOk(h, n')
  {
  }

  // ---- candidacies ----

  lemma {:induction false} CandidacyExtends(h: History, n: Node)
    requires VotesOk(h, n) && n.role.PreCandidate?
    ensures Extends(h, WithCandidacy(h, n), n.Id())
    ensures AddsBallot(h, WithCandidacy(h, n), n, n.term + 1, n.Id())
  {
    var key := (n.Id(), n.term + 1);
    assert key !in h.ballots && key !in h.candidacies;
  }

  lemma {:induction false} CandidacyRecorded(h: History, n: Node)
    requires Good(h, n) && n.role.PreCandidate? && HasMajority(n, n.role.votes)
    ensures HistoryOk(WithCandidacy(h, n))
  {
    var h', t := WithCandidacy(h, n), n.term + 1;
    CandidacyExtends(h, n);
    ExtendsGrows(h, h', n.Id());
    BallotWellFormed(h, h', n, t, n.Id());
    assert BallotFair(h', (n.Id(), t));
    assert CampaignOk(h', Campaign(n.Id(), t, n.role.votes, n.members.Keys));
    BallotRecords(h, h', n, t, n.Id());
  }

  lemma {:induction false} StartElectionGood(h: History, n: Node)
    requires Good(h, n) && n.role.PreCandidate? && HasMajority(n, n.role.votes)
    ensures Leads(h, n, WithCandidacy(h, n), StartElection(n))
  {
    var h' := WithCandidacy(h, n);
    CandidacyRecorded(h, n);
    CandidacyExtends(h, n);
    ExtendsGrows(h, h', n.Id());
    OwnGrows(h, h', n);
    OwnAcksGrow(h, h', n);
    CandidateNodeOk(h, h', n);
  }

  lemma {:induction false} CandidateRoleOk(h: History, h': History, n: Node)
    requires VotesOk(h, n) && RoleOk(h, n) && LogOk(h, n) && RecordsOk(h)
    requires n.role.PreCandidate? && h' == WithCandidacy(h, n)
    ensures RoleOk(h', StartElection(n)) && VotesOk(h', StartElection(n)) && Entered(h', n.term + 1)
  {
    var n', t := StartElection(n), n.term + 1;
    assert t in h.reigns ==> ReignRecorded(h, t);
    assert VotedFor(h', n.Id(), t, n.Id());
    assert Campaign(n.Id(), t, n.role.votes, n.members.Keys) in h'.campaigns;
  }

  lemma {:induction false} CandidateNodeOk(h: History, h': History, n: Node)
    requires Good(h, n) && n.role.PreCandidate? && h' == WithCandidacy(h, n) && Grows(h, h')
    requires LogOk(h', n) && AcksKept(h', n) && Committed(h', n.term, n.full, n.commitIndex)
    requires forall a | a in n.answers :: AnswerOk(h', a)
    ensures NodeInv(StartElection(n)) && NodeOk(h', StartElection(n))
  {
    hide WellFormed, RecordsOk, AnswerOk, AcksKept, Committed, VotesOk, RoleOk, Grows, Entered;
    var n', t := StartElection(n), n.term + 1;
    CandidateRoleOk(h, h', n);
    AcksKeptLater(h', n, t);
    ExtendedAcks(h', n.(term := t), n');
    CommittedOf(h', n.term, n.full, n.commitIndex, t, n.full, n.commitIndex);
  }

  // ---- leaderships ----

  /** Whoever a majority voted for at a term that has a leader is that leader. */
  lemma {:induction false} SameWinner(h: History, t: Term, log: Log, voters: set<NodeId>, candidate: NodeId)
    requires WellFormed(h) && t in h.reigns && Elected(h, t, log, voters)
    requires forall q | q in voters :: VotedFor(h, q, t, candidate)
    ensures h.reigns[t].leader == candidate
  {
    var r := h.reigns[t];
    assert ReignOk(h, t);
    ElectionSafety(h, t, log, voters, r.init, r.voters);
    var x :| x in voters && x in r.voters;
    assert VotedFor(h, x, t, candidate);
  }

  /** The votes a candidate counted elect it, and nobody led its term before. */
  lemma {:induction false} VotesElect(h: History, n: Node)
    requires Good(h, n) && n.role.Candidate? && HasMajority(n, n.role.votes)
    ensures Elected(h, n.term, n.full, n.role.votes * n.members.Keys)
    ensures n.term !in h.reigns
  {
    var t, voters := n.term, n.role.votes * n.members.Keys;
    forall q | q in voters
      ensures (q, t) in h.ballots
      ensures var b := h.ballots[(q, t)].log; UpToDate(LastTerm(n.full), |n.full|, LastTerm(b), |b|)
    {
      assert VotedFor(h, q, t, n.Id());
      assert BallotFair(h, (q, t));
    }
    if t in h.reigns { SameWinner(h, t, n.full, voters, n.Id()); }
  }

  lemma {:induction false} NoopCanonical(h: History, h': History, n: Node)
    requires Grows(h, h') && Canonical(h, n.full)
    requires n.term in h'.reigns && h'.reigns[n.term].log == n.full + [NoopFor(n)]
    ensures Canonical(h', n.full + [NoopFor(n)])
  {
    AppendCanonical(h, h', n.full, NoopFor(n));
  }

  /** A log extended by an entry its leader has just recorded. */
  lemma {:induction false} AppendCanonical(h: History, h': History, log: Log, e: LogEntry)
    requires Grows(h, h') && Canonical(h, log)
    requires e.term in h'.reigns && h'.reigns[e.term].log == log + [e]
    ensures Canonical(h', log + [e])
  {
    CanonicalGrows(h, h', log);
    forall k | 0 <= k < |log| + 1 ensures Rooted(h', log + [e], k) {
      if k < |log| {
        assert Rooted(h', log, k);
        assert (log + [e])[..k + 1] == log[..k + 1];
      } else {
        assert (log + [e])[..k + 1] == log + [e];
      }
    }
  }

  lemma {:induction false} ReignExtends(h: History, n: Node)
    requires n.role.Candidate? && n.term !in h.reigns
    ensures Extends(h, WithReign(h, n), n.Id())
  {
  }

  lemma {:induction false} ReignBegins(h: History, n: Node)
    requires LogOk(h, n) && n.role.Candidate? && CandidateOk(h, n) && n.term !in h.reigns
    requires Elected(h, n.term, n.full, n.role.votes * n.members.Keys)
    ensures ReignOk(WithReign(h, n), n.term)
  {
    var h', t := WithReign(h, n), n.term;
    ReignExtends(h, n);
    ExtendsGrows(h, h', n.Id());
    ElectedGrows(h, h', t, n.full, n.role.votes * n.members.Keys);
    NoopCanonical(h, h', n);
    forall q | q in n.role.votes * n.members.Keys ensures h'.ballots[(q, t)].candidate == n.Id() {
      assert VotedFor(h, q, t, n.Id());
    }
  }

  lemma {:induction false} ReignVoters(h: History, n: Node, a: Ack, u: Term)
    requires WellFormed(h) && VotesOk(h, n) && n.role.Candidate? && n.term !in h.reigns
    requires Elected(h, n.term, n.full, n.role.votes * n.members.Keys)
    requires var h' := WithReign(h, n);
      a in h'.acks && a.term < u && u in h'.reigns && a.node in h'.reigns[u].voters && (a in h.acks ==> u !in h.reigns)
    ensures BallotKeeps(WithReign(h, n), a, u, u - 1)
  {
    var h', t := WithReign(h, n), n.term;
    ReignExtends(h, n);
    ExtendsGrows(h, h', n.Id());
    if u in h.reigns { VoterVoted(h, u, a.node); }
    VoterKeeps(h, h', a, t);
  }

  lemma {:induction false} VoterVoted(h: History, t: Term, q: NodeId)
    requires WellFormed(h) && t in h.reigns && q in h.reigns[t].voters
    ensures (q, t) in h.ballots
  {
    assert ReignOk(h, t);
  }

  lemma {:induction false} ReignWellFormed(h: History, n: Node)
    requires WellFormed(h) && VotesOk(h, n) && n.role.Candidate? && n.term !in h.reigns
    requires Elected(h, n.term, n.full, n.role.votes * n.members.Keys)
    requires ReignOk(WithReign(h, n), n.term)
    ensures WellFormed(WithReign(h, n))
  {
    hide ReignOk, Extends, Grows, NewPartsOk, Elected, BallotKeeps;
    var h', t := WithReign(h, n), n.term;
    ReignExtends(h, n);
    ExtendsGrows(h, h', n.Id());
    forall a, u | a in h'.acks && a.term < u && u in h'.reigns && a.node in h'.reigns[u].voters
      && (a in h.acks ==> u !in h.reigns)
      ensures BallotKeeps(h', a, u, u - 1)
    {
      ReignVoters(h, n, a, u);
    }
    ReignParts(h, h', n);
    StaysWellFormed(h, h');
  }

  lemma {:induction false} ReignParts(h: History, h': History, n: Node)
    requires n.role.Candidate? && n.term !in h.reigns && h' == WithReign(h, n) && ReignOk(h', n.term)
    requires forall t | (n.Id(), t) in h.ballots :: t <= n.term
    requires forall a, u | a in h'.acks && a.term < u && u in h'.reigns && a.node in h'.reigns[u].voters
      && (a in h.acks ==> u !in h.reigns) :: BallotKeeps(h', a, u, u - 1)
    ensures NewPartsOk(h, h')
  {
    hide ReignOk, BallotKeeps, GateOk, Canonical, CertOk;
    assert AckOk(h', Ack(n.Id(), n.term, |n.full| + 1));
    assert !h'.reigns[n.term].log[|n.full|].command.ConfigChange?;
  }

  /** When nobody led term t yet, a ballot of t was overruled only earlier. */
  lemma {:induction false} VoterKeeps(h: History, h': History, a: Ack, t: Term)
    requires WellFormed(h) && Grows(h, h') && t !in h.reigns
    requires a in h.acks && a.term < t && (a.node, t) in h.ballots
    ensures BallotKeeps(h', a, t, t - 1)
  {
    assert BallotKeeps(h, a, t, t);
    var log, before := h.ballots[(a.node, t)].log, t - 1;
    forall i | 0 <= i <= a.index ensures Keeps(h, a.term, i, log, before) {
      assert Keeps(h, a.term, i, log, t);
    }
    BallotKeepsGrows(h, h', a, t, t - 1);
  }

  lemma {:induction false} ReignRecords(h: History, n: Node)
    requires Good(h, n) && n.role.Candidate? && n.term !in h.reigns
    ensures RecordsOk(WithReign(h, n))
  {
    var h' := WithReign(h, n);
    forall k | k in h'.ballots ensures BallotFair(h', k) {
      assert BallotFair(h, k);
    }
    forall k | k in h'.readPoints ensures ReadPointOk(h', k) {
      assert ReadPointOk(h, k);
    }
    forall c | c in h'.campaigns ensures CampaignOk(h', c) {
      assert CampaignOk(h, c);
    }
    forall u | u in h'.reigns ensures ReignRecorded(h', u) {
      if u != n.term { assert ReignRecorded(h, u); }
    }
  }

  /** The new leader's log is its candidate log plus the no-op. */
  lemma {:induction false} ExtendedAcks(h: History, n: Node, n': Node)
    requires AcksKept(h, n) && n'.Id() == n.Id() && n'.term == n.term && n.full <= n'.full
    ensures AcksKept(h, n')
  {
    forall a | a in h.acks && a.node == n'.Id() ensures AckKept(h, a, n'.full, n'.term) {
      assert AckKept(h, a, n.full, n.term);
      forall i | 0 <= i <= a.index ensures Keeps(h, a.term, i, n'.full, n.term) {
        assert Keeps(h, a.term, i, n.full, n.term);
      }
    }
  }

  /** A leader acknowledges its own log. */
  lemma {:induction false} OwnAck(h: History, h': History, n: Node, i: LogIndex)
    requires Extends(h, h', n.Id()) && AcksKept(h, n) && n.term in h'.reigns
    requires i <= |h'.reigns[n.term].log| && h'.reigns[n.term].log[..i] <= n.full
    requires h'.acks == h.acks + {Ack(n.Id(), n.term, i)}
    ensures AcksKept(h', n)
  {
    ExtendsGrows(h, h', n.Id());
    forall a | a in h'.acks && a.node == n.Id() ensures AckKept(h', a, n.full, n.term) {
      if a in h.acks {
        assert AckKept(h, a, n.full, n.term);
        AckKeptGrows(h, h', a, n.full, n.term);
      } else {
        forall j | 0 <= j <= a.index ensures Keeps(h', a.term, j, n.full, n.term) {
          assert h'.reigns[n.term].log[..j] <= h'.reigns[n.term].log[..i];
        }
      }
    }
  }

  lemma {:induction false} ElevatedLog(h: History, n: Node)
    requires LogOk(h, n) && n.role.Candidate? && TermsBelow(n.full, n.term) && n.term !in h.reigns
    ensures LogOk(WithReign(h, n), Elevated(n))
  {
    var h' := WithReign(h, n);
    ReignExtends(h, n);
    ExtendsGrows(h, h', n.Id());
    NoopCanonical(h, h', n);
  }

  lemma {:induction false} ElevatedIds(n: Node, boot: set<NodeId>)
    ensures Ids(Elevated(n).full, boot) == Ids(n.full, boot)
  {
    LatestOfConcat(n.full, [NoopFor(n)]);
    ConfigOfOne(NoopFor(n));
  }

  lemma {:induction false} ElevatedRole(h: History, n: Node)
    requires WellFormed(h) && n.role.Candidate? && n.term !in h.reigns && n.commitIndex <= |n.full|
    ensures LeaderOk(WithReign(h, n), Elevated(n))
  {
    forall c | c in h.certs ensures c.term != n.term {
      assert CertOk(h, c);
    }
  }

  /** Winning an election. */
  lemma {:induction false} LeadGood(h: History, n: Node)
    requires Good(h, n) && n.role.Candidate? && HasMajority(n, n.role.votes)
    ensures Leads(h, n, WithReign(h, n), BecomeLeader(n))
  {
    VotesElect(h, n);
    ReignExtends(h, n);
    ReignBegins(h, n);
    ReignWellFormed(h, n);
    ReignRecords(h, n);
    BecomeLeaderOk(n);
    ElevatedNodeOk(h, n);
  }

  lemma {:induction false} ElevatedAcks(h: History, n: Node)
    requires AcksKept(h, n) && n.role.Candidate? && n.term !in h.reigns
    ensures AcksKept(WithReign(h, n), Elevated(n))
  {
    ReignExtends(h, n);
    ExtendedAcks(h, n, Elevated(n));
    OwnAck(h, WithReign(h, n), Elevated(n), |n.full| + 1);
  }

  lemma {:induction false} ElevatedNodeOk(h: History, n: Node)
    requires Good(h, n) && n.role.Candidate? && n.term !in h.reigns
    ensures NodeOk(WithReign(h, n), Elevated(n))
  {
    hide WellFormed, RecordsOk, NodeInv, Extends, AnswerOk, LogOk, LeaderOk, AckKept, Committed, Entered;
    var h', n' := WithReign(h, n), Elevated(n);
    ReignExtends(h, n);
    OwnGrows(h, h', n);
    ElevatedLog(h, n);
    ElevatedIds(n, h.boot);
    CommitWithin(n);
    ElevatedRole(h, n);
    ElevatedAcks(h, n);
    assert n'.full[..n.commitIndex] == n.full[..n.commitIndex];
    CommittedOf(h', n.term, n.full, n.commitIndex, n.term, n'.full, n.commitIndex);
  }
}
