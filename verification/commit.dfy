/** A leader advancing its commit index: the certificate it issues, and what
    it may tell clients on the strength of it. */
module Commitment {
  import opened Types
  import opened Quorum
  import opened Storage
  import opened Node
  import opened NodeInvariant
  import opened History
  import opened Completeness
  import opened Growth
  import opened Cluster
  import opened Invariant
  import opened Frame
  import opened Election
  import opened Followers
  import opened Reads

  lemma {:induction false} PickIsOfTerm(h: History, n: Node, k: LogIndex)
    requires WellFormed(h) && n.role.Leader? && LeaderOk(h, n) && Represents(n.storage, n.full)
    requires k > 0 && n.storage.TermOf(k) == Some(n.term)
    ensures |h.reigns[n.term].init| < k <= |n.full|
  {
    assert ReignOk(h, n.term);
    AnswersAsWhole(n.storage, n.full, k);
    BeyondInit(h, n.term, k - 1);
  }

  lemma {:induction false} HoldersAcked(h: History, n: Node, k: LogIndex)
    requires n.role.Leader? && LeaderOk(h, n) && Represents(n.storage, n.full) && 0 < k <= |n.full|
    ensures forall q | q in Holders(n, k) :: Acked(h, q, n.term, k)
  {
    AnswersAsWhole(n.storage, n.full, k);
    forall q | q in Holders(n, k) ensures Acked(h, q, n.term, k) {
      if q == n.Id() {
        assert Ack(q, n.term, |n.full|) in h.acks;
      } else {
        assert Ack(q, n.term, n.role.matchIndex[q]) in h.acks;
      }
    }
  }

  ghost function CommitCert(n: Node): Cert
    requires CanCommit(n)
  {
    Cert(n.term, CommitPick(n), |n.full|, Holders(n, CommitPick(n)))
  }

  /** The majority a leader counted is a certificate. */
  lemma {:induction false} CertIssued(h: History, n: Node)
    requires Good(h, n) && CanCommit(n)
    ensures CertOk(h, CommitCert(n)) && Promise(h, CommitCert(n)) == n.full[..CommitPick(n)]
  {
    var k := CommitPick(n);
    PickIsOfTerm(h, n, k);
    HoldersAcked(h, n, k);
    assert n.full[..|n.full|] == n.full;
  }

  lemma {:induction false} CertExtends(h: History, h': History, n: Node, c: Cert)
    requires HistoryOk(h) && n.role.Leader? && LeaderOk(h, n)
    requires h' == h.(certs := h.certs + {c}) && c.term == n.term && CertOk(h, c)
    ensures Extends(h, h', n.Id()) && HistoryOk(h') && CertOk(h', c) && Promise(h', c) == Promise(h, c)
  {
    assert Extends(h, h', n.Id());
    ExtendsGrows(h, h', n.Id());
    CertGrows(h, h', c);
    StaysWellFormed(h, h');
    CertRecords(h, h');
  }

  lemma {:induction false} CertRecords(h: History, h': History)
    requires RecordsOk(h) && h' == h.(certs := h'.certs)
    ensures RecordsOk(h')
  {
    forall k | k in h'.ballots ensures BallotFair(h', k) { assert BallotFair(h, k); }
    forall k | k in h'.readPoints ensures ReadPointOk(h', k) { assert ReadPointOk(h, k); }
    forall c | c in h'.campaigns ensures CampaignOk(h', c) { assert CampaignOk(h, c); }
    forall t | t in h'.reigns ensures ReignRecorded(h', t) { assert ReignRecorded(h, t); }
  }

  lemma {:induction false} CommittedLeader(h: History, h': History, n: Node, n': Node, c: Cert)
    requires n.role.Leader? && LeaderOk(h, n) && Extends(h, h', n.Id()) && h' == h.(certs := h.certs + {c})
    requires c.term == n.term && c.index > n.commitIndex && n'.commitIndex == c.index
    requires n'.config == n.config && n'.term == n.term && n'.full == n.full && SameButWaiting(n, n')
    ensures LeaderOk(h', n')
  {
    assert CertAt(h', n.term, c.index);
    forall p | p in n'.role.acked ensures Answered(h', p, n.term, n'.role.acked[p]) {
      AnsweredGrows(h, h', n.Id(), p, n.term, n.role.acked[p]);
    }
    forall r | r in n'.role.waiting ensures WaitOk(h', n.term, r) {
      WaitGrows(h, h', n.Id(), n.term, r);
    }
  }

  /** Verdicts and grants given on the way are true. */
  lemma {:induction false} AnswersTrue(h: History, n: Node, waiting: seq<PendingRead>, old_: seq<Answer>)
    requires HistoryOk(h) && n.role.Leader? && LeaderOk(h, n) && n.members.Keys == Ids(n.full, h.boot)
    requires VotesOk(h, n) && n.lastApplied == n.commitIndex && Committed(h, n.term, n.full, n.commitIndex)
    requires forall r | r in waiting :: WaitOk(h, n.term, r)
    requires forall a | a in old_ :: AnswerOk(h, a)
    requires forall a | a in n.answers :: a in old_ || IsVerdict(n, a) || IsGrant(n, waiting, a)
    ensures forall a | a in n.answers :: AnswerOk(h, a)
  {
    forall a | a in n.answers ensures AnswerOk(h, a) {
      if a !in old_ {
        if IsVerdict(n, a) {
          VerdictTrue(h, n, a);
        } else {
          var r :| r in waiting && r.needed == a.needed && Grantable(n, r);
          GrantCovers(h, n, r);
        }
      }
    }
  }

  lemma {:induction false} WaitsGrow(h: History, h': History, n: Node)
    requires n.role.Leader? && LeaderOk(h, n) && Extends(h, h', n.Id())
    ensures forall r | r in n.role.waiting :: WaitOk(h', n.term, r)
  {
    forall r | r in n.role.waiting ensures WaitOk(h', n.term, r) {
      WaitGrows(h, h', n.Id(), n.term, r);
    }
  }

  lemma {:induction false} CommittedNodeOk(h: History, h': History, n: Node, n': Node, c: Cert)
    requires Good(h, n) && n.role.Leader? && HistoryOk(h') && Extends(h, h', n.Id()) && h' == h.(certs := h.certs + {c})
    requires c.term == n.term && c.index > n.commitIndex
    requires CertOk(h', c) && c.index <= |n.full| && Promise(h', c) == n.full[..c.index]
    requires CommitsTo(n, n', c.index)
    ensures NodeOk(h', n')
  {
    hide HistoryOk, NodeInv, Extends, AnswerOk, CertOk, LeaderOk, LogOk, IsVerdict, IsGrant;
    OwnGrows(h, h', n);
    OwnAcksGrow(h, h', n);
    ExtendedAcks(h', n, n');
    CommittedLeader(h, h', n, n', c);
    WaitsGrow(h, h', n);
    assert Covers(h', c, n.term, n.full, c.index);
    SameFull(h', n, n');
    AnswersTrue(h', n', n.role.waiting, n.answers);
  }

  /** A leader committing by counting. */
  lemma {:induction false} CommitGood(h: History, n: Node)
    requires Good(h, n)
    ensures Leads(h, n, WithCommit(h, n), AdvanceCommit(n))
  {
    if CanCommit(n) {
      var h', c := WithCommit(h, n), CommitCert(n);
      CertIssued(h, n);
      CertExtends(h, h', n, c);
      CommitToOk(n, c.index);
      hide NodeInv, HistoryOk, Extends, CertOk, CommitsTo, CommitTo, CanCommit, AnswerOk;
      CommittedNodeOk(h, h', n, CommitTo(n, c.index), c);
    } else {
      LeadsSelf(h, n);
    }
  }

  lemma {:induction false} MaybeAdvanceGood(h: History, n: Node)
    requires Good(h, n)
    ensures Leads(h, n, WithCommit(h, n), MaybeAdvanceCommit(n))
  {
    CommitGood(h, n);
    hide NodeInv, HistoryOk, Extends, AdvanceCommit;
    var h', n1 := WithCommit(h, n), AdvanceCommit(n);
    FollowerGood(h', n1, n1.term, None) by { assert Good(h', n1); }
    LeadsSelf(h', n1);
    LeadsTransitive(h, n, h', n1, h', StepDownIfRemoved(n1));
  }
}
