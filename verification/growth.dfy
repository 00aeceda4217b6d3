/** Histories only grow, and what was true of an earlier one stays true. */
module Growth {
  import opened Types
  import opened Quorum
  import opened History
  import opened Completeness

  ghost predicate ReignGrows(r: Reign, r': Reign) {
    r'.leader == r.leader && r'.init == r.init && r'.voters == r.voters && r.log <= r'.log && r.beat <= r'.beat
  }

  ghost predicate ReignsGrow(h: History, h': History, id: NodeId) {
    && (forall t {:trigger h.reigns[t]} {:trigger h'.reigns[t]} | t in h.reigns ::
          t in h'.reigns && ReignGrows(h.reigns[t], h'.reigns[t])
          && (h.reigns[t].leader != id ==> h'.reigns[t] == h.reigns[t]))
    && (forall t {:trigger h'.reigns[t]} | t in h'.reigns && t !in h.reigns :: h'.reigns[t].leader == id)
  }

  ghost predicate BallotsGrow(h: History, h': History, id: NodeId) {
    && (forall k {:trigger h.ballots[k]} {:trigger h'.ballots[k]} | k in h.ballots ::
          k in h'.ballots && h'.ballots[k] == h.ballots[k])
    && (forall k {:trigger h'.ballots[k]} | k in h'.ballots && k !in h.ballots :: k.0 == id)
    && (forall k {:trigger h.candidacies[k]} {:trigger h'.candidacies[k]} | k in h.candidacies ::
          k in h'.candidacies && h'.candidacies[k] == h.candidacies[k])
    && (forall k {:trigger h'.candidacies[k]} | k in h'.candidacies && k !in h.candidacies :: k.0 == id)
  }

  ghost predicate ReadsGrow(h: History, h': History, id: NodeId) {
    && (forall k {:trigger h.readPoints[k]} {:trigger h'.readPoints[k]} | k in h.readPoints ::
          k in h'.readPoints && h'.readPoints[k] == h.readPoints[k])
    && (forall k {:trigger h'.readPoints[k]} | k in h'.readPoints && k !in h.readPoints ::
          && k.0 in h'.reigns && h'.reigns[k.0].leader == id
          && (k.0 in h.reigns ==> k.1 > h.reigns[k.0].beat))
  }

  /** h' continues h by promises that node `id` made. */
  ghost predicate Extends(h: History, h': History, id: NodeId) {
    && h'.boot == h.boot
    && ReignsGrow(h, h', id)
    && BallotsGrow(h, h', id)
    && ReadsGrow(h, h', id)
    && h.acks <= h'.acks && (forall a | a in h'.acks && a !in h.acks :: a.node == id)
    && h.certs <= h'.certs
    && (forall c | c in h'.certs && c !in h.certs :: c.term in h'.reigns && h'.reigns[c.term].leader == id)
    && h.preGrants <= h'.preGrants
    && h.campaigns <= h'.campaigns
  }

  /** The monotone part, which also composes across nodes. */
  ghost predicate Grows(h: History, h': History) {
    && h'.boot == h.boot
    && (forall t {:trigger h.reigns[t]} {:trigger h'.reigns[t]} | t in h.reigns ::
          t in h'.reigns && ReignGrows(h.reigns[t], h'.reigns[t]))
    && (forall k {:trigger h.ballots[k]} {:trigger h'.ballots[k]} | k in h.ballots ::
          k in h'.ballots && h'.ballots[k] == h.ballots[k])
    && h.acks <= h'.acks
    && h.certs <= h'.certs
  }

  lemma {:induction false} ExtendsGrows(h: History, h': History, id: NodeId)
    requires Extends(h, h', id)
    ensures Grows(h, h')
  {
  }

  lemma {:induction false} ReignsGrowTransitive(a: History, b: History, c: History, id: NodeId)
    requires ReignsGrow(a, b, id) && ReignsGrow(b, c, id)
    ensures ReignsGrow(a, c, id)
  {
    forall t | t in a.reigns
      ensures t in c.reigns && ReignGrows(a.reigns[t], c.reigns[t])
      ensures a.reigns[t].leader != id ==> c.reigns[t] == a.reigns[t]
    {
      assert ReignGrows(a.reigns[t], b.reigns[t]) && ReignGrows(b.reigns[t], c.reigns[t]);
    }
    forall t | t in c.reigns && t !in a.reigns ensures c.reigns[t].leader == id {
      if t in b.reigns { assert ReignGrows(b.reigns[t], c.reigns[t]); }
    }
  }

  lemma {:induction false} ReadsGrowTransitive(a: History, b: History, c: History, id: NodeId)
    requires ReignsGrow(a, b, id) && ReignsGrow(b, c, id) && ReadsGrow(a, b, id) && ReadsGrow(b, c, id)
    ensures ReadsGrow(a, c, id)
  {
    forall k | k in a.readPoints ensures k in c.readPoints && c.readPoints[k] == a.readPoints[k] {
      assert b.readPoints[k] == a.readPoints[k];
    }
    forall k | k in c.readPoints && k !in a.readPoints
      ensures k.0 in c.reigns && c.reigns[k.0].leader == id
      ensures k.0 in a.reigns ==> k.1 > a.reigns[k.0].beat
    {
      if k in b.readPoints {
        assert b.readPoints[k] == b.readPoints[k];
        assert ReignGrows(b.reigns[k.0], c.reigns[k.0]);
      } else {
        assert c.readPoints[k] == c.readPoints[k];
        if k.0 in a.reigns { assert ReignGrows(a.reigns[k.0], b.reigns[k.0]); }
      }
    }
  }

  lemma {:induction false} BallotsGrowTransitive(a: History, b: History, c: History, id: NodeId)
    requires BallotsGrow(a, b, id) && BallotsGrow(b, c, id)
    ensures BallotsGrow(a, c, id)
  {
    forall k | k in a.ballots ensures k in c.ballots && c.ballots[k] == a.ballots[k] {
      assert b.ballots[k] == a.ballots[k];
    }
    forall k | k in a.candidacies ensures k in c.candidacies && c.candidacies[k] == a.candidacies[k] {
      assert b.candidacies[k] == a.candidacies[k];
    }
    forall k | k in c.ballots && k !in a.ballots ensures k.0 == id {
      if k in b.ballots { assert b.ballots[k] == b.ballots[k]; }
    }
    forall k | k in c.candidacies && k !in a.candidacies ensures k.0 == id {
      if k in b.candidacies { assert b.candidacies[k] == b.candidacies[k]; }
    }
  }

  lemma {:induction false} ExtendsTransitive(a: History, b: History, c: History, id: NodeId)
    requires Extends(a, b, id) && Extends(b, c, id)
    ensures Extends(a, c, id)
  {
    ReignsGrowTransitive(a, b, c, id);
    ReadsGrowTransitive(a, b, c, id);
    BallotsGrowTransitive(a, b, c, id);
    forall k | k in c.certs && k !in a.certs ensures k.term in c.reigns && c.reigns[k.term].leader == id {
      if k in b.certs { assert ReignGrows(b.reigns[k.term], c.reigns[k.term]); }
    }
  }

  lemma {:induction false} ExtendsSelf(h: History, id: NodeId)
    ensures Extends(h, h, id)
  {
  }

  lemma {:induction false} GrowsTransitive(a: History, b: History, c: History)
    requires Grows(a, b) && Grows(b, c)
    ensures Grows(a, c)
  {
    forall t | t in a.reigns
      ensures t in c.reigns && ReignGrows(a.reigns[t], c.reigns[t])
    {
      assert ReignGrows(a.reigns[t], b.reigns[t]) && ReignGrows(b.reigns[t], c.reigns[t]);
    }
    forall k | k in a.ballots ensures k in c.ballots && c.ballots[k] == a.ballots[k] {
      assert b.ballots[k] == a.ballots[k];
    }
  }

  lemma {:induction false} CanonicalGrows(h: History, h': History, log: Log)
    requires Grows(h, h') && Canonical(h, log)
    ensures Canonical(h', log)
  {
    forall k | 0 <= k < |log| ensures Rooted(h', log, k) {
      assert Rooted(h, log, k);
      assert ReignGrows(h.reigns[log[k].term], h'.reigns[log[k].term]);
    }
  }

  lemma {:induction false} PrefixStays(h: History, h': History, t: Term, i: LogIndex)
    requires Grows(h, h') && t in h.reigns && i <= |h.reigns[t].log|
    ensures t in h'.reigns && i <= |h'.reigns[t].log| && h'.reigns[t].log[..i] == h.reigns[t].log[..i]
  {
    assert ReignGrows(h.reigns[t], h'.reigns[t]);
  }

  lemma {:induction false} OverruledGrows(h: History, h': History, t: Term, i: LogIndex, until: Term)
    requires Grows(h, h') && t in h.reigns && i <= |h.reigns[t].log| && Overruled(h, t, i, until)
    ensures t in h'.reigns && i <= |h'.reigns[t].log| && Overruled(h', t, i, until)
  {
    PrefixStays(h, h', t, i);
    var u :| t < u <= until && u in h.reigns && !(h.reigns[t].log[..i] <= h.reigns[u].init);
    assert ReignGrows(h.reigns[u], h'.reigns[u]);
  }

  lemma {:induction false} KeepsGrows(h: History, h': History, t: Term, i: LogIndex, log: Log, until: Term)
    requires Grows(h, h') && t in h.reigns && i <= |h.reigns[t].log| && Keeps(h, t, i, log, until)
    ensures t in h'.reigns && i <= |h'.reigns[t].log| && Keeps(h', t, i, log, until)
  {
    PrefixStays(h, h', t, i);
    if Overruled(h, t, i, until) { OverruledGrows(h, h', t, i, until); }
  }

  lemma {:induction false} KeepsLonger(h: History, t: Term, i: LogIndex, log: Log, until: Term, later: Term)
    requires t in h.reigns && i <= |h.reigns[t].log| && Keeps(h, t, i, log, until) && until <= later
    ensures Keeps(h, t, i, log, later)
  {
  }

  lemma {:induction false} AckGrows(h: History, h': History, a: Ack)
    requires Grows(h, h') && AckOk(h, a)
    ensures AckOk(h', a)
  {
    PrefixStays(h, h', a.term, a.index);
  }

  lemma {:induction false} BallotKeepsGrows(h: History, h': History, a: Ack, t: Term, until: Term)
    requires Grows(h, h') && BallotKeeps(h, a, t, until)
    ensures BallotKeeps(h', a, t, until)
  {
    AckGrows(h, h', a);
    var log := h.ballots[(a.node, t)].log;
    assert h'.ballots[(a.node, t)] == h.ballots[(a.node, t)];
    forall i | 0 <= i <= a.index ensures Keeps(h', a.term, i, log, until) {
      assert Keeps(h, a.term, i, log, until);
      KeepsGrows(h, h', a.term, i, log, until);
    }
  }

  lemma {:induction false} ElectedGrows(h: History, h': History, t: Term, log: Log, voters: set<NodeId>)
    requires Grows(h, h') && Elected(h, t, log, voters)
    ensures Elected(h', t, log, voters)
  {
    CanonicalGrows(h, h', log);
    forall q | q in voters
      ensures (q, t) in h'.ballots && h'.ballots[(q, t)] == h.ballots[(q, t)]
    {
      assert (q, t) in h.ballots;
    }
  }

  lemma {:induction false} CertGrows(h: History, h': History, c: Cert)
    requires Grows(h, h') && CertOk(h, c)
    ensures CertOk(h', c) && Promise(h', c) == Promise(h, c)
  {
    PrefixStays(h, h', c.term, c.length);
    PrefixStays(h, h', c.term, c.index);
    assert ReignGrows(h.reigns[c.term], h'.reigns[c.term]);
    forall q | q in c.quorum ensures Acked(h', q, c.term, c.index) {
      assert Acked(h, q, c.term, c.index);
      var j :| j >= c.index && Ack(q, c.term, j) in h.acks;
      assert Ack(q, c.term, j) in h'.acks;
    }
  }

  lemma {:induction false} GateGrows(h: History, h': History, t: Term, k: nat)
    requires Grows(h, h') && t in h.reigns && k < |h.reigns[t].log| && GateOk(h, t, k)
    ensures t in h'.reigns && k < |h'.reigns[t].log| && GateOk(h', t, k)
  {
    PrefixStays(h, h', t, k);
    PrefixStays(h, h', t, k + 1);
    var c :| Gates(h, t, k, c);
    assert Gates(h', t, k, c);
  }

  lemma {:induction false} CommittedGrows(h: History, h': History, t: Term, log: Log, k: LogIndex)
    requires Grows(h, h') && Committed(h, t, log, k)
    ensures Committed(h', t, log, k)
  {
    if k > 0 {
      var c :| Covers(h, c, t, log, k);
      CertGrows(h, h', c);
      assert Covers(h', c, t, log, k);
    }
  }

  /** A longer log, or a later term, is committed as far as before. */
  lemma {:induction false} CommittedOf(h: History, t: Term, log: Log, k: LogIndex, u: Term, other: Log, i: LogIndex)
    requires Committed(h, t, log, k) && t <= u && i <= k && i <= |other| && log[..i] == other[..i]
    ensures Committed(h, u, other, i)
  {
    if i > 0 {
      var c :| Covers(h, c, t, log, k);
      assert log[..i] == log[..k][..i];
      assert Covers(h, c, u, other, i);
    }
  }

  // ---- what has to be checked when a history grows ----

  lemma {:induction false} OldReignOk(h: History, h': History, t: Term)
    requires Grows(h, h') && t in h.reigns && ReignOk(h, t)
    requires h'.reigns[t].log == h.reigns[t].log
    ensures ReignOk(h', t)
  {
    var r := h.reigns[t];
    assert ReignGrows(r, h'.reigns[t]);
    CanonicalGrows(h, h', r.log);
    ElectedGrows(h, h', t, r.init, r.voters);
    forall q | q in r.voters ensures h'.ballots[(q, t)].candidate == r.leader {
      assert h'.ballots[(q, t)] == h.ballots[(q, t)];
    }
  }

  /** Only new reigns or grown ones, new acknowledgements, certificates,
      ballots and gates need checking. */
  ghost predicate NewPartsOk(h: History, h': History) {
    && (forall t {:trigger ReignOk(h', t)} | t in h'.reigns
          && (t in h.reigns ==> h'.reigns[t].log != h.reigns[t].log) :: ReignOk(h', t))
    && (forall a {:trigger AckOk(h', a)} | a in h'.acks && a !in h.acks :: AckOk(h', a))
    && (forall c {:trigger CertOk(h', c)} | c in h'.certs && c !in h.certs :: CertOk(h', c))
    && (forall k {:trigger h'.ballots[k]} | k in h'.ballots && k !in h.ballots :: Canonical(h', h'.ballots[k].log))
    && (forall a, t {:trigger BallotKeeps(h', a, t, t)} | a in h'.acks && a.term < t && (a.node, t) in h'.ballots
          && (a in h.acks ==> (a.node, t) !in h.ballots) :: BallotKeeps(h', a, t, t))
    && (forall a, t {:trigger BallotKeeps(h', a, t, t - 1)} | a in h'.acks && a.term < t && t in h'.reigns
          && a.node in h'.reigns[t].voters && (a in h.acks ==> t !in h.reigns) :: BallotKeeps(h', a, t, t - 1))
    && (forall t, k {:trigger GateOk(h', t, k)} | t in h'.reigns && |h'.reigns[t].init| <= k < |h'.reigns[t].log|
          && (t in h.reigns ==> |h.reigns[t].log| <= k)
          && h'.reigns[t].log[k].command.ConfigChange? :: GateOk(h', t, k))
  }

  lemma {:induction false} BallotsStayOk(h: History, h': History)
    requires WellFormed(h) && Grows(h, h') && NewPartsOk(h, h')
    ensures BallotsOk(h')
  {
    forall v, t | (v, t) in h'.ballots ensures Canonical(h', h'.ballots[(v, t)].log) {
      if (v, t) in h.ballots {
        assert h'.ballots[(v, t)] == h.ballots[(v, t)];
        CanonicalGrows(h, h', h.ballots[(v, t)].log);
      }
    }
    forall a, t | a in h'.acks && a.term < t && (a.node, t) in h'.ballots
      ensures BallotKeeps(h', a, t, t)
    {
      if a in h.acks && (a.node, t) in h.ballots {
        assert BallotKeeps(h, a, t, t);
        BallotKeepsGrows(h, h', a, t, t);
      }
    }
    forall a, t | a in h'.acks && a.term < t && t in h'.reigns && a.node in h'.reigns[t].voters
      ensures BallotKeeps(h', a, t, t - 1)
    {
      if a in h.acks && t in h.reigns {
        assert ReignGrows(h.reigns[t], h'.reigns[t]);
        assert BallotKeeps(h, a, t, t - 1);
        BallotKeepsGrows(h, h', a, t, t - 1);
      }
    }
  }

  lemma {:induction false} GatesStayOk(h: History, h': History)
    requires WellFormed(h) && Grows(h, h') && NewPartsOk(h, h')
    ensures GatesOk(h')
  {
    forall t, k | t in h'.reigns && |h'.reigns[t].init| <= k < |h'.reigns[t].log|
      && h'.reigns[t].log[k].command.ConfigChange?
      ensures GateOk(h', t, k)
    {
      if t in h.reigns && k < |h.reigns[t].log| {
        assert ReignGrows(h.reigns[t], h'.reigns[t]);
        assert h.reigns[t].log[k] == h'.reigns[t].log[k];
        assert GateOk(h, t, k);
        GateGrows(h, h', t, k);
      }
    }
  }

  lemma {:induction false} StaysWellFormed(h: History, h': History)
    requires WellFormed(h) && Grows(h, h') && NewPartsOk(h, h')
    ensures WellFormed(h')
  {
    forall t | t in h'.reigns ensures ReignOk(h', t) {
      if t in h.reigns && h'.reigns[t].log == h.reigns[t].log {
        assert ReignOk(h, t);
        OldReignOk(h, h', t);
      }
    }
    forall a | a in h'.acks ensures AckOk(h', a) {
      if a in h.acks { assert AckOk(h, a); AckGrows(h, h', a); }
    }
    forall c | c in h'.certs ensures CertOk(h', c) {
      if c in h.certs { assert CertOk(h, c); CertGrows(h, h', c); }
    }
    BallotsStayOk(h, h');
    GatesStayOk(h, h');
  }
}
