module Reads {
  // Why a granted linearizable read is linearizable, across leaders and
  // membership changes: whoever is elected after the leader needs a voter that
  // confirmed the read, so nothing could have committed behind its back.

  import opened Types
  import opened Quorum
  import opened Node
  import opened NodeInvariant
  import opened History
  import opened Completeness
  import opened Invariant

  /** The first term after t that had begun. */
  ghost predicate NextAfter(terms: set<Term>, t: Term, w: Term) {
    w in terms && w > t && forall u | u in terms :: u <= t || w <= u
  }

  lemma {:induction false} HasNext(terms: set<Term>, t: Term, v: Term) returns (w: Term)
    requires v in terms && v > t
    ensures NextAfter(terms, t, w)
    decreases v
  {
    if u :| u in terms && t < u < v { w := HasNext(terms, t, u); } else { w := v; }
  }

  /** The next leader inherits the committed part of term t and beyond it
      only entries of term t: its initial log is a prefix of that leader's. */
  lemma {:induction false} NextInherits(h: History, c: Cert, terms: set<Term>, w: Term)
    requires WellFormed(h) && c in h.certs && CertOk(h, c) && NextAfter(terms, c.term, w) && w in h.reigns
    requires forall i | 0 <= i < |h.reigns[w].init| :: h.reigns[w].init[i].term in terms
    ensures h.reigns[w].init <= h.reigns[c.term].log && c.index <= |h.reigns[w].init|
  {
    var init, log := h.reigns[w].init, h.reigns[c.term].log;
    assert ReignOk(h, w) && ReignOk(h, c.term);
    Complete(h, w, init, h.reigns[w].voters, c);
    var last := |init| - 1;
    assert init[c.index - 1] == log[c.index - 1];
    assert log[c.index - 1].term == c.term;
    assert init[c.index - 1].term <= init[last].term < w;
    assert Rooted(h, init, last);
    assert init[..last + 1] == init;
  }

  lemma {:induction false} PrefixIds(log: Log, m: nat, boot: set<NodeId>)
    requires ConfigIndex(log) <= m <= |log|
    ensures Ids(log[..m], boot) == Ids(log, boot)
  {
    SameConfig(log, m);
  }

  /** At most the newest configuration of a leader's log lies beyond its
      commit index, so any prefix holding the committed part is adjacent. */
  lemma {:induction false} PrefixAdjacent(h: History, t: Term, i: LogIndex, m: nat)
    requires WellFormed(h) && t in h.reigns && |h.reigns[t].init| < i <= m <= |h.reigns[t].log|
    requires forall c | c in h.certs && c.term == t :: c.index <= i
    ensures Adjacent(Ids(h.reigns[t].log, h.boot), Ids(h.reigns[t].log[..m], h.boot))
  {
    var log := h.reigns[t].log;
    assert ReignOk(h, t);
    var k := ConfigIndex(log);
    if k <= m {
      PrefixIds(log, m, h.boot);
    } else {
      var g := GateOf(h, log, k);
      PrefixIds(log, k, h.boot);
      PrefixIds(log[..k - 1], m, h.boot);
      assert log[..k - 1][..m] == log[..m];
      AdjacentSymmetric(Ids(log[..k - 1], h.boot), Ids(log[..k], h.boot));
    }
  }

  lemma {:induction false} AdjacentSymmetric(a: set<NodeId>, b: set<NodeId>)
    requires Adjacent(a, b)
    ensures Adjacent(b, a)
  {
  }

  /** Everyone who could elect the next leader overlaps those who confirmed. */
  lemma {:induction false} ConfirmerVotes(h: History, n: Node, needed: nat, terms: set<Term>,
      w: Term) returns (x: NodeId)
    requires WellFormed(h) && n.role.Leader? && LeaderOk(h, n) && n.members.Keys == Ids(n.full, h.boot)
    requires n.commitIndex > |h.reigns[n.term].init|
    requires |Confirming(n, needed)| >= Majority(n.members.Keys)
    requires NextAfter(terms, n.term, w) && w in h.reigns
    requires forall i | 0 <= i < |h.reigns[w].init| :: h.reigns[w].init[i].term in terms
    ensures x in Confirming(n, needed) && x in h.reigns[w].voters
  {
    var c :| c in h.certs && c.term == n.term && c.index == n.commitIndex;
    var init := h.reigns[w].init;
    assert CertOk(h, c) && ReignOk(h, w);
    NextInherits(h, c, terms, w);
    PrefixAdjacent(h, n.term, n.commitIndex, |init|);
    assert n.full[..|init|] == init;
    QuorumsMeet(Confirming(n, needed), Ids(n.full, h.boot), h.reigns[w].voters, Ids(init, h.boot));
    x :| x in Confirming(n, needed) && x in h.reigns[w].voters;
  }

  /** A confirmed read was registered before any later leader was elected. */
  lemma {:induction false} NoneLater(h: History, n: Node, needed: nat)
    requires HistoryOk(h) && n.role.Leader? && LeaderOk(h, n) && n.members.Keys == Ids(n.full, h.boot)
    requires VotesOk(h, n) && n.commitIndex > |h.reigns[n.term].init| && (n.term, needed) in h.readPoints
    requires |Confirming(n, needed)| >= Majority(n.members.Keys)
    ensures forall w | w in h.readPoints[(n.term, needed)].reigns :: w <= n.term
  {
    var p := h.readPoints[(n.term, needed)];
    assert ReadPointOk(h, (n.term, needed));
    if v :| v in p.reigns && v > n.term {
      var w := HasNext(p.reigns, n.term, v);
      var x := ConfirmerVotes(h, n, needed, p.reigns, w);
      Disenfranchised(h, n, x, needed, w);
      assert false;
    }
  }

  /** Nobody who confirmed had voted in a later term by then. */
  lemma {:induction false} Disenfranchised(h: History, n: Node, x: NodeId, needed: nat, w: Term)
    requires n.role.Leader? && LeaderOk(h, n) && VotesOk(h, n) && w > n.term
    requires ReadPointOk(h, (n.term, needed)) && x in Confirming(n, needed)
    ensures (x, w) !in h.readPoints[(n.term, needed)].ballots
  {
    if x != n.Id() { assert Answered(h, x, n.term, n.role.acked[x]); }
  }

  /** What the leader answers includes everything any node had committed
      when the read was registered. */
  lemma {:induction false} GrantCovers(h: History, n: Node, r: PendingRead)
    requires HistoryOk(h) && n.role.Leader? && LeaderOk(h, n) && n.members.Keys == Ids(n.full, h.boot)
    requires VotesOk(h, n) && n.lastApplied == n.commitIndex
    requires WaitOk(h, n.term, r) && Grantable(n, r)
    ensures AnswerOk(h, ReadGranted(n.term, r.needed, n.lastApplied))
  {
    NoneLater(h, n, r.needed);
  }
}
