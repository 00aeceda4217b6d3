module Completeness {
  // Leader completeness and election safety for any well-formed history.

  import opened Types
  import opened Quorum
  import opened History

  /** Log Matching (section 5.3 of the Raft paper): same term at one index, same prefix. */
  lemma {:induction false} LogMatching(h: History, a: Log, b: Log, i: LogIndex)
    requires Canonical(h, a) && Canonical(h, b)
    requires i <= |a| && i <= |b| && TermAt(a, i) == TermAt(b, i)
    ensures a[..i] == b[..i]
  {
    if i > 0 {
      assert Rooted(h, a, i - 1) && Rooted(h, b, i - 1);
    }
  }

  /** Length of the longest common prefix. */
  function Common(a: Log, b: Log): (d: nat)
    ensures d <= |a| && d <= |b| && a[..d] == b[..d]
    ensures d < |a| && d < |b| ==> a[d] != b[d]
  {
    if |a| == 0 || |b| == 0 || a[0] != b[0] then 0
    else
      var d := Common(a[1..], b[1..]) + 1;
      assert a[..d] == [a[0]] + a[1..][..d - 1];
      assert b[..d] == [b[0]] + b[1..][..d - 1];
      assert d < |a| ==> a[d] == a[1..][d - 1];
      assert d < |b| ==> b[d] == b[1..][d - 1];
      d
  }

  lemma {:induction false} CommonIsLongest(a: Log, b: Log, m: nat)
    requires m <= |a| && m <= |b| && a[..m] == b[..m]
    ensures m <= Common(a, b)
  {
    forall k | 0 <= k < m ensures a[k] == b[k] { assert a[..m][k] == b[..m][k]; }
  }

  /** The first ConfigChange beyond the first d entries. */
  lemma {:induction false} FirstConfig(log: Log, d: nat) returns (b: LogIndex)
    requires d < ConfigIndex(log)
    ensures d < b <= ConfigIndex(log)
    ensures log[b - 1].command.ConfigChange?
    ensures ConfigIndex(log[..b - 1]) == ConfigIndex(log[..d])
    ensures log[..b - 1][..d] == log[..d]
    ensures LatestConfig(log[..b - 1]) == LatestConfig(log[..d])
    decreases |log|
  {
    var c := ConfigIndex(log);
    var before := log[..c - 1];
    if d < ConfigIndex(before) {
      b := FirstConfig(before, d);
      assert before[..b - 1] == log[..b - 1];
      assert before[..d] == log[..d];
    } else {
      b := c;
      assert before[..d] == log[..d];
      SameConfig(before, d);
    }
  }

  ghost function Promise(h: History, c: Cert): Log
    requires CertOk(h, c)
  {
    h.reigns[c.term].log[..c.index]
  }

  ghost function Seen(h: History, c: Cert): Log
    requires CertOk(h, c)
  {
    h.reigns[c.term].log[..c.length]
  }

  /** A leader's own entries start where its inherited log ends. */
  lemma {:induction false} BeyondInit(h: History, t: Term, k: nat)
    requires WellFormed(h) && t in h.reigns
    requires k < |h.reigns[t].log| && h.reigns[t].log[k].term == t
    ensures |h.reigns[t].init| <= k
  {
    var r := h.reigns[t];
    assert ReignOk(h, t);
    assert forall j | 0 <= j < |r.init| :: r.log[j] == r.init[j];
  }

  lemma {:induction false} PrefixCanonical(h: History, log: Log, m: nat)
    requires Canonical(h, log) && m <= |log|
    ensures Canonical(h, log[..m])
  {
    forall k | 0 <= k < m
      ensures Rooted(h, log[..m], k)
    {
      assert Rooted(h, log, k);
      assert log[..m][..k + 1] == log[..k + 1];
    }
  }

  /** The ConfigChange at index b of any canonical log was gated by a certificate
      of its own term, covering the configuration before it. */
  lemma {:induction false} GateOf(h: History, log: Log, b: LogIndex) returns (c: Cert)
    requires WellFormed(h) && Canonical(h, log)
    requires 0 < b <= |log| && log[b - 1].command.ConfigChange?
    ensures c in h.certs && CertOk(h, c) && c.term == log[b - 1].term
    ensures log[..b] <= h.reigns[c.term].log
    ensures |h.reigns[c.term].init| < c.index
    ensures ConfigIndex(log[..b - 1]) <= c.index <= c.length < b
    ensures Adjacent(Ids(log[..b - 1], h.boot), Ids(log[..b], h.boot))
  {
    var t := log[b - 1].term;
    assert Rooted(h, log, b - 1);
    var r := h.reigns[t];
    assert r.log[b - 1] == log[b - 1];
    BeyondInit(h, t, b - 1);
    assert GateOk(h, t, b - 1);
    c :| Gates(h, t, b - 1, c);
    assert r.log[..b - 1] == log[..b - 1] && r.log[..b] == log[..b];
    assert CertOk(h, c);
  }

  /** A ConfigChange at b that is not the latest was committed before the
      next one, at b2, was appended. */
  lemma {:induction false} SecondGate(h: History, log: Log, b: LogIndex) returns (g: Cert, b2: LogIndex)
    requires WellFormed(h) && Canonical(h, log)
    requires 0 < b < ConfigIndex(log) && log[b - 1].command.ConfigChange?
    ensures b < b2 <= ConfigIndex(log)
    ensures g in h.certs && CertOk(h, g) && g.term == log[b2 - 1].term
    ensures log[..b2] <= h.reigns[g.term].log
    ensures |h.reigns[g.term].init| < g.index
    ensures b <= g.index <= g.length < b2
  {
    b2 := FirstConfig(log, b);
    g := GateOf(h, log, b2);
    ConfigIndexUnique(log[..b], b);
  }

  /** A log that ends at (or contains) an entry of term t at index i holds the
      leader of t's log through i, its inherited part included. */
  lemma {:induction false} HoldsInit(h: History, log: Log, i: LogIndex)
    requires WellFormed(h) && Canonical(h, log)
    requires 0 < i <= |log|
    ensures var t := log[i - 1].term;
      && t in h.reigns && |h.reigns[t].init| < i
      && h.reigns[t].init <= log && log[..i] <= h.reigns[t].log
  {
    var t := log[i - 1].term;
    assert Rooted(h, log, i - 1);
    var r := h.reigns[t];
    assert ReignOk(h, t);
    assert r.log[i - 1] == log[i - 1];
    BeyondInit(h, t, i - 1);
  }

  ghost predicate Own(h: History, t: Term, log: Log, voters: set<NodeId>) {
    t in h.reigns && log == h.reigns[t].init && voters == h.reigns[t].voters
  }

  ghost function Rank(h: History, t: Term, log: Log, voters: set<NodeId>): nat {
    if Own(h, t, log, voters) then 0 else 1
  }

  /** A node that both supported the commit and elected the later leader
      carries the committed prefix over. */
  lemma {:induction false} Carrier(h: History, t: Term, log: Log, voters: set<NodeId>, c: Cert, x: NodeId)
    requires WellFormed(h) && c in h.certs && c.term < t && Elected(h, t, log, voters)
    requires x in c.quorum && x in voters
    ensures Promise(h, c) <= log
    decreases t, Rank(h, t, log, voters), c.term, ConfigIndex(Seen(h, c)), 1
  {
    assert CertOk(h, c);
    var p := Promise(h, c);
    assert Acked(h, x, c.term, c.index);
    var j :| j >= c.index && Ack(x, c.term, j) in h.acks;
    var b := h.ballots[(x, t)].log;
    var until := if Own(h, t, log, voters) then t - 1 else t;
    assert BallotKeeps(h, Ack(x, c.term, j), t, until);
    assert Keeps(h, c.term, c.index, b, until);
    if p <= b {
      CarriedByBallot(h, t, log, voters, c, b);
    } else {
      var u :| c.term < u <= until && u in h.reigns && !(p <= h.reigns[u].init);
      assert ReignOk(h, u);
      Complete(h, u, h.reigns[u].init, h.reigns[u].voters, c);
    }
  }

  lemma {:induction false} CarriedByBallot(h: History, t: Term, log: Log, voters: set<NodeId>, c: Cert, b: Log)
    requires WellFormed(h) && c in h.certs && c.term < t && Elected(h, t, log, voters)
    requires Canonical(h, b) && UpToDate(LastTerm(log), |log|, LastTerm(b), |b|)
    requires CertOk(h, c) && Promise(h, c) <= b
    ensures Promise(h, c) <= log
    decreases t, Rank(h, t, log, voters), c.term, ConfigIndex(Seen(h, c)), 0
  {
    var p := Promise(h, c);
    PromiseReached(h, c, b);
    assert |log| > 0;
    HoldsInit(h, log, |log|);
    assert log[..|log|] == log;
    var w := LastTerm(log);
    if w == c.term {
      HoldsInit(h, b, |b|);
      assert |log| >= |b| >= c.index;
      assert p == log[..c.index];
    } else {
      assert ReignOk(h, w);
      Complete(h, w, h.reigns[w].init, h.reigns[w].voters, c);
    }
  }

  lemma {:induction false} PromiseReached(h: History, c: Cert, b: Log)
    requires WellFormed(h) && CertOk(h, c) && Canonical(h, b) && Promise(h, c) <= b
    ensures c.term in h.reigns && 0 < c.index <= |b| && c.term > 0 && c.term <= LastTerm(b)
  {
    var p := Promise(h, c);
    assert ReignOk(h, c.term);
    assert b[c.index - 1] == p[c.index - 1] && p[c.index - 1].term == c.term;
    BallotTermBound(h, b, c.index);
  }

  lemma {:induction false} BallotTermBound(h: History, b: Log, i: LogIndex)
    requires WellFormed(h) && Canonical(h, b) && 0 < i <= |b|
    ensures b[i - 1].term <= LastTerm(b)
  {
    HoldsInit(h, b, |b|);
    var l := h.reigns[LastTerm(b)].log;
    assert ReignOk(h, LastTerm(b));
    assert b[..|b|] == b;
    assert l[i - 1] == b[i - 1] && l[|b| - 1] == b[|b| - 1];
  }

  /** Same or adjacent configurations, unless the promise already holds. */
  lemma {:induction false} Overlap(h: History, t: Term, log: Log, voters: set<NodeId>, c: Cert)
    requires WellFormed(h) && c in h.certs && c.term < t && Elected(h, t, log, voters)
    ensures CertOk(h, c)
    ensures Promise(h, c) <= log || Adjacent(Ids(Seen(h, c), h.boot), Ids(log, h.boot))
    decreases t, Rank(h, t, log, voters), c.term, ConfigIndex(Seen(h, c)), 2
  {
    assert CertOk(h, c);
    var seen := Seen(h, c);
    var d := Common(seen, log);
    SeenIsCanonical(h, c);
    if Promise(h, c) <= log {
    } else if ConfigIndex(seen) <= d && ConfigIndex(log) <= d {
      SameConfig(seen, d);
      SameConfig(log, d);
    } else if ConfigIndex(seen) <= d {
      OverlapAhead(h, t, log, voters, c);
    } else if ConfigIndex(log) <= d {
      OverlapBehind(h, t, log, voters, c);
    } else {
      Diverged(h, t, log, voters, c);
    }
  }

  lemma {:induction false} SeenIsCanonical(h: History, c: Cert)
    requires WellFormed(h) && c in h.certs && CertOk(h, c)
    ensures Canonical(h, Seen(h, c)) && SortedTerms(Seen(h, c))
    ensures h.reigns[c.term].init <= Seen(h, c) && Promise(h, c) <= Seen(h, c)
  {
    assert ReignOk(h, c.term);
    PrefixCanonical(h, h.reigns[c.term].log, c.length);
  }

  /** A ConfigChange of the new leader's log that is not its latest. */
  lemma {:induction false} AheadShares(h: History, t: Term, log: Log, voters: set<NodeId>, c: Cert, b: LogIndex)
    requires WellFormed(h) && c in h.certs && c.term < t && Elected(h, t, log, voters)
    requires CertOk(h, c)
    requires 0 < b < ConfigIndex(log) && log[b - 1].command.ConfigChange?
    ensures Promise(h, c) <= log || log[..b] <= Seen(h, c)
    decreases t, Rank(h, t, log, voters), c.term, ConfigIndex(Seen(h, c)), 0
  {
    hide BallotsOk, GatesOk, Canonical;
    var g, b2 := SecondGate(h, log, b);
    assert log[b2 - 1].term < t;
    var r, rc := h.reigns[g.term], h.reigns[c.term];
    assert ReignOk(h, g.term) && ReignOk(h, c.term);
    if g.term > c.term {
      Complete(h, g.term, r.init, r.voters, c);
      assert r.init <= log;
    } else if g.term < c.term {
      Complete(h, c.term, rc.init, rc.voters, g);
      ShareFromEarlier(h, c, g, log, b);
    } else {
      ShareFromSame(h, c, log, b, b2);
    }
  }

  lemma {:induction false} ShareFromEarlier(h: History, c: Cert, g: Cert, log: Log, b: LogIndex)
    requires WellFormed(h) && c in h.certs && CertOk(h, c) && CertOk(h, g)
    requires b <= |log| && b <= g.index && log[..b] <= h.reigns[g.term].log
    requires Promise(h, g) <= h.reigns[c.term].init
    ensures log[..b] <= Seen(h, c)
  {
    SeenIsCanonical(h, c);
    assert log[..b] == h.reigns[g.term].log[..b];
  }

  lemma {:induction false} ShareFromSame(h: History, c: Cert, log: Log, b: LogIndex, b2: LogIndex)
    requires WellFormed(h) && c in h.certs && CertOk(h, c)
    requires b < b2 <= |log| && log[..b2] <= h.reigns[c.term].log
    ensures Promise(h, c) <= log || log[..b] <= Seen(h, c)
  {
    var l := h.reigns[c.term].log;
    if b <= c.length {
      assert log[..b] == l[..b];
    } else {
      assert log[..c.index] == l[..c.index];
    }
  }

  /** Only the new leader's log has configurations beyond the common prefix. */
  lemma {:induction false} OverlapAhead(h: History, t: Term, log: Log, voters: set<NodeId>, c: Cert)
    requires WellFormed(h) && c in h.certs && c.term < t && Elected(h, t, log, voters)
    requires CertOk(h, c)
    requires ConfigIndex(Seen(h, c)) <= Common(Seen(h, c), log) < ConfigIndex(log)
    ensures Promise(h, c) <= log || Adjacent(Ids(Seen(h, c), h.boot), Ids(log, h.boot))
    decreases t, Rank(h, t, log, voters), c.term, ConfigIndex(Seen(h, c)), 1
  {
    var seen := Seen(h, c);
    var d := Common(seen, log);
    SameConfig(seen, d);
    var b := FirstConfig(log, d);
    if b == ConfigIndex(log) {
      var _ := GateOf(h, log, b);
      SameConfig(log, b);
    } else {
      AheadShares(h, t, log, voters, c, b);
      if log[..b] <= seen {
        CommonIsLongest(seen, log, b);
      }
    }
  }

  /** Two prefixes of one log: the shorter is common. */
  lemma {:induction false} PrefixesOfOne(a: Log, b: Log, l: Log, i: nat, j: nat)
    requires i <= |a| && j <= |b| && a[..i] <= l && b[..j] <= l
    ensures (if i <= j then i else j) <= Common(a, b)
  {
    var m := if i <= j then i else j;
    assert a[..m] == l[..m] == b[..m];
    CommonIsLongest(a, b, m);
  }

  /** A ConfigChange the committing leader saw that was not its latest. */
  lemma {:induction false} BehindShares(h: History, t: Term, log: Log, voters: set<NodeId>, c: Cert, b: LogIndex)
    requires WellFormed(h) && c in h.certs && c.term < t && Elected(h, t, log, voters)
    requires CertOk(h, c)
    requires 0 < b < ConfigIndex(Seen(h, c)) && Seen(h, c)[b - 1].command.ConfigChange?
    ensures Seen(h, c)[..b] <= log
    decreases t, Rank(h, t, log, voters), c.term, ConfigIndex(Seen(h, c)), 0
  {
    var seen := Seen(h, c);
    SeenIsCanonical(h, c);
    var g, b2 := SecondGate(h, seen, b);
    Earlier(h, c, b2, g);
    Complete(h, t, log, voters, g);
    assert seen[..b] == h.reigns[g.term].log[..b];
  }

  /** Only the committing leader's log has configurations beyond the common prefix. */
  lemma {:induction false} OverlapBehind(h: History, t: Term, log: Log, voters: set<NodeId>, c: Cert)
    requires WellFormed(h) && c in h.certs && c.term < t && Elected(h, t, log, voters)
    requires CertOk(h, c)
    requires ConfigIndex(log) <= Common(Seen(h, c), log) < ConfigIndex(Seen(h, c))
    ensures Adjacent(Ids(Seen(h, c), h.boot), Ids(log, h.boot))
    decreases t, Rank(h, t, log, voters), c.term, ConfigIndex(Seen(h, c)), 1
  {
    var seen := Seen(h, c);
    var d := Common(seen, log);
    SeenIsCanonical(h, c);
    SameConfig(log, d);
    var b := FirstConfig(seen, d);
    if b == ConfigIndex(seen) {
      var _ := GateOf(h, seen, b);
      SameConfig(seen, b);
    } else {
      BehindShares(h, t, log, voters, c, b);
      CommonIsLongest(seen, log, b);
    }
  }

  /** A gate inside what c saw comes before c in the induction. */
  lemma {:induction false} Earlier(h: History, c: Cert, b: LogIndex, g: Cert)
    requires WellFormed(h) && c in h.certs && g in h.certs && CertOk(h, c) && CertOk(h, g)
    requires 0 < b <= ConfigIndex(Seen(h, c)) && g.term == Seen(h, c)[b - 1].term && g.length < b
    ensures g.term <= c.term
    ensures g.term == c.term ==> ConfigIndex(Seen(h, g)) < ConfigIndex(Seen(h, c))
  {
    SeenIsCanonical(h, c);
    var r := h.reigns[c.term];
    assert ReignOk(h, c.term);
    assert Seen(h, c)[b - 1] == r.log[b - 1];
    assert b - 1 < |r.init| ==> r.log[b - 1] == r.init[b - 1];
  }

  /** Both logs have configurations beyond the common prefix: then
      a leader between the two carried the promise over. */
  lemma {:induction false} Diverged(h: History, t: Term, log: Log, voters: set<NodeId>, c: Cert)
    requires WellFormed(h) && c in h.certs && c.term < t && Elected(h, t, log, voters)
    requires CertOk(h, c)
    requires Common(Seen(h, c), log) < ConfigIndex(Seen(h, c))
    requires Common(Seen(h, c), log) < ConfigIndex(log)
    ensures Promise(h, c) <= log
    decreases t, Rank(h, t, log, voters), c.term, ConfigIndex(Seen(h, c)), 0
  {
    var seen := Seen(h, c);
    var d := Common(seen, log);
    SeenIsCanonical(h, c);
    var b := FirstConfig(seen, d);
    var b' := FirstConfig(log, d);
    var g := GateOf(h, seen, b);
    var g' := GateOf(h, log, b');
    assert CertOk(h, g) && CertOk(h, g');
    Earlier(h, c, b, g);
    var s, s' := g.term, g'.term;
    if s == s' {
      PrefixesOfOne(seen, log, h.reigns[s].log, b, b');
    } else if s < s' {
      var r' := h.reigns[s'];
      assert ReignOk(h, s') && ReignOk(h, c.term);
      if c.term > s' {
        Complete(h, c.term, h.reigns[c.term].init, h.reigns[c.term].voters, g');
        InOrder(h, seen, b, g');
        PrefixesOfOne(seen, log, r'.log, b, b');
      } else if c.term == s' {
        PrefixesOfOne(seen, log, r'.log, c.length, b');
      } else {
        Complete(h, s', r'.init, r'.voters, c);
        HoldsInit(h, log, b');
      }
    } else {
      Complete(h, t, log, voters, g);
      InOrder(h, log, b', g);
      PrefixesOfOne(seen, log, h.reigns[s].log, b, b');
    }
  }

  /** In a log that holds g's promise, entries of earlier terms lie inside it. */
  lemma {:induction false} InOrder(h: History, log: Log, b: LogIndex, g: Cert)
    requires WellFormed(h) && g in h.certs && CertOk(h, g) && SortedTerms(log)
    requires Promise(h, g) <= log && 0 < b <= |log| && log[b - 1].term < g.term
    ensures b < g.index && log[..b] <= h.reigns[g.term].log
  {
    var l := h.reigns[g.term].log;
    assert ReignOk(h, g.term);
    assert log[g.index - 1] == l[g.index - 1] && l[g.index - 1].term == g.term;
    assert log[..b] == l[..b];
  }

  /** LEADER COMPLETENESS. Whatever a leader committed in an earlier term is in
      the log of everyone elected later, whatever configurations were in effect. */
  lemma {:induction false} Complete(h: History, t: Term, log: Log, voters: set<NodeId>, c: Cert)
    requires WellFormed(h) && c in h.certs && c.term < t && Elected(h, t, log, voters)
    ensures CertOk(h, c) && Promise(h, c) <= log
    decreases t, Rank(h, t, log, voters), c.term, ConfigIndex(Seen(h, c)), 3
  {
    Overlap(h, t, log, voters, c);
    if !(Promise(h, c) <= log) {
      QuorumsMeet(c.quorum, Ids(Seen(h, c), h.boot), voters, Ids(log, h.boot));
      var x :| x in c.quorum && x in voters;
      Carrier(h, t, log, voters, c, x);
    }
  }

  /** A ConfigChange in one claimant's log that is not its latest is in the other's log. */
  lemma {:induction false} RivalShares(h: History, t: Term, a: Log, q: set<NodeId>, b: Log, k: LogIndex)
    requires WellFormed(h) && Elected(h, t, a, q) && Canonical(h, b) && TermsBelow(b, t)
    requires 0 < k < ConfigIndex(b) && b[k - 1].command.ConfigChange?
    ensures b[..k] <= a
  {
    var g, k2 := SecondGate(h, b, k);
    assert b[k2 - 1].term < t;
    Complete(h, t, a, q, g);
    assert b[..k] == h.reigns[g.term].log[..k];
  }

  /** Two claimants of one term whose logs diverge before a ConfigChange in each
      have the older of the two changes in common. */
  lemma {:induction false} RivalDiverged(h: History, t: Term, a: Log, q: set<NodeId>, b: Log, i: LogIndex, j: LogIndex)
    requires WellFormed(h) && Elected(h, t, a, q) && Canonical(h, b) && TermsBelow(b, t)
    requires 0 < i <= |a| && a[i - 1].command.ConfigChange?
    requires 0 < j <= |b| && b[j - 1].command.ConfigChange?
    requires a[i - 1].term <= b[j - 1].term
    ensures (if i <= j then i else j) <= Common(a, b)
  {
    var g := GateOf(h, b, j);
    var l := h.reigns[g.term].log;
    if a[i - 1].term == g.term {
      assert Rooted(h, a, i - 1);
    } else {
      Complete(h, t, a, q, g);
      InOrder(h, a, i, g);
    }
    PrefixesOfOne(a, b, l, i, j);
  }

  lemma CommonSymmetric(a: Log, b: Log)
    ensures Common(a, b) == Common(b, a)
  {
    CommonIsLongest(a, b, Common(b, a));
    CommonIsLongest(b, a, Common(a, b));
  }

  lemma {:induction false} RivalsAdjacent(h: History, t: Term, a: Log, q: set<NodeId>, b: Log, r: set<NodeId>)
    requires WellFormed(h) && Elected(h, t, a, q) && Elected(h, t, b, r)
    requires ConfigIndex(a) <= Common(a, b)
    ensures Adjacent(Ids(a, h.boot), Ids(b, h.boot))
  {
    var d := Common(a, b);
    SameConfig(a, d);
    if ConfigIndex(b) <= d {
      SameConfig(b, d);
    } else {
      var k := FirstConfig(b, d);
      if k == ConfigIndex(b) {
        var _ := GateOf(h, b, k);
        SameConfig(b, k);
      } else {
        RivalShares(h, t, a, q, b, k);
        CommonIsLongest(a, b, k);
      }
    }
  }

  /** ELECTION SAFETY. Two majorities that elect anyone at one term share a voter,
      whatever configurations the claimants go by. */
  lemma {:induction false} ElectionSafety(h: History, t: Term, a: Log, q: set<NodeId>, b: Log, r: set<NodeId>)
    requires WellFormed(h) && Elected(h, t, a, q) && Elected(h, t, b, r)
    ensures exists x :: x in q && x in r
  {
    var d := Common(a, b);
    CommonSymmetric(a, b);
    if ConfigIndex(a) <= d {
      RivalsAdjacent(h, t, a, q, b, r);
    } else if ConfigIndex(b) <= d {
      RivalsAdjacent(h, t, b, r, a, q);
    } else {
      var i := FirstConfig(a, d);
      var j := FirstConfig(b, d);
      if a[i - 1].term <= b[j - 1].term {
        RivalDiverged(h, t, a, q, b, i, j);
      } else {
        RivalDiverged(h, t, b, r, a, j, i);
      }
    }
    QuorumsMeet(q, Ids(a, h.boot), r, Ids(b, h.boot));
  }

  /** The first k entries of a log are committed: some certificate of a term no
      later than t covers them. */
  ghost predicate Committed(h: History, t: Term, log: Log, k: LogIndex) {
    k <= |log| && (k > 0 ==> exists c :: Covers(h, c, t, log, k))
  }

  ghost predicate Covers(h: History, c: Cert, t: Term, log: Log, k: LogIndex) {
    && c in h.certs && c.term <= t && CertOk(h, c)
    && k <= c.index && k <= |log| && log[..k] <= Promise(h, c)
  }

  /** Every leader of that term or a later one holds what is committed. */
  lemma {:induction false} CommittedInLeader(h: History, t: Term, log: Log, k: LogIndex, u: Term)
    requires WellFormed(h) && Committed(h, t, log, k) && t <= u && u in h.reigns
    ensures log[..k] <= h.reigns[u].log
    ensures u > t ==> log[..k] <= h.reigns[u].init
  {
    if k > 0 {
      var c :| Covers(h, c, t, log, k);
      assert ReignOk(h, u);
      if c.term < u {
        Complete(h, u, h.reigns[u].init, h.reigns[u].voters, c);
      }
    }
  }

  lemma {:induction false} PromisesAgree(h: History, c: Cert, e: Cert, i: LogIndex)
    requires WellFormed(h) && c in h.certs && e in h.certs && CertOk(h, c) && CertOk(h, e)
    requires c.term <= e.term && i <= c.index && i <= e.index
    ensures Promise(h, c)[..i] == Promise(h, e)[..i]
  {
    var r := h.reigns[e.term];
    assert ReignOk(h, e.term);
    if c.term < e.term {
      Complete(h, e.term, r.init, r.voters, c);
    }
    assert Promise(h, c)[..i] == r.log[..i];
  }

  /** STATE MACHINE SAFETY. Two committed prefixes never disagree. */
  lemma {:induction false} CommittedAgree(h: History, t: Term, a: Log, i: LogIndex, u: Term, b: Log, j: LogIndex)
    requires WellFormed(h) && Committed(h, t, a, i) && Committed(h, u, b, j) && i <= j
    ensures a[..i] <= b
  {
    if i > 0 {
      var c :| Covers(h, c, t, a, i);
      var e :| Covers(h, e, u, b, j);
      if c.term <= e.term {
        PromisesAgree(h, c, e, i);
      } else {
        PromisesAgree(h, e, c, i);
      }
      assert a[..i] == Promise(h, c)[..i];
      assert b[..i] == Promise(h, e)[..i];
    }
  }
}
