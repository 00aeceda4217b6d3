/** The leader appends: an admitted proposal extends its reign and keeps the
    invariant, and an admitted configuration change passes the gate. */
module Leaders {
  import opened Types
  import opened Quorum
  import opened Storage
  import opened Rpc
  import opened Node
  import opened NodeInvariant
  import opened History
  import opened Completeness
  import opened Growth
  import opened Cluster
  import opened Invariant
  import opened Frame
  import opened Election
  import opened Followers

  // ---- proposing ----

  function EntryFor(n: Node, command: Command): LogEntry {
    LogEntry(n.term, |n.full| + 1, command)
  }

  lemma {:induction false} EntryExtends(h: History, n: Node, command: Command)
    requires n.role.Leader? && LeaderOk(h, n)
    ensures Extends(h, WithEntry(h, n, command), n.Id()) && n.term in WithEntry(h, n, command).reigns
    ensures LeaderLog(WithEntry(h, n, command), n.term) == n.full + [EntryFor(n, command)]
  {
    var h' := WithEntry(h, n, command);
    assert ReignGrows(h.reigns[n.term], h'.reigns[n.term]);
  }

  lemma {:induction false} EntryReign(h: History, n: Node, command: Command)
    requires WellFormed(h) && LogOk(h, n) && n.role.Leader? && LeaderOk(h, n)
    ensures ReignOk(WithEntry(h, n, command), n.term)
  {
    var h', t, r := WithEntry(h, n, command), n.term, h.reigns[n.term];
    assert ReignOk(h, t);
    EntryExtends(h, n, command);
    ExtendsGrows(h, h', n.Id());
    AppendCanonical(h, h', n.full, EntryFor(n, command));
    ElectedGrows(h, h', t, r.init, r.voters);
    forall q | q in r.voters ensures h'.ballots[(q, t)].candidate == r.leader {
      assert h'.ballots[(q, t)] == h.ballots[(q, t)];
    }
  }

  /** The admission rules are exactly what a gate needs: one change in flight
      at most, after this term's no-op committed, and one member at a time. */
  lemma {:induction false} AdmittedGate(h: History, n: Node, command: Command, recent: set<NodeId>)
    requires Good(h, n) && n.role.Leader? && command.ConfigChange?
    requires ValidateConfigChange(n, command.members, recent).None?
    ensures GateOk(WithEntry(h, n, command), n.term, |n.full|)
  {
    hide BodyOk, LogOk, AcksKept, VotesOk, AnswerOk, Committed, RecordsOk;
    CommittedConfig(n);
    ConfigAppended(n.full, EntryFor(n, command), h.boot);
    var c :| c in h.certs && c.term == n.term && c.index == n.commitIndex;
    GateOpens(h, n, command, c);
  }

  lemma {:induction false} CommittedConfig(n: Node)
    requires NodeInv(n)
    ensures n.membersIndex <= n.commitIndex ==> ConfigIndex(n.full) <= n.commitIndex
  {
  }

  lemma {:induction false} ConfigAppended(log: Log, e: LogEntry, boot: set<NodeId>)
    requires e.command.ConfigChange?
    ensures Ids(log + [e], boot) == e.command.members.Keys
  {
    LatestOfConcat(log, [e]);
    ConfigOfOne(e);
    assert LatestConfig([e]) == Some(e.command.members);
  }

  lemma {:induction false} GateOpens(h: History, n: Node, command: Command, c: Cert)
    requires WellFormed(h) && n.role.Leader? && n.term in h.reigns && h.reigns[n.term].log == n.full
    requires c in h.certs && c.term == n.term && ConfigIndex(n.full) <= c.index
    requires Adjacent(Ids(n.full, h.boot), Ids(n.full + [EntryFor(n, command)], h.boot))
    ensures var h' := WithEntry(h, n, command);
      && n.term in h'.reigns && |n.full| < |h'.reigns[n.term].log| && GateOk(h', n.term, |n.full|)
  {
    var h', t, k := WithEntry(h, n, command), n.term, |n.full|;
    var log' := h'.reigns[t].log;
    assert log'[..k] == n.full && log'[..k + 1] == log';
    assert CertOk(h, c);
    assert Gates(h', t, k, c);
  }

  lemma {:induction false} EntryParts(h: History, h': History, n: Node)
    requires n.term in h.reigns && n.term in h'.reigns && ReignGrows(h.reigns[n.term], h'.reigns[n.term])
    requires |h'.reigns[n.term].log| == |h.reigns[n.term].log| + 1 && ReignOk(h', n.term)
    requires h'.reigns == h.reigns[n.term := h'.reigns[n.term]] && h'.ballots == h.ballots && h'.certs == h.certs
    requires forall a | a in h'.acks && a !in h.acks :: a.node == n.Id() && a.term == n.term && AckOk(h', a)
    requires forall t | (n.Id(), t) in h.ballots :: t <= n.term
    requires forall t | t in h.reigns && n.Id() in h.reigns[t].voters :: t <= n.term
    requires var k := |h.reigns[n.term].log|; h'.reigns[n.term].log[k].command.ConfigChange? ==> GateOk(h', n.term, k)
    ensures NewPartsOk(h, h')
  {
    hide ReignOk, GateOk, AckOk, BallotKeeps, Canonical;
  }

  lemma {:induction false} EntryWellFormed(h: History, n: Node, command: Command)
    requires WellFormed(h) && VotesOk(h, n) && n.role.Leader? && LeaderOk(h, n)
    requires ReignOk(WithEntry(h, n, command), n.term)
    requires command.ConfigChange? ==> GateOk(WithEntry(h, n, command), n.term, |n.full|)
    ensures WellFormed(WithEntry(h, n, command))
  {
    var h' := WithEntry(h, n, command);
    EntryExtends(h, n, command);
    ExtendsGrows(h, h', n.Id());
    assert AckOk(h', Ack(n.Id(), n.term, |n.full| + 1));
    forall t | t in h.reigns && n.Id() in h.reigns[t].voters ensures t <= n.term {
      NoLaterVoter(h, n, t);
    }
    hide WellFormed, ReignOk, GateOk, AckOk, Extends, Grows, NewPartsOk;
    EntryParts(h, h', n);
    StaysWellFormed(h, h');
  }

  lemma {:induction false} ReadPointUnder(h: History, h': History, k: (Term, nat))
    requires ReadPointOk(h, k) && k in h'.readPoints && h'.readPoints[k] == h.readPoints[k]
    requires h'.reigns.Keys == h.reigns.Keys && h.ballots.Keys <= h'.ballots.Keys
    requires forall t | t in h.reigns :: ReignGrows(h.reigns[t], h'.reigns[t])
    ensures ReadPointOk(h', k)
  {
    assert ReignGrows(h.reigns[k.0], h'.reigns[k.0]);
    var p := h.readPoints[k];
    forall w, q | w in p.reigns && w in h'.reigns && q in h'.reigns[w].voters ensures (q, w) in p.ballots {
      assert ReignGrows(h.reigns[w], h'.reigns[w]);
    }
    forall w, i | w in p.reigns && w in h'.reigns && 0 <= i < |h'.reigns[w].init|
      ensures h'.reigns[w].init[i].term in p.reigns
    {
      assert ReignGrows(h.reigns[w], h'.reigns[w]);
      assert h.reigns[w].init[i].term in p.reigns;
    }
  }

  lemma {:induction false} EntryRecords(h: History, n: Node, command: Command)
    requires RecordsOk(h) && n.role.Leader? && LeaderOk(h, n)
    ensures RecordsOk(WithEntry(h, n, command))
  {
    var h' := WithEntry(h, n, command);
    EntryExtends(h, n, command);
    forall k | k in h'.ballots ensures BallotFair(h', k) { assert BallotFair(h, k); }
    forall k | k in h'.readPoints ensures ReadPointOk(h', k) {
      assert ReadPointOk(h, k);
      ReadPointUnder(h, h', k);
    }
    forall c | c in h'.campaigns ensures CampaignOk(h', c) { assert CampaignOk(h, c); }
    forall t | t in h'.reigns ensures ReignRecorded(h', t) { assert ReignRecorded(h, t); }
  }

  lemma {:induction false} EntryLeader(h: History, n: Node, n': Node, command: Command)
    requires n.role.Leader? && LeaderOk(h, n) && n'.role == n.role && n'.config == n.config && n'.term == n.term
    requires n'.commitIndex == n.commitIndex && n'.full == n.full + [EntryFor(n, command)]
    ensures LeaderOk(WithEntry(h, n, command), n')
  {
    var h' := WithEntry(h, n, command);
    EntryExtends(h, n, command);
    if n.commitIndex > |h.reigns[n.term].init| {
      var c :| c in h.certs && c.term == n.term && c.index == n.commitIndex;
      assert c in h'.certs;
    }
    forall p | p in n.role.acked ensures Answered(h', p, n.term, n.role.acked[p]) {
      AnsweredGrows(h, h', n.Id(), p, n.term, n.role.acked[p]);
    }
    forall r | r in n.role.waiting ensures WaitOk(h', n.term, r) {
      WaitGrows(h, h', n.Id(), n.term, r);
    }
  }

  lemma {:induction false} ExtendedIds(n: Node, n': Node, boot: set<NodeId>, e: LogEntry)
    requires MembersOk(n) && MembersOk(n') && n'.config == n.config && n'.full == n.full + [e]
    requires n.members.Keys == Ids(n.full, boot)
    ensures n'.members.Keys == Ids(n'.full, boot)
  {
    LatestOfConcat(n.full, [e]);
    ConfigOfOne(e);
  }

  lemma {:induction false} EntryLog(h: History, n: Node, n': Node, command: Command)
    requires LogOk(h, n) && n.role.Leader? && LeaderOk(h, n) && n'.term == n.term
    requires n'.full == n.full + [EntryFor(n, command)]
    ensures LogOk(WithEntry(h, n, command), n')
  {
    var h' := WithEntry(h, n, command);
    EntryExtends(h, n, command);
    ExtendsGrows(h, h', n.Id());
    AppendCanonical(h, h', n.full, EntryFor(n, command));
  }

  lemma {:induction false} ProposedNodeOk(h: History, n: Node, n': Node, command: Command)
    requires Good(h, n) && n.role.Leader? && NodeInv(n')
    requires n'.role == n.role && n'.config == n.config && n'.term == n.term && n'.votedFor == n.votedFor
    requires n'.commitIndex == n.commitIndex && n'.answers == n.answers
    requires n'.full == n.full + [EntryFor(n, command)]
    ensures NodeOk(WithEntry(h, n, command), n')
  {
    hide HistoryOk, BodyOk, AnswerOk, Extends, LogOk, LeaderOk;
    var h' := WithEntry(h, n, command);
    EntryExtends(h, n, command);
    OwnGrows(h, h', n);
    EntryLog(h, n, n', command);
    ExtendedAcks(h, n, n');
    OwnAck(h, h', n', |n.full| + 1);
    ExtendedIds(n, n', h.boot, EntryFor(n, command));
    EntryLeader(h, n, n', command);
    assert n'.full[..n.commitIndex] == n.full[..n.commitIndex];
    CommittedOf(h', n.term, n.full, n.commitIndex, n.term, n'.full, n.commitIndex);
  }

  /** A leader appending an admitted proposal. */
  lemma {:induction false} ProposeGood(h: History, n: Node, command: Command, recent: set<NodeId>)
    requires Good(h, n) && AdmitProposal(n, command, recent).Accepted?
    ensures Leads(h, n, WithEntry(h, n, command), AppendProposal(n, command))
  {
    hide NodeInv, Extends, AnswerOk, LogOk, LeaderOk, AppendProposal;
    if command.ConfigChange? { AdmittedGate(h, n, command, recent); }
    EntryReign(h, n, command);
    EntryWellFormed(h, n, command);
    EntryRecords(h, n, command);
    EntryExtends(h, n, command);
    ProposedIs(n, command) by { assert NodeInv(n); NodeRepresents(n); }
    ProposedOk(n, command);
    ProposedNodeOk(h, n, Proposed(n, command), command);
  }
}
