module Observer {
  // The network's safety observer: it inspects every AppendEntries sent and
  // records violations of election safety, log matching and message shape.

  import opened Types
  import opened Rpc

  datatype Violation =
    | TwoLeaders(term: Term, known: NodeId, claimant: NodeId)
    | TwoCommands(term: Term, index: LogIndex)
    | BadIndex(leader: NodeId, expected: LogIndex, got: LogIndex)
    | BadTerm(leader: NodeId, index: LogIndex)

  datatype Observed = Observed(
    leaders: map<Term, NodeId>,
    commands: map<(Term, LogIndex), Command>,
    violations: seq<Violation>)

  const NOTHING := Observed(map[], map[], [])

  function SeeClaim(o: Observed, m: Message): Observed
    requires m.AppendReq?
  {
    if m.term !in o.leaders then o.(leaders := o.leaders[m.term := m.from])
    else if o.leaders[m.term] != m.from then
      o.(violations := o.violations + [TwoLeaders(m.term, o.leaders[m.term], m.from)])
    else o
  }

  /** The first malformed entry from position k on, if any. */
  function ShapeFault(m: Message, k: nat, expected: LogIndex, minTerm: Term): Option<Violation>
    requires m.AppendReq?
    decreases |m.entries| - k
  {
    if k >= |m.entries| then None
    else if m.entries[k].index != expected then Some(BadIndex(m.from, expected, m.entries[k].index))
    else if m.entries[k].term < minTerm || m.entries[k].term > m.term then Some(BadTerm(m.from, m.entries[k].index))
    else ShapeFault(m, k + 1, expected + 1, m.entries[k].term)
  }

  function SeeShape(o: Observed, m: Message): Observed
    requires m.AppendReq?
  {
    match ShapeFault(m, 0, m.prevIndex + 1, m.prevTerm)
    case None => o
    case Some(v) => o.(violations := o.violations + [v])
  }

  function SeeEntry(o: Observed, e: LogEntry): Observed {
    var key := (e.term, e.index);
    if key !in o.commands then o.(commands := o.commands[key := e.command])
    else if o.commands[key] != e.command then
      o.(violations := o.violations + [TwoCommands(e.term, e.index)])
    else o
  }

  function SeeEntries(o: Observed, entries: seq<LogEntry>): Observed {
    if |entries| == 0 then o
    else SeeEntry(SeeEntries(o, entries[..|entries| - 1]), entries[|entries| - 1])
  }

  function Inspect(o: Observed, m: Message): Observed {
    if !m.AppendReq? then o else SeeEntries(SeeShape(SeeClaim(o, m), m), m.entries)
  }

  /** The k-th entry continues from the one before it (or from prev), with a
      term no lower than that one's and no higher than the sender's. */
  ghost predicate ShapedAt(m: Message, k: nat)
    requires m.AppendReq? && k < |m.entries|
  {
    && m.entries[k].index == m.prevIndex + 1 + k
    && m.entries[k].term <= m.term
    && (if k == 0 then m.prevTerm else m.entries[k - 1].term) <= m.entries[k].term
  }

  ghost predicate WellShapedFrom(m: Message, k: nat)
    requires m.AppendReq?
  {
    forall j | k <= j < |m.entries| :: ShapedAt(m, j)
  }

  ghost predicate WellShaped(m: Message)
    requires m.AppendReq?
  {
    WellShapedFrom(m, 0)
  }

  lemma {:induction false} ShapeFaultFrom(m: Message, k: nat)
    requires m.AppendReq? && k <= |m.entries|
    ensures ShapeFault(m, k, m.prevIndex + 1 + k, if k == 0 then m.prevTerm else m.entries[k - 1].term).None?
       <==> WellShapedFrom(m, k)
    decreases |m.entries| - k
  {
    if k < |m.entries| {
      ShapeFaultFrom(m, k + 1);
      assert WellShapedFrom(m, k) <==> ShapedAt(m, k) && WellShapedFrom(m, k + 1);
    }
  }

  /** The shape check complains exactly about messages that are not well shaped. */
  lemma {:induction false} ShapeCheckIsExact(o: Observed, m: Message)
    requires m.AppendReq?
    ensures SeeShape(o, m) == o <==> WellShaped(m)
  {
    ShapeFaultFrom(m, 0);
    assert |SeeShape(o, m).violations| == |o.violations| <==> WellShaped(m);
  }

  // ---- what silence means ----

  /** This entry's command is not at odds with what is on record. */
  predicate Fits(o: Observed, e: LogEntry) {
    (e.term, e.index) in o.commands ==> o.commands[(e.term, e.index)] == e.command
  }

  /** Two entries that share a place share their command. */
  predicate Agree(a: LogEntry, b: LogEntry) {
    a.term == b.term && a.index == b.index ==> a.command == b.command
  }

  ghost predicate AllFit(o: Observed, entries: seq<LogEntry>) {
    && (forall k | 0 <= k < |entries| :: Fits(o, entries[k]))
    && (forall j, k | 0 <= j < k < |entries| :: Agree(entries[j], entries[k]))
  }

  /** What the entries add to the record: nothing is dropped, every entry is
      on record, and what is new is some entry's. */
  ghost predicate Recorded(o: Observed, o': Observed, entries: seq<LogEntry>) {
    && o'.leaders == o.leaders
    && (forall p | p in o.commands :: p in o'.commands && o'.commands[p] == o.commands[p])
    && (forall k | 0 <= k < |entries| :: (entries[k].term, entries[k].index) in o'.commands)
    && (forall p | p in o'.commands && p !in o.commands ::
          exists k :: 0 <= k < |entries| && p == (entries[k].term, entries[k].index) && o'.commands[p] == entries[k].command)
  }

  lemma {:induction false} EntriesRecorded(o: Observed, entries: seq<LogEntry>)
    ensures Recorded(o, SeeEntries(o, entries), entries)
  {
    if |entries| > 0 {
      var rest, e := entries[..|entries| - 1], entries[|entries| - 1];
      EntriesRecorded(o, rest);
      var o1, o' := SeeEntries(o, rest), SeeEntries(o, entries);
      forall k | 0 <= k < |entries| ensures (entries[k].term, entries[k].index) in o'.commands {
        if k < |rest| { assert rest[k] == entries[k]; }
      }
      forall p | p in o'.commands && p !in o.commands
        ensures exists k ::
          0 <= k < |entries| && p == (entries[k].term, entries[k].index) && o'.commands[p] == entries[k].command
      {
        if p in o1.commands {
          var k :| 0 <= k < |rest| && p == (rest[k].term, rest[k].index) && o1.commands[p] == rest[k].command;
          assert entries[k] == rest[k];
        } else {
          assert entries[|entries| - 1] == e;
        }
      }
    }
  }

  /** While nothing clashed, each entry is on record with its own command. */
  lemma {:induction false} FitsAfter(o: Observed, entries: seq<LogEntry>, e: LogEntry)
    requires AllFit(o, entries)
    ensures Fits(SeeEntries(o, entries), e) <==> Fits(o, e) && forall k | 0 <= k < |entries| :: Agree(entries[k], e)
  {
    EntriesRecorded(o, entries);
    var o', p := SeeEntries(o, entries), (e.term, e.index);
    forall k | 0 <= k < |entries| ensures o'.commands[(entries[k].term, entries[k].index)] == entries[k].command {
      OwnCommand(o, entries, k);
    }
    if p in o'.commands && p !in o.commands {
      var k :| 0 <= k < |entries| && p == (entries[k].term, entries[k].index) && o'.commands[p] == entries[k].command;
    }
  }

  lemma {:induction false} OwnCommand(o: Observed, entries: seq<LogEntry>, k: nat)
    requires AllFit(o, entries) && k < |entries|
    ensures var p := (entries[k].term, entries[k].index);
      p in SeeEntries(o, entries).commands && SeeEntries(o, entries).commands[p] == entries[k].command
  {
    EntriesRecorded(o, entries);
    var o', p := SeeEntries(o, entries), (entries[k].term, entries[k].index);
    assert Fits(o, entries[k]);
    if p !in o.commands {
      var j :| 0 <= j < |entries| && p == (entries[j].term, entries[j].index) && o'.commands[p] == entries[j].command;
      assert j < k ==> Agree(entries[j], entries[k]);
      assert k < j ==> Agree(entries[k], entries[j]);
    }
  }

  /** The command check complains exactly about an entry at odds with the
      record or with an earlier entry of the batch. */
  lemma {:induction false} CommandCheckIsExact(o: Observed, entries: seq<LogEntry>)
    ensures SeeEntries(o, entries).violations == o.violations <==> AllFit(o, entries)
  {
    hide SeeEntry, AllFit, Fits, Agree;
    if |entries| > 0 {
      var rest, e := entries[..|entries| - 1], entries[|entries| - 1];
      var o1 := SeeEntries(o, rest);
      CommandCheckIsExact(o, rest);
      ViolationsGrow(o, rest);
      EntryExact(o1, e);
      FitsSplits(o, rest, e);
      assert entries == rest + [e];
      if AllFit(o, rest) { FitsAfter(o, rest, e); }
    } else {
      NothingToFit(o);
    }
  }

  lemma {:induction false} NothingToFit(o: Observed)
    ensures AllFit(o, [])
  {
  }

  lemma {:induction false} EntryExact(o: Observed, e: LogEntry)
    ensures o.violations <= SeeEntry(o, e).violations
    ensures SeeEntry(o, e).violations == o.violations <==> Fits(o, e)
  {
    assert |o.violations + [TwoCommands(e.term, e.index)]| == |o.violations| + 1;
  }

  lemma {:induction false} ViolationsGrow(o: Observed, entries: seq<LogEntry>)
    ensures o.violations <= SeeEntries(o, entries).violations
  {
    if |entries| > 0 { ViolationsGrow(o, entries[..|entries| - 1]); }
  }

  lemma {:induction false} FitsSplits(o: Observed, rest: seq<LogEntry>, e: LogEntry)
    ensures AllFit(o, rest + [e]) <==> AllFit(o, rest) && Fits(o, e) && forall k | 0 <= k < |rest| :: Agree(rest[k], e)
  {
    var all := rest + [e];
    assert forall k | 0 <= k < |rest| :: all[k] == rest[k];
    assert all[|rest|] == e;
    if AllFit(o, all) {
      forall k | 0 <= k < |rest| ensures Fits(o, rest[k]) { assert Fits(o, all[k]); }
      forall j, k | 0 <= j < k < |rest| ensures Agree(rest[j], rest[k]) { assert Agree(all[j], all[k]); }
      forall k | 0 <= k < |rest| ensures Agree(rest[k], e) { assert Agree(all[k], all[|rest|]); }
      assert Fits(o, all[|rest|]);
    }
  }

  /** No other node is on record as leader of the sender's term. */
  predicate NoRival(o: Observed, m: Message)
    requires m.AppendReq?
  {
    m.term in o.leaders ==> o.leaders[m.term] == m.from
  }

  /** THE OBSERVER IS EXACT. A message adds no violation if and only if its
      sender has no rival on record, it is well shaped, and no entry clashes
      with the record or within the message. */
  lemma {:induction false} InspectionIsExact(o: Observed, m: Message)
    requires m.AppendReq?
    ensures Inspect(o, m).violations == o.violations <==> NoRival(o, m) && WellShaped(m) && AllFit(o, m.entries)
  {
    hide SeeEntries, ShapeFault, WellShaped;
    var o1 := SeeClaim(o, m);
    var o2 := SeeShape(o1, m);
    ShapeCheckIsExact(o1, m);
    CommandCheckIsExact(o2, m.entries);
    ViolationsGrow(o2, m.entries);
    assert AllFit(o2, m.entries) <==> AllFit(o, m.entries) by { SameFit(o, o2, m.entries); }
    assert o.violations <= o1.violations <= o2.violations;
    assert |o1.violations| == |o.violations| <==> NoRival(o, m);
  }

  lemma {:induction false} SameFit(o: Observed, o': Observed, entries: seq<LogEntry>)
    requires o'.commands == o.commands
    ensures AllFit(o', entries) <==> AllFit(o, entries)
  {
    assert forall e :: Fits(o', e) <==> Fits(o, e);
  }

  // ---- whole runs of messages ----

  function InspectAll(ms: seq<Message>): Observed {
    if |ms| == 0 then NOTHING else Inspect(InspectAll(ms[..|ms| - 1]), ms[|ms| - 1])
  }

  /** Two messages that name the same term name the same leader, and entries
      of theirs that share a place share their command. */
  ghost predicate Compatible(m: Message, k: Message)
    requires m.AppendReq? && k.AppendReq?
  {
    && (m.term == k.term ==> m.from == k.from)
    && (forall e, d | e in m.entries && d in k.entries :: Agree(e, d))
  }

  /** Election safety, log matching and message shape, of all that was sent. */
  ghost predicate AllInOrder(ms: seq<Message>) {
    && (forall m | m in ms && m.AppendReq? :: WellShaped(m))
    && (forall m, k | m in ms && k in ms && m.AppendReq? && k.AppendReq? :: Compatible(m, k))
  }

  ghost predicate Said(ms: seq<Message>, t: Term, leader: NodeId) {
    exists m :: m in ms && m.AppendReq? && m.term == t && m.from == leader
  }

  ghost predicate Carried(ms: seq<Message>, e: LogEntry) {
    exists m :: m in ms && m.AppendReq? && e in m.entries
  }

  /** The leaders on record are exactly those that were named. */
  ghost predicate KnowsLeaders(o: Observed, ms: seq<Message>) {
    forall t: Term, leader: NodeId :: t in o.leaders && o.leaders[t] == leader <==> Said(ms, t, leader)
  }

  /** The commands on record are exactly those that were carried. */
  ghost predicate KnowsCommands(o: Observed, ms: seq<Message>) {
    forall e: LogEntry :: (e.term, e.index) in o.commands && o.commands[(e.term, e.index)] == e.command <==> Carried(ms, e)
  }

  /** The record after these messages, as long as none was complained about:
      everything they said, and nothing else. */
  ghost predicate Knows(o: Observed, ms: seq<Message>) {
    KnowsLeaders(o, ms) && KnowsCommands(o, ms)
  }

  lemma {:induction false} InspectGrows(o: Observed, m: Message)
    ensures o.violations <= Inspect(o, m).violations
  {
    hide SeeEntries, ShapeFault;
    if m.AppendReq? { ViolationsGrow(SeeShape(SeeClaim(o, m), m), m.entries); }
  }

  lemma {:induction false} OrderSplits(rest: seq<Message>, m: Message)
    ensures AllInOrder(rest + [m]) <==>
      (&& AllInOrder(rest)
       && (m.AppendReq? ==>
             && WellShaped(m) && Compatible(m, m)
             && forall k | k in rest && k.AppendReq? :: Compatible(k, m)))
  {
    hide WellShaped;
    var ms := rest + [m];
    assert m in ms && forall k | k in rest :: k in ms;
    if AllInOrder(rest) && m.AppendReq? && forall k | k in rest && k.AppendReq? :: Compatible(k, m) {
      forall k | k in rest && k.AppendReq? ensures Compatible(m, k) { CompatibleBothWays(k, m); }
    }
  }

  lemma {:induction false} CompatibleBothWays(k: Message, m: Message)
    requires k.AppendReq? && m.AppendReq? && Compatible(k, m)
    ensures Compatible(m, k)
  {
    forall e, d | e in m.entries && d in k.entries ensures Agree(e, d) { assert Agree(d, e); }
  }

  lemma {:induction false} SaidSplits(rest: seq<Message>, m: Message, t: Term, leader: NodeId)
    ensures Said(rest + [m], t, leader) <==>
      (Said(rest, t, leader) || (m.AppendReq? && m.term == t && m.from == leader))
  {
    var ms := rest + [m];
    assert m in ms && forall k | k in rest :: k in ms;
  }

  lemma {:induction false} CarriedSplits(rest: seq<Message>, m: Message, e: LogEntry)
    ensures Carried(rest + [m], e) <==> (Carried(rest, e) || (m.AppendReq? && e in m.entries))
  {
    var ms := rest + [m];
    assert m in ms && forall k | k in rest :: k in ms;
  }

  /** Against a record of all that was said, the checks on one message are
      the comparisons with everything said before. */
  lemma {:induction false} ChecksCompare(o: Observed, rest: seq<Message>, m: Message)
    requires Knows(o, rest) && m.AppendReq?
    ensures NoRival(o, m) && AllFit(o, m.entries) <==>
      (Compatible(m, m) && forall k | k in rest && k.AppendReq? :: Compatible(k, m))
  {
    if NoRival(o, m) && AllFit(o, m.entries) {
      WithinMessage(o, m);
      forall k | k in rest && k.AppendReq? ensures Compatible(k, m) { MessageFits(o, rest, k, m); }
    }
    if Compatible(m, m) && forall k | k in rest && k.AppendReq? :: Compatible(k, m) {
      if m.term in o.leaders { assert Said(rest, m.term, o.leaders[m.term]); }
      forall i | 0 <= i < |m.entries| ensures Fits(o, m.entries[i]) { EntryFits(o, rest, m, i); }
      forall i, j | 0 <= i < j < |m.entries| ensures Agree(m.entries[i], m.entries[j]) {
        assert m.entries[i] in m.entries && m.entries[j] in m.entries;
      }
    }
  }

  lemma {:induction false} MessageFits(o: Observed, rest: seq<Message>, k: Message, m: Message)
    requires Knows(o, rest) && k in rest && k.AppendReq? && m.AppendReq? && NoRival(o, m) && AllFit(o, m.entries)
    ensures Compatible(k, m)
  {
    assert Said(rest, k.term, k.from);
    forall e, d | e in k.entries && d in m.entries ensures Agree(e, d) {
      assert Carried(rest, e);
      var i :| 0 <= i < |m.entries| && m.entries[i] == d;
      assert Fits(o, m.entries[i]);
    }
  }

  lemma {:induction false} WithinMessage(o: Observed, m: Message)
    requires m.AppendReq? && AllFit(o, m.entries)
    ensures Compatible(m, m)
  {
    forall e, d | e in m.entries && d in m.entries ensures Agree(e, d) {
      var j :| 0 <= j < |m.entries| && m.entries[j] == e;
      var k :| 0 <= k < |m.entries| && m.entries[k] == d;
      assert j < k ==> Agree(m.entries[j], m.entries[k]);
      assert k < j ==> Agree(m.entries[k], m.entries[j]);
    }
  }

  lemma {:induction false} EntryFits(o: Observed, rest: seq<Message>, m: Message, i: nat)
    requires Knows(o, rest) && m.AppendReq? && i < |m.entries|
    requires forall k | k in rest && k.AppendReq? :: Compatible(k, m)
    ensures Fits(o, m.entries[i])
  {
    var d := m.entries[i];
    var p := (d.term, d.index);
    if p in o.commands {
      var e := LogEntry(d.term, d.index, o.commands[p]);
      assert Carried(rest, e);
      var k :| k in rest && k.AppendReq? && e in k.entries;
      assert Compatible(k, m);
      assert d in m.entries && Agree(e, d);
    }
  }

  lemma {:induction false} LeadersKnown(o: Observed, rest: seq<Message>, m: Message)
    requires KnowsLeaders(o, rest) && m.AppendReq? && NoRival(o, m)
    ensures KnowsLeaders(SeeClaim(o, m), rest + [m])
  {
    hide Said;
    var o' := SeeClaim(o, m);
    forall t: Term, leader: NodeId ensures t in o'.leaders && o'.leaders[t] == leader <==> Said(rest + [m], t, leader) {
      SaidSplits(rest, m, t, leader);
      assert t in o.leaders && o.leaders[t] == leader <==> Said(rest, t, leader);
      assert t in o.leaders ==> Said(rest, t, o.leaders[t]);
    }
  }

  lemma {:induction false} CommandsKnown(o: Observed, rest: seq<Message>, m: Message)
    requires KnowsCommands(o, rest) && m.AppendReq? && AllFit(o, m.entries)
    ensures KnowsCommands(SeeEntries(o, m.entries), rest + [m])
  {
    hide Carried, AllFit, SeeEntries;
    var o' := SeeEntries(o, m.entries);
    forall e: LogEntry ensures (e.term, e.index) in o'.commands && o'.commands[(e.term, e.index)] == e.command
        <==> Carried(rest + [m], e)
    {
      CarriedSplits(rest, m, e);
      assert (e.term, e.index) in o.commands && o.commands[(e.term, e.index)] == e.command <==> Carried(rest, e);
      OnRecord(o, m.entries, e);
    }
  }

  /** What the entries put on record, while nothing clashed. */
  lemma {:induction false} OnRecord(o: Observed, entries: seq<LogEntry>, e: LogEntry)
    requires AllFit(o, entries)
    ensures var o', p := SeeEntries(o, entries), (e.term, e.index);
      p in o'.commands && o'.commands[p] == e.command <==>
        ((p in o.commands && o.commands[p] == e.command) || e in entries)
  {
    EntriesRecorded(o, entries);
    var o', p := SeeEntries(o, entries), (e.term, e.index);
    if e in entries {
      var k :| 0 <= k < |entries| && entries[k] == e;
      OwnCommand(o, entries, k);
    }
    if p in o'.commands && p !in o.commands {
      var k :| 0 <= k < |entries| && p == (entries[k].term, entries[k].index) && o'.commands[p] == entries[k].command;
      assert entries[k] in entries && entries[k] == LogEntry(e.term, e.index, o'.commands[p]);
    }
  }

  lemma {:induction false} ClaimKnown(o: Observed, rest: seq<Message>, m: Message)
    requires Knows(o, rest) && m.AppendReq? && NoRival(o, m) && AllFit(o, m.entries)
    ensures Knows(SeeEntries(SeeClaim(o, m), m.entries), rest + [m])
  {
    hide KnowsLeaders, KnowsCommands, AllFit, SeeEntries;
    var o1 := SeeClaim(o, m);
    SameFit(o, o1, m.entries);
    LeadersKnown(o, rest, m);
    SameRecord(o, o1, rest);
    CommandsKnown(o1, rest, m);
    EntriesRecorded(o1, m.entries);
    SameRecord(o1, SeeEntries(o1, m.entries), rest + [m]);
  }

  lemma {:induction false} SameRecord(o: Observed, o': Observed, ms: seq<Message>)
    ensures o'.commands == o.commands ==> (KnowsCommands(o, ms) <==> KnowsCommands(o', ms))
    ensures o'.leaders == o.leaders ==> (KnowsLeaders(o, ms) <==> KnowsLeaders(o', ms))
  {
  }

  /** SILENCE MEANS ORDER. The observer has complained about nothing if and
      only if all that was sent was in order: each term had one leader, each
      place one command, and every message was well shaped. */
  lemma {:induction false} SilenceMeansOrder(ms: seq<Message>)
    ensures InspectAll(ms).violations == [] <==> AllInOrder(ms)
    ensures AllInOrder(ms) ==> Knows(InspectAll(ms), ms)
  {
    hide Inspect, AllInOrder, Knows, NoRival, AllFit, Compatible, WellShaped;
    if |ms| == 0 {
      NothingSent();
    } else {
      var rest, m := ms[..|ms| - 1], ms[|ms| - 1];
      assert ms == rest + [m];
      SilenceMeansOrder(rest);
      var o := InspectAll(rest);
      InspectGrows(o, m);
      OrderSplits(rest, m);
      if AllInOrder(rest) { NextInOrder(o, rest, m); }
    }
  }

  lemma {:induction false} NextInOrder(o: Observed, rest: seq<Message>, m: Message)
    requires Knows(o, rest) && AllInOrder(rest)
    ensures Inspect(o, m).violations == o.violations <==> AllInOrder(rest + [m])
    ensures AllInOrder(rest + [m]) ==> Knows(Inspect(o, m), rest + [m])
  {
    hide AllInOrder, Knows, AllFit, Compatible, SeeEntries, ShapeFault, WellShaped;
    OrderSplits(rest, m);
    if m.AppendReq? {
      InspectionIsExact(o, m);
      ChecksCompare(o, rest, m);
      if NoRival(o, m) && AllFit(o, m.entries) && WellShaped(m) {
        ClaimKnown(o, rest, m);
        ShapeCheckIsExact(SeeClaim(o, m), m);
      }
    } else {
      KnowsMore(o, rest, m);
    }
  }

  lemma {:induction false} NothingSent()
    ensures AllInOrder([]) && Knows(NOTHING, [])
  {
  }

  lemma {:induction false} KnowsMore(o: Observed, rest: seq<Message>, m: Message)
    requires Knows(o, rest) && !m.AppendReq?
    ensures Knows(o, rest + [m])
  {
    hide Said, Carried;
    forall t: Term, leader: NodeId ensures Said(rest + [m], t, leader) <==> Said(rest, t, leader) { SaidSplits(rest, m, t, leader); }
    forall e: LogEntry ensures Carried(rest + [m], e) <==> Carried(rest, e) { CarriedSplits(rest, m, e); }
  }

  /** The observer object behind the simulated network. */
  class SafetyObserver {
    var leaders: map<Term, NodeId>
    var commands: map<(Term, LogIndex), Command>
    var violations: seq<Violation>

    ghost function State(): Observed
      reads this
    {
      Observed(leaders, commands, violations)
    }

    constructor ()
      ensures State() == NOTHING
    {
      leaders, commands, violations := map[], map[], [];
    }

    method InspectAppendEntries(m: Message)
      modifies this
      ensures State() == Inspect(old(State()), m)
    {
      if !m.AppendReq? { return; }
      if m.term !in leaders {
        leaders := leaders[m.term := m.from];
      } else if leaders[m.term] != m.from {
        violations := violations + [TwoLeaders(m.term, leaders[m.term], m.from)];
      }
      CheckShape(m);
      ghost var before := State();
      var i := 0;
      while i < |m.entries|
        invariant 0 <= i <= |m.entries|
        invariant State() == SeeEntries(before, m.entries[..i])
      {
        var e := m.entries[i];
        assert m.entries[..i + 1][..i] == m.entries[..i];
        var key := (e.term, e.index);
        if key !in commands {
          commands := commands[key := e.command];
        } else if commands[key] != e.command {
          violations := violations + [TwoCommands(e.term, e.index)];
        }
        i := i + 1;
      }
      assert m.entries[..i] == m.entries;
    }

    method CheckShape(m: Message)
      requires m.AppendReq?
      modifies this
      ensures State() == SeeShape(old(State()), m)
      ensures leaders == old(leaders) && commands == old(commands)
      ensures violations == old(violations) <==> WellShaped(m)
    {
      ShapeCheckIsExact(State(), m);
      var expected: LogIndex := m.prevIndex + 1;
      var minTerm: Term := m.prevTerm;
      var i := 0;
      while i < |m.entries|
        invariant 0 <= i <= |m.entries|
        invariant ShapeFault(m, 0, m.prevIndex + 1, m.prevTerm) == ShapeFault(m, i, expected, minTerm)
      {
        var e := m.entries[i];
        if e.index != expected {
          violations := violations + [BadIndex(m.from, expected, e.index)];
          return;
        }
        if e.term < minTerm || e.term > m.term {
          violations := violations + [BadTerm(m.from, e.index)];
          return;
        }
        expected := expected + 1;
        minTerm := e.term;
        i := i + 1;
      }
    }
  }
}
