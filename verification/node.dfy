module Node {
  // One node's state and what each handler does to it, as functions on values.
  // The cluster model steps these; the imperative node is proved to compute
  // them. Clocks are parameters. A failed `expect` or `assert` sets `panicked`;
  // that this never happens is part of the safety theorem.

  import opened Types
  import opened Quorum
  import opened Storage
  import opened Rpc
  import Store

  datatype Config = Config(id: NodeId, boot: Membership, threshold: Option<nat>, trailing: nat)

  datatype PendingProposal = PendingProposal(term: Term, index: LogIndex)

  /** A read waiting for acknowledgements of beat `needed` or later. */
  datatype PendingRead = PendingRead(needed: nat, readIndex: LogIndex)

  datatype Role =
    | Follower
    | PreCandidate(votes: set<NodeId>)
    | Candidate(votes: set<NodeId>)
    | Leader(nextIndex: map<NodeId, LogIndex>, matchIndex: map<NodeId, LogIndex>, termStart: LogIndex,
             beat: nat, acked: map<NodeId, nat>, waiting: seq<PendingRead>)

  datatype Staged = Staged(index: LogIndex, state: Store.KvState, membership: Option<Membership>)

  /** What the node has told its clients. `at` is the node's term when it answered. */
  datatype Answer =
    | Resolved(term: Term, index: LogIndex, committed: bool, at: Term)
    | ReadGranted(term: Term, needed: nat, applied: LogIndex)

  datatype Node = Node(
    config: Config,
    term: Term,
    votedFor: Option<NodeId>,
    storage: Retained,
    full: Log,
    role: Role,
    leaderId: Option<NodeId>,
    commitIndex: LogIndex,
    lastApplied: LogIndex,
    kv: Store.KvState,
    pending: seq<PendingProposal>,
    staged: Option<Staged>,
    members: Membership,
    membersIndex: LogIndex,
    answers: seq<Answer>,
    panicked: bool)
  {
    function Id(): NodeId { config.id }

    function Panic(): Node { this.(panicked := true) }

    function Peers(): set<NodeId> { members.Keys - {config.id} }
  }

  // ---- membership ----

  /** The precedence of section 4.1 of Ongaro's dissertation: latest
      ConfigChange in the retained log, then the snapshot's, then bootstrap. */
  function DeriveMembership(s: Retained, boot: Membership): (Membership, LogIndex) {
    var k := ConfigIndex(s.log);
    if k > 0 then (s.log[k - 1].command.members, s.log[k - 1].index)
    else if s.snapshot.Some? && s.snapshot.value.membership.Some? then
      (s.snapshot.value.membership.value, s.SnapshotIndex())
    else (boot, 0)
  }

  /** Latest ConfigChange at or below an index, in the retained entries. */
  function LatestUpTo(log: seq<LogEntry>, index: LogIndex): Option<Membership> {
    if |log| == 0 then None
    else
      var e := log[|log| - 1];
      if e.index <= index && e.command.ConfigChange? then Some(e.command.members)
      else LatestUpTo(log[..|log| - 1], index)
  }

  function MembershipAt(s: Retained, index: LogIndex): Option<Membership> {
    match LatestUpTo(s.log, index)
    case Some(m) => Some(m)
    case None => if s.snapshot.Some? then s.snapshot.value.membership else None
  }

  function AdoptMembership(n: Node, members: Membership, index: LogIndex): Node {
    n.(members := members, membersIndex := index)
  }

  function RescanMembership(n: Node): Node {
    var (members, index) := DeriveMembership(n.storage, n.config.boot);
    AdoptMembership(n, members, index)
  }

  // ---- role transitions ----

  function BecomeFollower(n: Node, term: Term, leader: Option<NodeId>): Node {
    n.(term := if term > n.term then term else n.term,
       votedFor := if term > n.term then None else n.votedFor,
       role := Follower,
       leaderId := leader)
  }

  function MustAppend(n: Node, entries: seq<LogEntry>): Node {
    match n.storage.Append(entries)
    case Ok(s) => n.(storage := s, full := n.full + entries)
    case Err(_) => n.Panic()
  }

  /** Entries appended, and the newest configuration among them in effect. */
  function AppendBatch(n: Node, batch: seq<LogEntry>): Node {
    var appended := MustAppend(n, batch);
    var k := ConfigIndex(batch);
    if k > 0 then AdoptMembership(appended, batch[k - 1].command.members, batch[k - 1].index) else appended
  }

  // ---- applying ----

  predicate IsHeld(n: Node, p: PendingProposal) {
    n.storage.TermOf(p.index) == Some(p.term)
  }

  function Unresolved(n: Node, ps: seq<PendingProposal>): seq<PendingProposal> {
    if |ps| == 0 then []
    else
      var p := ps[|ps| - 1];
      Unresolved(n, ps[..|ps| - 1]) + (if IsHeld(n, p) && n.commitIndex < p.index then [p] else [])
  }

  function Verdicts(n: Node, ps: seq<PendingProposal>): seq<Answer> {
    if |ps| == 0 then []
    else
      var p := ps[|ps| - 1];
      Verdicts(n, ps[..|ps| - 1])
      + (if IsHeld(n, p) && n.commitIndex < p.index then [] else [Resolved(p.term, p.index, IsHeld(n, p), n.term)])
  }

  function ResolvePending(n: Node): Node {
    n.(pending := Unresolved(n, n.pending), answers := n.answers + Verdicts(n, n.pending))
  }

  /** Members that answered a beat at least `needed`, the leader included while a member. */
  function Confirming(n: Node, needed: nat): set<NodeId>
    requires n.role.Leader?
  {
    (set p | p in n.Peers() && p in n.role.acked && n.role.acked[p] >= needed)
    + (if n.Id() in n.members then {n.Id()} else {})
  }

  predicate Grantable(n: Node, r: PendingRead)
    requires n.role.Leader?
  {
    |Confirming(n, r.needed)| >= Majority(n.members.Keys) && n.lastApplied >= r.readIndex
  }

  function Waiting(n: Node, rs: seq<PendingRead>): seq<PendingRead>
    requires n.role.Leader?
  {
    if |rs| == 0 then []
    else
      var r := rs[|rs| - 1];
      Waiting(n, rs[..|rs| - 1]) + (if Grantable(n, r) then [] else [r])
  }

  function Grants(n: Node, rs: seq<PendingRead>): seq<Answer>
    requires n.role.Leader?
  {
    if |rs| == 0 then []
    else
      var r := rs[|rs| - 1];
      Grants(n, rs[..|rs| - 1]) + (if Grantable(n, r) then [ReadGranted(n.term, r.needed, n.lastApplied)] else [])
  }

  function ResolveReads(n: Node): Node {
    if !n.role.Leader? then n
    else n.(role := n.role.(waiting := Waiting(n, n.role.waiting)), answers := n.answers + Grants(n, n.role.waiting))
  }

  function ApplyLoop(n: Node): Node
    decreases n.commitIndex - n.lastApplied
  {
    if n.lastApplied >= n.commitIndex then n
    else match n.storage.Entry(n.lastApplied + 1)
      case None => n.Panic()
      case Some(e) =>
        ApplyLoop(n.(lastApplied := n.lastApplied + 1, kv := Store.Apply(n.kv, e.command)))
  }

  function DropStale(n: Node): Node {
    if n.staged.Some? && n.staged.value.index <= n.storage.SnapshotIndex()
    then n.(staged := None) else n
  }

  function Stage(n: Node, threshold: nat): Node {
    if n.staged.None? && n.lastApplied >= n.storage.SnapshotIndex() + (if threshold >= 1 then threshold else 1)
    then n.(staged := Some(Staged(n.lastApplied, n.kv, MembershipAt(n.storage, n.lastApplied))))
    else n
  }

  function CompactStaged(n: Node): Node {
    if n.staged.Some? && n.lastApplied >= n.staged.value.index + n.config.trailing then
      match n.storage.CompactTo(n.staged.value.index, n.staged.value.state, n.staged.value.membership)
      case Ok(s) => n.(storage := s, staged := None)
      case Err(_) => n.Panic()
    else n
  }

  function MaybeCompact(n: Node): Node {
    match n.config.threshold
    case None => n
    case Some(threshold) => CompactStaged(Stage(DropStale(n), threshold))
  }

  function ApplyCommitted(n: Node): Node {
    MaybeCompact(ResolveReads(ResolvePending(ApplyLoop(n))))
  }

  function CommitTo(n: Node, k: LogIndex): Node {
    ApplyCommitted(n.(commitIndex := k))
  }

  // ---- committing as leader ----

  function MatchOf(n: Node, p: NodeId): LogIndex
    requires n.role.Leader?
  {
    if p in n.role.matchIndex then n.role.matchIndex[p] else 0
  }

  /** Current members known to hold index i; the leader counts while it is one. */
  function Holders(n: Node, i: LogIndex): set<NodeId>
    requires n.role.Leader?
  {
    (set p | p in n.Peers() && MatchOf(n, p) >= i)
    + (if n.Id() in n.members && n.storage.LastIndex() >= i then {n.Id()} else {})
  }

  predicate MajorityHolds(n: Node, i: LogIndex)
    requires n.role.Leader?
  {
    |Holders(n, i)| >= Majority(n.members.Keys)
  }

  /** i is the greatest index a majority of the current members holds. */
  predicate IsCommitPick(n: Node, i: LogIndex)
    requires n.role.Leader?
  {
    MajorityHolds(n, i) && !MajorityHolds(n, i + 1)
  }

  /** Whoever holds an index holds every lower one. */
  lemma {:induction false} HeldBelow(n: Node, i: LogIndex, j: LogIndex)
    requires n.role.Leader? && i <= j && MajorityHolds(n, j)
    ensures MajorityHolds(n, i)
  {
    SubsetCardinality(Holders(n, j), Holders(n, i));
  }

  lemma {:induction false} UpperBound(s: set<nat>) returns (b: nat)
    ensures b > 0 && forall x | x in s :: x < b
  {
    if s == {} {
      b := 1;
    } else {
      var x :| x in s;
      var c := UpperBound(s - {x});
      b := if c <= x then x + 1 else c;
      forall y | y in s ensures y < b {
        assert y == x || y in s - {x};
      }
    }
  }

  /** Where a property that holds at 0 stops holding. */
  lemma {:induction false} LastBelow(holds: nat -> bool, b: nat) returns (i: nat)
    requires holds(0) && !holds(b)
    ensures holds(i) && !holds(i + 1)
    decreases b
  {
    if holds(b - 1) { i := b - 1; } else { i := LastBelow(holds, b - 1); }
  }

  lemma {:induction false} NoneAtBound(n: Node) returns (b: nat)
    requires n.role.Leader?
    ensures !MajorityHolds(n, b)
  {
    b := UpperBound(n.role.matchIndex.Values + {n.storage.LastIndex()});
    forall p ensures p !in Holders(n, b) {
      if p in n.role.matchIndex { assert n.role.matchIndex[p] in n.role.matchIndex.Values; }
    }
    assert Holders(n, b) == {};
  }

  lemma {:induction false} CommitPickExists(n: Node)
    requires n.role.Leader? && n.members.Keys != {}
    ensures exists i :: IsCommitPick(n, i)
  {
    assert Holders(n, 0) == n.members.Keys;
    var b := NoneAtBound(n);
    var i := LastBelow((i: nat) => MajorityHolds(n, i), b);
    assert IsCommitPick(n, i);
  }

  ghost function CommitPick(n: Node): (i: LogIndex)
    requires n.role.Leader? && n.members.Keys != {}
    ensures IsCommitPick(n, i)
  {
    CommitPickExists(n);
    var i :| IsCommitPick(n, i);
    i
  }

  /** A majority of the current members holds an index exactly when it is at
      or below the pick. */
  lemma {:induction false} PickIsGreatest(n: Node, i: LogIndex)
    requires n.role.Leader? && n.members.Keys != {}
    ensures MajorityHolds(n, i) <==> i <= CommitPick(n)
  {
    hide MajorityHolds;
    var k := CommitPick(n);
    assert IsCommitPick(n, k);
    if i <= k { HeldBelow(n, i, k); }
    if k + 1 <= i && MajorityHolds(n, i) { HeldBelow(n, k + 1, i); }
  }

  /** Only an entry of the current term commits by counting (section 5.4.2). */
  ghost predicate CanCommit(n: Node) {
    && n.role.Leader? && n.members.Keys != {}
    && CommitPick(n) > n.commitIndex
    && n.storage.TermOf(CommitPick(n)) == Some(n.term)
  }

  ghost function AdvanceCommit(n: Node): Node {
    if CanCommit(n) then CommitTo(n, CommitPick(n)) else n
  }

  /** A leader whose own removal has committed steps down. */
  function StepDownIfRemoved(n: Node): Node {
    if n.role.Leader? && n.members.Keys != {} && n.Id() !in n.members && n.commitIndex >= n.membersIndex
    then BecomeFollower(n, n.term, None) else n
  }

  ghost function MaybeAdvanceCommit(n: Node): Node {
    if !n.role.Leader? then n else StepDownIfRemoved(AdvanceCommit(n))
  }

  // ---- elections ----

  function StartElection(n: Node): Node {
    n.(term := n.term + 1, votedFor := Some(n.Id()), role := Candidate({n.Id()}), leaderId := None)
  }

  /** The same value for every key. */
  ghost function Each(keys: set<NodeId>, v: nat): (m: map<NodeId, nat>)
    ensures m.Keys == keys && forall k | k in keys :: m[k] == v
  {
    if keys == {} then map[]
    else
      var k :| k in keys;
      Each(keys - {k}, v)[k := v]
  }

  /** Leadership starts with a no-op at the end of the inherited log. */
  ghost function BecomeLeader(n: Node): Node {
    var next := n.storage.LastIndex() + 1;
    AppendBatch(
      n.(role := Leader(Each(n.Peers(), next), Each(n.Peers(), 0), next, 0, map[], []),
         leaderId := Some(n.Id())),
      [LogEntry(n.term, next, Noop)])
  }

  predicate HasMajority(n: Node, votes: set<NodeId>) {
    |votes * n.members.Keys| >= Majority(n.members.Keys)
  }

  ghost function MaybeBecomeLeader(n: Node): Node {
    if n.role.Candidate? && HasMajority(n, n.role.votes)
    then MaybeAdvanceCommit(BecomeLeader(n)) else n
  }

  ghost function MaybeStartElection(n: Node): Node {
    if n.role.PreCandidate? && HasMajority(n, n.role.votes)
    then MaybeBecomeLeader(StartElection(n)) else n
  }

  function PreCampaign(n: Node): Node {
    n.(role := PreCandidate({n.Id()}), leaderId := None)
  }

  /** Election timeout: a member that does not lead starts a pre-campaign. */
  ghost function OnElectionTimeout(n: Node): Node {
    if n.role.Leader? || n.Id() !in n.members then n
    else MaybeStartElection(PreCampaign(n))
  }

  /** CheckQuorum: `recent` are the peers heard within the window. */
  function OnHeartbeatTick(n: Node, recent: set<NodeId>): Node {
    if n.role.Leader? && |(recent * n.Peers()) + (if n.Id() in n.members then {n.Id()} else {})| < Majority(n.members.Keys)
    then BecomeFollower(n, n.term, None) else n
  }

  // ---- client requests ----

  datatype ConfigError = NoopNotCommitted | ChangeInFlight | NoMembers | NotSingleChange | Unreachable

  /** Admission of a ConfigChange; `recent` are the peers heard within the window. */
  function ValidateConfigChange(n: Node, new_: Membership, recent: set<NodeId>): Option<ConfigError>
    requires n.role.Leader?
  {
    if n.commitIndex < n.role.termStart then Some(NoopNotCommitted)
    else if n.membersIndex > n.commitIndex then Some(ChangeInFlight)
    else if new_.Keys == {} then Some(NoMembers)
    else if |new_.Keys - n.members.Keys| + |n.members.Keys - new_.Keys| != 1 then Some(NotSingleChange)
    else if |set p | p in new_.Keys && (p == n.Id() || (p in n.role.acked && p in recent))| < Majority(new_.Keys)
    then Some(Unreachable)
    else None
  }

  datatype ProposeResult =
    | NotLeader(hint: Option<NodeId>)
    | InvalidConfigChange(reason: ConfigError)
    | Accepted(term: Term, index: LogIndex)

  function AdmitProposal(n: Node, command: Command, recent: set<NodeId>): ProposeResult {
    if !n.role.Leader? then NotLeader(n.leaderId)
    else if command.ConfigChange? && ValidateConfigChange(n, command.members, recent).Some? then
      InvalidConfigChange(ValidateConfigChange(n, command.members, recent).value)
    else Accepted(n.term, n.storage.LastIndex() + 1)
  }

  /** The entry appended, its configuration (if any) in effect, the waiter registered. */
  function AppendProposal(n: Node, command: Command): Node {
    var index := n.storage.LastIndex() + 1;
    var appended := AppendBatch(n, [LogEntry(n.term, index, command)]);
    appended.(pending := appended.pending + [PendingProposal(n.term, index)])
  }

  ghost function HandlePropose(n: Node, command: Command, recent: set<NodeId>): Node {
    if AdmitProposal(n, command, recent).Accepted? then MaybeAdvanceCommit(AppendProposal(n, command)) else n
  }

  function Max(a: nat, b: nat): (m: nat)
    ensures a <= m && b <= m && (m == a || m == b)
  {
    if a >= b then a else b
  }

  function Min(a: nat, b: nat): (m: nat)
    ensures m <= a && m <= b && (m == a || m == b)
  {
    if a <= b then a else b
  }

  function RegisterRead(n: Node): Node
    requires n.role.Leader?
  {
    var needed := n.role.beat + 1;
    n.(role := n.role.(
         beat := needed,
         waiting := n.role.waiting + [PendingRead(needed, Max(n.commitIndex, n.role.termStart))]))
  }

  function HandleRead(n: Node): Node {
    if n.role.Leader? then ResolveReads(RegisterRead(n)) else n
  }

  // ---- inbound RPCs ----

  predicate LogUpToDate(n: Node, lastTerm: Term, lastIndex: LogIndex) {
    UpToDate(lastTerm, lastIndex, n.storage.LastLogTerm(), n.storage.LastIndex())
  }

  function AdoptTerm(n: Node, term: Term): Node {
    if term > n.term then BecomeFollower(n, term, None) else n
  }

  predicate GrantsVote(n: Node, m: Message)
    requires m.VoteReq?
  {
    && m.term == n.term
    && (n.votedFor.None? || n.votedFor == Some(m.from))
    && LogUpToDate(n, m.lastTerm, m.lastIndex)
  }

  function CastVote(n: Node, candidate: NodeId): Node {
    n.(votedFor := Some(candidate))
  }

  function HandleRequestVote(n: Node, m: Message): (Node, Message)
    requires m.VoteReq?
  {
    var n1 := AdoptTerm(n, m.term);
    var granted := GrantsVote(n1, m);
    (if granted then CastVote(n1, m.from) else n1,
     VoteResp(n.Id(), m.from, m.term, n1.term, granted))
  }

  /** A pre-vote probe is only answered; nothing about the node changes.
      `sticky`: a leader was heard within the minimum election timeout. */
  function HandlePreVote(n: Node, m: Message, sticky: bool): Message
    requires m.PreVoteReq?
  {
    PreVoteResp(n.Id(), m.from, m.term, n.term,
      m.term > n.term && LogUpToDate(n, m.lastTerm, m.lastIndex) && !n.role.Leader? && !sticky)
  }

  /** Below the boundary everything matches: compacted means committed. */
  predicate PrevMatches(n: Node, m: Message)
    requires m.AppendReq?
  {
    match n.storage.TermOf(m.prevIndex)
    case Some(t) => t == m.prevTerm
    case None => m.prevIndex < n.storage.SnapshotIndex()
  }

  datatype Walk = Held | Missing(at: nat) | Conflict(at: nat)

  /** The first entry of the batch, from position k, that the log does not hold. */
  function WalkFrom(s: Retained, entries: seq<LogEntry>, k: nat): Walk
    decreases |entries| - k
  {
    if k >= |entries| then Held
    else if entries[k].index <= s.SnapshotIndex() then WalkFrom(s, entries, k + 1)
    else match s.TermOf(entries[k].index)
      case None => Missing(k)
      case Some(t) => if t == entries[k].term then WalkFrom(s, entries, k + 1) else Conflict(k)
  }

  function Cut(n: Node, from: LogIndex): Node {
    match n.storage.TruncateFrom(from)
    case Err(_) => n.Panic()
    case Ok(s) => n.(storage := s, full := if from > |n.full| || from == 0 then n.full else n.full[..from - 1])
  }

  /** A conflicting suffix goes; waiters learn of it, and if it held the
      configuration in effect the membership is derived anew. */
  function TruncateConflict(n: Node, e: LogEntry): Node {
    if e.index <= n.commitIndex then n.Panic()
    else
      var resolved := ResolvePending(Cut(n, e.index));
      if e.index <= n.membersIndex then RescanMembership(resolved) else resolved
  }

  /** The batch from index `first` on, of which at most `kept` entries reach
      the disk (all of them unless the node dies while appending). */
  function AppendFrom(n: Node, m: Message, first: LogIndex, kept: nat): Node
    requires m.AppendReq?
  {
    if first <= m.prevIndex || first - m.prevIndex - 1 > |m.entries| then n.Panic()
    else
      var batch := m.entries[first - m.prevIndex - 1..];
      AppendBatch(n, batch[..Min(kept, |batch|)])
  }

  /** Skip what is held, cut at the first conflict, append the rest. */
  function AcceptUpTo(n: Node, m: Message, kept: nat): Node
    requires m.AppendReq?
  {
    match WalkFrom(n.storage, m.entries, 0)
    case Held => n
    case Missing(k) => if k < |m.entries| then AppendFrom(n, m, m.entries[k].index, kept) else n
    case Conflict(k) =>
      if k < |m.entries| then AppendFrom(TruncateConflict(n, m.entries[k]), m, m.entries[k].index, kept) else n
  }

  function Accept(n: Node, m: Message): Node
    requires m.AppendReq?
  {
    AcceptUpTo(n, m, |m.entries|)
  }

  function FollowCommit(n: Node, m: Message): Node
    requires m.AppendReq?
  {
    var k := Min(m.leaderCommit, m.prevIndex + |m.entries|);
    if k > n.commitIndex then CommitTo(n, k) else n
  }

  function AppendReply(n: Node, m: Message, success: bool): Message
    requires m.AppendReq?
  {
    AppendResp(n.Id(), m.from, m.term, m.prevIndex, |m.entries|, m.beat, n.term, success)
  }

  function HandleAppendEntries(n: Node, m: Message): (Node, Message)
    requires m.AppendReq?
  {
    if m.term < n.term then (n, AppendReply(n, m, false))
    else
      var n1 := BecomeFollower(n, m.term, Some(m.from));
      if !PrevMatches(n1, m) then (n1, AppendReply(n1, m, false))
      else
        var n2 := FollowCommit(Accept(n1, m), m);
        (n2, AppendReply(n2, m, true))
  }

  /** Replace everything through the boundary by the leader's snapshot. */
  function InstallFrom(n: Node, m: Message): Node
    requires m.SnapshotReq?
  {
    match n.storage.Install(m.snapshot)
    case Err(_) => n.Panic()
    case Ok(s) =>
      var boundary := m.snapshot.lastIndex;
      var installed := n.(
        storage := s,
        full := if n.storage.TermOf(boundary) == Some(m.snapshot.lastTerm) && boundary <= |n.full|
                then m.whole + n.full[boundary..] else m.whole,
        kv := m.snapshot.state,
        commitIndex := boundary,
        lastApplied := boundary);
      var adopted := RescanMembership(installed);
      ResolvePending(adopted.(pending := Above(adopted.pending, boundary)))
  }

  function Above(ps: seq<PendingProposal>, boundary: LogIndex): seq<PendingProposal> {
    if |ps| == 0 then []
    else
      var p := ps[|ps| - 1];
      Above(ps[..|ps| - 1], boundary) + (if p.index > boundary then [p] else [])
  }

  function HandleInstallSnapshot(n: Node, m: Message): (Node, Message)
    requires m.SnapshotReq?
  {
    if m.term < n.term then (n, SnapshotResp(n.Id(), m.from, m.term, m.snapshot.lastIndex, n.term))
    else
      var n1 := BecomeFollower(n, m.term, Some(m.from));
      var n2 := if m.snapshot.lastIndex <= n1.commitIndex then n1 else InstallFrom(n1, m);
      (n2, SnapshotResp(n.Id(), m.from, m.term, m.snapshot.lastIndex, n2.term))
  }

  // ---- replies ----

  ghost function OnPreVoteReply(n: Node, m: Message): Node
    requires m.PreVoteResp?
  {
    if m.term > n.term then BecomeFollower(n, m.term, None)
    else if m.sentTerm != n.term + 1 || !m.granted || !n.role.PreCandidate? then n
    else MaybeStartElection(n.(role := PreCandidate(n.role.votes + {m.from})))
  }

  ghost function OnVoteReply(n: Node, m: Message): Node
    requires m.VoteResp?
  {
    if m.term > n.term then BecomeFollower(n, m.term, None)
    else if m.sentTerm != n.term || !m.granted || !n.role.Candidate? then n
    else MaybeBecomeLeader(n.(role := Candidate(n.role.votes + {m.from})))
  }

  function RecordAck(n: Node, from: NodeId, beat: nat): Node
    requires n.role.Leader?
  {
    var known := if from in n.role.acked then n.role.acked[from] else 0;
    n.(role := n.role.(acked := n.role.acked[from := Max(known, beat)]))
  }

  function RecordMatch(n: Node, from: NodeId, confirmed: LogIndex): Node
    requires n.role.Leader?
  {
    var matched := MatchOf(n, from);
    if confirmed > matched then
      n.(role := n.role.(matchIndex := n.role.matchIndex[from := confirmed],
                         nextIndex := n.role.nextIndex[from := confirmed + 1]))
    else n.(role := n.role.(matchIndex := n.role.matchIndex[from := matched]))
  }

  function Backtrack(n: Node, from: NodeId, sentPrev: LogIndex): Node
    requires n.role.Leader?
  {
    var next := if from in n.role.nextIndex then n.role.nextIndex[from] else 1;
    n.(role := n.role.(nextIndex := n.role.nextIndex[from := Min(next, Max(sentPrev, 1))]))
  }

  ghost function OnAppendReply(n: Node, m: Message): Node
    requires m.AppendResp?
  {
    if m.term > n.term then BecomeFollower(n, m.term, None)
    else if m.sentTerm != n.term || !n.role.Leader? then n
    else
      var n1 := RecordAck(n, m.from, m.sentBeat);
      ResolveReads(
        if m.success then MaybeAdvanceCommit(RecordMatch(n1, m.from, m.sentPrev + m.sentEntries))
        else Backtrack(n1, m.from, m.sentPrev))
  }

  function RecordInstalled(n: Node, from: NodeId, boundary: LogIndex): Node
    requires n.role.Leader?
  {
    var next := if from in n.role.nextIndex then n.role.nextIndex[from] else 1;
    n.(role := n.role.(matchIndex := n.role.matchIndex[from := Max(MatchOf(n, from), boundary)],
                       nextIndex := n.role.nextIndex[from := Max(next, boundary + 1)]))
  }

  ghost function OnSnapshotReply(n: Node, m: Message): Node
    requires m.SnapshotResp?
  {
    if m.term > n.term then BecomeFollower(n, m.term, None)
    else if m.sentTerm != n.term || !n.role.Leader? then n
    else MaybeAdvanceCommit(RecordInstalled(n, m.from, m.lastIncluded))
  }

  // ---- sending ----

  /** What a leader sends a peer: entries from its next index, or the snapshot
      when those are compacted away. None stands for a failed `expect`. */
  function SendAppend(n: Node, peer: NodeId): Option<Message>
    requires n.role.Leader?
  {
    var next := if peer in n.role.nextIndex then n.role.nextIndex[peer] else n.storage.LastIndex() + 1;
    if next <= n.storage.SnapshotIndex() then
      if n.storage.snapshot.None? || n.storage.SnapshotIndex() > |n.full| then None
      else Some(SnapshotReq(n.Id(), peer, n.term, n.storage.snapshot.value, n.full[..n.storage.SnapshotIndex()]))
    else if next == 0 then None
    else match n.storage.TermOf(next - 1)
      case None => None
      case Some(prevTerm) =>
        Some(AppendReq(n.Id(), peer, n.term, next - 1, prevTerm, n.storage.EntriesFrom(next),
                       n.commitIndex, n.role.beat))
  }

  function SendTo(n: Node, peer: NodeId): Option<Message>
    requires !n.role.Follower?
  {
    match n.role
    case PreCandidate(_) =>
      Some(PreVoteReq(n.Id(), peer, n.term + 1, n.storage.LastIndex(), n.storage.LastLogTerm()))
    case Candidate(_) =>
      Some(VoteReq(n.Id(), peer, n.term, n.storage.LastIndex(), n.storage.LastLogTerm()))
    case Leader(_, _, _, _, _, _) => SendAppend(n, peer)
  }

  // ---- restart ----

  /** Only term, vote, snapshot and log survive; the rest is derived from them. */
  function Restart(n: Node): Node {
    var (members, index) := DeriveMembership(n.storage, n.config.boot);
    n.(role := Follower,
       leaderId := None,
       commitIndex := n.storage.SnapshotIndex(),
       lastApplied := n.storage.SnapshotIndex(),
       kv := if n.storage.snapshot.Some? then n.storage.snapshot.value.state else Store.EMPTY,
       pending := [],
       staged := None,
       members := members,
       membersIndex := index)
  }

  /** The node dies while handling an AppendEntries: the term was saved, the
      conflict cut, and a prefix of the batch reached the disk. */
  function DieInAppend(n: Node, m: Message, kept: nat): Node
    requires m.AppendReq?
  {
    if m.term < n.term then Restart(n)
    else
      var n1 := BecomeFollower(n, m.term, Some(m.from));
      Restart(if PrevMatches(n1, m) then AcceptUpTo(n1, m, kept) else n1)
  }

  function Boot(config: Config): Node {
    Restart(Node(config, 0, None, Retained(None, []), [], Follower, None, 0, 0, Store.EMPTY, [], None, map[], 0, [], false))
  }
}
