module Cluster {
  // The cluster as a transition system: nodes, the set of messages ever sent,
  // the safety observer, and the history of promises that the proofs speak
  // about. A message once sent can be delivered any number of times, in any
  // order, or never.

  import opened Types
  import opened Quorum
  import opened Storage
  import opened Rpc
  import opened Node
  import opened History
  import opened Observer

  datatype Cluster = Cluster(nodes: map<NodeId, Node>, net: set<Message>, hist: History, seen: Observed)

  // ---- what each step adds to the history ----

  /** A real election begins: candidacy, own ballot, and the pre-votes behind it. */
  function WithCandidacy(h: History, n: Node): History
    requires n.role.PreCandidate?
  {
    var key := (n.Id(), n.term + 1);
    h.(candidacies := h.candidacies[key := n.full],
       ballots := h.ballots[key := Ballot(n.Id(), n.full)],
       campaigns := h.campaigns + {Campaign(n.Id(), n.term + 1, n.role.votes, n.members.Keys)})
  }

  function WithBallot(h: History, n: Node, candidate: NodeId): History {
    if (n.Id(), n.term) in h.ballots then h
    else h.(ballots := h.ballots[(n.Id(), n.term) := Ballot(candidate, n.full)])
  }

  function NoopFor(n: Node): LogEntry {
    LogEntry(n.term, |n.full| + 1, Noop)
  }

  /** Candidate n wins: its reign begins with its no-op. */
  function WithReign(h: History, n: Node): History
    requires n.role.Candidate?
  {
    h.(reigns := h.reigns[n.term := Reign(n.Id(), n.full, n.full + [NoopFor(n)], n.role.votes * n.members.Keys, 0)],
       acks := h.acks + {Ack(n.Id(), n.term, |n.full| + 1)})
  }

  /** Leader n appends an entry of its own. */
  function WithEntry(h: History, n: Node, command: Command): History {
    if n.term !in h.reigns then h
    else
      var r := h.reigns[n.term];
      h.(reigns := h.reigns[n.term := r.(log := r.log + [LogEntry(n.term, |n.full| + 1, command)])],
         acks := h.acks + {Ack(n.Id(), n.term, |n.full| + 1)})
  }

  function WithAck(h: History, id: NodeId, term: Term, index: LogIndex): History {
    h.(acks := h.acks + {Ack(id, term, index)})
  }

  ghost function WithCommit(h: History, n: Node): History {
    if CanCommit(n) then
      h.(certs := h.certs + {Cert(n.term, CommitPick(n), |n.full|, Holders(n, CommitPick(n)))})
    else h
  }

  function WithRead(h: History, n: Node): History {
    if n.term !in h.reigns then h
    else
      var r := h.reigns[n.term];
      h.(reigns := h.reigns[n.term := r.(beat := r.beat + 1)],
         readPoints := h.readPoints[(n.term, r.beat + 1) := ReadPoint(set c | c in h.certs :: c.index, h.ballots.Keys, h.reigns.Keys)])
  }

  function WithPreGrant(h: History, m: Message): History
    requires m.PreVoteResp?
  {
    if m.granted then h.(preGrants := h.preGrants + {(m.from, m.to, m.sentTerm)}) else h
  }

  ghost function WithLead(h: History, n: Node): History {
    if n.role.Candidate? && HasMajority(n, n.role.votes)
    then WithCommit(WithReign(h, n), BecomeLeader(n)) else h
  }

  ghost function WithElection(h: History, n: Node): History {
    if n.role.PreCandidate? && HasMajority(n, n.role.votes)
    then WithLead(WithCandidacy(h, n), StartElection(n)) else h
  }

  // ---- the steps ----

  /** The node's new state, the history after the step, and what it sent. */
  ghost function Place(c: Cluster, n: Node, h: History, sent: set<Message>): Cluster {
    c.(nodes := c.nodes[n.Id() := n], net := c.net + sent, hist := h)
  }

  ghost function DoPropose(c: Cluster, n: Node, command: Command, recent: set<NodeId>): Cluster {
    if !AdmitProposal(n, command, recent).Accepted? then c
    else
      Place(c, HandlePropose(n, command, recent),
          WithCommit(WithEntry(c.hist, n, command), AppendProposal(n, command)), {})
  }

  ghost function DoRead(c: Cluster, n: Node): Cluster {
    if !n.role.Leader? then c
    else Place(c, HandleRead(n), WithRead(c.hist, n), {})
  }

  ghost function DoTimeout(c: Cluster, n: Node): Cluster {
    if n.role.Leader? || n.Id() !in n.members then c
    else Place(c, OnElectionTimeout(n), WithElection(c.hist, PreCampaign(n)), {})
  }

  ghost function DoVoteReq(c: Cluster, n: Node, m: Message): Cluster
    requires m.VoteReq?
  {
    var (n', reply) := HandleRequestVote(n, m);
    Place(c, n', if reply.granted then WithBallot(c.hist, AdoptTerm(n, m.term), m.from) else c.hist, {reply})
  }

  ghost function DoAppendReq(c: Cluster, n: Node, m: Message): Cluster
    requires m.AppendReq?
  {
    var (n', reply) := HandleAppendEntries(n, m);
    Place(c, n',
        if reply.success then WithAck(c.hist, n.Id(), m.term, m.prevIndex + |m.entries|) else c.hist,
        {reply})
  }

  ghost function DoSnapshotReq(c: Cluster, n: Node, m: Message): Cluster
    requires m.SnapshotReq?
  {
    var (n', reply) := HandleInstallSnapshot(n, m);
    Place(c, n',
        if reply.term == m.term then WithAck(c.hist, n.Id(), m.term, m.snapshot.lastIndex) else c.hist,
        {reply})
  }

  ghost function DoPreVoteReq(c: Cluster, n: Node, m: Message, sticky: bool): Cluster
    requires m.PreVoteReq?
  {
    var reply := HandlePreVote(n, m, sticky);
    Place(c, n, WithPreGrant(c.hist, reply), {reply})
  }

  ghost function DoPreVoteResp(c: Cluster, n: Node, m: Message): Cluster
    requires m.PreVoteResp?
  {
    Place(c, OnPreVoteReply(n, m),
        if m.term > n.term || m.sentTerm != n.term + 1 || !m.granted || !n.role.PreCandidate? then c.hist
        else WithElection(c.hist, n.(role := PreCandidate(n.role.votes + {m.from}))), {})
  }

  ghost function DoVoteResp(c: Cluster, n: Node, m: Message): Cluster
    requires m.VoteResp?
  {
    Place(c, OnVoteReply(n, m),
        if m.term > n.term || m.sentTerm != n.term || !m.granted || !n.role.Candidate? then c.hist
        else WithLead(c.hist, n.(role := Candidate(n.role.votes + {m.from}))), {})
  }

  ghost function DoAppendResp(c: Cluster, n: Node, m: Message): Cluster
    requires m.AppendResp?
  {
    Place(c, OnAppendReply(n, m),
        if m.term > n.term || m.sentTerm != n.term || !n.role.Leader? || !m.success then c.hist
        else WithCommit(c.hist, RecordMatch(RecordAck(n, m.from, m.sentBeat), m.from, m.sentPrev + m.sentEntries)), {})
  }

  ghost function DoSnapshotResp(c: Cluster, n: Node, m: Message): Cluster
    requires m.SnapshotResp?
  {
    Place(c, OnSnapshotReply(n, m),
        if m.term > n.term || m.sentTerm != n.term || !n.role.Leader? then c.hist
        else WithCommit(c.hist, RecordInstalled(n, m.from, m.lastIncluded)), {})
  }

  ghost function DoDeliver(c: Cluster, n: Node, m: Message, sticky: bool): Cluster {
    match m
    case PreVoteReq(_, _, _, _, _) => DoPreVoteReq(c, n, m, sticky)
    case PreVoteResp(_, _, _, _, _) => DoPreVoteResp(c, n, m)
    case VoteReq(_, _, _, _, _) => DoVoteReq(c, n, m)
    case VoteResp(_, _, _, _, _) => DoVoteResp(c, n, m)
    case AppendReq(_, _, _, _, _, _, _, _) => DoAppendReq(c, n, m)
    case AppendResp(_, _, _, _, _, _, _, _) => DoAppendResp(c, n, m)
    case SnapshotReq(_, _, _, _, _) => DoSnapshotReq(c, n, m)
    case SnapshotResp(_, _, _, _, _) => DoSnapshotResp(c, n, m)
  }

  /** A node that campaigns or leads sends a peer what its state calls for;
      the observer sees every send. */
  ghost function DoSend(c: Cluster, n: Node, peer: NodeId): Cluster {
    if n.role.Follower? || peer == n.Id() then c
    else match SendTo(n, peer)
      case None => Place(c, n.Panic(), c.hist, {})
      case Some(m) => c.(net := c.net + {m}, seen := Inspect(c.seen, m))
  }

  // ---- crashes between two durable writes of one handler ----

  /** The proposal reached the log; nothing after it happened. */
  ghost function DoDieProposing(c: Cluster, n: Node, command: Command, recent: set<NodeId>): Cluster {
    if !AdmitProposal(n, command, recent).Accepted? then c
    else Place(c, Restart(AppendProposal(n, command)), WithEntry(c.hist, n, command), {})
  }

  /** The node with the vote of a reply counted, if it counts. */
  function Counted(n: Node, m: Message): Node {
    if m.PreVoteResp? && m.term <= n.term && m.sentTerm == n.term + 1 && m.granted && n.role.PreCandidate? then
      n.(role := PreCandidate(n.role.votes + {m.from}))
    else if m.VoteResp? && m.term <= n.term && m.sentTerm == n.term && m.granted && n.role.Candidate? then
      n.(role := Candidate(n.role.votes + {m.from}))
    else n
  }

  /** The new term and own vote were saved; nobody was asked yet. */
  ghost function DoDieStarting(c: Cluster, n: Node): Cluster {
    if n.role.PreCandidate? && HasMajority(n, n.role.votes)
    then Place(c, Restart(StartElection(n)), WithCandidacy(c.hist, n), {}) else c
  }

  /** The no-op reached the log; nothing after it happened. */
  ghost function DoDieLeading(c: Cluster, n: Node, h: History): Cluster {
    if n.role.Candidate? && HasMajority(n, n.role.votes)
    then Place(c, Restart(BecomeLeader(n)), WithReign(h, n), {}) else c
  }

  /** A node alone in its cluster goes from timeout to leadership at once. */
  ghost function DoDieAlone(c: Cluster, n: Node, led: bool): Cluster {
    if n.role.Leader? || n.Id() !in n.members || !HasMajority(PreCampaign(n), {n.Id()}) then c
    else if led then DoDieLeading(c, StartElection(PreCampaign(n)), WithCandidacy(c.hist, PreCampaign(n)))
    else DoDieStarting(c, PreCampaign(n))
  }

  /** One event at one node. `recent` and `sticky` stand for what its clock
      says; `Die*` are crashes between two durable writes of one handler. */
  datatype Action =
    | Propose(id: NodeId, command: Command, recent: set<NodeId>)
    | Read(id: NodeId)
    | Timeout(id: NodeId)
    | Tick(id: NodeId, recent: set<NodeId>)
    | Deliver(m: Message, sticky: bool)
    | Send(id: NodeId, peer: NodeId)
    | Crash(id: NodeId)
    | DieOnTerm(m: Message)
    | DieAppending(m: Message, kept: nat)
    | DieProposing(id: NodeId, command: Command, recent: set<NodeId>)
    | DieStarting(m: Message)
    | DieLeading(m: Message)
    | DieAlone(id: NodeId, led: bool)

  ghost function Step(c: Cluster, a: Action): Cluster {
    match a
    case Propose(id, command, recent) => if id in c.nodes then DoPropose(c, c.nodes[id], command, recent) else c
    case Read(id) => if id in c.nodes then DoRead(c, c.nodes[id]) else c
    case Timeout(id) => if id in c.nodes then DoTimeout(c, c.nodes[id]) else c
    case Tick(id, recent) => if id in c.nodes then Place(c, OnHeartbeatTick(c.nodes[id], recent), c.hist, {}) else c
    case Deliver(m, sticky) => if m in c.net && m.to in c.nodes then DoDeliver(c, c.nodes[m.to], m, sticky) else c
    case Send(id, peer) => if id in c.nodes then DoSend(c, c.nodes[id], peer) else c
    case Crash(id) => if id in c.nodes then Place(c, Restart(c.nodes[id]), c.hist, {}) else c
    case DieOnTerm(m) =>
      if m in c.net && m.to in c.nodes && !m.PreVoteReq?
      then Place(c, Restart(AdoptTerm(c.nodes[m.to], m.term)), c.hist, {}) else c
    case DieAppending(m, kept) =>
      if m in c.net && m.to in c.nodes && m.AppendReq?
      then Place(c, DieInAppend(c.nodes[m.to], m, kept), c.hist, {}) else c
    case DieProposing(id, command, recent) =>
      if id in c.nodes then DoDieProposing(c, c.nodes[id], command, recent) else c
    case DieStarting(m) =>
      if m in c.net && m.to in c.nodes then DoDieStarting(c, Counted(c.nodes[m.to], m)) else c
    case DieLeading(m) =>
      if m in c.net && m.to in c.nodes then DoDieLeading(c, Counted(c.nodes[m.to], m), c.hist) else c
    case DieAlone(id, led) => if id in c.nodes then DoDieAlone(c, c.nodes[id], led) else c
  }

  ghost predicate Next(c: Cluster, c': Cluster) {
    exists a :: c' == Step(c, a)
  }

  ghost predicate Moves(run: seq<Cluster>, k: nat)
    requires 0 < k < |run|
  {
    Next(run[k - 1], run[k])
  }

  /** The states of a run, each following from the one before by some event. */
  ghost predicate IsRun(run: seq<Cluster>) {
    |run| > 0 && forall k {:trigger Moves(run, k)} | 0 < k < |run| :: Moves(run, k)
  }

  ghost predicate Reaches(c: Cluster, c': Cluster) {
    exists run :: IsRun(run) && run[0] == c && run[|run| - 1] == c'
  }

  /** A fresh node; it either bootstraps with the given member ids or joins empty. */
  ghost predicate FreshAt(c: Cluster, id: NodeId, boot: set<NodeId>) {
    && id in c.nodes && c.nodes[id] == Boot(c.nodes[id].config) && c.nodes[id].config.id == id
    && (c.nodes[id].config.boot == map[] || c.nodes[id].config.boot.Keys == boot)
  }

  ghost predicate Init(c: Cluster, boot: set<NodeId>) {
    && (forall id {:trigger FreshAt(c, id, boot)} | id in c.nodes :: FreshAt(c, id, boot))
    && c.net == {}
    && c.hist == History(boot, map[], map[], map[], {}, {}, {}, {}, map[])
    && c.seen == NOTHING
  }
}
