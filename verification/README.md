# rustKV: a verified model

rustKV is a hand-written Raft with log compaction, InstallSnapshot, PreVote,
ReadIndex reads, single-server membership changes and an exactly-once key-value
state machine. This project models it in Dafny 4.11 and proves what it promises.

`dafny verify dfyconfig.toml` checks everything.

## What is modelled

**One node.** `node.dfy` gives every handler of `src/raft/node.rs` as a function
on a node's state: client requests, the four RPC handlers, the four reply
handlers, timers, sends, crash and restart. Clocks are parameters (`recent`: the
peers heard within the window; `sticky`: a leader was heard lately). A failed
`expect` or `assert` sets `panicked`. Beside the retained log a node carries
`full`, the log as if nothing had ever been compacted. `machine.dfy` is the node
as the program has it, an object that changes its fields step by step and owns
its storage and state machine; each method is proved to compute the
corresponding function.

**The cluster.** `cluster.dfy` is a transition system: any number of nodes, the
set of all messages ever sent (so a message can be lost, duplicated and
reordered), the network's safety observer, and a history of durable promises
(elections, ballots, acknowledgements, commit certificates, pre-votes,
registered reads) that only the proofs look at. A run is any sequence of
proposals, reads, timeouts, ticks, deliveries, sends, crashes, and crashes
between two durable writes of one handler. Bootstrapping nodes share one set of
member ids; joining nodes start with none. Membership changes one server at a
time, effective on append, interleaved with everything else.

**The proof.** `history.dfy` says when a history is well formed;
`completeness.dfy` proves leader completeness and election safety from that
alone, under dynamic membership. `invariant.dfy` ties nodes and messages to the
history. `election.dfy`, `follower.dfy`, `leader.dfy`, `commit.dfy`,
`reads.dfy`, `replies.dfy` and `sending.dfy` take one handler each; `steps.dfy`
puts them together for every step and every run. `tenure.dfy` follows who leads
and what leading may change, `campaigns.dfy` where pre-votes come from.
`progress.dfy` says what each operation must do, with majorities counted out:
exactly when a vote is granted, an entry committed, a follower applies, a leader
goes on. `prompt.dfy` carries two of these through every run.
`safety.dfy` states the results in terms of node states at two points of a run.

**Linearizability.** `clients.dfy` traces every write in a log to the step that
proposed it. `logorder.dfy` shows that operations placed in a log form a
linearization in the sense of the repository's own checker. `linearizable.dfy`
puts the two together: whatever the clients of a run recorded is linearizable.
A write is recorded with all its attempts; one that returned had an attempt
reported committed. A read is answered from a node's state once it was granted.

**Runs.** `witness.dfy` and `pair.dfy` derive runs event by event. A node alone
in its cluster becomes leader, commits and grants a read. Two nodes elect a
leader twice, with a crash between, repair a follower's log and commit together.
`story.dfy` gives the linearizability theorem a run and records it applies to.
The theorems are not about an empty set of runs.

**Storage.** `storage.dfy` shows that a snapshot boundary plus a retained tail
behaves like one unbounded log. `disk.dfy` goes down to the bytes of the log
file: replay, torn appends, crashes between durable writes. The text format of
one record is a parameter with two laws: what was written reads back, and no
record contains a newline.

**The state machine.** `store.dfy` models the 64-bit sliding dedup window (words
and bit operations are in `bits.dfy`) and compares it with a store that
remembers every token.

**The linearizability checker.** `lin.dfy` and `locality.dfy` model the memoised
search with its 64-bit mask, prove it sound and complete, and prove that
checking each key on its own decides the whole history.

**The observer.** `observer.dfy` models the safety observer of the simulated
network and proves that it is silent exactly when all it saw was in order;
`watch.dfy` shows that in a run it sees every AppendEntries.

Where code and comments disagree the model follows the code:

- `src/raft/types.rs:20-24` says a token applies only above the highest applied
  one; the store keeps a window of 64 (`src/store.rs:49-80`).
- `src/raft/node.rs:1449-1453` says stale rejections never undo progress;
  `next_index` can fall to or below `match_index`
  (`Behaviour.RejectionRetreats`, `Pair.StaleRejectionUndoes`).
- `src/raft/node.rs:788-792` says a member not yet added always counts as
  unreachable; a peer that was removed in this term and still answers does not
  (`Behaviour.GrowingFromOne`, `Pair.RemovedCountsAsReachable`).
- `src/raft/storage.rs:273-279` describes the suffix rule of an install; a crash
  between its two durable writes does not always keep it
  (`Disk.InterruptedInstallReopens`, `Disk.InterruptedInstallGap`).

## Model

| member | source | states |
|---|---|---|
| Linearization.RunsAreLinearizable | src/raft/node.rs:666-856 | end to end: for every run with crashes, elections and membership changes, whatever its clients recorded of their writes (retries under one token included) and reads (answered from any node's state after the grant) is linearizable, provided every client keeps within its dedup window |
| Safety.OneLeaderPerTerm | src/raft/node.rs:1671-1762 | over a whole run with membership changes, two nodes that lead the same term, at any two points, are the same node |
| Safety.LeadersHoldCommitted | src/raft/node.rs:1972-2023 | whatever a node has committed at one point is a prefix of the log of every node that leads that or a later term at any later point |
| Safety.StateMachineSafety | src/raft/node.rs:1196-1219 | no two nodes, at any two points of a run, applied different entries at one index: the whole prefixes agree |
| Safety.ReplicasAgree | src/raft/node.rs:1196-1219 | nodes that applied the same number of entries hold the same map and sessions, at any two points |
| Safety.StateIsFold | src/raft/node.rs:1920-1967 | the state machine is the fold of the log applied so far, and every snapshot and staged capture is the fold, with the membership, up to exactly its own index |
| Safety.NothingPanics | src/raft/node.rs:1046-1190 | no assertion and no non-I/O expect ever fires: committed entries are never truncated and a leader always has what it must send |
| Safety.IndexesInOrder | src/raft/node.rs:1196-1203 | snapshot index, last applied, commit index and last index are ordered, and every next index lies between 1 and the last index plus one |
| Safety.ResolvedStays | src/raft/node.rs:1224-1238 | a proposal resolved true keeps its term and index in the log of every leader of that or a later term and wherever that index is committed |
| Safety.OneEntryPerSlot | src/raft/node.rs:1046-1190 | log matching across time: two logs that hold the same term at an index agree on everything up to it |
| Safety.CommittedCommandStays | src/raft/node.rs:666-726 | end to end: a command accepted by a leader and later reported committed is from then on the very entry at its index in every later leader's log and wherever that index is committed |
| Safety.ReadCoversCommits | src/raft/node.rs:815-856 | when a read is granted, what the leader has applied covers every index any node had committed, and every proposal reported committed, at any point up to the read's registration, across leaders, restarts and membership changes |
| Safety.WriteAfterWrite | src/raft/node.rs:666-726 | real time: a command reported committed before another was proposed has the lower log index, if the other ever commits |
| Safety.WriteAfterRead | src/raft/node.rs:815-856 | real time: a command proposed after a read was granted lies beyond everything that read saw |
| Safety.ReadAfterRead | src/raft/node.rs:815-856 | real time: a read registered after another was granted sees at least as much, on whatever leader |
| Safety.LaterSlot | src/raft/node.rs:666-726 | an entry appended after a commit certificate was issued, and committed later, lies beyond what the certificate covers |
| Linearization.TookEffect | src/store.rs:184-216 | an operation with a committed attempt took effect, at or before that attempt, whatever other attempts it made |
| Linearization.OneEffect | src/store.rs:184-216 | and it took effect at one index only |
| Linearization.LaterIsHigher | src/raft/node.rs:815-856 | an operation that returned before another was invoked has the lower place in the committed log; only a read may share it |
| Linearization.AppliedInLog | src/raft/node.rs:1196-1219 | what any node has applied at any point is a prefix of the run's committed log |
| LogOrder.PlacedLinearizes | tests/common/lin.rs:60-72 | operations placed in a log (writes where they took effect, reads behind what they saw), none before one that had already returned, form a linearization in the checker's own sense |
| Clients.WritesWereProposed | src/raft/node.rs:666-726 | every write in a leader's log, under its own term, was proposed at one step of the run as exactly that entry |
| Clients.TriesFill | src/raft/node.rs:697-726 | a proposal finds its place empty and leaves its entry there, even if the leader dies before answering |
| Safety.MatchIsTruthful | src/raft/node.rs:1366-1553 | a match index is truthful: the peer's whole log, compacted part included, is the leader's through that index until the peer moves to a higher term |
| Safety.ObserverStaysSilent | src/raft/transport/sim.rs:292-356 | in every run the list of violations stays empty, and the record is that of messages among which is every AppendEntries ever sent, so all of those are in order: one leader per term, one command per place, well shaped |
| Safety.NoRivalSpeaks | src/raft/node.rs:1046-1062 | a leader never receives an AppendEntries or InstallSnapshot of its own term |
| Safety.OneVotePerTerm | src/raft/node.rs:879-936 | all votes one voter granted in one term went to one candidate |
| Safety.MembersAreDerived | src/raft/node.rs:2202-2230 | the cached membership is what the durable log and snapshot imply, and its index agrees or both lie at or below the boundary, after every step |
| Safety.ChangesOneAtATime | src/raft/node.rs:737-772 | when a leader appends a ConfigChange, every earlier one in its log is committed, exactly one member differs, and every majority of the old configuration meets every majority of the new |
| Safety.LoggedChangesGated | src/raft/node.rs:737-812 | in every log each ConfigChange is one member away from what preceded it, which was committed in that term before the change was appended |
| Safety.TermsBeginWithPreVotes | src/raft/node.rs:1605-1720 | every term in use began, at an earlier state of the run, with a node one term lower that counted pre-votes for exactly that term from a majority of its own members; its own vote aside, each is a granted reply that had been sent to it by then |
| Campaigns.StepAccounts | src/raft/node.rs:1605-1666 | every event accounts for the pre-votes and campaigns it adds: the reply that was sent, the state in which the votes were counted |
| Safety.ProbesChangeNothing | src/raft/node.rs:944-971 | answering a pre-vote probe changes no node |
| Safety.GrantsChangeNoHardState | src/raft/node.rs:1281-1325 | a pre-vote reply at no higher term that completes no majority is counted if it is granted, current and expected, and otherwise changes nothing |
| Safety.TermsOnlyGrow | src/raft/node.rs:1559-1570 | no node's term ever goes down |
| Safety.RemovedLeaderLeaves | src/raft/node.rs:2008-2022 | in every reachable state a leader outside its own configuration is waiting for that very configuration, logged and not yet committed |
| Safety.LeadingOnlyGains | src/raft/node.rs:1366-1553 | between any two points at which a node leads the same term its log, commit index, beat, and every match index and answered beat have only risen |
| Safety.LeadsOnce | src/raft/node.rs:1559-1599 | a node that stopped leading a term never leads that term again |
| Safety.NothingLeftUncommitted | src/raft/node.rs:1972-2007 | in every reachable state a leader has committed every entry of its own term that more than half of its members are known to hold |
| Safety.ReadsAreKept | src/raft/node.rs:1243-1275 | a read, registered for the next beat and the later of commit index and term start, waits or has been granted at every later point at which the node leads that term |
| Safety.ProposalsAreKept | src/raft/node.rs:1224-1238 | an accepted proposal waits or has been told its outcome at every later point at which the node leads that term |
| Safety.HintIsTheLeader | src/raft/node.rs:666-675 | whoever a node takes for the leader of its term, and names to clients it refuses, is the only node that leads that term at any point of the run |
| Prompt.StepApt | src/raft/node.rs:860-876 | any one event leaves every leader with nothing it could commit uncommitted, and every node's idea of the leader right |
| Progress.CommitsWhatMostHold | src/raft/node.rs:1972-2007 | after its tables or log changed, a leader commits an uncommitted entry of its term if and only if more than half of the members hold it |
| Progress.AdvanceOnlyThat | src/raft/node.rs:2008-2022 | it commits nothing but entries of its own term, and leads on if and only if it is a member or its removal is not committed |
| Progress.VotesMakeLeader | src/raft/node.rs:1326-1365 | a current granted vote is counted, and the candidate leads if and only if more than half of its members voted for it; how the reign begins, entry by entry of its tables |
| Progress.PreVotesStartElection | src/raft/node.rs:1281-1325 | a current granted pre-vote is counted, and the real election starts if and only if more than half of the members granted theirs |
| Progress.TimeoutCampaigns | src/raft/node.rs:1605-1654 | exactly what a timeout does: nothing at a leader or an outsider, office at a node alone, a pre-campaign at its own term otherwise |
| Progress.VoteGrantedIff | src/raft/node.rs:879-936 | a vote is granted if and only if the term is not stale, the voter is free or bound to the candidate in it, and the candidate's log ends at a later term or at the same with no fewer entries; the reply and the new state |
| Progress.ProbeGrantedIff | src/raft/node.rs:944-971 | a probe is granted if and only if its term is higher, the log ends no earlier, and the node neither leads nor has just heard a leader |
| Progress.LongerLogIsGranted | src/raft/node.rs:901-904 | whoever holds everything the voter holds gets its vote for a new term, and its pre-vote |
| Progress.CampaignSends | src/raft/node.rs:1605-1720 | campaigners ask with their own last position |
| Progress.AppendSucceedsIff | src/raft/node.rs:1064-1094 | AppendEntries succeeds if and only if the term is not stale and the log, compacted or not, has the entry the batch follows |
| Progress.AppendCommits | src/raft/node.rs:1172-1190 | after a success the follower has committed and applied up to the lesser of the leader's commit index and what the request verified, after a rejection nothing new; the reply, vote and leader hint |
| Progress.SnapshotCommits | src/raft/node.rs:976-1042 | unless the term is stale everything a snapshot stands for is committed and applied and nothing is taken back |
| Progress.HigherTermYields | src/raft/node.rs:1281-1553 | any reply of a higher term ends in the follower state of that term |
| Progress.StaleReplyIgnored | src/raft/node.rs:1281-1553 | a reply to something the node no longer asks changes nothing |
| Progress.SuccessTeaches | src/raft/node.rs:1395-1447 | a success sets its sender's tables to the most known and nobody else's; an entry of the term is committed if and only if most members now hold it; no confirmed read is left waiting |
| Progress.RejectionSteps | src/raft/node.rs:1448-1475 | a rejection is still an answer; its sender is probed from below the rejected position, strictly lower each time a current probe is rejected |
| Progress.InstallTeaches | src/raft/node.rs:1476-1553 | the same for a snapshot reply |
| Progress.ProposeAppends | src/raft/node.rs:676-726 | an accepted command becomes the last entry, a configuration takes effect at once, and what most members then hold is committed |
| Progress.CommandAdmittedIff | src/raft/node.rs:666-690 | every leader accepts a command at the end of its log; everyone else refuses it with the hint |
| Progress.ChangeAdmittedIff | src/raft/node.rs:737-812 | a configuration change is refused by the first rule it breaks and by no other, the last being that more than half of the new members are reachable |
| Progress.TickStepsDown | src/raft/node.rs:1766-1803 | a leader goes on if and only if more than half of the members, itself included while one, were heard |
| Progress.RestartKeepsDurable | src/raft/node.rs:535-618 | a restart keeps term, vote, snapshot, log and membership, and nothing else |
| Tenure.StepSteady | src/raft/node.rs:860-876 | any one event leaves every node at no lower term, a candidate or leader of an old term only if it was a candidate or a risen leader of it, and a leader outside its configuration only while its removal is uncommitted |
| Witness.SomeReadIsGranted | src/raft/node.rs:1605-1762 | a concrete reachable state with a leader and a committed entry, in which registering a read grants it at once |
| Witness.TakesOver | src/raft/node.rs:1605-1762 | a node alone in its cluster goes from timeout to leadership with its no-op in one step |
| Witness.CommitsAtOnce | src/raft/node.rs:1755-1757 | and commits that no-op at once |
| Storyline.SomeStory | src/raft/node.rs:666-856 | a concrete run and records, a write that returned and a read that saw it, that meet every hypothesis of the linearizability theorem |
| Pair.Elects | src/raft/node.rs:1605-1762 | two nodes, event by event: probe, pre-vote, request, vote, leadership |
| Pair.CommitsTogether | src/raft/node.rs:1366-1475 | a reachable two-node state whose second reign backtracked once and then replicated and committed two entries by counting both nodes |
| Pair.ReadIsConfirmed | src/raft/node.rs:815-856 | from there a read waits, the heartbeat it causes makes the follower commit and apply both entries, and the answer grants it |
| Pair.StaleRejectionUndoes | src/raft/node.rs:1449-1453 | in that state, delivering the old rejection once more takes the next index from above the match index to below it |
| Pair.RemovedCountsAsReachable | src/raft/node.rs:773-811 | a reachable state in which a lone leader accepts growing again by the member it removed, which answered in this term and is still heard |
| Steps.InitInv | src/raft/node.rs:535-618 | the invariant holds when every node has just been started |
| Steps.RunKeeps | src/raft/node.rs:620-664 | the invariant holds in every state of every run, and nothing promised is taken back: elections, ballots, acknowledgements, certificates, read registrations, messages, terms |
| Steps.StepKeeps | src/raft/node.rs:860-876 | any one step, whatever it is, keeps the invariant |
| Completeness.Complete | src/raft/node.rs:1972-2023 | leader completeness under single-server membership changes: every log elected in a later term contains what a commit certificate promised |
| Completeness.ElectionSafety | src/raft/node.rs:1671-1762 | two majorities that elected candidates of one term share a voter, even when their logs imply different configurations |
| Completeness.CommittedInLeader | src/raft/node.rs:1972-2023 | a committed prefix is in the log of every leader of its term or a later one |
| Completeness.CommittedAgree | src/raft/node.rs:1196-1219 | of two committed prefixes the shorter is a prefix of the longer |
| Completeness.LogMatching | src/raft/node.rs:1046-1190 | logs that hold the same term at an index agree up to it |
| Completeness.Overlap | src/raft/node.rs:737-772 | the configuration a commit was counted in and the one a later leader was elected in are adjacent, unless the commit is already in that leader's log |
| Quorum.QuorumsMeet | src/raft/node.rs:2048-2050 | any majority of one configuration meets any majority of a configuration that differs by at most one member |
| Quorum.Majority | src/raft/node.rs:2048-2050 | the least number that is more than half of the members |
| Types.UpToDateIsTotal | src/raft/node.rs:901-904 | of two logs one is always up to date with the other, both exactly when they end alike |
| Reads.GrantCovers | src/raft/node.rs:1243-1275 | a grantable read covers every commit known when it was registered |
| Reads.NoneLater | src/raft/node.rs:1394-1415 | a confirmed read was registered before any later leader was elected |
| Reads.ConfirmerVotes | src/raft/node.rs:1243-1275 | whoever elects the next leader includes a member that confirmed the read, even across a membership change |
| Election.CastVoteGood | src/raft/node.rs:879-936 | granting a vote keeps the invariant, and the ballot is recorded for that candidate |
| Election.StartElectionGood | src/raft/node.rs:1680-1720 | starting a real election on a pre-vote majority keeps the invariant |
| Election.VotesElect | src/raft/node.rs:1722-1762 | the votes a candidate counted elect it and nobody led its term before |
| Election.LeadGood | src/raft/node.rs:1722-1762 | taking leadership, no-op included, keeps the invariant |
| Followers.WalkIs | src/raft/node.rs:1096-1140 | the walk over a batch ends where the log first departs from the leader's: everything held, the log's end, or a real conflict above the commit index |
| Followers.HandleAppendGood | src/raft/node.rs:1046-1190 | handling AppendEntries keeps the invariant; a success reply means the log is the leader's through the batch |
| Followers.HandleSnapshotGood | src/raft/node.rs:976-1042 | handling InstallSnapshot keeps the invariant; a reply at the sender's term means the log is the leader's through the boundary |
| Followers.DieInAppendGood | src/raft/node.rs:1046-1190 | dying at any point of an append, with any number of records on disk, leaves a state the invariant covers |
| Followers.RestartGood | src/raft/node.rs:535-618 | restarting from durable state alone keeps the invariant |
| Leaders.ProposeGood | src/raft/node.rs:666-726 | appending an admitted proposal keeps the invariant |
| Leaders.AdmittedGate | src/raft/node.rs:737-772 | an admitted ConfigChange meets both safety gates: its predecessor was committed in this term and one member differs |
| Commitment.CertIssued | src/raft/node.rs:1972-2007 | the majority a leader counted is a certificate: a quorum of its configuration acknowledged the index, which is of its own term |
| Commitment.MaybeAdvanceGood | src/raft/node.rs:1972-2023 | advancing the commit index, applying, answering clients and stepping down when removed keep the invariant |
| Replies.HandleReadGood | src/raft/node.rs:815-856 | registering a read, and granting it at once when alone, keeps the invariant |
| Replies.ReadIndexCovers | src/raft/node.rs:828-834 | while no later leader exists, the read index is at or past every index ever committed |
| Replies.ResolveReadsGood | src/raft/node.rs:1243-1275 | granting confirmed reads keeps the invariant |
| Replies.MaybeElectGood | src/raft/node.rs:1658-1666 | promoting a pre-candidate, and winning at once when alone, keeps the invariant |
| Replies.RecordMatchGood | src/raft/node.rs:1419-1429 | recording a successful append reply keeps the invariant, however late or often it arrives |
| Replies.RecordInstalledGood | src/raft/node.rs:1527-1530 | recording a snapshot reply keeps the invariant |
| Sending.SendAppendIs | src/raft/node.rs:1808-1905 | a leader always has what it has to send: the rest of its log from the peer's next index, or the snapshot of its own committed prefix |
| Sending.SendGood | src/raft/node.rs:1808-1867 | whatever a node sends is backed by the history |
| Sending.InspectOk | src/raft/transport/sim.rs:292-331 | inspecting a legitimate message adds no violation |
| Node.PickIsGreatest | src/raft/node.rs:1976-1994 | a majority of the current members holds an index exactly when it is at or below the commit pick, the leader counting only while it is a member |
| NodeInvariant.MembershipAtIs | src/raft/node.rs:2134-2144 | the membership stored with a capture is the one in effect at its index in the whole log |
| NodeInvariant.DeriveIsWhole | src/raft/node.rs:2202-2230 | deriving membership from boundary and tail gives what the whole log implies |
| NodeInvariant.ApplyLoopIs | src/raft/node.rs:1196-1210 | the apply loop folds exactly the entries up to the commit index |
| NodeInvariant.CommitToOk | src/raft/node.rs:1196-1219 | applying to a new commit index keeps the node's invariant, changes nothing durable but the boundary, and only tells clients verdicts on committed entries and grants of confirmed reads |
| NodeInvariant.TruncateConflictOk | src/raft/node.rs:1109-1143 | cutting a conflicting suffix leaves exactly the shared prefix, a membership derived from it, and tells every waiter of a cut entry false |
| NodeInvariant.WaitsOrTold | src/raft/node.rs:1224-1238 | every waiting proposal either still waits, exactly when it is held and not committed, or has been told whether it is held |
| NodeInvariant.WaitsOrGranted | src/raft/node.rs:1262-1274 | every waiting read is granted if its index is applied and more than half of the members answered its beat or a later one, and otherwise still waits |
| NodeInvariant.InstallOk | src/raft/node.rs:1011-1032 | installing a snapshot leaves its prefix plus the suffix that continues it, with state, indexes and membership to match |
| NodeInvariant.MaybeCompactOk | src/raft/node.rs:1920-1967 | staging and compacting keep the node's invariant and change nothing but boundary, tail and capture |
| Behaviour.CompactionKeepsUp | src/raft/node.rs:1920-1967 | a staged capture is above the boundary and less than the trailing window behind; a boundary moves only to a capture at least that far behind; otherwise fewer entries than the threshold lie past the boundary |
| Behaviour.CompactionDecides | src/raft/node.rs:1920-1967 | exactly when a capture is taken, kept, discarded, or becomes the boundary |
| Behaviour.RejectionRetreats | src/raft/node.rs:1449-1453 | a rejection never raises its sender's next index and touches nobody else's; afterwards it is above the match index if and only if it was before and the rejected probe began above it |
| Behaviour.GrowingFromOne | src/raft/node.rs:773-811 | with the safety gates passed, a single-node cluster refuses to grow if and only if the new member has not both answered in this term and been heard recently |
| Observer.ShapeCheckIsExact | src/raft/transport/sim.rs:333-356 | the shape check complains exactly about messages that are not contiguous from prev with terms non-decreasing and bounded by the sender's |
| Observer.CommandCheckIsExact | src/raft/transport/sim.rs:310-331 | the command check complains exactly about an entry at odds with the record or with an earlier entry of the batch |
| Observer.InspectionIsExact | src/raft/transport/sim.rs:292-331 | a message adds no violation if and only if its sender has no rival on record, it is well shaped, and no entry clashes |
| Observer.SilenceMeansOrder | src/raft/transport/sim.rs:292-356 | for every sequence of messages, the observer has complained about nothing if and only if each term had one leader, each place one command and every message was well shaped |
| Observer.SafetyObserver.InspectAppendEntries | src/raft/transport/sim.rs:292-331 | the observer object computes the specified inspection of one message |
| Observer.SafetyObserver.CheckShape | src/raft/transport/sim.rs:333-356 | the shape loop adds a violation exactly when the message is not well shaped |
| Store.RecordContains | src/store.rs:57-80 | after recording a token the window contains exactly that token, what it contained, and what fell below it |
| Store.AtMostOnce | src/store.rs:184-216 | in every log at most one entry per client and sequence number takes effect |
| Store.WindowIsExact | src/store.rs:49-80 | the bitmask store applies the same entries as a store remembering every token if and only if every unused token arrives less than 64 below its client's highest |
| Store.SameMapInWindow | src/store.rs:184-216 | under that condition the map is the unbounded store's |
| Store.SkippedBelowWindow | src/store.rs:57-65 | a concrete log in which a never-applied write below the window is skipped |
| Store.UnusedApplies | src/store.rs:49-80 | a token no entry has used takes effect as long as no token of its client that came before is 64 or more above it |
| Store.RestoreThenReplay | src/store.rs:136-151 | restoring the state exported after any prefix and replaying the rest gives the state of the whole log |
| Store.KvStore.ApplyEntry | src/store.rs:184-216 | the store object applies one entry as the specified state machine does |
| Storage.AnswersAsWhole | src/raft/storage.rs:337-373 | last index, last term, term, entry and entries-from answer as the whole log does, exactly at and above the boundary |
| Storage.AppendExtends | src/raft/storage.rs:183-207 | appending succeeds exactly on entries that continue the whole log, and extends it |
| Storage.TruncateCuts | src/raft/storage.rs:214-226 | truncation errs exactly at or below the boundary and otherwise cuts the whole log |
| Storage.CompactKeepsWhole | src/raft/storage.rs:240-271 | compaction succeeds exactly within the retained log and leaves the whole log unchanged |
| Storage.InstallReplaces | src/raft/storage.rs:280-296 | installing errs exactly at or below the boundary; the suffix survives exactly when the boundary entry has the snapshot's term |
| Disk.Replay | src/raft/storage.rs:407-476 | the byte-offset loop computes the specified replay, with the repaired file |
| Disk.ScanEncoded | src/raft/storage.rs:407-476 | a file of whole records with an unfinished one behind scans to exactly the records |
| Disk.ReplayRecovers | src/raft/storage.rs:407-476 | replay of any tail that reaches the boundary, torn or not, gives the log above the boundary and repairs the file |
| Disk.TornAppend | src/raft/storage.rs:183-207 | for every byte prefix of an append's buffer replay gives the old log plus the whole records of the batch, never corruption, and the repaired file replays the same |
| Disk.ReplaySucceedsIff | src/raft/storage.rs:407-476 | replay succeeds if and only if the file is complete readable lines with consecutive indexes, at most one torn piece behind them, and what lies above the boundary starts right after it |
| Disk.CompactCalled | src/raft/storage.rs:240-271 | a compaction stopped before, between or after its two durable writes leaves the same whole log, with the old boundary before the first write and the new one after |
| Disk.CompactIsCrashSafe | src/raft/storage.rs:240-271 | such a compaction followed by any number of appends and reopenings yields the same whole log as if it had never been asked for |
| Disk.FilesStaySound | src/raft/storage.rs:112-140 | any sequence of appends, compactions and truncations, each dying anywhere, and of installs, each happening or not, leaves files that hold one whole log |
| Disk.NeverCorrupt | src/raft/storage.rs:407-476 | from an empty directory on, no such sequence makes reopening report corruption |
| Disk.InterruptedInstallReopens | src/raft/storage.rs:280-296 | reopening after an install died between its writes gives what the finished install would have given if and only if the old log ends at or before the boundary or agrees with the snapshot there |
| Disk.DivergentSuffixSurvives | src/raft/storage.rs:438-440 | a concrete divergent log whose suffix survives such a crash |
| Disk.InterruptedInstallGap | src/raft/storage.rs:427-436 | with the boundary past the old log's end, the reopening after the next append succeeds if and only if the old file was empty |
| Disk.LogStorage.Open | src/raft/storage.rs:112-140 | any files: an error exactly when replay reports corruption, otherwise an object holding what they replay to and the repaired file; sound files give a valid one with the whole log |
| Disk.LogStorage.Durable | src/raft/storage.rs:86-96 | reopening the files at any moment gives what is in memory |
| Disk.LogStorage.Append | src/raft/storage.rs:183-207 | succeeds exactly on entries that continue the log; memory and file both grow by them; an error changes nothing |
| Disk.LogStorage.TruncateFrom | src/raft/storage.rs:214-226 | errs exactly at or below the boundary; otherwise memory and file drop everything from there |
| Disk.LogStorage.CompactTo | src/raft/storage.rs:240-271 | succeeds exactly within the retained log; the whole log, last index and last term stay the same |
| Disk.LogStorage.InstallSnapshot | src/raft/storage.rs:280-296 | errs exactly at or below the boundary; otherwise everything through it is the snapshot's and the suffix follows the matching rule |
| Lin.Search | tests/common/lin.rs:134-173 | true if and only if the operations left can be linearized; the memo never hides a solution, and the unset mask bits are the termination measure |
| Lin.StepSound | tests/common/lin.rs:152-170 | linearizing a feasible candidate first extends any completion of the rest |
| Lin.StepComplete | tests/common/lin.rs:152-170 | every completion begins with a feasible candidate |
| Lin.RealTimeMeansInstants | tests/common/lin.rs:148-156 | the order condition of the search means that the operations can be placed at instants within their intervals |
| Lin.MaskTest | tests/common/lin.rs:141-144 | the mask comparison says exactly that all required operations are linearized |
| Locality.RequiredBits | tests/common/lin.rs:119-124 | the mask has exactly the bits of the required operations |
| Locality.RecordMeans | tests/common/lin.rs:86-117 | reads and writes that happened must be placed within their interval, unknown writes may be placed from their invocation on, failed ones not at all |
| Locality.CheckKey | tests/common/lin.rs:86-132 | valid or invalid exactly as the key's part of the history has a linearization; refuses exactly histories of more than 63 operations |
| Locality.GroupByKey | tests/common/lin.rs:60-64 | each key's group lists exactly its records |
| Locality.CheckLinearizable | tests/common/lin.rs:60-72 | fine only if one order of all operations of all keys is a linearization; otherwise the first key, as they sort, that has none or is too long |
| Locality.LinearizabilityIsLocal | tests/common/lin.rs:60-72 | a multi-key history is linearizable if and only if each key's part is |
| Ranking.KthFromEnd | src/raft/node.rs:1989-1994 | in a sorted list the k-th value from the end is the greatest that at least k values reach |
| Ranking.SortAscending | src/raft/node.rs:1989 | sorts, keeping how many values reach any bound |
| Machine.PickCommit | src/raft/node.rs:1976-1994 | the sorted pick is the greatest index a majority of the current members holds |
| Machine.Settle | src/raft/node.rs:1224-1238 | every waiting proposal is told or kept, in order |
| Machine.CountConfirming | src/raft/node.rs:1264-1268 | counts the members that answered the needed beat, the leader while it is one |
| Machine.Grant | src/raft/node.rs:1262-1274 | every waiting read is granted or kept, in order |
| Machine.RaftNode.Spawn | src/raft/node.rs:535-618 | a node started on durable state is the restarted node of the model |
| Machine.RaftNode.FindLatestChange | src/raft/node.rs:2203-2207 | the backward scan finds the newest ConfigChange |
| Machine.RaftNode.Derive | src/raft/node.rs:2202-2230 | log before snapshot before bootstrap |
| Machine.RaftNode.MembershipAt | src/raft/node.rs:2134-2144 | the backward scan finds the configuration at an index |
| Machine.RaftNode.BecomeFollower | src/raft/node.rs:1559-1599 | takes the object to the specified follower state; the vote is cleared only with a new term |
| Machine.RaftNode.ApplyLoop | src/raft/node.rs:1196-1210 | the loop takes the object where the specified recursion ends |
| Machine.RaftNode.ResolvePending | src/raft/node.rs:1224-1238 | the loop computes the specified verdicts and survivors |
| Machine.RaftNode.ResolveReads | src/raft/node.rs:1243-1275 | the loop computes the specified grants and survivors |
| Machine.RaftNode.AdvanceCommit | src/raft/node.rs:1972-2007 | commits the pick if it is new and of the current term |
| Machine.RaftNode.MaybeAdvanceCommit | src/raft/node.rs:1972-2023 | commits, then steps down if removed |
| Machine.RaftNode.MaybeBecomeLeader | src/raft/node.rs:1722-1762 | on a vote majority, the specified leader with its no-op |
| Machine.RaftNode.OnElectionTimeout | src/raft/node.rs:1605-1654 | a member that does not lead starts a pre-campaign |
| Machine.RaftNode.OnHeartbeatTick | src/raft/node.rs:1766-1803 | a leader that heard no majority steps down at its own term |
| Machine.RaftNode.ValidateConfigChange | src/raft/node.rs:737-812 | the admission rules in order, with their errors |
| Machine.RaftNode.HandlePropose | src/raft/node.rs:666-726 | the specified admission result and new state |
| Machine.RaftNode.HandleRead | src/raft/node.rs:815-856 | registers at the later of commit index and term start, after bumping the beat; a node that does not lead refuses with its hint |
| Machine.RaftNode.HandleRequestVote | src/raft/node.rs:879-936 | the specified state and reply |
| Machine.RaftNode.HandlePreVote | src/raft/node.rs:944-971 | the specified reply, changing nothing |
| Machine.RaftNode.Walk | src/raft/node.rs:1100-1140 | the loop finds where the batch stops agreeing with the log |
| Machine.RaftNode.TruncateConflict | src/raft/node.rs:1109-1143 | the committed-entry assertion, the cut, the verdicts, the rescan |
| Machine.RaftNode.Accept | src/raft/node.rs:1096-1170 | walk, cut, append |
| Machine.RaftNode.HandleAppendEntries | src/raft/node.rs:1046-1190 | the specified state and reply |
| Machine.RaftNode.Install | src/raft/node.rs:1011-1032 | replaces, rescans, settles what is above the boundary |
| Machine.RaftNode.HandleInstallSnapshot | src/raft/node.rs:976-1042 | the specified state and reply |
| Machine.RaftNode.OnPreVoteReply | src/raft/node.rs:1281-1325 | the specified state |
| Machine.RaftNode.OnVoteReply | src/raft/node.rs:1326-1365 | the specified state |
| Machine.RaftNode.OnAppendReply | src/raft/node.rs:1366-1475 | the specified state |
| Machine.RaftNode.OnSnapshotReply | src/raft/node.rs:1476-1553 | the specified state |
| Machine.RaftNode.Send | src/raft/node.rs:1808-1905 | sends exactly what the model sends, without the model's own log prefix |

## Left out

- The false half of a proposal's outcome: an entry truncated here may survive elsewhere and commit later, so only `true` verdicts are shown to be final.
- When handlers send: the model lets a node send any peer what its state calls for at any time, which includes every fan-out of the program; parting sends to departing peers (src/raft/node.rs:2066-2077) are not singled out.
- Timing and liveness: CheckQuorum windows, stickiness durations, election jitter and the recency part of the availability guard are free choices of the environment.
- The test-only switch that disables the reconfiguration gates (src/raft/node.rs:153-161).
- Crashes inside install_snapshot at the cluster level: there it is one durable step; `disk.dfy` says exactly what a crash between its two writes does.
- Hard-state and snapshot files: each is replaced atomically, so they are values; term and vote live in the node.
- JSON text, HTTP, the client API, configuration parsing, tracing and watch channels.
- The delay, drop and duplication machinery of the simulated network and its random numbers; the message set covers all of it.
- The checker's values are 64-bit numbers in the program; the model's checker takes the store's own values, which it only compares.
- Integer widths: terms, indexes and beats are unbounded; only the dedup window and the checker's mask are 64-bit words.
- Machine.RaftNode.HandleInstallSnapshot: takes the log prefix the snapshot stands for as a ghost argument, because the whole log is a notion of the model.
- Machine.RaftNode.MaybeBecomeLeader: the heartbeat tick that follows in the program sends only; every peer counts as freshly heard then, so it cannot step down.
- Machine.RaftNode.Send: the gate on members and departing peers (src/raft/node.rs:1808-1816) is not modelled, because the sends it lets through are a subset of the model's.
- Machine.RaftNode.OnAppendReply: the bookkeeping of departing peers and the immediate resend are left out; they only decide when to send.
- Machine.RaftNode.OnSnapshotReply: the bookkeeping of departing peers and the follow-up append are left out; they only decide when to send.
- Linearization.RunsAreLinearizable: one direction only; a client that leaves its window can lose a write that was reported committed (`Store.SkippedBelowWindow`), but a history may happen to be linearizable all the same.
- Linearization.RunsAreLinearizable: a write whose proposal was refused or reported lost is recorded as failed only if it was given no place in any log, otherwise as unknown.
