module Rpc {
  // What travels between nodes. A reply carries, beside what was on the wire,
  // the tags the sender kept for it (the term, position and sequence number the
  // request was sent with).

  import opened Types
  import opened Storage

  datatype Message =
    | PreVoteReq(from: NodeId, to: NodeId, term: Term, lastIndex: LogIndex, lastTerm: Term)
    | PreVoteResp(from: NodeId, to: NodeId, sentTerm: Term, term: Term, granted: bool)
    | VoteReq(from: NodeId, to: NodeId, term: Term, lastIndex: LogIndex, lastTerm: Term)
    | VoteResp(from: NodeId, to: NodeId, sentTerm: Term, term: Term, granted: bool)
      /** `beat` is the sender's tag; the receiver never looks at it. */
    | AppendReq(from: NodeId, to: NodeId, term: Term, prevIndex: LogIndex, prevTerm: Term,
                entries: seq<LogEntry>, leaderCommit: LogIndex, beat: nat)
    | AppendResp(from: NodeId, to: NodeId, sentTerm: Term, sentPrev: LogIndex, sentEntries: nat,
                 sentBeat: nat, term: Term, success: bool)
      /** `whole` is the log prefix the snapshot stands for; only the receiver's
          record of its own whole log depends on it. */
    | SnapshotReq(from: NodeId, to: NodeId, term: Term, snapshot: Snapshot, whole: Log)
    | SnapshotResp(from: NodeId, to: NodeId, sentTerm: Term, lastIncluded: LogIndex, term: Term)
}
