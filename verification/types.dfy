module Types {
  // The data every component shares: commands, log entries, snapshots and the
  // vocabulary for talking about a whole (never compacted) log.

  datatype Option<+T> = None | Some(value: T)

  type NodeId = nat
  type Term = nat
  /** 1-based; 0 is the sentinel before the first entry. */
  type LogIndex = nat
  /** A JSON value; the consensus core only ever compares it for equality. */
  type Value = string

  datatype Session = Session(client: nat, seqNo: nat)
  datatype MemberAddr = MemberAddr(raft: string, client: string)
  type Membership = map<NodeId, MemberAddr>

  datatype Command =
    | Put(key: string, value: Value, session: Option<Session>)
    | Delete(key: string, session: Option<Session>)
    | Noop
    | ConfigChange(members: Membership)

  datatype LogEntry = LogEntry(term: Term, index: LogIndex, command: Command)

  type Log = seq<LogEntry>

  /** Entry i of a whole log is stored at position i - 1. */
  ghost predicate Contiguous(log: Log) {
    forall k | 0 <= k < |log| :: log[k].index == k + 1
  }

  /** Term of the entry at 1-based index i; 0 at the sentinel. */
  function TermAt(log: Log, i: LogIndex): Term
    requires i <= |log|
  {
    if i == 0 then 0 else log[i - 1].term
  }

  function LastTerm(log: Log): Term {
    TermAt(log, |log|)
  }

  /** Index of the latest ConfigChange in the log; 0 if there is none. */
  function ConfigIndex(log: Log): (i: LogIndex)
    ensures i <= |log|
    ensures i > 0 ==> log[i - 1].command.ConfigChange?
  {
    if |log| == 0 then 0
    else if log[|log| - 1].command.ConfigChange? then |log|
    else ConfigIndex(log[..|log| - 1])
  }

  function LatestConfig(log: Log): Option<Membership> {
    var i := ConfigIndex(log);
    if i == 0 then None else Some(log[i - 1].command.members)
  }

  /** The configuration a log puts in effect, given the one to fall back on. */
  function MembersOf(log: Log, boot: Membership): Membership {
    match LatestConfig(log)
    case Some(members) => members
    case None => boot
  }

  /** The same, when only the ids matter. */
  function Ids(log: Log, boot: set<NodeId>): set<NodeId> {
    match LatestConfig(log)
    case Some(members) => members.Keys
    case None => boot
  }

  ghost predicate NoConfigFrom(log: Log, i: LogIndex) {
    forall k | i <= k < |log| :: !log[k].command.ConfigChange?
  }

  lemma {:induction false} ConfigIndexIsLatest(log: Log)
    ensures NoConfigFrom(log, ConfigIndex(log))
  {
    if |log| > 0 && !log[|log| - 1].command.ConfigChange? {
      ConfigIndexIsLatest(log[..|log| - 1]);
      assert forall k | 0 <= k < |log| - 1 :: log[..|log| - 1][k] == log[k];
    }
  }

  lemma {:induction false} ConfigIndexUnique(log: Log, i: LogIndex)
    requires i <= |log|
    requires i > 0 ==> log[i - 1].command.ConfigChange?
    requires NoConfigFrom(log, i)
    ensures ConfigIndex(log) == i
  {
    ConfigIndexIsLatest(log);
    var j := ConfigIndex(log);
    assert i > 0 ==> j >= i by { if i > 0 { assert log[i - 1].command.ConfigChange?; } }
    assert j > 0 ==> i >= j by { if j > 0 { assert log[j - 1].command.ConfigChange?; } }
  }

  /** No ConfigChange after the cut: the prefix has the same configuration. */
  lemma {:induction false} SameConfig(log: Log, short: nat)
    requires ConfigIndex(log) <= short <= |log|
    ensures ConfigIndex(log[..short]) == ConfigIndex(log)
    ensures LatestConfig(log[..short]) == LatestConfig(log)
  {
    ConfigIndexIsLatest(log);
    var i := ConfigIndex(log);
    var cut := log[..short];
    assert forall k | i <= k < |cut| :: cut[k] == log[k];
    ConfigIndexUnique(cut, i);
  }

  /** Section 5.4.1 of the Raft paper: compare last terms, then lengths. */
  predicate UpToDate(lastTerm: Term, lastIndex: LogIndex, otherTerm: Term, otherIndex: LogIndex) {
    lastTerm > otherTerm || (lastTerm == otherTerm && lastIndex >= otherIndex)
  }

  /** Of two logs one is always up to date with the other, both exactly when
      they end alike. */
  lemma {:induction false} UpToDateIsTotal(t: Term, i: LogIndex, u: Term, j: LogIndex)
    ensures UpToDate(t, i, u, j) || UpToDate(u, j, t, i)
    ensures UpToDate(t, i, u, j) && UpToDate(u, j, t, i) <==> t == u && i == j
  {
  }
}
