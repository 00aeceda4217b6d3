module Storage {
  // The retained log: a snapshot boundary plus the entries above it, which
  // together must answer as one log that was never compacted.

  import opened Types
  import Store

  datatype Snapshot = Snapshot(
    lastIndex: LogIndex, lastTerm: Term, membership: Option<Membership>, state: Store.KvState)

  datatype StorageError = NonContiguous(expected: LogIndex, got: LogIndex) | Corrupt

  datatype Result<+T> = Ok(value: T) | Err(error: StorageError)

  datatype Retained = Retained(snapshot: Option<Snapshot>, log: seq<LogEntry>) {
    function SnapshotIndex(): LogIndex {
      if snapshot.Some? then snapshot.value.lastIndex else 0
    }

    function SnapshotTerm(): Term {
      if snapshot.Some? then snapshot.value.lastTerm else 0
    }

    /** Position of a global index in `log`; None at and below the boundary. */
    function Pos(index: LogIndex): Option<nat> {
      if index >= SnapshotIndex() + 1 then Some(index - (SnapshotIndex() + 1)) else None
    }

    function Entry(index: LogIndex): Option<LogEntry> {
      match Pos(index)
      case Some(p) => if p < |log| then Some(log[p]) else None
      case None => None
    }

    function TermOf(index: LogIndex): Option<Term> {
      if index == SnapshotIndex() then Some(SnapshotTerm())
      else match Entry(index)
        case Some(e) => Some(e.term)
        case None => None
    }

    function EntriesFrom(index: LogIndex): seq<LogEntry> {
      var start := match Pos(index) { case Some(p) => p case None => 0 };
      if start <= |log| then log[start..] else []
    }

    function LastIndex(): LogIndex {
      SnapshotIndex() + |log|
    }

    function LastLogTerm(): Term {
      if |log| > 0 then log[|log| - 1].term else SnapshotTerm()
    }

    function Append(entries: seq<LogEntry>): Result<Retained> {
      match FirstGap(entries, LastIndex() + 1)
      case Some(e) => Err(e)
      case None => Ok(Retained(snapshot, log + entries))
    }

    function TruncateFrom(from: LogIndex): Result<Retained> {
      match Pos(from)
      case None => Err(Corrupt)
      case Some(keep) =>
        if from > LastIndex() then Ok(this) else Ok(Retained(snapshot, log[..keep]))
    }

    function CompactTo(index: LogIndex, state: Store.KvState, membership: Option<Membership>): Result<Retained> {
      match Entry(index)
      case None => Err(Corrupt)
      case Some(e) =>
        Ok(Retained(Some(Snapshot(index, e.term, membership, state)), EntriesFrom(index + 1)))
    }

    function Install(s: Snapshot): Result<Retained> {
      if s.lastIndex <= SnapshotIndex() then Err(Corrupt)
      else Ok(Retained(Some(s),
        if TermOf(s.lastIndex) == Some(s.lastTerm) then EntriesFrom(s.lastIndex + 1) else []))
    }
  }

  /** The first entry that does not continue the log, as an append reports it. */
  function FirstGap(entries: seq<LogEntry>, expected: LogIndex): Option<StorageError> {
    if |entries| == 0 then None
    else if entries[0].index != expected then Some(NonContiguous(expected, entries[0].index))
    else FirstGap(entries[1..], expected + 1)
  }

  ghost predicate Continues(entries: seq<LogEntry>, first: LogIndex) {
    forall k | 0 <= k < |entries| :: entries[k].index == first + k
  }

  lemma FirstGapMeans(entries: seq<LogEntry>, expected: LogIndex)
    ensures FirstGap(entries, expected).None? <==> Continues(entries, expected)
  {
    if |entries| > 0 {
      FirstGapMeans(entries[1..], expected + 1);
      if Continues(entries[1..], expected + 1) && entries[0].index == expected {
        forall k | 0 <= k < |entries| ensures entries[k].index == expected + k {
          if k > 0 { assert entries[1..][k - 1] == entries[k]; }
        }
      }
      if Continues(entries, expected) {
        forall k | 0 <= k < |entries[1..]| ensures entries[1..][k].index == expected + 1 + k {
          assert entries[1..][k] == entries[k + 1];
        }
      }
    }
  }

  /** Boundary plus tail stand for the whole log `full`. */
  ghost predicate Represents(s: Retained, full: Log) {
    && Contiguous(full)
    && s.SnapshotIndex() <= |full|
    && s.log == full[s.SnapshotIndex()..]
    && (s.snapshot.Some? ==>
          s.snapshot.value.lastIndex > 0 && s.snapshot.value.lastTerm == TermAt(full, s.snapshot.value.lastIndex))
  }

  /** Lookups answer as the whole log does, exactly at and above the boundary. */
  lemma AnswersAsWhole(s: Retained, full: Log, i: LogIndex)
    requires Represents(s, full)
    ensures s.LastIndex() == |full| && s.LastLogTerm() == LastTerm(full)
    ensures s.TermOf(i) == if s.SnapshotIndex() <= i <= |full| then Some(TermAt(full, i)) else None
    ensures s.Entry(i) == if s.SnapshotIndex() < i <= |full| then Some(full[i - 1]) else None
    ensures s.EntriesFrom(i) ==
      if i > |full| then [] else if i <= s.SnapshotIndex() then s.log else full[i - 1..]
  {
  }

  /** Appending succeeds exactly on entries that continue the whole log, and extends it. */
  lemma AppendExtends(s: Retained, full: Log, entries: seq<LogEntry>)
    requires Represents(s, full)
    ensures s.Append(entries).Ok? <==> Continues(entries, |full| + 1)
    ensures s.Append(entries).Ok? ==> Represents(s.Append(entries).value, full + entries)
  {
    FirstGapMeans(entries, |full| + 1);
    var k := s.SnapshotIndex();
    assert (full + entries)[k..] == full[k..] + entries;
  }

  /** Truncation errs exactly at or below the boundary, and otherwise cuts the whole log. */
  lemma TruncateCuts(s: Retained, full: Log, from: LogIndex)
    requires Represents(s, full)
    ensures s.TruncateFrom(from).Ok? <==> from > s.SnapshotIndex()
    ensures s.TruncateFrom(from).Ok? ==>
      Represents(s.TruncateFrom(from).value, if from > |full| then full else full[..from - 1])
  {
    if s.SnapshotIndex() < from <= |full| {
      var k := s.SnapshotIndex();
      assert full[..from - 1][k..] == full[k..from - 1];
      assert full[k..][..from - 1 - k] == full[k..from - 1];
    }
  }

  /** Compaction succeeds exactly on retained entries and changes nothing but the boundary. */
  lemma CompactKeepsWhole(s: Retained, full: Log, i: LogIndex, state: Store.KvState, membership: Option<Membership>)
    requires Represents(s, full)
    ensures s.CompactTo(i, state, membership).Ok? <==> s.SnapshotIndex() < i <= |full|
    ensures s.CompactTo(i, state, membership).Ok? ==>
      var s' := s.CompactTo(i, state, membership).value;
      Represents(s', full) && s'.snapshot == Some(Snapshot(i, TermAt(full, i), membership, state))
  {
    AnswersAsWhole(s, full, i);
    AnswersAsWhole(s, full, i + 1);
  }

  /** What the whole log becomes when a snapshot standing for `prefix` is installed. */
  ghost function Installed(full: Log, prefix: Log): Log {
    if |prefix| <= |full| && TermAt(full, |prefix|) == LastTerm(prefix)
    then prefix + full[|prefix|..] else prefix
  }

  /** Installing errs exactly at or below the boundary; the suffix survives
      exactly when the boundary entry has the snapshot's term. */
  lemma InstallReplaces(s: Retained, full: Log, snapshot: Snapshot, prefix: Log)
    requires Represents(s, full) && Contiguous(prefix)
    requires snapshot.lastIndex == |prefix| > 0 && snapshot.lastTerm == LastTerm(prefix)
    ensures s.Install(snapshot).Ok? <==> snapshot.lastIndex > s.SnapshotIndex()
    ensures s.Install(snapshot).Ok? ==> Represents(s.Install(snapshot).value, Installed(full, prefix))
  {
    AnswersAsWhole(s, full, |prefix|);
    AnswersAsWhole(s, full, |prefix| + 1);
    if |prefix| <= |full| && TermAt(full, |prefix|) == LastTerm(prefix) {
      SpliceRepresents(full, snapshot, prefix);
    }
  }

  lemma SpliceRepresents(full: Log, snapshot: Snapshot, prefix: Log)
    requires Contiguous(full) && Contiguous(prefix) && |prefix| <= |full|
    requires snapshot.lastIndex == |prefix| > 0 && snapshot.lastTerm == LastTerm(prefix)
    ensures Represents(Retained(Some(snapshot), full[|prefix|..]), prefix + full[|prefix|..])
  {
    var whole := prefix + full[|prefix|..];
    assert whole[|prefix|..] == full[|prefix|..];
    assert forall k | |prefix| <= k < |full| :: whole[k] == full[k];
  }
}
