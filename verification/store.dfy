module Store {
  // The key-value state machine with exactly-once application: a 64-bit sliding
  // window per client stands in for the set of applied sequence numbers.

  import opened Types
  import opened Bits

  const SESSION_WINDOW := 64

  /** One client's window. Bit i of `recent` set: seq `maxSeq - i` applied. */
  datatype SessionState = SessionState(maxSeq: nat, recent: Word) {
    predicate Contains(seqNo: nat) {
      seqNo <= maxSeq &&
      var offset := maxSeq - seqNo;
      offset >= SESSION_WINDOW || Bit(recent, offset)
    }

    function Record(seqNo: nat): SessionState {
      if seqNo > maxSeq then
        SessionState(seqNo, WordWithBit(ShiftLeft(recent, seqNo - maxSeq), 0))
      else if maxSeq - seqNo < SESSION_WINDOW then
        SessionState(maxSeq, WordWithBit(recent, maxSeq - seqNo))
      else this
    }
  }

  function WordWithBit(w: Word, i: nat): (r: Word)
    requires i < WORD_BITS
    ensures r == WithBit(w, i)
  {
    WithBitBelow(w, i, 64);
    WithBit(w, i)
  }

  function FirstSeen(seqNo: nat): SessionState {
    SessionState(seqNo, 1)
  }

  /** The full state a snapshot captures: user data and the dedup table. */
  datatype KvState = KvState(entries: map<string, Value>, sessions: map<nat, SessionState>)

  const EMPTY := KvState(map[], map[])

  predicate AlreadyApplied(s: KvState, session: Option<Session>) {
    match session
    case None => false
    case Some(token) => token.client in s.sessions && s.sessions[token.client].Contains(token.seqNo)
  }

  function RecordApplied(sessions: map<nat, SessionState>, session: Option<Session>): map<nat, SessionState> {
    match session
    case None => sessions
    case Some(token) =>
      sessions[token.client :=
        if token.client in sessions then sessions[token.client].Record(token.seqNo)
        else FirstSeen(token.seqNo)]
  }

  function Apply(s: KvState, command: Command): KvState {
    match command
    case Put(key, value, session) =>
      if AlreadyApplied(s, session) then s
      else KvState(s.entries[key := value], RecordApplied(s.sessions, session))
    case Delete(key, session) =>
      if AlreadyApplied(s, session) then s
      else KvState(s.entries - {key}, RecordApplied(s.sessions, session))
    case Noop => s
    case ConfigChange(_) => s
  }

  /** The state after a whole log. */
  function Fold(log: Log): KvState {
    if |log| == 0 then EMPTY
    else Apply(Fold(log[..|log| - 1]), log[|log| - 1].command)
  }

  predicate IsWrite(command: Command) {
    command.Put? || command.Delete?
  }

  predicate TakesEffect(s: KvState, command: Command) {
    IsWrite(command) && !AlreadyApplied(s, command.session)
  }

  /** Whether the k-th entry of a log changes anything. */
  predicate EffectAt(log: Log, k: nat)
    requires k < |log|
  {
    TakesEffect(Fold(log[..k]), log[k].command)
  }

  /** After recording x the window answers for x, for everything it answered
      for before, and for whatever slid out below it. */
  lemma {:induction false} RecordContains(s: SessionState, x: nat, y: nat)
    ensures s.Record(x).Contains(y) <==>
              x == y || s.Contains(y) || y + SESSION_WINDOW <= s.Record(x).maxSeq
  {
    if x > s.maxSeq {
      if y <= x < y + SESSION_WINDOW {
        WithBitAt(ShiftLeft(s.recent, x - s.maxSeq), 0, x - y);
        ShiftLeftAt(s.recent, x - s.maxSeq, x - y);
      }
    } else if s.maxSeq - x < SESSION_WINDOW && y <= s.maxSeq < y + SESSION_WINDOW {
      WithBitAt(s.recent, s.maxSeq - x, s.maxSeq - y);
    }
  }

  /** Once answered for, always answered for. */
  lemma {:induction false} AppliedForever(s: KvState, command: Command, token: Session)
    requires AlreadyApplied(s, Some(token))
    ensures AlreadyApplied(Apply(s, command), Some(token))
  {
    if TakesEffect(s, command) && command.session.Some? && command.session.value.client == token.client {
      RecordContains(s.sessions[token.client], command.session.value.seqNo, token.seqNo);
    }
  }

  lemma {:induction false} RecordedAfterEffect(s: KvState, command: Command)
    requires IsWrite(command) && command.session.Some?
    ensures AlreadyApplied(Apply(s, command), command.session)
  {
    var token := command.session.value;
    if TakesEffect(s, command) {
      if token.client in s.sessions {
        RecordContains(s.sessions[token.client], token.seqNo, token.seqNo);
      } else {
        OneBits(0);
      }
    }
  }

  lemma FoldStep(log: Log, k: nat)
    requires k < |log|
    ensures Fold(log[..k + 1]) == Apply(Fold(log[..k]), log[k].command)
  {
    assert log[..k + 1][..k] == log[..k];
  }

  lemma {:induction false} StaysApplied(log: Log, i: nat, j: nat)
    requires i < j < |log| && IsWrite(log[i].command) && log[i].command.session.Some?
    ensures AlreadyApplied(Fold(log[..j]), log[i].command.session)
    decreases j
  {
    FoldStep(log, j - 1);
    if i + 1 == j {
      RecordedAfterEffect(Fold(log[..i]), log[i].command);
    } else {
      StaysApplied(log, i, j - 1);
      AppliedForever(Fold(log[..j - 1]), log[j - 1].command, log[i].command.session.value);
    }
  }

  /** EXACTLY ONCE. Of the entries of any log that carry one token, at most
      the first takes effect. */
  lemma {:induction false} AtMostOnce(log: Log, i: nat, j: nat)
    requires i < j < |log| && IsWrite(log[i].command) && IsWrite(log[j].command)
    requires log[i].command.session.Some? && log[i].command.session == log[j].command.session
    ensures !EffectAt(log, j)
  {
    StaysApplied(log, i, j);
  }

  /** The reference store remembers every token it ever applied. */
  datatype Unbounded = Unbounded(entries: map<string, Value>, applied: set<Session>)

  predicate Fresh(r: Unbounded, command: Command) {
    IsWrite(command) && (command.session.Some? ==> command.session.value !in r.applied)
  }

  function Remember(applied: set<Session>, session: Option<Session>): set<Session> {
    if session.Some? then applied + {session.value} else applied
  }

  function ApplyUnbounded(r: Unbounded, command: Command): Unbounded {
    if !Fresh(r, command) then r
    else match command
      case Put(key, value, session) => Unbounded(r.entries[key := value], Remember(r.applied, session))
      case Delete(key, session) => Unbounded(r.entries - {key}, Remember(r.applied, session))
      case Noop => r
      case ConfigChange(_) => r
  }

  function FoldUnbounded(log: Log): Unbounded {
    if |log| == 0 then Unbounded(map[], {})
    else ApplyUnbounded(FoldUnbounded(log[..|log| - 1]), log[|log| - 1].command)
  }

  predicate FreshAt(log: Log, k: nat)
    requires k < |log|
  {
    Fresh(FoldUnbounded(log[..k]), log[k].command)
  }

  /** The k-th entry keeps the client contract: a token never used before is
      less than a window below every token its client already had applied. */
  ghost predicate InWindow(r: Unbounded, command: Command) {
    Fresh(r, command) && command.session.Some? ==>
      forall token | token in r.applied && token.client == command.session.value.client ::
        token.seqNo < command.session.value.seqNo + SESSION_WINDOW
  }

  ghost predicate InWindowAt(log: Log, k: nat)
    requires k < |log|
  {
    InWindow(FoldUnbounded(log[..k]), log[k].command)
  }

  /** The window describes exactly the applied tokens it can still see. */
  ghost predicate Describes(s: SessionState, client: nat, applied: set<Session>) {
    && Session(client, s.maxSeq) in applied
    && (forall token | token in applied && token.client == client :: token.seqNo <= s.maxSeq)
    && (forall y: nat | y <= s.maxSeq < y + SESSION_WINDOW :: s.Contains(y) <==> Session(client, y) in applied)
  }

  ghost predicate Similar(s: KvState, r: Unbounded) {
    && s.entries == r.entries
    && (forall token | token in r.applied :: token.client in s.sessions)
    && (forall client | client in s.sessions :: Describes(s.sessions[client], client, r.applied))
  }

  lemma {:induction false} DescribesRecorded(s: SessionState, client: nat, applied: set<Session>, x: nat)
    requires Describes(s, client, applied)
    ensures Describes(s.Record(x), client, applied + {Session(client, x)})
  {
    var s' := s.Record(x);
    forall y: nat | y <= s'.maxSeq < y + SESSION_WINDOW
      ensures s'.Contains(y) <==> Session(client, y) in applied + {Session(client, x)}
    {
      RecordContains(s, x, y);
    }
  }

  lemma DescribesFirst(client: nat, applied: set<Session>, x: nat)
    requires forall token | token in applied :: token.client != client
    ensures Describes(FirstSeen(x), client, applied + {Session(client, x)})
  {
    forall y: nat | y <= x < y + SESSION_WINDOW
      ensures FirstSeen(x).Contains(y) <==> Session(client, y) in applied + {Session(client, x)}
    {
      OneBits(x - y);
    }
  }

  lemma {:induction false} SameVerdict(s: KvState, r: Unbounded, command: Command)
    requires Similar(s, r)
    ensures TakesEffect(s, command) == Fresh(r, command) <==> InWindow(r, command)
  {
    if IsWrite(command) && command.session.Some? {
      var token := command.session.value;
      if token.client in s.sessions {
        var w := s.sessions[token.client];
        assert Describes(w, token.client, r.applied);
        assert Session(token.client, w.maxSeq) in r.applied;
      }
    }
  }

  lemma {:induction false} StaysSimilar(s: KvState, r: Unbounded, command: Command)
    requires Similar(s, r) && InWindow(r, command)
    ensures Similar(Apply(s, command), ApplyUnbounded(r, command))
  {
    SameVerdict(s, r, command);
    if Fresh(r, command) && command.session.Some? {
      var token := command.session.value;
      var s', r' := Apply(s, command), ApplyUnbounded(r, command);
      assert r'.applied == r.applied + {token};
      forall client | client in s'.sessions
        ensures Describes(s'.sessions[client], client, r'.applied)
      {
        if client != token.client {
          assert Describes(s.sessions[client], client, r.applied);
        } else if client in s.sessions {
          DescribesRecorded(s.sessions[client], client, r.applied, token.seqNo);
        } else {
          DescribesFirst(client, r.applied, token.seqNo);
        }
      }
    }
  }

  lemma {:induction false} SimilarAlong(log: Log, n: nat)
    requires n <= |log| && forall k | 0 <= k < n :: InWindowAt(log, k)
    ensures Similar(Fold(log[..n]), FoldUnbounded(log[..n]))
  {
    if n > 0 {
      SimilarAlong(log, n - 1);
      assert InWindowAt(log, n - 1);
      assert log[..n][..n - 1] == log[..n - 1];
      StaysSimilar(Fold(log[..n - 1]), FoldUnbounded(log[..n - 1]), log[n - 1].command);
    }
  }

  lemma {:induction false} SameVerdictsInWindow(log: Log, n: nat)
    requires n <= |log| && forall k | 0 <= k < n :: EffectAt(log, k) == FreshAt(log, k)
    ensures forall k | 0 <= k < n :: InWindowAt(log, k)
  {
    if n > 0 {
      SameVerdictsInWindow(log, n - 1);
      SimilarAlong(log, n - 1);
      SameVerdict(Fold(log[..n - 1]), FoldUnbounded(log[..n - 1]), log[n - 1].command);
      assert EffectAt(log, n - 1) == FreshAt(log, n - 1);
    }
  }

  /** THE WINDOW IS EXACT. The bitmask store applies the same entries as the
      unbounded one if and only if every unused token arrives within its
      client's window. */
  lemma {:induction false} WindowIsExact(log: Log)
    ensures (forall k | 0 <= k < |log| :: EffectAt(log, k) == FreshAt(log, k))
       <==> (forall k | 0 <= k < |log| :: InWindowAt(log, k))
  {
    if forall k | 0 <= k < |log| :: EffectAt(log, k) == FreshAt(log, k) {
      SameVerdictsInWindow(log, |log|);
    }
    if forall k | 0 <= k < |log| :: InWindowAt(log, k) {
      forall k | 0 <= k < |log| ensures EffectAt(log, k) == FreshAt(log, k) {
        SimilarAlong(log, k);
        assert InWindowAt(log, k);
        SameVerdict(Fold(log[..k]), FoldUnbounded(log[..k]), log[k].command);
      }
    }
  }

  predicate UsedAt(log: Log, m: nat, client: nat, seqNo: nat) {
    m < |log| && IsWrite(log[m].command) && log[m].command.session == Some(Session(client, seqNo))
  }

  /** A window answers only for tokens that came in, or lie 64 or more below
      one that did. */
  lemma {:induction false} WindowAnswersFor(log: Log, k: nat, client: nat, y: nat) returns (m: nat, z: nat)
    requires k <= |log| && AlreadyApplied(Fold(log[..k]), Some(Session(client, y)))
    ensures m < k && UsedAt(log, m, client, z) && (z == y || y + 64 <= z)
  {
    assert k > 0;
    FoldStep(log, k - 1);
    var s, command := Fold(log[..k - 1]), log[k - 1].command;
    if AlreadyApplied(s, Some(Session(client, y))) {
      m, z := WindowAnswersFor(log, k - 1, client, y);
    } else {
      m, z := k - 1, command.session.value.seqNo;
      if client in s.sessions {
        RecordContains(s.sessions[client], z, y);
      } else if z != y {
        OneBits(z - y);
      }
    }
  }

  /** A token no entry has used takes effect as long as no token of its client
      that came in before is 64 or more above it. */
  lemma {:induction false} UnusedApplies(log: Log, k: nat, client: nat, y: nat)
    requires UsedAt(log, k, client, y)
    requires forall m: nat, z: nat | m < k && UsedAt(log, m, client, z) :: z != y && z < y + 64
    ensures EffectAt(log, k)
  {
    if AlreadyApplied(Fold(log[..k]), Some(Session(client, y))) {
      var m, z := WindowAnswersFor(log, k, client, y);
    }
  }

  /** Within the contract the user-visible map is the unbounded store's. */
  lemma {:induction false} SameMapInWindow(log: Log)
    requires forall k | 0 <= k < |log| :: InWindowAt(log, k)
    ensures Fold(log).entries == FoldUnbounded(log).entries
  {
    SimilarAlong(log, |log|);
    assert log[..|log|] == log;
  }

  /** Outside it a write is acknowledged but silently skipped: 64 below the
      highest applied sequence number. */
  lemma SkippedBelowWindow()
    ensures exists log: Log, k :: 0 <= k < |log| && FreshAt(log, k) && !EffectAt(log, k)
  {
    hide Fold, FoldUnbounded;
    var first := LogEntry(1, 1, Put("a", "1", Some(Session(7, 64))));
    var late := LogEntry(1, 2, Put("b", "2", Some(Session(7, 0))));
    var log := [first, late];
    assert log[..1] == [first];
    OneApplied(first);
    assert Fold([first]).sessions[7] == FirstSeen(64);
    assert FreshAt(log, 1) && !EffectAt(log, 1);
  }

  lemma OneApplied(e: LogEntry)
    ensures Fold([e]) == Apply(EMPTY, e.command)
    ensures FoldUnbounded([e]) == ApplyUnbounded(Unbounded(map[], {}), e.command)
  {
    assert [e][..0] == [];
  }

  /** The store as the program holds it. */
  class KvStore {
    var entries: map<string, Value>
    var sessions: map<nat, SessionState>

    ghost function State(): KvState
      reads this
    {
      KvState(entries, sessions)
    }

    constructor ()
      ensures State() == EMPTY
    {
      entries := map[];
      sessions := map[];
    }

    method Get(key: string) returns (value: Option<Value>)
      ensures value.Some? <==> key in entries
      ensures value.Some? ==> value.value == entries[key]
    {
      value := if key in entries then Some(entries[key]) else None;
    }

    method PutValue(key: string, value: Value)
      modifies this
      ensures State() == old(State()).(entries := old(entries)[key := value])
    {
      entries := entries[key := value];
    }

    /** Returns whether the key existed. */
    method Remove(key: string) returns (existed: bool)
      modifies this
      ensures State() == old(State()).(entries := old(entries) - {key})
      ensures existed == (key in old(entries))
    {
      existed := key in entries;
      entries := entries - {key};
    }

    predicate IsDuplicate(session: Option<Session>)
      reads this
    {
      match session
      case None => false
      case Some(token) => token.client in sessions && sessions[token.client].Contains(token.seqNo)
    }

    method MarkApplied(session: Option<Session>)
      modifies this
      ensures State() == old(State()).(sessions := RecordApplied(old(sessions), session))
    {
      if session.Some? {
        var token := session.value;
        if token.client in sessions {
          sessions := sessions[token.client := sessions[token.client].Record(token.seqNo)];
        } else {
          sessions := sessions[token.client := FirstSeen(token.seqNo)];
        }
      }
    }

    /** Applies one committed entry. */
    method ApplyEntry(entry: LogEntry)
      modifies this
      ensures State() == Apply(old(State()), entry.command)
    {
      match entry.command {
        case Put(key, value, session) =>
          if IsDuplicate(session) { return; }
          PutValue(key, value);
          MarkApplied(session);
        case Delete(key, session) =>
          if IsDuplicate(session) { return; }
          var _ := Remove(key);
          MarkApplied(session);
        case Noop =>
        case ConfigChange(_) =>
      }
    }

    method Export() returns (snapshot: KvState)
      ensures snapshot == State()
    {
      snapshot := KvState(entries, sessions);
    }

    method Import(snapshot: KvState)
      modifies this
      ensures State() == snapshot
    {
      entries := snapshot.entries;
      sessions := snapshot.sessions;
    }
  }

  lemma {:induction false} FoldFromPrefix(base: Log, tail: Log, n: nat)
    requires n <= |tail|
    ensures Fold(base + tail[..n]) == FoldFrom(Fold(base), tail[..n])
    decreases n
  {
    if n == 0 {
      assert base + tail[..0] == base;
    } else {
      FoldFromPrefix(base, tail, n - 1);
      assert (base + tail[..n])[..|base| + n - 1] == base + tail[..n - 1];
      assert tail[..n][..n - 1] == tail[..n - 1];
    }
  }

  /** Replay of a log on top of a restored snapshot. */
  function FoldFrom(s: KvState, log: Log): KvState {
    if |log| == 0 then s
    else Apply(FoldFrom(s, log[..|log| - 1]), log[|log| - 1].command)
  }

  /** SNAPSHOT THEN REPLAY. Restoring the state exported after any prefix and
      replaying the rest gives the state of replaying the whole log. */
  lemma {:induction false} RestoreThenReplay(base: Log, tail: Log)
    ensures FoldFrom(Fold(base), tail) == Fold(base + tail)
  {
    FoldFromPrefix(base, tail, |tail|);
    assert tail[..|tail|] == tail;
  }
}
