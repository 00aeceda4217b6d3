module Disk {
  // The durable files: a log of newline-terminated records that appends can
  // tear, and a snapshot that is replaced atomically.

  import opened Types
  import opened Storage
  import Store

  type Byte = b: nat | b < 256

  const NEWLINE: Byte := 10

  /** How one record is written and read; the text format itself is abstract. */
  datatype Codec = Codec(enc: LogEntry -> seq<Byte>, dec: seq<Byte> -> Option<LogEntry>)

  ghost predicate Lawful(codec: Codec) {
    forall e {:trigger codec.enc(e)} :: NEWLINE !in codec.enc(e) && codec.dec(codec.enc(e) + [NEWLINE]) == Some(e)
  }

  function Line(codec: Codec, e: LogEntry): (line: seq<Byte>)
    ensures |line| > 0
  {
    codec.enc(e) + [NEWLINE]
  }

  function Encode(codec: Codec, entries: seq<LogEntry>): seq<Byte> {
    if |entries| == 0 then [] else Encode(codec, entries[..|entries| - 1]) + Line(codec, entries[|entries| - 1])
  }

  lemma {:induction false} EncodeJoins(codec: Codec, a: seq<LogEntry>, b: seq<LogEntry>)
    ensures Encode(codec, a + b) == Encode(codec, a) + Encode(codec, b)
  {
    if |b| == 0 {
      assert a + b == a;
    } else {
      assert (a + b)[..|a + b| - 1] == a + b[..|b| - 1];
      EncodeJoins(codec, a, b[..|b| - 1]);
    }
  }

  lemma {:induction false} EncodeHead(codec: Codec, entries: seq<LogEntry>)
    requires |entries| > 0
    ensures Encode(codec, entries) == Line(codec, entries[0]) + Encode(codec, entries[1..])
  {
    assert entries == [entries[0]] + entries[1..];
    EncodeJoins(codec, [entries[0]], entries[1..]);
    assert Encode(codec, [entries[0]][..0]) == [];
    assert Encode(codec, [entries[0]]) == Line(codec, entries[0]);
  }

  // ---- replay ----

  /** Length of the first chunk: through the first newline, or everything. */
  function ChunkLength(bytes: seq<Byte>): (n: nat)
    requires |bytes| > 0
    ensures 0 < n <= |bytes| && NEWLINE !in bytes[..n - 1]
    ensures n < |bytes| ==> bytes[n - 1] == NEWLINE
  {
    if bytes[0] == NEWLINE || |bytes| == 1 then 1
    else
      var n := ChunkLength(bytes[1..]);
      assert bytes[..n] == [bytes[0]] + bytes[1..][..n - 1];
      n + 1
  }

  /** What a chunk says: a complete line that parses is an entry. */
  function ReadChunk(codec: Codec, chunk: seq<Byte>): Option<LogEntry>
    requires |chunk| > 0
  {
    if chunk[|chunk| - 1] == NEWLINE then codec.dec(chunk) else None
  }

  datatype Scanned = Good(entries: seq<LogEntry>, used: nat) | Bad

  function Prepend(entries: seq<LogEntry>, bytes: nat, s: Scanned): Scanned {
    match s
    case Bad => Bad
    case Good(more, used) => Good(entries + more, bytes + used)
  }

  predicate Follows(previous: Option<LogIndex>, e: LogEntry) {
    previous.None? || e.index == previous.value + 1
  }

  /** The entries of a file and how many bytes of it they take. An unreadable
      final chunk is a torn append; an unreadable chunk elsewhere, or an index
      out of step, is corruption. */
  function Scan(codec: Codec, bytes: seq<Byte>, previous: Option<LogIndex>): Scanned
    decreases |bytes|
  {
    if |bytes| == 0 then Good([], 0)
    else
      var n := ChunkLength(bytes);
      match ReadChunk(codec, bytes[..n])
      case Some(e) =>
        if Follows(previous, e) then Prepend([e], n, Scan(codec, bytes[n..], Some(e.index))) else Bad
      case None => if n == |bytes| then Good([], 0) else Bad
  }

  function Retain(entries: seq<LogEntry>, boundary: LogIndex): seq<LogEntry> {
    if |entries| == 0 then []
    else
      var e := entries[|entries| - 1];
      Retain(entries[..|entries| - 1], boundary) + (if e.index > boundary then [e] else [])
  }

  /** Replay: the retained log, or corruption, and the file after repair. */
  function Replayed(codec: Codec, bytes: seq<Byte>, boundary: LogIndex): (Result<seq<LogEntry>>, seq<Byte>) {
    match Scan(codec, bytes, None)
    case Bad => (Err(Corrupt), bytes)
    case Good(entries, used) =>
      var file := if used <= |bytes| then bytes[..used] else bytes;
      var log := Retain(entries, boundary);
      (if |log| > 0 && log[0].index != boundary + 1 then Err(Corrupt) else Ok(log), file)
  }

  lemma {:induction false} PrependTwice(a: seq<LogEntry>, i: nat, b: seq<LogEntry>, j: nat, s: Scanned)
    ensures Prepend(a, i, Prepend(b, j, s)) == Prepend(a + b, i + j, s)
  {
    if s.Good? { assert a + (b + s.entries) == a + b + s.entries; }
  }

  /** What scanning from an offset says about the chunk there. */
  lemma {:induction false} ScanStep(codec: Codec, bytes: seq<Byte>, offset: nat, previous: Option<LogIndex>)
    requires offset < |bytes|
    ensures var n := ChunkLength(bytes[offset..]);
      && 0 < n <= |bytes| - offset
      && Scan(codec, bytes[offset..], previous) ==
           match ReadChunk(codec, bytes[offset..offset + n])
           case Some(e) =>
             if Follows(previous, e) then Prepend([e], n, Scan(codec, bytes[offset + n..], Some(e.index))) else Bad
           case None => if offset + n == |bytes| then Good([], 0) else Bad
  {
    var rest := bytes[offset..];
    var n := ChunkLength(rest);
    assert rest[..n] == bytes[offset..offset + n] && rest[n..] == bytes[offset + n..];
  }

  // ---- what replay accepts ----

  /** One complete line. */
  predicate IsLine(bytes: seq<Byte>) {
    |bytes| > 0 && bytes[|bytes| - 1] == NEWLINE && NEWLINE !in bytes[..|bytes| - 1]
  }

  function Flatten(lines: seq<seq<Byte>>): seq<Byte> {
    if |lines| == 0 then [] else lines[0] + Flatten(lines[1..])
  }

  /** The lines read as these entries, each one index after the one before. */
  ghost predicate Parses(codec: Codec, lines: seq<seq<Byte>>, entries: seq<LogEntry>, previous: Option<LogIndex>) {
    && |lines| == |entries|
    && (forall k | 0 <= k < |lines| :: IsLine(lines[k]) && codec.dec(lines[k]) == Some(entries[k]))
    && (|entries| > 0 ==> Follows(previous, entries[0]))
    && (forall k | 0 < k < |entries| :: Follows(Some(entries[k - 1].index), entries[k]))
  }

  /** What an interrupted append can leave at the end: nothing, or one last
      piece that is not a readable line. */
  predicate Torn(codec: Codec, rest: seq<Byte>) {
    |rest| > 0 ==>
      NEWLINE !in rest[..|rest| - 1] && (rest[|rest| - 1] == NEWLINE ==> codec.dec(rest).None?)
  }

  lemma {:induction false} FirstLine(line: seq<Byte>, more: seq<Byte>)
    requires IsLine(line)
    ensures ChunkLength(line + more) == |line| && (line + more)[..|line|] == line && (line + more)[|line|..] == more
  {
    assert (line + more)[|line| - 1] == NEWLINE && (line + more)[..|line| - 1] == line[..|line| - 1];
    FirstNewline(line + more, |line| - 1);
  }

  lemma {:induction false} LastPiece(rest: seq<Byte>)
    requires |rest| > 0 && NEWLINE !in rest[..|rest| - 1]
    ensures ChunkLength(rest) == |rest|
  {
    var n := ChunkLength(rest);
    assert forall k | 0 <= k < |rest| - 1 :: rest[..|rest| - 1][k] == rest[k];
  }

  lemma {:induction false} ScanHead(codec: Codec, line: seq<Byte>, more: seq<Byte>, e: LogEntry, previous: Option<LogIndex>)
    requires IsLine(line) && codec.dec(line) == Some(e) && Follows(previous, e)
    ensures Scan(codec, line + more, previous) == Prepend([e], |line|, Scan(codec, more, Some(e.index)))
  {
    FirstLine(line, more);
  }

  lemma {:induction false} ScanPiece(codec: Codec, rest: seq<Byte>, previous: Option<LogIndex>)
    requires Torn(codec, rest)
    ensures Scan(codec, rest, previous) == Good([], 0)
  {
    if |rest| > 0 {
      LastPiece(rest);
      assert rest[..|rest|] == rest;
    }
  }

  lemma {:induction false} ParsesRest(codec: Codec, lines: seq<seq<Byte>>, entries: seq<LogEntry>,
      previous: Option<LogIndex>)
    requires Parses(codec, lines, entries, previous) && |lines| > 0
    ensures IsLine(lines[0]) && codec.dec(lines[0]) == Some(entries[0]) && Follows(previous, entries[0])
    ensures Parses(codec, lines[1..], entries[1..], Some(entries[0].index))
  {
  }

  /** Complete lines that parse, with a torn piece behind, scan to their entries. */
  lemma {:induction false} ScanAccepts(codec: Codec, lines: seq<seq<Byte>>, entries: seq<LogEntry>, rest: seq<Byte>,
      previous: Option<LogIndex>)
    requires Parses(codec, lines, entries, previous) && Torn(codec, rest)
    ensures Scan(codec, Flatten(lines) + rest, previous) == Good(entries, |Flatten(lines)|)
    decreases |lines|
  {
    hide Scan, IsLine, Follows, Torn;
    if |lines| == 0 {
      assert Flatten(lines) + rest == rest;
      ScanPiece(codec, rest, previous);
    } else {
      ParsesRest(codec, lines, entries, previous);
      hide Parses;
      var more := Flatten(lines[1..]) + rest;
      assert Flatten(lines) + rest == lines[0] + more;
      ScanHead(codec, lines[0], more, entries[0], previous);
      ScanAccepts(codec, lines[1..], entries[1..], rest, Some(entries[0].index));
      assert entries == [entries[0]] + entries[1..];
    }
  }

  /** Whatever scans is complete lines that parse, with a torn piece behind. */
  lemma {:induction false} ScannedIs(codec: Codec, bytes: seq<Byte>, previous: Option<LogIndex>)
      returns (lines: seq<seq<Byte>>)
    requires Scan(codec, bytes, previous).Good?
    ensures var Good(entries, used) := Scan(codec, bytes, previous);
      && used <= |bytes| && Parses(codec, lines, entries, previous) && Flatten(lines) == bytes[..used]
      && Torn(codec, bytes[used..])
    decreases |bytes|
  {
    hide Parses, Torn, IsLine;
    if |bytes| == 0 || ReadChunk(codec, bytes[..ChunkLength(bytes)]).None? {
      lines := [];
      EndsHere(codec, bytes, previous);
    } else {
      var n := ChunkLength(bytes);
      var chunk, e := bytes[..n], ReadChunk(codec, bytes[..n]).value;
      assert IsLine(chunk) && codec.dec(chunk) == Some(e) by { ReadIsLine(codec, bytes); }
      var more := ScannedIs(codec, bytes[n..], Some(e.index));
      lines := [chunk] + more;
      var after := Scan(codec, bytes[n..], Some(e.index));
      ParsesOne(codec, chunk, e, more, after.entries, previous);
      Rejoin(bytes, n, after.used);
      assert lines[1..] == more;
    }
  }

  lemma {:induction false} ReadIsLine(codec: Codec, bytes: seq<Byte>)
    requires |bytes| > 0 && ReadChunk(codec, bytes[..ChunkLength(bytes)]).Some?
    ensures var chunk := bytes[..ChunkLength(bytes)];
      IsLine(chunk) && codec.dec(chunk) == ReadChunk(codec, chunk)
  {
    var n := ChunkLength(bytes);
    assert bytes[..n][..n - 1] == bytes[..n - 1];
  }

  lemma {:induction false} EndsHere(codec: Codec, bytes: seq<Byte>, previous: Option<LogIndex>)
    requires Scan(codec, bytes, previous).Good?
    requires |bytes| == 0 || ReadChunk(codec, bytes[..ChunkLength(bytes)]).None?
    ensures Scan(codec, bytes, previous) == Good([], 0) && Torn(codec, bytes[0..]) && Parses(codec, [], [], previous)
  {
    assert bytes[0..] == bytes;
    if |bytes| > 0 { assert bytes[..|bytes|] == bytes; }
  }

  lemma {:induction false} Rejoin(bytes: seq<Byte>, n: nat, used: nat)
    requires n + used <= |bytes|
    ensures bytes[..n] + bytes[n..][..used] == bytes[..n + used] && bytes[n..][used..] == bytes[n + used..]
  {
  }

  lemma {:induction false} ParsesOne(codec: Codec, chunk: seq<Byte>, e: LogEntry, more: seq<seq<Byte>>,
      entries: seq<LogEntry>, previous: Option<LogIndex>)
    requires IsLine(chunk) && codec.dec(chunk) == Some(e) && Follows(previous, e)
    requires Parses(codec, more, entries, Some(e.index))
    ensures Parses(codec, [chunk] + more, [e] + entries, previous)
  {
    var lines, all := [chunk] + more, [e] + entries;
    forall k | 0 < k < |all| ensures Follows(Some(all[k - 1].index), all[k]) {
      if k > 1 { assert all[k] == entries[k - 1] && all[k - 1] == entries[k - 2]; }
    }
  }

  /** The bytes are the lines of these entries, with a torn piece behind. */
  ghost predicate FileOf(codec: Codec, bytes: seq<Byte>, lines: seq<seq<Byte>>, entries: seq<LogEntry>) {
    && |Flatten(lines)| <= |bytes| && bytes[..|Flatten(lines)|] == Flatten(lines)
    && Parses(codec, lines, entries, None) && Torn(codec, bytes[|Flatten(lines)|..])
  }

  predicate StartsAt(log: seq<LogEntry>, first: LogIndex) {
    |log| > 0 ==> log[0].index == first
  }

  /** CORRUPTION EXACTLY. Replay succeeds if and only if the file is complete,
      readable lines with consecutive indexes, at most one torn piece behind
      them, and what lies above the boundary starts right after it. */
  lemma {:induction false} ReplaySucceedsIff(codec: Codec, bytes: seq<Byte>, boundary: LogIndex)
    ensures Replayed(codec, bytes, boundary).0.Ok? <==>
      exists lines, entries ::
        FileOf(codec, bytes, lines, entries) && StartsAt(Retain(entries, boundary), boundary + 1)
  {
    hide Retain, Parses, Torn, Flatten;
    if Replayed(codec, bytes, boundary).0.Ok? {
      var lines := ScannedIs(codec, bytes, None);
      assert FileOf(codec, bytes, lines, Scan(codec, bytes, None).entries);
    }
    if lines, entries :| FileOf(codec, bytes, lines, entries) && StartsAt(Retain(entries, boundary), boundary + 1) {
      var used := |Flatten(lines)|;
      assert bytes == Flatten(lines) + bytes[used..];
      ScanAccepts(codec, lines, entries, bytes[used..], None);
    }
  }

  lemma {:induction false} RetainOne(entries: seq<LogEntry>, e: LogEntry, boundary: LogIndex)
    ensures Retain(entries + [e], boundary) == Retain(entries, boundary) + (if e.index > boundary then [e] else [])
  {
    assert (entries + [e])[..|entries|] == entries;
  }

  lemma {:induction false} RetainNothing(boundary: LogIndex)
    ensures Retain([], boundary) == []
  {
  }

  lemma {:induction false} PrependNothing(entries: seq<LogEntry>, offset: nat)
    ensures Prepend(entries, offset, Good([], 0)) == Good(entries, offset)
  {
    assert entries + [] == entries;
  }

  /** The byte-offset loop over the file. */
  method Replay(codec: Codec, bytes: seq<Byte>, boundary: LogIndex) returns (r: Result<seq<LogEntry>>, file: seq<Byte>)
    ensures (r, file) == Replayed(codec, bytes, boundary)
  {
    hide Scan, Retain, ReadChunk, ChunkLength, Prepend;
    var log: seq<LogEntry> := [];
    ghost var entries: seq<LogEntry> := [];
    var previous: Option<LogIndex> := None;
    var offset := 0;
    ScanStart(codec, bytes, boundary);
    while offset < |bytes|
      invariant 0 <= offset <= |bytes|
      invariant log == Retain(entries, boundary)
      invariant Scan(codec, bytes, None) == Prepend(entries, offset, Scan(codec, bytes[offset..], previous))
    {
      ScanStep(codec, bytes, offset, previous);
      var n := ChunkLength(bytes[offset..]);
      match ReadChunk(codec, bytes[offset..offset + n]) {
        case Some(e) =>
          if !Follows(previous, e) {
            PrependBad(entries, offset);
            return Err(Corrupt), bytes;
          }
          PrependTwice(entries, offset, [e], n, Scan(codec, bytes[offset + n..], Some(e.index)));
          RetainOne(entries, e, boundary);
          previous := Some(e.index);
          entries := entries + [e];
          if e.index > boundary { log := log + [e]; }
          offset := offset + n;
        case None =>
          if offset + n < |bytes| {
            PrependBad(entries, offset);
            return Err(Corrupt), bytes;
          }
          break;
      }
    }
    ScanEnd(codec, bytes, offset, previous);
    PrependNothing(entries, offset);
    file := bytes[..offset];
    if |log| > 0 && log[0].index != boundary + 1 { return Err(Corrupt), file; }
    r := Ok(log);
  }

  lemma {:induction false} ScanStart(codec: Codec, bytes: seq<Byte>, boundary: LogIndex)
    ensures Retain([], boundary) == []
    ensures Scan(codec, bytes, None) == Prepend([], 0, Scan(codec, bytes[0..], None))
  {
    assert bytes[0..] == bytes;
    var s := Scan(codec, bytes, None);
    if s.Good? { assert [] + s.entries == s.entries; }
  }

  lemma {:induction false} ScanEnd(codec: Codec, bytes: seq<Byte>, offset: nat, previous: Option<LogIndex>)
    requires offset <= |bytes|
    requires offset < |bytes| ==>
      var n := ChunkLength(bytes[offset..]);
      offset + n == |bytes| && ReadChunk(codec, bytes[offset..offset + n]).None?
    ensures Scan(codec, bytes[offset..], previous) == Good([], 0)
  {
    if offset < |bytes| { ScanStep(codec, bytes, offset, previous); }
  }

  lemma {:induction false} PrependBad(entries: seq<LogEntry>, offset: nat)
    ensures Prepend(entries, offset, Bad) == Bad
  {
  }

  // ---- what replay recovers ----

  ghost predicate Consecutive(entries: seq<LogEntry>) {
    forall k | 0 <= k < |entries| :: entries[k].index == entries[0].index + k
  }

  lemma {:induction false} FirstNewline(bytes: seq<Byte>, m: nat)
    requires m < |bytes| && bytes[m] == NEWLINE && NEWLINE !in bytes[..m]
    ensures ChunkLength(bytes) == m + 1
    decreases m
  {
    if m > 0 {
      assert bytes[0] in bytes[..m];
      var before := bytes[1..][..m - 1];
      forall b | b in before ensures b != NEWLINE { assert b in bytes[..m]; }
      FirstNewline(bytes[1..], m - 1);
    }
  }

  lemma {:induction false} ChunkIsLine(codec: Codec, e: LogEntry, rest: seq<Byte>)
    requires Lawful(codec)
    ensures ChunkLength(Line(codec, e) + rest) == |Line(codec, e)|
    ensures (Line(codec, e) + rest)[..|Line(codec, e)|] == Line(codec, e)
    ensures ReadChunk(codec, Line(codec, e)) == Some(e)
  {
    var bytes, m := Line(codec, e) + rest, |codec.enc(e)|;
    assert bytes[m] == NEWLINE && bytes[..m] == codec.enc(e);
    FirstNewline(bytes, m);
  }

  lemma {:induction false} TornChunk(codec: Codec, torn: seq<Byte>)
    requires |torn| > 0 && NEWLINE !in torn
    ensures ChunkLength(torn) == |torn| && ReadChunk(codec, torn).None?
  {
    assert torn[ChunkLength(torn) - 1] in torn;
  }

  lemma {:induction false} ScanTorn(codec: Codec, torn: seq<Byte>, previous: Option<LogIndex>)
    requires NEWLINE !in torn
    ensures Scan(codec, torn, previous) == Good([], 0)
  {
    if |torn| > 0 {
      TornChunk(codec, torn);
      assert torn[..|torn|] == torn;
    }
  }

  lemma {:induction false} ScanLine(codec: Codec, e: LogEntry, more: seq<Byte>, previous: Option<LogIndex>)
    requires Lawful(codec)
    ensures Scan(codec, Line(codec, e) + more, previous) ==
      if Follows(previous, e) then Prepend([e], |Line(codec, e)|, Scan(codec, more, Some(e.index))) else Bad
  {
    hide ChunkLength, ReadChunk, Line, Lawful;
    var bytes := Line(codec, e) + more;
    ChunkIsLine(codec, e, more);
    assert bytes[|Line(codec, e)|..] == more;
  }

  /** A file of whole records with an unfinished one behind them scans to the records. */
  lemma {:induction false} ScanEncoded(codec: Codec, entries: seq<LogEntry>, torn: seq<Byte>,
      previous: Option<LogIndex>)
    requires Lawful(codec) && Consecutive(entries) && NEWLINE !in torn
    requires |entries| > 0 ==> Follows(previous, entries[0])
    ensures Scan(codec, Encode(codec, entries) + torn, previous) == Good(entries, |Encode(codec, entries)|)
    decreases |entries|
  {
    hide Scan, Encode, Line, Lawful;
    NoneEncoded(codec);
    if |entries| == 0 {
      ScanTorn(codec, torn, previous);
      assert Encode(codec, entries) + torn == torn;
    } else {
      var e, rest := entries[0], entries[1..];
      EncodeHead(codec, entries);
      var more := Encode(codec, rest) + torn;
      assert Encode(codec, entries) + torn == Line(codec, e) + more;
      ScanLine(codec, e, more, previous);
      ScanEncoded(codec, rest, torn, Some(e.index));
      assert [e] + rest == entries;
    }
  }

  lemma {:induction false} RetainTail(full: Log, j: nat, boundary: LogIndex, end: nat)
    requires Contiguous(full) && j <= boundary && j <= end <= |full|
    ensures Retain(full[j..end], boundary) == if boundary <= end then full[boundary..end] else []
    decreases end
  {
    hide Retain;
    RetainNothing(boundary);
    if j < end {
      RetainTail(full, j, boundary, end - 1);
      assert full[j..end] == full[j..end - 1] + [full[end - 1]];
      RetainOne(full[j..end - 1], full[end - 1], boundary);
      if boundary < end { assert full[boundary..end] == full[boundary..end - 1] + [full[end - 1]]; }
    } else {
      assert full[j..end] == [];
    }
  }

  /** Replay of records j+1.. of a log, with a torn one behind, at any boundary
      the file reaches: the log above the boundary, and the file repaired. */
  lemma {:induction false} ReplayRecovers(codec: Codec, full: Log, j: nat, boundary: LogIndex, torn: seq<Byte>)
    requires Lawful(codec) && Contiguous(full) && j <= boundary <= |full| && NEWLINE !in torn
    ensures Replayed(codec, Encode(codec, full[j..]) + torn, boundary) == (Ok(full[boundary..]), Encode(codec, full[j..]))
  {
    hide Encode, Scan, Retain, Lawful;
    var bytes := Encode(codec, full[j..]);
    ScanEncoded(codec, full[j..], torn, None);
    RetainTail(full, j, boundary, |full|);
    assert full[j..|full|] == full[j..] && full[boundary..|full|] == full[boundary..];
    assert (bytes + torn)[..|bytes|] == bytes;
  }

  // ---- torn appends ----

  /** How many records of a batch lie wholly within the first k bytes of its buffer. */
  function Surviving(codec: Codec, batch: seq<LogEntry>, k: nat): (m: nat)
    ensures m <= |batch|
    decreases |batch|
  {
    if |batch| == 0 || |Line(codec, batch[0])| > k then 0
    else 1 + Surviving(codec, batch[1..], k - |Line(codec, batch[0])|)
  }

  lemma {:induction false} TornLine(codec: Codec, e: LogEntry, more: seq<Byte>, k: nat)
    requires Lawful(codec) && k < |Line(codec, e)|
    ensures NEWLINE !in (Line(codec, e) + more)[..k]
  {
    var torn := (Line(codec, e) + more)[..k];
    assert torn == codec.enc(e)[..k];
    forall b | b in torn ensures b != NEWLINE { assert b in codec.enc(e); }
  }

  /** Every byte prefix of a buffer is some whole records and part of one more. */
  lemma {:induction false} TornBuffer(codec: Codec, batch: seq<LogEntry>, k: nat) returns (torn: seq<Byte>)
    requires Lawful(codec) && k <= |Encode(codec, batch)|
    ensures Encode(codec, batch)[..k] == Encode(codec, batch[..Surviving(codec, batch, k)]) + torn
    ensures NEWLINE !in torn
    ensures k == |Encode(codec, batch)| ==> Surviving(codec, batch, k) == |batch|
    decreases |batch|
  {
    hide Encode, Line, Lawful;
    NoneEncoded(codec);
    if |batch| == 0 {
      torn := [];
    } else {
      var line, rest := Line(codec, batch[0]), batch[1..];
      EncodeHead(codec, batch);
      if |line| > k {
        torn := Encode(codec, batch)[..k];
        TornLine(codec, batch[0], Encode(codec, rest), k);
        assert batch[..0] == [];
      } else {
        torn := TornBuffer(codec, rest, k - |line|);
        var m := Surviving(codec, rest, k - |line|);
        assert Encode(codec, batch)[..k] == line + Encode(codec, rest)[..k - |line|];
        EncodeHead(codec, batch[..m + 1]);
        assert batch[..m + 1][1..] == rest[..m] && batch[..m + 1][0] == batch[0];
      }
    }
  }

  lemma {:induction false} NoneEncoded(codec: Codec)
    ensures Encode(codec, []) == []
  {
  }

  lemma {:induction false} FileWithBuffer(codec: Codec, full: Log, j: nat, batch: seq<LogEntry>,
      k: nat) returns (torn: seq<Byte>)
    requires Lawful(codec) && Contiguous(full) && j <= |full|
    requires Continues(batch, |full| + 1) && k <= |Encode(codec, batch)|
    ensures var full' := full + batch[..Surviving(codec, batch, k)];
      && Contiguous(full')
      && Encode(codec, full[j..]) + Encode(codec, batch)[..k] == Encode(codec, full'[j..]) + torn
    ensures NEWLINE !in torn
    ensures k == |Encode(codec, batch)| ==> Surviving(codec, batch, k) == |batch|
  {
    hide Encode, Surviving, Lawful;
    var m := Surviving(codec, batch, k);
    torn := TornBuffer(codec, batch, k);
    assert (full + batch[..m])[j..] == full[j..] + batch[..m];
    EncodeJoins(codec, full[j..], batch[..m]);
  }

  /** For every byte prefix of an append's buffer, replay returns the old log
      plus a prefix of the batch (the records that are whole), never reports
      corruption, and the repaired file replays to the same log again. */
  lemma {:induction false} TornAppend(codec: Codec, full: Log, j: nat, boundary: LogIndex, batch: seq<LogEntry>, k: nat)
    requires Lawful(codec) && Contiguous(full) && j <= boundary <= |full|
    requires Continues(batch, |full| + 1) && k <= |Encode(codec, batch)|
    ensures var m := Surviving(codec, batch, k);
      var full' := full + batch[..m];
      var file := Encode(codec, full'[j..]);
      && Contiguous(full')
      && Replayed(codec, Encode(codec, full[j..]) + Encode(codec, batch)[..k], boundary) == (Ok(full'[boundary..]), file)
      && Replayed(codec, file, boundary) == (Ok(full'[boundary..]), file)
      && (k == |Encode(codec, batch)| ==> full' == full + batch)
  {
    hide Encode, Surviving, Lawful, Replayed;
    var full' := full + batch[..Surviving(codec, batch, k)];
    var torn := FileWithBuffer(codec, full, j, batch, k);
    ReplayRecovers(codec, full', j, boundary, torn);
    ReplayRecovers(codec, full', j, boundary, []);
    assert Encode(codec, full'[j..]) + [] == Encode(codec, full'[j..]);
  }

  // ---- crashes between durable writes ----

  /** What a crash leaves: the two files. */
  datatype Image = Image(snapshot: Option<Snapshot>, file: seq<Byte>)

  function Boundary(d: Image): LogIndex {
    if d.snapshot.Some? then d.snapshot.value.lastIndex else 0
  }

  /** Reopening: the state in memory, and the files after repair. */
  function Reopened(codec: Codec, d: Image): (Result<Retained>, Image) {
    var (r, file) := Replayed(codec, d.file, Boundary(d));
    (match r { case Ok(log) => Ok(Retained(d.snapshot, log)) case Err(e) => Err(e) }, d.(file := file))
  }

  /** One call on an open store, and how far it got before the process died:
      `written` bytes of an append's buffer, or `writes` of the two durable
      writes of a compaction. A call that got all the way returned. An install
      happened or did not; one that died between its two writes is treated
      below. Its `prefix` is the log the snapshot stands for. */
  datatype Call =
    | Append(batch: seq<LogEntry>, written: nat)
    | Compact(index: LogIndex, state: Store.KvState, membership: Option<Membership>, writes: nat)
    | Truncate(from: LogIndex, rewritten: bool)
    | Install(snapshot: Snapshot, prefix: Log, done: bool)

  /** The snapshot of an install stands for its prefix. */
  ghost predicate Genuine(call: Call) {
    call.Install? ==>
      && Contiguous(call.prefix) && call.snapshot.lastIndex == |call.prefix| > 0
      && call.snapshot.lastTerm == LastTerm(call.prefix)
  }

  /** The files after a call on an open store in state s. */
  function CalledOn(codec: Codec, s: Retained, d: Image, call: Call): Image {
    match call
    case Append(batch, written) =>
      if s.Append(batch).Err? then d
      else
        var buffer := Encode(codec, batch);
        d.(file := d.file + (if written <= |buffer| then buffer[..written] else buffer))
    case Compact(index, state, membership, writes) =>
      (match s.CompactTo(index, state, membership)
       case Err(_) => d
       case Ok(s') =>
         if writes == 0 then d
         else if writes == 1 then d.(snapshot := s'.snapshot)
         else Image(s'.snapshot, Encode(codec, s'.log)))
    case Truncate(from, rewritten) =>
      (match s.TruncateFrom(from)
       case Err(_) => d
       case Ok(s') => if rewritten && from <= s.LastIndex() then d.(file := Encode(codec, s'.log)) else d)
    case Install(snapshot, _, done) =>
      (match s.Install(snapshot)
       case Err(_) => d
       case Ok(s') => if done then Image(s'.snapshot, Encode(codec, s'.log)) else d)
  }

  /** Open the store, then make the call. */
  function Called(codec: Codec, d: Image, call: Call): Image {
    match Reopened(codec, d)
    case (Err(_), d1) => d1
    case (Ok(s), d1) => CalledOn(codec, s, d1, call)
  }

  function CalledAll(codec: Codec, d: Image, calls: seq<Call>): Image {
    if |calls| == 0 then d
    else Called(codec, CalledAll(codec, d, calls[..|calls| - 1]), calls[|calls| - 1])
  }

  /** What the calls make of the whole log: an append adds the records that
      reached the disk whole, a truncation cuts, an install puts its prefix in
      front of what still matches. */
  ghost function WholeAfter(codec: Codec, full: Log, boundary: LogIndex, call: Call): Log {
    match call
    case Append(batch, written) =>
      if FirstGap(batch, |full| + 1).None? then full + batch[..Surviving(codec, batch, written)] else full
    case Compact(_, _, _, _) => full
    case Truncate(from, rewritten) =>
      if rewritten && boundary < from <= |full| then full[..from - 1] else full
    case Install(_, prefix, done) =>
      if done && boundary < |prefix| then Installed(full, prefix) else full
  }

  ghost function WholeAfterAll(codec: Codec, d: Image, full: Log, calls: seq<Call>): Log {
    if |calls| == 0 then full
    else
      var before := calls[..|calls| - 1];
      WholeAfter(codec, WholeAfterAll(codec, d, full, before), Boundary(CalledAll(codec, d, before)), calls[|calls| - 1])
  }

  /** The files hold the whole log above j, possibly with a torn record
      behind; the snapshot's boundary is at or past j. */
  ghost predicate Holds(codec: Codec, d: Image, full: Log, j: nat, torn: seq<Byte>) {
    && Contiguous(full) && j <= Boundary(d) <= |full|
    && d.file == Encode(codec, full[j..]) + torn && NEWLINE !in torn
    && (d.snapshot.Some? ==> d.snapshot.value.lastIndex > 0 && d.snapshot.value.lastTerm == TermAt(full, d.snapshot.value.lastIndex))
  }

  ghost predicate Sound(codec: Codec, d: Image, full: Log) {
    exists j, torn :: Holds(codec, d, full, j, torn)
  }

  /** Sound files reopen to the boundary and the tail of the whole log. */
  lemma {:induction false} ReopenSound(codec: Codec, d: Image, full: Log) returns (j: nat)
    requires Lawful(codec) && Sound(codec, d, full)
    ensures Reopened(codec, d).0 == Ok(Retained(d.snapshot, full[Boundary(d)..]))
    ensures Represents(Retained(d.snapshot, full[Boundary(d)..]), full)
    ensures Reopened(codec, d).1.snapshot == d.snapshot
    ensures Holds(codec, Reopened(codec, d).1, full, j, [])
  {
    var torn;
    j, torn :| Holds(codec, d, full, j, torn);
    ReplayRecovers(codec, full, j, Boundary(d), torn);
    assert Encode(codec, full[j..]) + [] == Encode(codec, full[j..]);
  }

  ghost function Tail(d: Image, full: Log): Retained
    requires Boundary(d) <= |full|
  {
    Retained(d.snapshot, full[Boundary(d)..])
  }

  lemma {:induction false} CalledIs(codec: Codec, d: Image, full: Log, call: Call) returns (d1: Image, j: nat)
    requires Lawful(codec) && Sound(codec, d, full)
    ensures d1.snapshot == d.snapshot && Holds(codec, d1, full, j, [])
    ensures Called(codec, d, call) == CalledOn(codec, Tail(d1, full), d1, call)
    ensures Represents(Tail(d1, full), full)
  {
    hide CalledOn;
    j := ReopenSound(codec, d, full);
    d1 := Reopened(codec, d).1;
  }

  lemma {:induction false} BufferWritten(codec: Codec, d: Image, full: Log, j: nat, batch: seq<LogEntry>, k: nat)
    requires Lawful(codec) && Holds(codec, d, full, j, []) && Continues(batch, |full| + 1)
    requires k <= |Encode(codec, batch)|
    ensures Sound(codec, d.(file := d.file + Encode(codec, batch)[..k]), full + batch[..Surviving(codec, batch, k)])
  {
    hide Encode, Surviving, Lawful;
    var full' := full + batch[..Surviving(codec, batch, k)];
    var torn := FileWithBuffer(codec, full, j, batch, k);
    assert Encode(codec, full[j..]) + [] == Encode(codec, full[j..]);
    assert Holds(codec, d.(file := d.file + Encode(codec, batch)[..k]), full', j, torn);
  }

  lemma {:induction false} AppendCalled(codec: Codec, d: Image, full: Log, batch: seq<LogEntry>, written: nat)
    requires Lawful(codec) && Sound(codec, d, full)
    ensures Sound(codec, Called(codec, d, Append(batch, written)), WholeAfter(codec, full, Boundary(d), Append(batch, written)))
    ensures Called(codec, d, Append(batch, written)).snapshot == d.snapshot
  {
    hide Called, Holds, Encode, Surviving, Lawful;
    var d1, j := CalledIs(codec, d, full, Append(batch, written));
    AppendExtends(Tail(d1, full), full, batch);
    FirstGapMeans(batch, |full| + 1);
    if Continues(batch, |full| + 1) {
      var k := if written <= |Encode(codec, batch)| then written else |Encode(codec, batch)|;
      SurvivingCapped(codec, batch, written);
      BufferWritten(codec, d1, full, j, batch, k);
      assert Encode(codec, batch)[..|Encode(codec, batch)|] == Encode(codec, batch);
    }
  }

  lemma {:induction false} SurvivingCapped(codec: Codec, batch: seq<LogEntry>, k: nat)
    ensures k >= |Encode(codec, batch)| ==>
      Surviving(codec, batch, k) == Surviving(codec, batch, |Encode(codec, batch)|)
    decreases |batch|
  {
    if |batch| > 0 {
      EncodeHead(codec, batch);
      if k >= |Encode(codec, batch)| { SurvivingCapped(codec, batch[1..], k - |Line(codec, batch[0])|); }
    }
  }

  lemma {:induction false} HoldsSound(codec: Codec, d: Image, full: Log, j: nat)
    requires Holds(codec, d, full, j, [])
    ensures Sound(codec, d, full)
  {
  }

  lemma {:induction false} Rewritten(codec: Codec, d: Image, full: Log)
    requires Contiguous(full) && Boundary(d) <= |full| && d.file == Encode(codec, full[Boundary(d)..])
    requires d.snapshot.Some? ==>
      (d.snapshot.value.lastIndex > 0
       && d.snapshot.value.lastTerm == TermAt(full, d.snapshot.value.lastIndex))
    ensures Sound(codec, d, full)
  {
    assert Encode(codec, full[Boundary(d)..]) + [] == Encode(codec, full[Boundary(d)..]);
    assert Holds(codec, d, full, Boundary(d), []);
  }

  lemma {:induction false} BoundaryMoved(codec: Codec, d: Image, full: Log, j: nat, s: Snapshot)
    requires Holds(codec, d, full, j, []) && Boundary(d) < s.lastIndex <= |full|
      && s.lastTerm == TermAt(full, s.lastIndex)
    ensures Sound(codec, d.(snapshot := Some(s)), full)
  {
    assert Holds(codec, d.(snapshot := Some(s)), full, j, []);
  }

  /** Compaction never changes the whole log, however many of its durable
      writes happened; the boundary is the old one before the first write and
      the new one after it. */
  lemma {:induction false} CompactCalled(codec: Codec, d: Image, full: Log, index: LogIndex,
      state: Store.KvState, membership: Option<Membership>, writes: nat)
    requires Lawful(codec) && Sound(codec, d, full)
    ensures var d' := Called(codec, d, Compact(index, state, membership, writes));
      && Sound(codec, d', full)
      && Boundary(d') == if Boundary(d) < index <= |full| && writes > 0 then index else Boundary(d)
  {
    hide Called, Encode, Lawful, Sound;
    var d1, j := CalledIs(codec, d, full, Compact(index, state, membership, writes));
    HoldsSound(codec, d1, full, j);
    var s := Tail(d1, full);
    CompactKeepsWhole(s, full, index, state, membership);
    if s.SnapshotIndex() < index <= |full| {
      var s' := s.CompactTo(index, state, membership).value;
      BoundaryMoved(codec, d1, full, j, s'.snapshot.value);
      Rewritten(codec, Image(s'.snapshot, Encode(codec, s'.log)), full);
    }
  }

  lemma {:induction false} TruncateCalled(codec: Codec, d: Image, full: Log, from: LogIndex, rewritten: bool)
    requires Lawful(codec) && Sound(codec, d, full)
    ensures Sound(codec, Called(codec, d, Truncate(from, rewritten)), WholeAfter(codec, full, Boundary(d), Truncate(from, rewritten)))
  {
    hide Called, Encode, Lawful, Sound, Holds, Installed;
    var d1, j := CalledIs(codec, d, full, Truncate(from, rewritten));
    HoldsSound(codec, d1, full, j);
    var s := Tail(d1, full);
    TruncateCuts(s, full, from);
    AnswersAsWhole(s, full, from);
    if s.SnapshotIndex() < from <= |full| {
      var s' := s.TruncateFrom(from).value;
      Rewritten(codec, d1.(file := Encode(codec, s'.log)), full[..from - 1]);
    }
  }

  lemma {:induction false} InstallCalled(codec: Codec, d: Image, full: Log, snapshot: Snapshot, prefix: Log, done: bool)
    requires Lawful(codec) && Sound(codec, d, full) && Genuine(Install(snapshot, prefix, done))
    ensures Sound(codec, Called(codec, d, Install(snapshot, prefix, done)),
                  WholeAfter(codec, full, Boundary(d), Install(snapshot, prefix, done)))
  {
    hide Called, Encode, Lawful, Sound;
    var d1, j := CalledIs(codec, d, full, Install(snapshot, prefix, done));
    HoldsSound(codec, d1, full, j);
    var s := Tail(d1, full);
    InstallReplaces(s, full, snapshot, prefix);
    if s.SnapshotIndex() < |prefix| {
      var s' := s.Install(snapshot).value;
      Rewritten(codec, Image(s'.snapshot, Encode(codec, s'.log)), Installed(full, prefix));
    }
  }

  /** Any calls, each dying anywhere, with a reopening after each: the files
      always reopen, to the boundary and the tail of one whole log. */
  lemma {:induction false} FilesStaySound(codec: Codec, d: Image, full: Log, calls: seq<Call>)
    requires Lawful(codec) && Sound(codec, d, full) && forall a | a in calls :: Genuine(a)
    ensures Sound(codec, CalledAll(codec, d, calls), WholeAfterAll(codec, d, full, calls))
  {
    if |calls| > 0 {
      var before, call := calls[..|calls| - 1], calls[|calls| - 1];
      FilesStaySound(codec, d, full, before);
      var d1, full1 := CalledAll(codec, d, before), WholeAfterAll(codec, d, full, before);
      match call {
        case Append(batch, written) => AppendCalled(codec, d1, full1, batch, written);
        case Compact(i, state, membership, writes) => CompactCalled(codec, d1, full1, i, state, membership, writes);
        case Truncate(from, rewritten) => TruncateCalled(codec, d1, full1, from, rewritten);
        case Install(snapshot, prefix, done) =>
          assert Genuine(call);
          InstallCalled(codec, d1, full1, snapshot, prefix, done);
      }
    }
  }

  /** From an empty directory on, no sequence of calls and crashes ever makes
      reopening report corruption. */
  lemma {:induction false} NeverCorrupt(codec: Codec, calls: seq<Call>)
    requires Lawful(codec) && forall a | a in calls :: Genuine(a)
    ensures var d := CalledAll(codec, Image(None, []), calls);
      var full := WholeAfterAll(codec, Image(None, []), [], calls);
      Boundary(d) <= |full| && Reopened(codec, d).0 == Ok(Retained(d.snapshot, full[Boundary(d)..]))
  {
    var none := Image(None, []);
    assert Holds(codec, none, [], 0, []);
    FilesStaySound(codec, none, [], calls);
    var j := ReopenSound(codec, CalledAll(codec, none, calls), WholeAfterAll(codec, none, [], calls));
  }

  /** Stop a compaction before, between or after its two writes, then reopen,
      append and reopen any number of times: the whole log is the same as if
      the compaction had never been asked for. */
  lemma {:induction false} CompactIsCrashSafe(codec: Codec, d: Image, full: Log, index: LogIndex,
      state: Store.KvState, membership: Option<Membership>, writes: nat, appends: seq<Call>)
    requires Lawful(codec) && Sound(codec, d, full) && forall a | a in appends :: a.Append?
    ensures var d' := Called(codec, d, Compact(index, state, membership, writes));
      && WholeAfterAll(codec, d', full, appends) == WholeAfterAll(codec, d, full, appends)
      && Sound(codec, CalledAll(codec, d', appends), WholeAfterAll(codec, d, full, appends))
      && Boundary(CalledAll(codec, d', appends)) in {Boundary(d), index}
  {
    var d' := Called(codec, d, Compact(index, state, membership, writes));
    CompactCalled(codec, d, full, index, state, membership, writes);
    AppendsOnly(codec, d, d', full, appends);
    FilesStaySound(codec, d', full, appends);
    AppendsKeepBoundary(codec, d', full, appends);
  }

  lemma {:induction false} AppendsOnly(codec: Codec, d: Image, d': Image, full: Log, appends: seq<Call>)
    requires forall a | a in appends :: a.Append?
    ensures WholeAfterAll(codec, d', full, appends) == WholeAfterAll(codec, d, full, appends)
  {
    if |appends| > 0 {
      AppendsOnly(codec, d, d', full, appends[..|appends| - 1]);
      assert appends[|appends| - 1].Append?;
    }
  }

  lemma {:induction false} AppendsKeepBoundary(codec: Codec, d: Image, full: Log, appends: seq<Call>)
    requires Lawful(codec) && Sound(codec, d, full) && forall a | a in appends :: a.Append?
    ensures CalledAll(codec, d, appends).snapshot == d.snapshot
  {
    if |appends| > 0 {
      var before, a := appends[..|appends| - 1], appends[|appends| - 1];
      AppendsKeepBoundary(codec, d, full, before);
      FilesStaySound(codec, d, full, before);
      assert a.Append?;
      AppendCalled(codec, CalledAll(codec, d, before), WholeAfterAll(codec, d, full, before), a.batch, a.written);
    }
  }

  // ---- an interrupted install ----

  /** The files when an install dies between its two durable writes. */
  function InstallInterrupted(d: Image, s: Snapshot): Image {
    d.(snapshot := Some(s))
  }

  lemma {:induction false} ReplayAt(codec: Codec, full: Log, j: nat, boundary: LogIndex)
    requires Lawful(codec) && Contiguous(full) && j <= boundary && j <= |full|
    ensures Replayed(codec, Encode(codec, full[j..]), boundary)
      == (Ok(if boundary <= |full| then full[boundary..] else []), Encode(codec, full[j..]))
  {
    hide Encode, Scan, Retain, Lawful;
    var bytes := Encode(codec, full[j..]);
    ScanEncoded(codec, full[j..], [], None);
    RetainTail(full, j, boundary, |full|);
    assert full[j..|full|] == full[j..] && bytes + [] == bytes && bytes[..|bytes|] == bytes;
    if boundary <= |full| { assert full[boundary..|full|] == full[boundary..]; }
  }

  lemma {:induction false} InstallIs(r: Retained, full: Log, s: Snapshot)
    requires Represents(r, full) && s.lastIndex > r.SnapshotIndex()
    ensures r.Install(s) == Ok(Retained(Some(s),
      if s.lastIndex <= |full| && TermAt(full, s.lastIndex) == s.lastTerm then full[s.lastIndex..] else []))
  {
    AnswersAsWhole(r, full, s.lastIndex);
    AnswersAsWhole(r, full, s.lastIndex + 1);
  }

  /** Reopening after an install died between its writes gives what the
      finished install would have given exactly when the old log ends at or
      before the boundary or agrees with the snapshot there. */
  lemma {:induction false} InterruptedInstallReopens(codec: Codec, d: Image, full: Log, j: nat, s: Snapshot)
    requires Lawful(codec) && Holds(codec, d, full, j, []) && s.lastIndex > Boundary(d)
    ensures var reopened := Reopened(codec, InstallInterrupted(d, s)).0;
      && reopened == Ok(Retained(Some(s), if s.lastIndex <= |full| then full[s.lastIndex..] else []))
      && (reopened == Tail(d, full).Install(s) <==> s.lastIndex >= |full| || TermAt(full, s.lastIndex) == s.lastTerm)
  {
    hide Encode, Lawful, Replayed;
    assert Encode(codec, full[j..]) + [] == Encode(codec, full[j..]);
    ReplayAt(codec, full, j, s.lastIndex);
    InstallIs(Tail(d, full), full, s);
    if s.lastIndex < |full| { assert full[s.lastIndex..][0] == full[s.lastIndex]; }
  }

  /** A log that diverges at the boundary keeps, after the crash, a suffix the
      install would have cleared. */
  lemma {:induction false} DivergentSuffixSurvives(codec: Codec, s: Snapshot)
    requires Lawful(codec) && s.lastIndex == 1 && s.lastTerm == 2
    ensures var full := [LogEntry(1, 1, Noop), LogEntry(1, 2, Noop)];
      var d := Image(None, Encode(codec, full));
      && Holds(codec, d, full, 0, [])
      && Reopened(codec, InstallInterrupted(d, s)).0 == Ok(Retained(Some(s), [LogEntry(1, 2, Noop)]))
      && Tail(d, full).Install(s) == Ok(Retained(Some(s), []))
  {
    hide Encode, Lawful, Replayed;
    var full := [LogEntry(1, 1, Noop), LogEntry(1, 2, Noop)];
    var d := Image(None, Encode(codec, full));
    assert full[0..] == full && full[1..] == [LogEntry(1, 2, Noop)];
    assert Encode(codec, full) + [] == Encode(codec, full);
    InterruptedInstallReopens(codec, d, full, 0, s);
  }

  lemma {:induction false} ScanGap(codec: Codec, entries: seq<LogEntry>, e: LogEntry, previous: Option<LogIndex>)
    requires Lawful(codec) && Consecutive(entries) && |entries| > 0 && e.index != entries[0].index + |entries|
    requires Follows(previous, entries[0])
    ensures Scan(codec, Encode(codec, entries) + Line(codec, e), previous) == Bad
    decreases |entries|
  {
    hide Scan, Encode, Line, Lawful;
    var head, rest := entries[0], entries[1..];
    EncodeHead(codec, entries);
    var more := Encode(codec, rest) + Line(codec, e);
    assert Encode(codec, entries) + Line(codec, e) == Line(codec, head) + more;
    ScanLine(codec, head, more, previous);
    if |rest| > 0 {
      ScanGap(codec, rest, e, Some(head.index));
    } else {
      NoneEncoded(codec);
      assert more == Line(codec, e) + [];
      ScanLine(codec, e, [], Some(head.index));
    }
  }

  /** With the boundary past the end of the old log, the next append after
      the crash leaves an index gap: the reopening after that succeeds
      exactly when the old file held nothing. */
  lemma {:induction false} InterruptedInstallGap(codec: Codec, d: Image, full: Log, j: nat, s: Snapshot, e: LogEntry)
    requires Lawful(codec) && Holds(codec, d, full, j, []) && s.lastIndex > |full| && e.index == s.lastIndex + 1
    ensures var appended := Called(codec, InstallInterrupted(d, s), Append([e], |Line(codec, e)|));
      Reopened(codec, appended).0.Ok? <==> j == |full|
  {
    hide Replayed, Line, Lawful, ChunkLength;
    var crashed := InstallInterrupted(d, s);
    var file := Encode(codec, full[j..]);
    assert d.file == file by { assert file + [] == file; }
    ReplayAt(codec, full, j, s.lastIndex);
    assert Retained(Some(s), []).Append([e]).Ok? by { FirstGapMeans([e], s.lastIndex + 1); }
    OneLine(codec, e);
    var appended := Called(codec, crashed, Append([e], |Line(codec, e)|));
    assert appended == crashed.(file := file + Line(codec, e));
    GapReplay(codec, full, j, s.lastIndex, e);
  }

  lemma {:induction false} OneLine(codec: Codec, e: LogEntry)
    ensures Encode(codec, [e]) == Line(codec, e)
  {
    assert [e][..0] == [];
    assert Encode(codec, []) + Line(codec, e) == Line(codec, e);
  }

  lemma {:induction false} GapReplay(codec: Codec, full: Log, j: nat, boundary: LogIndex, e: LogEntry)
    requires Lawful(codec) && Contiguous(full) && j <= |full| < boundary && e.index == boundary + 1
    ensures Replayed(codec, Encode(codec, full[j..]) + Line(codec, e), boundary).0.Ok? <==> j == |full|
  {
    hide Encode, Scan, Retain, Lawful, Line;
    if j < |full| {
      ScanGap(codec, full[j..], e, None);
    } else {
      assert full[j..] == [];
      NoneEncoded(codec);
      OneLine(codec, e);
      assert Encode(codec, full[j..]) + Line(codec, e) == Encode(codec, [e]) + [];
      ScanEncoded(codec, [e], [], None);
      RetainNothing(boundary);
      RetainOne([], e, boundary);
      assert [] + [e] == [e];
    }
  }

  // ---- the storage object ----

  method Serialize(codec: Codec, entries: seq<LogEntry>) returns (buf: seq<Byte>)
    ensures buf == Encode(codec, entries)
  {
    buf := [];
    var i := 0;
    while i < |entries|
      invariant 0 <= i <= |entries| && buf == Encode(codec, entries[..i])
    {
      assert entries[..i + 1][..i] == entries[..i];
      buf := buf + codec.enc(entries[i]) + [NEWLINE];
      i := i + 1;
    }
    assert entries[..i] == entries;
  }

  /** Durable log and snapshot with the retained log mirrored in memory. The
      ghost `full` is the log as if nothing had ever been compacted. */
  class LogStorage {
    const codec: Codec
    var snapshot: Option<Snapshot>
    var log: seq<LogEntry>
    var file: seq<Byte>
    ghost var full: Log
    ghost var start: nat

    function State(): Retained
      reads this
    {
      Retained(snapshot, log)
    }

    function Files(): Image
      reads this
    {
      Image(snapshot, file)
    }

    /** The mirror represents the whole log and so do the files. */
    ghost predicate Valid()
      reads this
    {
      && Lawful(codec)
      && Represents(State(), full)
      && Holds(codec, Files(), full, start, [])
    }

    constructor (codec: Codec)
      requires Lawful(codec)
      ensures Valid() && State() == Retained(None, []) && full == [] && this.codec == codec
        && Files() == Image(None, [])
    {
      this.codec := codec;
      snapshot, log, file, full, start := None, [], [], [], 0;
    }

    /** A mirror for files that have just been replayed. */
    constructor Loaded(codec: Codec, files: Image, log: seq<LogEntry>, ghost full: Log, ghost start: nat)
      ensures this.codec == codec && Files() == files && State() == Retained(files.snapshot, log)
      ensures this.full == full && this.start == start
    {
      this.codec, this.snapshot, this.file, this.log := codec, files.snapshot, files.file, log;
      this.full, this.start := full, start;
    }

    /** Opening any files: an error exactly when the log is corrupt, and an
        object that holds what they replay to, next to the repaired files.
        Files that a run of calls and crashes left behind give a valid one. */
    static method Open(codec: Codec, files: Image, ghost whole: Log) returns (r: Result<LogStorage>)
      requires Lawful(codec)
      ensures Reopened(codec, files).0.Err? ==> r == Err(Reopened(codec, files).0.error)
      ensures Reopened(codec, files).0.Ok? ==>
        (r.Ok? && fresh(r.value) && Reopened(codec, files) == (Ok(r.value.State()), r.value.Files()))
      ensures Sound(codec, files, whole) ==> r.Ok? && r.value.Valid() && r.value.full == whole
    {
      hide Lawful, Replayed;
      ghost var j := 0;
      if Sound(codec, files, whole) { j := ReopenSound(codec, files, whole); }
      var log, repaired := Replay(codec, files.file, Boundary(files));
      if log.Err? { return Err(log.error); }
      var mirror := new LogStorage.Loaded(codec, files.(file := repaired), log.value, whole, j);
      r := Ok(mirror);
    }

    /** What a crash right now would lose: nothing. */
    lemma Durable()
      requires Valid()
      ensures Reopened(codec, Files()).0 == Ok(State())
    {
      var j := ReopenSound(codec, Files(), full);
    }

    method Append(entries: seq<LogEntry>) returns (r: Result<()>)
      requires Valid()
      modifies this
      ensures Valid() && snapshot == old(snapshot)
      ensures r.Ok? <==> Continues(entries, old(|full|) + 1)
      ensures r.Ok? ==> full == old(full) + entries && old(State()).Append(entries) == Ok(State())
      ensures r.Ok? ==> Files() == old(CalledOn(codec, State(), Files(), Call.Append(entries, |Encode(codec, entries)|)))
      ensures r.Err? ==> full == old(full) && State() == old(State()) && old(State()).Append(entries) == Err(r.error)
      ensures r.Err? ==> Files() == old(Files())
    {
      hide Encode, Lawful;
      AppendExtends(State(), full, entries);
      if Continues(entries, |full| + 1) { AppendedFile(codec, Files(), full, start, entries); }
      if |entries| == 0 {
        assert log + entries == log && full + entries == full;
        NothingEncoded(codec, file);
        return Ok(());
      }
      var expected := State().LastIndex() + 1;
      ghost var first := expected;
      var i := 0;
      while i < |entries|
        invariant 0 <= i <= |entries| && expected == first + i
        invariant Continues(entries[..i], first)
        invariant FirstGap(entries, first) == FirstGap(entries[i..], expected)
      {
        if entries[i].index != expected {
          assert !Continues(entries, first);
          return Err(NonContiguous(expected, entries[i].index));
        }
        assert entries[i..][1..] == entries[i + 1..];
        expected := expected + 1;
        i := i + 1;
      }
      assert entries[..i] == entries;
      var buf := Serialize(codec, entries);
      assert buf[..|buf|] == buf;
      file := file + buf;
      log := log + entries;
      full := full + entries;
      r := Ok(());
    }

    /** Atomically replaces the log file and the mirror. */
    method RewriteLog(entries: seq<LogEntry>, ghost whole: Log)
      requires Lawful(codec) && Represents(Retained(snapshot, entries), whole)
      modifies this
      ensures Valid() && snapshot == old(snapshot) && log == entries && full == whole
      ensures file == Encode(codec, entries)
    {
      var buf := Serialize(codec, entries);
      file := buf;
      log := entries;
      full := whole;
      start := Boundary(Files());
      assert Encode(codec, entries) + [] == Encode(codec, entries);
    }

    method TruncateFrom(from: LogIndex) returns (r: Result<()>)
      requires Valid()
      modifies this
      ensures Valid() && snapshot == old(snapshot)
      ensures r.Ok? <==> from > old(State().SnapshotIndex())
      ensures r.Ok? ==> old(State()).TruncateFrom(from) == Ok(State())
      ensures r.Ok? ==> full == if from > old(|full|) then old(full) else old(full)[..from - 1]
      ensures r.Err? ==> full == old(full) && State() == old(State())
      ensures Files() == old(CalledOn(codec, State(), Files(), Truncate(from, true)))
    {
      TruncateCuts(State(), full, from);
      var keep := State().Pos(from);
      if keep.None? { return Err(Corrupt); }
      if from > State().LastIndex() { return Ok(()); }
      RewriteLog(log[..keep.value], full[..from - 1]);
      r := Ok(());
    }

    method CompactTo(index: LogIndex, state: Store.KvState, membership: Option<Membership>) returns (r: Result<()>)
      requires Valid()
      modifies this
      ensures Valid() && full == old(full)
      ensures r.Ok? <==> old(State().SnapshotIndex()) < index <= |full|
      ensures r.Ok? ==> old(State()).CompactTo(index, state, membership) == Ok(State())
      ensures r.Ok? ==> snapshot == Some(Snapshot(index, TermAt(full, index), membership, state))
      ensures State().LastIndex() == old(State()).LastIndex() && State().LastLogTerm() == old(State()).LastLogTerm()
      ensures r.Err? ==> State() == old(State())
      ensures Files() == old(CalledOn(codec, State(), Files(), Compact(index, state, membership, 2)))
    {
      hide Encode, Lawful, Represents, Holds;
      CompactKeepsWhole(State(), full, index, state, membership);
      SameEnds(State(), State(), full);
      AnswersAsWhole(State(), full, index);
      ghost var before := State();
      var boundary := State().Entry(index);
      if boundary.None? { return Err(Corrupt); }
      var retained := State().EntriesFrom(index + 1);
      snapshot := Some(Snapshot(index, boundary.value.term, membership, state));
      RewriteLog(retained, full);
      SameEnds(before, State(), full);
      r := Ok(());
    }

    method InstallSnapshot(s: Snapshot, ghost prefix: Log) returns (r: Result<()>)
      requires Valid() && Contiguous(prefix)
      requires s.lastIndex == |prefix| > 0 && s.lastTerm == LastTerm(prefix)
      modifies this
      ensures Valid()
      ensures r.Ok? <==> s.lastIndex > old(State().SnapshotIndex())
      ensures r.Ok? ==> old(State()).Install(s) == Ok(State()) && full == Installed(old(full), prefix)
      ensures Files() == old(CalledOn(codec, State(), Files(), Install(s, prefix, true)))
      ensures r.Err? ==> full == old(full) && State() == old(State())
    {
      InstallReplaces(State(), full, s, prefix);
      if s.lastIndex <= State().SnapshotIndex() { return Err(Corrupt); }
      var retained := [];
      if State().TermOf(s.lastIndex) == Some(s.lastTerm) {
        retained := State().EntriesFrom(s.lastIndex + 1);
      }
      ghost var whole := Installed(full, prefix);
      snapshot := Some(s);
      RewriteLog(retained, whole);
      r := Ok(());
    }
  }

  lemma {:induction false} SameEnds(s: Retained, t: Retained, full: Log)
    requires Represents(s, full) && Represents(t, full)
    ensures s.LastIndex() == t.LastIndex() && s.LastLogTerm() == t.LastLogTerm()
  {
    AnswersAsWhole(s, full, 0);
    AnswersAsWhole(t, full, 0);
  }

  lemma {:induction false} NothingEncoded(codec: Codec, file: seq<Byte>)
    ensures Encode(codec, []) == [] && file + [] == file
  {
  }

  lemma {:induction false} AppendedFile(codec: Codec, d: Image, full: Log, j: nat, entries: seq<LogEntry>)
    requires Holds(codec, d, full, j, []) && Continues(entries, |full| + 1)
    ensures Holds(codec, d.(file := d.file + Encode(codec, entries)), full + entries, j, [])
  {
    assert (full + entries)[j..] == full[j..] + entries;
    EncodeJoins(codec, full[j..], entries);
    var old_ := Encode(codec, full[j..]);
    assert old_ + [] == old_;
  }
}
