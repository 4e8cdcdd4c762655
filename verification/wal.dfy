/**
 * The write-ahead log as an object (internal/storage/wal.go, Append and Replay): a directory of files,
 * of which the last is written. Checksums and JSON are parameters.
 */
module Wal {
  import opened Types
  import opened Recovery
  import opened WalStream
  import opened WalFrames

  datatype Option<T> = None | Some(value: T)

  /** The checksum, and JSON for the three record types. Reading JSON may fail; writing it does not. */
  datatype Codec = Codec(
    crc: Checksum,
    marshal: Record -> seq<byte>,
    readTerm: seq<byte> -> Option<nat>,
    readVote: seq<byte> -> Option<(NodeId, nat)>,
    readEntry: seq<byte> -> Option<Entry>)

  const RECORD_TERM: u32 := 1
  const RECORD_VOTE: u32 := 2
  const RECORD_ENTRY: u32 := 3

  const MAX_WAL_SIZE: nat := 64 * 1024 * 1024

  function KindOf(rec: Record): u32 {
    match rec
    case TermRecord(_) => RECORD_TERM
    case VoteRecord(_, _) => RECORD_VOTE
    case EntryRecord(_, _, _) => RECORD_ENTRY
  }

  function FrameOf(codec: Codec, rec: Record): Frame {
    Frame(KindOf(rec), codec.marshal(rec))
  }

  /** What a good frame says: nothing if its type is unknown or its payload is not readable. */
  function Decode(codec: Codec, f: Frame): Option<Record> {
    if f.kind == RECORD_TERM then
      match codec.readTerm(f.payload)
      case Some(t) => Some(TermRecord(t))
      case None => None
    else if f.kind == RECORD_VOTE then
      match codec.readVote(f.payload)
      case Some(v) => Some(VoteRecord(v.0, v.1))
      case None => None
    else if f.kind == RECORD_ENTRY then
      match codec.readEntry(f.payload)
      case Some(e) => Some(EntryRecord(e.index, e.term, e.command))
      case None => None
    else None
  }

  /** What a good frame does to the state recovered so far. */
  function AbsorbFrame(codec: Codec, r: Recovered, f: Frame): Recovered {
    match Decode(codec, f)
    case Some(rec) => Absorb(r, rec)
    case None => r
  }

  /** Only readable frames of the three types tell anything: a term, a vote with its term, or one more entry. */
  lemma FrameTells(codec: Codec, r: Recovered, f: Frame)
    ensures var after := AbsorbFrame(codec, r, f);
            && (f.kind == 1 && codec.readTerm(f.payload).Some? ==> after == r.(term := codec.readTerm(f.payload).value))
            && (f.kind == 2 && codec.readVote(f.payload).Some? ==>
                  var (v, t) := codec.readVote(f.payload).value;
                  after.votedFor == v && after.term >= r.term && after.term >= t && after.term in {r.term, t}
                  && after.entries == r.entries)
            && (f.kind == 3 && codec.readEntry(f.payload).Some? ==>
                  after == r.(entries := r.entries + [codec.readEntry(f.payload).value]))
            && ((f.kind !in {1, 2, 3} || (f.kind == 1 && codec.readTerm(f.payload).None?)
                 || (f.kind == 2 && codec.readVote(f.payload).None?)
                 || (f.kind == 3 && codec.readEntry(f.payload).None?)) ==> after == r)
  {
  }

  function FoldFrames(codec: Codec, fs: seq<Frame>): Recovered {
    if fs == [] then NOTHING else AbsorbFrame(codec, FoldFrames(codec, fs[..|fs| - 1]), fs[|fs| - 1])
  }

  // ----- reading -----

  /** What replay of one file recovers, unless it panics. */
  function ReadFile(codec: Codec, b: seq<byte>): Recovered {
    FoldFrames(codec, Scan(WalFormat(codec.crc), b).frames)
  }

  function ReadFiles(codec: Codec, files: seq<seq<byte>>): Recovered {
    if files == [] then NOTHING
    else Merge(ReadFiles(codec, files[..|files| - 1]), ReadFile(codec, files[|files| - 1]))
  }

  predicate Panicking(codec: Codec, b: seq<byte>) {
    Scan(WalFormat(codec.crc), b).stop.Panics?
  }

  /** One of the first `n` files makes replay panic. */
  predicate AnyPanics(codec: Codec, files: seq<seq<byte>>, n: nat)
    requires n <= |files|
  {
    n > 0 && (AnyPanics(codec, files, n - 1) || Panicking(codec, files[n - 1]))
  }

  function Repaired(codec: Codec, b: seq<byte>): (r: seq<byte>)
    ensures |r| <= |b|
  {
    AfterReplay(WalFormat(codec.crc), b)
  }

  /**
   * What may fail with a file: opening it, reading on behind some number of bytes, and truncating it, which
   * is only logged.
   */
  datatype Fault = Fault(opens: bool, breaks: Option<nat>, truncates: bool)

  const HEALTHY := Fault(true, None, true)

  /** What may fail with the file of this number. */
  type Faults = nat -> Fault

  /** The bytes that can be read. */
  function Seen(b: seq<byte>, f: Fault): (r: seq<byte>)
    ensures r <= b
  {
    if f.breaks.Some? && f.breaks.value < |b| then b[..f.breaks.value] else b
  }

  /** Replay of the file reports an error: it cannot be opened, or a header cannot be read. */
  predicate Broken(codec: Codec, b: seq<byte>, f: Fault) {
    !f.opens || (Seen(b, f) != b && Scan(WalFormat(codec.crc), Seen(b, f)).stop.NoHeader?)
  }

  /** What replay leaves of a file. An error inside a record counts as an incomplete record. */
  function Left(codec: Codec, b: seq<byte>, f: Fault): (r: seq<byte>)
    ensures |r| <= |b|
  {
    var r := Scan(WalFormat(codec.crc), Seen(b, f));
    if f.opens && f.truncates && Cuts(r) then b[..r.valid] else b
  }

  lemma Healthy(codec: Codec, b: seq<byte>)
    ensures Seen(b, HEALTHY) == b && !Broken(codec, b, HEALTHY) && Left(codec, b, HEALTHY) == Repaired(codec, b)
  {
  }

  function AllSeen(faults: Faults, files: seq<seq<byte>>): (r: seq<seq<byte>>)
    ensures |r| == |files| && forall i | 0 <= i < |files| :: r[i] == Seen(files[i], faults(i))
  {
    seq(|files|, i requires 0 <= i < |files| => Seen(files[i], faults(i)))
  }

  /** What replay leaves of all files. */
  function AllLeft(codec: Codec, faults: Faults, files: seq<seq<byte>>): (r: seq<seq<byte>>)
    ensures |r| == |files| && forall i | 0 <= i < |files| :: r[i] == Left(codec, files[i], faults(i))
  {
    seq(|files|, i requires 0 <= i < |files| => Left(codec, files[i], faults(i)))
  }

  /** The first file from `i` on that replay stops at, or the number of files. */
  function FirstBroken(codec: Codec, faults: Faults, files: seq<seq<byte>>, i: nat): (r: nat)
    requires i <= |files|
    ensures i <= r <= |files|
    decreases |files| - i
  {
    if i == |files| || Broken(codec, files[i], faults(i)) then i else FirstBroken(codec, faults, files, i + 1)
  }

  lemma {:induction false} NotYetBroken(codec: Codec, faults: Faults, files: seq<seq<byte>>, i: nat, k: nat)
    requires i <= k < |files| && k <= FirstBroken(codec, faults, files, i)
    ensures Broken(codec, files[k], faults(k)) <==> k == FirstBroken(codec, faults, files, i)
    decreases k - i
  {
    if i < k { NotYetBroken(codec, faults, files, i + 1, k); }
  }

  /** The first `k` files as in `after`, the others as in `before`. */
  function Through(before: seq<seq<byte>>, after: seq<seq<byte>>, k: nat): seq<seq<byte>>
    requires k <= |before| == |after|
  {
    after[..k] + before[k..]
  }

  lemma ThroughOneMore(before: seq<seq<byte>>, after: seq<seq<byte>>, k: nat)
    requires k < |before| == |after|
    ensures Through(before, after, k)[k] == before[k]
    ensures Through(before, after, k + 1) == Through(before, after, k)[k := after[k]]
  {
  }

  lemma ReadOneMore(codec: Codec, files: seq<seq<byte>>, k: nat)
    requires k < |files|
    ensures ReadFiles(codec, files[..k + 1]) == Merge(ReadFiles(codec, files[..k]), ReadFile(codec, files[k]))
  {
    assert files[..k + 1][..k] == files[..k];
  }

  // ----- replay of all files -----

  /** What replay has recovered and left of the files, unless it panicked. */
  datatype Replayed = Replayed(panicked: bool, recovered: Recovered, files: seq<seq<byte>>)

  /** Replay from file `k` on, with what the files before it gave. */
  function ReplayFrom(codec: Codec, faults: Faults, files: seq<seq<byte>>, k: nat, r: Recovered): Replayed
    decreases |files| - k
  {
    if k >= |files| || Broken(codec, files[k], faults(k)) then Replayed(false, r, files)
    else
      var seen, after := Seen(files[k], faults(k)), files[k := Left(codec, files[k], faults(k))];
      if Panicking(codec, seen) then Replayed(true, r, after)
      else ReplayFrom(codec, faults, after, k + 1, Merge(r, ReadFile(codec, seen)))
  }

  /** Replay never makes a file longer. */
  lemma {:induction false} ReplayShrinks(codec: Codec, faults: Faults, files: seq<seq<byte>>, k: nat, r: Recovered)
    ensures var after := ReplayFrom(codec, faults, files, k, r).files;
            |after| == |files| && forall i | 0 <= i < |files| :: |after[i]| <= |files[i]|
    decreases |files| - k
  {
    if k < |files| && !Broken(codec, files[k], faults(k)) && !Panicking(codec, Seen(files[k], faults(k))) {
      var after := files[k := Left(codec, files[k], faults(k))];
      ReplayShrinks(codec, faults, after, k + 1, Merge(r, ReadFile(codec, Seen(files[k], faults(k)))));
    }
  }

  lemma ReplayedOne(codec: Codec, faults: Faults, files: seq<seq<byte>>, k: nat, r: Recovered)
    requires k < |files| && !Broken(codec, files[k], faults(k)) && !Panicking(codec, Seen(files[k], faults(k)))
    ensures ReplayFrom(codec, faults, files, k, r)
            == ReplayFrom(codec, faults, files[k := Left(codec, files[k], faults(k))], k + 1,
                          Merge(r, ReadFile(codec, Seen(files[k], faults(k)))))
  {
  }

  /** What is left to replay, and with what, once the first `k` files are done. */
  ghost function Resumed(codec: Codec, faults: Faults, files: seq<seq<byte>>): nat -> Replayed {
    (k: nat) =>
      if k > |files| then Replayed(false, NOTHING, files)
      else ReplayFrom(codec, faults, Through(files, AllLeft(codec, faults, files), k), k,
                      ReadFiles(codec, AllSeen(faults, files)[..k]))
  }

  lemma ReplayedOneMore(codec: Codec, faults: Faults, files: seq<seq<byte>>, k: nat)
    requires k < |files| && k < FirstBroken(codec, faults, files, 0) && !Panicking(codec, Seen(files[k], faults(k)))
    ensures Resumed(codec, faults, files)(k) == Resumed(codec, faults, files)(k + 1)
  {
    var left, seen := AllLeft(codec, faults, files), AllSeen(faults, files);
    NotYetBroken(codec, faults, files, 0, k);
    ThroughOneMore(files, left, k);
    ReadOneMore(codec, seen, k);
    ReplayedOne(codec, faults, Through(files, left, k), k, ReadFiles(codec, seen[..k]));
  }

  lemma {:induction false} Unchanging<T>(f: nat -> T, k: nat)
    requires forall i: nat | i < k :: f(i) == f(i + 1)
    ensures f(0) == f(k)
  {
    if k > 0 { Unchanging(f, k - 1); }
  }

  lemma {:induction false} NoneSoFar(codec: Codec, seen: seq<seq<byte>>, k: nat, i: nat)
    requires i < k <= |seen| && !AnyPanics(codec, seen, k)
    ensures !Panicking(codec, seen[i])
  {
    if i < k - 1 { NoneSoFar(codec, seen, k - 1, i); }
  }

  /** The first `k` files have been replayed. */
  lemma ReplayReaches(codec: Codec, faults: Faults, files: seq<seq<byte>>, k: nat)
    requires k <= FirstBroken(codec, faults, files, 0) && !AnyPanics(codec, AllSeen(faults, files), k)
    ensures ReplayFrom(codec, faults, files, 0, NOTHING) == Resumed(codec, faults, files)(k)
  {
    var left, seen := AllLeft(codec, faults, files), AllSeen(faults, files);
    var resumed := Resumed(codec, faults, files);
    forall i: nat | i < k ensures resumed(i) == resumed(i + 1) {
      NoneSoFar(codec, seen, k, i);
      ReplayedOneMore(codec, faults, files, i);
    }
    Unchanging(resumed, k);
    assert Through(files, left, 0) == files && seen[..0] == [];
  }

  /**
   * Replay recovers what the files up to the first broken one tell, and repairs exactly these, unless one of
   * them makes it panic.
   */
  lemma ReplayRecovers(codec: Codec, faults: Faults, files: seq<seq<byte>>)
    ensures var end, seen := FirstBroken(codec, faults, files, 0), AllSeen(faults, files);
            var all := ReplayFrom(codec, faults, files, 0, NOTHING);
            && all.panicked == AnyPanics(codec, seen, end)
            && (!all.panicked ==>
                  && all.recovered == ReadFiles(codec, seen[..end])
                  && all.files == Through(files, AllLeft(codec, faults, files), end))
  {
    var end, seen := FirstBroken(codec, faults, files, 0), AllSeen(faults, files);
    if AnyPanics(codec, seen, end) {
      var k := FirstPanic(codec, seen, end);
      ReplayReaches(codec, faults, files, k);
      NotYetBroken(codec, faults, files, 0, k);
      ThroughOneMore(files, AllLeft(codec, faults, files), k);
    } else {
      ReplayReaches(codec, faults, files, end);
      StopsThere(codec, faults, files, end);
    }
  }

  lemma StopsThere(codec: Codec, faults: Faults, files: seq<seq<byte>>, end: nat)
    requires end == FirstBroken(codec, faults, files, 0)
    ensures end < |files| ==>
              var now := Through(files, AllLeft(codec, faults, files), end);
              now[end] == files[end] && Broken(codec, now[end], faults(end))
  {
    if end < |files| {
      NotYetBroken(codec, faults, files, 0, end);
      ThroughOneMore(files, AllLeft(codec, faults, files), end);
    }
  }

  lemma {:induction false} FirstPanic(codec: Codec, seen: seq<seq<byte>>, n: nat) returns (k: nat)
    requires n <= |seen| && AnyPanics(codec, seen, n)
    ensures k < n && !AnyPanics(codec, seen, k) && Panicking(codec, seen[k])
  {
    if AnyPanics(codec, seen, n - 1) { k := FirstPanic(codec, seen, n - 1); } else { k := n - 1; }
  }

  /** How the loop has read the file so far: `done` in front of what `rest` will still give. */
  ghost predicate Reading(codec: Codec, b: seq<byte>, done: seq<Frame>, valid: nat, rest: seq<byte>) {
    Scan(WalFormat(codec.crc), b) == Prepend(done, valid, Scan(WalFormat(codec.crc), rest))
  }

  lemma ReadingStarts(codec: Codec, b: seq<byte>)
    ensures Reading(codec, b, [], 0, b)
  {
    var r := Scan(WalFormat(codec.crc), b);
    assert [] + r.frames == r.frames;
  }

  lemma ReadingStops(codec: Codec, b: seq<byte>, done: seq<Frame>, valid: nat, rest: seq<byte>)
    requires Reading(codec, b, done, valid, rest) && !Parse(codec.crc, rest).Good?
    ensures Scan(WalFormat(codec.crc), b) == Scanned(done, valid, Parse(codec.crc, rest)) && valid <= |b|
  {
    assert done + [] == done;
  }

  lemma ReadingGoesOn(codec: Codec, b: seq<byte>, done: seq<Frame>, valid: nat, rest: seq<byte>, p: Parsed)
    requires Reading(codec, b, done, valid, rest) && p == Parse(codec.crc, rest) && p.Good?
    ensures Reading(codec, b, done + [p.frame], valid + Wrap(p.size), rest[p.size..])
  {
    var r := Scan(WalFormat(codec.crc), rest[p.size..]);
    assert done + ([p.frame] + r.frames) == done + [p.frame] + r.frames;
  }

  lemma FoldFramesAppend(codec: Codec, fs: seq<Frame>, f: Frame)
    ensures FoldFrames(codec, fs + [f]) == AbsorbFrame(codec, FoldFrames(codec, fs), f)
  {
    assert (fs + [f])[..|fs|] == fs;
  }

  /** A frame's parts as the loop slices them out of what is left of the file. */
  lemma ReadsAs(crc: Checksum, rest: seq<byte>, kind: u32, length: u32)
    requires |rest| >= 8 && kind == GetU32(rest[..8][..4]) && length == GetU32(rest[..8][4..])
    ensures |rest| - 8 < Wrap(length + 4) ==> Parse(crc, rest) == Incomplete
    ensures Wrap(length + 4) < length && |rest| - 8 >= Wrap(length + 4) ==> Parse(crc, rest) == Panics
    ensures Wrap(length + 4) >= length && |rest| - 8 >= Wrap(length + 4) ==>
              && Wrap(length + 4) == length + 4
              && var buffer := rest[8..12 + length];
              && Parse(crc, rest) ==
                 if GetU32(buffer[length..]) != crc(rest[..8] + buffer[..length]) then BadChecksum
                 else Good(Frame(kind, buffer[..length]), 12 + length)
  {
    assert rest[0..4] == rest[..8][..4] && rest[4..8] == rest[..8][4..];
    if Wrap(length + 4) >= length && |rest| - 8 >= Wrap(length + 4) {
      var buffer := rest[8..12 + length];
      assert rest[..8] + buffer[..length] == rest[..8 + length];
      assert buffer[length..] == rest[8 + length..12 + length];
      assert buffer[..length] == rest[8..8 + length];
    }
  }

  // ----- writing -----

  /**
   * The files, and the size that the log believes the last one to have, after `part` of a record of
   * `size` bytes was written: a record that would pass the limit starts a new file.
   */
  function Placed(files: seq<seq<byte>>, fileSize: nat, size: nat, part: seq<byte>): (seq<seq<byte>>, nat)
    requires files != []
  {
    var last := |files| - 1;
    if fileSize + size > MAX_WAL_SIZE then (files + [part], |part|)
    else (files[last := files[last] + part], fileSize + |part|)
  }

  function Appended(codec: Codec, files: seq<seq<byte>>, fileSize: nat, rec: Record): (seq<seq<byte>>, nat)
    requires files != []
  {
    var bytes := Encode(codec.crc, FrameOf(codec, rec));
    Placed(files, fileSize, |bytes|, bytes)
  }

  method PutUint32(buf: array<byte>, at: nat, v: u32)
    requires at + 4 <= buf.Length
    modifies buf
    ensures buf[..] == old(buf[..at]) + PutU32(v) + old(buf[at + 4..])
  {
    buf[at] := v % 0x100;
    buf[at + 1] := v / 0x100 % 0x100;
    buf[at + 2] := v / 0x1_0000 % 0x100;
    buf[at + 3] := v / 0x100_0000;
  }

  /** The buffer that a record is assembled in. */
  method FillBuffer(crc: Checksum, kind: u32, data: seq<byte>) returns (buf: array<byte>)
    ensures fresh(buf) && buf[..] == Encode(crc, Frame(kind, data))
  {
    var n := |data|;
    buf := new byte[4 + 4 + n + 4];
    PutUint32(buf, 0, kind);
    PutUint32(buf, 4, n % 0x1_0000_0000);
    assert buf[..8] == Head(Frame(kind, data));
    forall k | 0 <= k < n { buf[8 + k] := data[k]; }
    assert buf[..8 + n] == Head(Frame(kind, data)) + data;
    PutUint32(buf, 8 + n, crc(buf[..8 + n]));
  }

  class WriteAheadLog {
    const codec: Codec
    var files: seq<seq<byte>>
    var fileSize: nat

    /** There is a current file, and its size is not underestimated. */
    ghost predicate Valid()
      reads this
    {
      files != [] && |files[|files| - 1]| <= fileSize
    }

    /** Opens the last file found, or creates the first. */
    constructor (codec: Codec, found: seq<seq<byte>>)
      ensures Valid() && this.codec == codec
      ensures files == if found == [] then [[]] else found
      ensures fileSize == |files[|files| - 1]|
    {
      this.codec := codec;
      this.files := if found == [] then [[]] else found;
      this.fileSize := if found == [] then 0 else |found[|found| - 1]|;
    }

    method Append(rec: Record)
      requires Valid()
      modifies this
      ensures Valid()
      ensures (files, fileSize) == Appended(codec, old(files), old(fileSize), rec)
      ensures var last := files[|files| - 1];
              |last| <= MAX_WAL_SIZE || last == Encode(codec.crc, FrameOf(codec, rec))
    {
      var data := codec.marshal(rec);
      var recordSize := 4 + 4 + |data| + 4;
      if fileSize + recordSize > MAX_WAL_SIZE {
        Rotate();
      }
      var buf := FillBuffer(codec.crc, KindOf(rec), data);
      var bytes, last := buf[..], |files| - 1;
      files := files[last := files[last] + bytes];
      fileSize := fileSize + buf.Length;
      assert [] + bytes == bytes;
      assert old(fileSize) + recordSize > MAX_WAL_SIZE ==> files == old(files) + [bytes];
    }

    method Rotate()
      modifies this
      ensures files == old(files) + [[]] && fileSize == 0
    {
      files := files + [[]];
      fileSize := 0;
    }

    /** Replays one file and cuts it behind its last good record. */
    method ReplayFile(i: nat, fault: Fault)
      returns (failed: bool, panicked: bool, term: nat, votedFor: NodeId, entries: seq<Entry>)
      requires i < |files|
      modifies this`files
      ensures failed == Broken(codec, old(files[i]), fault)
      ensures panicked == (fault.opens && Panicking(codec, Seen(old(files[i]), fault)))
      ensures Recovered(term, votedFor, entries)
              == if fault.opens then ReadFile(codec, Seen(old(files[i]), fault)) else NOTHING
      ensures files == old(files)[i := Left(codec, old(files[i]), fault)]
    {
      failed, panicked, term, votedFor, entries := !fault.opens, false, 0, NO_NODE, [];
      if failed {
        return;
      }
      var seen := Seen(files[i], fault);
      var rest, valid: nat := seen, 0;
      ghost var done: seq<Frame> := [];
      ReadingStarts(codec, rest);
      while true
        invariant files == old(files) && !failed
        invariant Reading(codec, seen, done, valid, rest)
        invariant Recovered(term, votedFor, entries) == FoldFrames(codec, done)
        decreases |rest|
      {
        var p := ReadFrame(rest);
        if !p.Good? {
          ReadingStops(codec, seen, done, valid, rest);
          failed, panicked := p.NoHeader? && seen != files[i], p.Panics?;
          if (p.Incomplete? || p.BadChecksum?) && fault.truncates {
            files := files[i := files[i][..valid]];
          }
          return;
        }
        ReadingGoesOn(codec, seen, done, valid, rest, p);
        FoldFramesAppend(codec, done, p.frame);
        term, votedFor, entries := Process(p.frame.kind, p.frame.payload, term, votedFor, entries);
        rest := rest[p.size..];
        valid := valid + Wrap(p.size);
        done := done + [p.frame];
      }
    }

    /** Reads the next record from what is left of a file: its header, then payload and checksum at once. */
    method ReadFrame(rest: seq<byte>) returns (p: Parsed)
      ensures p == Parse(codec.crc, rest)
    {
      if |rest| < 8 { return NoHeader; }
      var header := rest[..8];
      var kind, length: int := GetU32(header[..4]), GetU32(header[4..]);
      var size := Wrap(length + 4);
      ReadsAs(codec.crc, rest, kind, length);
      if |rest| - 8 < size { return Incomplete; }
      var payloadAndCrc := rest[8..8 + size];
      if length > size { return Panics; }
      var payload, stored := payloadAndCrc[..length], GetU32(payloadAndCrc[length..]);
      if stored != codec.crc(header + payload) { return BadChecksum; }
      return Good(Frame(kind, payload), 8 + length + 4);
    }

    /** What a valid record does to the state recovered so far. */
    method Process(kind: u32, payload: seq<byte>, lastTerm: nat, lastVotedFor: NodeId, found: seq<Entry>)
      returns (term: nat, votedFor: NodeId, entries: seq<Entry>)
      ensures Recovered(term, votedFor, entries)
              == AbsorbFrame(codec, Recovered(lastTerm, lastVotedFor, found), Frame(kind, payload))
    {
      term, votedFor, entries := lastTerm, lastVotedFor, found;
      if kind == RECORD_TERM {
        var rec := codec.readTerm(payload);
        if rec.Some? { term := rec.value; }
      } else if kind == RECORD_VOTE {
        var rec := codec.readVote(payload);
        if rec.Some? {
          votedFor := rec.value.0;
          if rec.value.1 > lastTerm { term := rec.value.1; }
        }
      } else if kind == RECORD_ENTRY {
        var rec := codec.readEntry(payload);
        if rec.Some? { entries := entries + [rec.value]; }
      }
    }

    /**
     * Replays all files in order, up to one that cannot be opened or read: that one and those behind it
     * count for nothing. A panic ends the process.
     */
    method Replay(faults: Faults) returns (panicked: bool, term: nat, votedFor: NodeId, entries: seq<Entry>)
      requires Valid()
      modifies this`files
      ensures Valid()
      ensures Replayed(panicked, Recovered(term, votedFor, entries), files)
              == ReplayFrom(codec, faults, old(files), 0, NOTHING)
    {
      panicked, term, votedFor, entries := false, 0, NO_NODE, [];
      ReplayShrinks(codec, faults, files, 0, NOTHING);
      var k := 0;
      while k < |files| && !panicked
        invariant |files| == |old(files)|
        invariant ReplayFrom(codec, faults, old(files), 0, NOTHING)
                  == if panicked then Replayed(true, Recovered(term, votedFor, entries), files)
                     else ReplayFrom(codec, faults, files, k, Recovered(term, votedFor, entries))
        decreases |files| - k, !panicked
      {
        var failed, t, v, e;
        failed, panicked, t, v, e := ReplayFile(k, faults(k));
        if failed {
          panicked := false;
          break;
        }
        if !panicked {
          // The last term and vote win, unless they are absent, and entries accumulate.
          if t > 0 { term := t; }
          if v != NO_NODE { votedFor := v; }
          entries := entries + e;
          k := k + 1;
        }
      }
    }
  }
}
