/**
 * How records lie on disk (internal/storage/wal.go, Append): the bytes of one, and how many of them are
 * spread over files.
 */
module WalLayout {
  import opened Types
  import opened Recovery
  import opened WalStream
  import opened WalFrames
  import opened Wal

  function BytesOf(codec: Codec, rec: Record): seq<byte> {
    Encode(codec.crc, FrameOf(codec, rec))
  }

  /** The number that four bytes spell, the lowest first. */
  function Spelled(b: seq<byte>, at: nat): nat
    requires at + 4 <= |b|
  {
    var b0: int, b1: int, b2: int, b3: int := b[at], b[at + 1], b[at + 2], b[at + 3];
    b0 + 256 * b1 + 65536 * b2 + 16777216 * b3
  }

  lemma SpelledIs(b: seq<byte>, at: nat, v: u32)
    requires at + 4 <= |b| && b[at..at + 4] == PutU32(v)
    ensures Spelled(b, at) == v
  {
    assert b[at..at + 4][0] == b[at] && b[at..at + 4][1] == b[at + 1];
    assert b[at..at + 4][2] == b[at + 2] && b[at..at + 4][3] == b[at + 3];
    U32RoundTrip(v);
  }

  /** A record is its type, the length of its JSON, the JSON, and the checksum of all that. */
  lemma OnDisk(codec: Codec, rec: Record)
    ensures var b, json := BytesOf(codec, rec), codec.marshal(rec);
            var n := |json|;
            && |b| == n + 12 && b[8..8 + n] == json
            && Spelled(b, 0) == (if rec.TermRecord? then 1 else if rec.VoteRecord? then 2 else 3)
            && Spelled(b, 4) == n % 0x1_0000_0000 && Spelled(b, 8 + n) == codec.crc(b[..8 + n])
  {
    var b, n := BytesOf(codec, rec), |codec.marshal(rec)|;
    PayloadWritten(codec.crc, FrameOf(codec, rec), []);
    assert b + [] == b;
    SpelledIs(b, 0, KindOf(rec));
    SpelledIs(b, 4, n % 0x1_0000_0000);
    SpelledIs(b, 8 + n, codec.crc(b[..8 + n]));
  }

  lemma SpelledReads(b: seq<byte>, at: nat)
    requires at + 4 <= |b|
    ensures GetU32(b[at..at + 4]) == Spelled(b, at)
  {
    assert b[at..at + 4][0] == b[at] && b[at..at + 4][1] == b[at + 1];
    assert b[at..at + 4][2] == b[at + 2] && b[at..at + 4][3] == b[at + 3];
  }

  /** What bytes read as, by their length field: the buffer for payload and checksum is as long as 32 bits can say. */
  lemma ReadsIff(crc: Checksum, b: seq<byte>)
    ensures Parse(crc, b).NoHeader? <==> |b| < 8
    ensures |b| >= 8 ==>
              var p, n := Parse(crc, b), Spelled(b, 4);
              var there := |b| - 8 >= (n + 4) % 0x1_0000_0000;
              && (p.Incomplete? <==> !there) && (p.Panics? <==> there && n >= 0xFFFF_FFFC)
              && (there && n < 0xFFFF_FFFC ==> 12 + n <= |b|)
              && (p.Good? <==> there && n < 0xFFFF_FFFC && Spelled(b, 8 + n) == crc(b[..8 + n]))
  {
    if |b| >= 8 {
      SpelledReads(b, 4);
      var n := Spelled(b, 4);
      if n < 0xFFFF_FFFC && |b| >= 12 + n { SpelledReads(b, 8 + n); }
    }
  }

  // ----- what may fail -----

  lemma {:induction false} StopsAtUnread(fmt: Format, b: seq<byte>)
    requires fmt.Progresses()
    ensures Scan(fmt, b).stop == fmt.parse(Unread(fmt, b))
    decreases |b|
  {
    var p := fmt.parse(b);
    if p.Good? { StopsAtUnread(fmt, b[p.size..]); }
  }

  /** Reading ends at the bytes behind the last good record, for want of a header exactly if there is none. */
  lemma ReadingEnds(codec: Codec, b: seq<byte>) returns (unread: nat)
    ensures unread == |Unread(WalFormat(codec.crc), b)|
    ensures Scan(WalFormat(codec.crc), b).stop.NoHeader? <==> unread < 8
  {
    StopsAtUnread(WalFormat(codec.crc), b);
    ReadsIff(codec.crc, Unread(WalFormat(codec.crc), b));
    unread := |Unread(WalFormat(codec.crc), b)|;
  }

  lemma GoodEnds(codec: Codec, b: seq<byte>)
    requires AllFit(Scan(WalFormat(codec.crc), b).frames)
    ensures Scan(WalFormat(codec.crc), b).valid + |Unread(WalFormat(codec.crc), b)| == |b|
  {
    WalFormatExact(codec.crc);
    ValidIsCounted(WalFormat(codec.crc), b);
  }

  /** Replay stops at a file that it cannot open, or that it cannot read on in before a header is complete. */
  lemma BrokenIff(codec: Codec, b: seq<byte>, f: Fault)
    ensures Broken(codec, b, f) <==>
              !f.opens || (f.breaks.Some? && f.breaks.value < |b| && |Unread(WalFormat(codec.crc), Seen(b, f))| < 8)
  {
    var unread := ReadingEnds(codec, Seen(b, f));
  }

  /**
   * A file is left as it is if it cannot be opened or cut, or if less than a header lies behind its last good
   * record; otherwise, and unless replay panics, it is cut exactly there.
   */
  lemma CutIff(codec: Codec, b: seq<byte>, f: Fault)
    requires AllFit(Scan(WalFormat(codec.crc), Seen(b, f)).frames) && !Panicking(codec, Seen(b, f))
    ensures var unread := |Unread(WalFormat(codec.crc), Seen(b, f))|;
            && unread <= |Seen(b, f)|
            && Left(codec, b, f) == if f.opens && f.truncates && unread >= 8 then b[..|Seen(b, f)| - unread] else b
  {
    var unread := ReadingEnds(codec, Seen(b, f));
    GoodEnds(codec, Seen(b, f));
  }

  /** A log that began empty, after these records. */
  function AppendAll(codec: Codec, recs: seq<Record>): (r: (seq<seq<byte>>, nat))
    ensures r.0 != []
  {
    if recs == [] then ([[]], 0)
    else
      var before := AppendAll(codec, recs[..|recs| - 1]);
      Appended(codec, before.0, before.1, recs[|recs| - 1])
  }

  function AllBytes(codec: Codec, recs: seq<Record>): seq<byte> {
    if recs == [] then [] else AllBytes(codec, recs[..|recs| - 1]) + BytesOf(codec, recs[|recs| - 1])
  }

  lemma ConcatNew(files: seq<seq<byte>>, b: seq<byte>)
    ensures Concat(files + [b]) == Concat(files) + b
  {
    assert (files + [b])[..|files|] == files;
  }

  lemma ConcatLonger(files: seq<seq<byte>>, b: seq<byte>)
    requires files != []
    ensures var last := |files| - 1; Concat(files[last := files[last] + b]) == Concat(files) + b
  {
    var last := |files| - 1;
    var after := files[last := files[last] + b];
    assert after[..last] == files[..last];
    assert Concat(files[..last]) + (files[last] + b) == Concat(files[..last]) + files[last] + b;
  }

  /** The files hold the bytes of all records in order, and the log knows the size of the last one. */
  lemma {:induction false} WrittenInOrder(codec: Codec, recs: seq<Record>)
    ensures var (files, size) := AppendAll(codec, recs);
            Concat(files) == AllBytes(codec, recs) && size == |files[|files| - 1]|
  {
    if recs == [] {
      ConcatNew([], []);
      assert [] + [[]] == AppendAll(codec, recs).0;
    } else {
      var before, b := AppendAll(codec, recs[..|recs| - 1]), BytesOf(codec, recs[|recs| - 1]);
      WrittenInOrder(codec, recs[..|recs| - 1]);
      ConcatNew(before.0, b);
      ConcatLonger(before.0, b);
    }
  }

  /** The file is within the limit, unless it holds a single record. */
  ghost predicate Fits(codec: Codec, recs: seq<Record>, file: seq<byte>) {
    |file| <= MAX_WAL_SIZE || exists i | 0 <= i < |recs| :: file == BytesOf(codec, recs[i])
  }

  /** `next` begins with a record that `file` had no room for. */
  ghost predicate NoRoom(codec: Codec, recs: seq<Record>, file: seq<byte>, next: seq<byte>) {
    exists i | 0 <= i < |recs| ::
      BytesOf(codec, recs[i]) <= next && |file| + |BytesOf(codec, recs[i])| > MAX_WAL_SIZE
  }

  ghost predicate Packed(codec: Codec, recs: seq<Record>, files: seq<seq<byte>>) {
    && (forall i | 0 <= i < |files| :: Fits(codec, recs, files[i]))
    && (forall i | 0 < i < |files| :: NoRoom(codec, recs, files[i - 1], files[i]))
  }

  lemma FitsMore(codec: Codec, recs: seq<Record>, rec: Record, file: seq<byte>)
    requires Fits(codec, recs, file)
    ensures Fits(codec, recs + [rec], file)
  {
    if |file| > MAX_WAL_SIZE {
      var i :| 0 <= i < |recs| && file == BytesOf(codec, recs[i]);
      assert (recs + [rec])[i] == recs[i];
    }
  }

  lemma NoRoomMore(codec: Codec, recs: seq<Record>, rec: Record, file: seq<byte>, next: seq<byte>, more: seq<byte>)
    requires NoRoom(codec, recs, file, next)
    ensures NoRoom(codec, recs + [rec], file, next + more)
  {
    var i :| 0 <= i < |recs| && BytesOf(codec, recs[i]) <= next && |file| + |BytesOf(codec, recs[i])| > MAX_WAL_SIZE;
    assert (recs + [rec])[i] == recs[i] && BytesOf(codec, recs[i]) <= next + more;
  }

  lemma PackedNew(codec: Codec, recs: seq<Record>, rec: Record, files: seq<seq<byte>>)
    requires Packed(codec, recs, files) && files != []
    requires |files[|files| - 1]| + |BytesOf(codec, rec)| > MAX_WAL_SIZE
    ensures Packed(codec, recs + [rec], files + [BytesOf(codec, rec)])
  {
    var all, after, b := recs + [rec], files + [BytesOf(codec, rec)], BytesOf(codec, rec);
    assert all[|recs|] == rec;
    forall i | 0 <= i < |after| ensures Fits(codec, all, after[i]) {
      if i < |files| { FitsMore(codec, recs, rec, files[i]); }
    }
    forall i | 0 < i < |after| ensures NoRoom(codec, all, after[i - 1], after[i]) {
      if i < |files| {
        NoRoomMore(codec, recs, rec, files[i - 1], files[i], []);
        assert files[i] + [] == files[i];
      } else {
        assert BytesOf(codec, all[|recs|]) <= after[i];
      }
    }
  }

  lemma LongerFits(codec: Codec, recs: seq<Record>, rec: Record, files: seq<seq<byte>>, after: seq<seq<byte>>,
                   last: nat)
    requires Packed(codec, recs, files) && last < |files| == |after| && |after[last]| <= MAX_WAL_SIZE
    requires forall i | 0 <= i < |files| && i != last :: after[i] == files[i]
    ensures forall i | 0 <= i < |after| :: Fits(codec, recs + [rec], after[i])
  {
    forall i | 0 <= i < |after| ensures Fits(codec, recs + [rec], after[i]) {
      if i != last { FitsMore(codec, recs, rec, files[i]); }
    }
  }

  lemma PackedLonger(codec: Codec, recs: seq<Record>, rec: Record, files: seq<seq<byte>>)
    requires Packed(codec, recs, files) && files != []
    requires |files[|files| - 1]| + |BytesOf(codec, rec)| <= MAX_WAL_SIZE
    ensures var last := |files| - 1; Packed(codec, recs + [rec], files[last := files[last] + BytesOf(codec, rec)])
  {
    var last, b := |files| - 1, BytesOf(codec, rec);
    var after := files[last := files[last] + b];
    LongerFits(codec, recs, rec, files, after, last);
    forall i | 0 < i < |after| ensures NoRoom(codec, recs + [rec], after[i - 1], after[i]) {
      var more := if i < last then [] else b;
      assert after[i - 1] == files[i - 1] && after[i] == files[i] + more;
      NoRoomMore(codec, recs, rec, files[i - 1], files[i], more);
    }
  }

  /** A new file is begun when the old one has no room for the next record, and not before. */
  lemma {:induction false} RotatesWhenFull(codec: Codec, recs: seq<Record>)
    ensures MAX_WAL_SIZE == 0x400_0000 && Packed(codec, recs, AppendAll(codec, recs).0)
  {
    if recs != [] {
      var init, rec := recs[..|recs| - 1], recs[|recs| - 1];
      var before := AppendAll(codec, init);
      RotatesWhenFull(codec, init);
      WrittenInOrder(codec, init);
      assert init + [rec] == recs;
      if before.1 + |BytesOf(codec, rec)| > MAX_WAL_SIZE {
        PackedNew(codec, init, rec, before.0);
      } else {
        PackedLonger(codec, init, rec, before.0);
      }
    }
  }
}
