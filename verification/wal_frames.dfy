/**
 * The bytes of one write-ahead-log record (internal/storage/wal.go): type, length, payload and
 * checksum, the numbers little-endian. The checksum is any function of the bytes before it.
 */
module WalFrames {
  import opened WalStream

  type Checksum = seq<byte> -> u32

  // ----- little-endian numbers -----

  function PutU32(v: u32): (b: seq<byte>)
    ensures |b| == 4
  {
    [v % 0x100, v / 0x100 % 0x100, v / 0x1_0000 % 0x100, v / 0x100_0000]
  }

  function GetU32(b: seq<byte>): u32
    requires |b| == 4
  {
    var b0: int, b1: int, b2: int, b3: int := b[0], b[1], b[2], b[3];
    b0 + 0x100 * b1 + 0x1_0000 * b2 + 0x100_0000 * b3
  }

  lemma U32RoundTrip(v: u32)
    ensures GetU32(PutU32(v)) == v
  {
    assert v / 0x100 / 0x100 == v / 0x1_0000 && v / 0x1_0000 / 0x100 == v / 0x100_0000;
  }

  lemma BytesRoundTrip(b: seq<byte>)
    requires |b| == 4
    ensures PutU32(GetU32(b)) == b
  {
    var v: int, b0: int, b1: int, b2: int, b3: int := GetU32(b), b[0], b[1], b[2], b[3];
    assert v % 0x100 == b0;
    assert v / 0x100 == b1 + 0x100 * b2 + 0x1_0000 * b3;
    assert v / 0x1_0000 == b2 + 0x100 * b3;
    assert v / 0x100_0000 == b3;
  }

  // ----- one frame -----

  /** The length is cut to 32 bits. */
  function Head(f: Frame): (b: seq<byte>)
    ensures |b| == 8
  {
    PutU32(f.kind) + PutU32(|f.payload| % 0x1_0000_0000)
  }

  function Encode(crc: Checksum, f: Frame): (b: seq<byte>)
    ensures |b| == 12 + |f.payload|
  {
    Head(f) + f.payload + PutU32(crc(Head(f) + f.payload))
  }

  /** Lengths close to 2^32 wrap around in the size of the buffer, which is then too short. */
  function Parse(crc: Checksum, b: seq<byte>): (r: Parsed)
    ensures r.Good? ==> 12 <= r.size <= |b|
  {
    if |b| < 8 then NoHeader
    else
      var kind, length := GetU32(b[0..4]), GetU32(b[4..8]);
      if |b| - 8 < Wrap(length + 4) then Incomplete
      else if length + 4 >= 0x1_0000_0000 then Panics
      else if GetU32(b[8 + length..12 + length]) != crc(b[..8 + length]) then BadChecksum
      else Good(Frame(kind, b[8..8 + length]), 12 + length)
  }

  function WalFormat(crc: Checksum): (fmt: Format)
    ensures fmt.Progresses()
  {
    Format(f => Encode(crc, f), b => Parse(crc, b))
  }

  // Where the parts of a written frame stand, whatever follows it.

  lemma KindWritten(crc: Checksum, f: Frame, tail: seq<byte>)
    ensures GetU32((Encode(crc, f) + tail)[0..4]) == f.kind
  {
    assert (Encode(crc, f) + tail)[0..4] == PutU32(f.kind);
    U32RoundTrip(f.kind);
  }

  lemma LengthWritten(crc: Checksum, f: Frame, tail: seq<byte>)
    ensures GetU32((Encode(crc, f) + tail)[4..8]) == |f.payload| % 0x1_0000_0000
  {
    assert (Encode(crc, f) + tail)[4..8] == PutU32(|f.payload| % 0x1_0000_0000);
    U32RoundTrip(|f.payload| % 0x1_0000_0000);
  }

  lemma PayloadWritten(crc: Checksum, f: Frame, tail: seq<byte>)
    ensures var b, n := Encode(crc, f) + tail, |f.payload|;
            b[8..8 + n] == f.payload && b[..8 + n] == Head(f) + f.payload
  {
  }

  lemma ChecksumWritten(crc: Checksum, f: Frame, tail: seq<byte>)
    ensures var b, n := Encode(crc, f) + tail, |f.payload|; GetU32(b[8 + n..12 + n]) == crc(b[..8 + n])
  {
    var b, n := Encode(crc, f) + tail, |f.payload|;
    PayloadWritten(crc, f, tail);
    assert b[8 + n..12 + n] == PutU32(crc(b[..8 + n]));
    U32RoundTrip(crc(b[..8 + n]));
  }

  lemma ParseByParts(crc: Checksum, b: seq<byte>, f: Frame)
    requires var n := |f.payload|;
             && 12 + n <= |b| && n + 4 < 0x1_0000_0000
             && GetU32(b[0..4]) == f.kind && GetU32(b[4..8]) == n && b[8..8 + n] == f.payload
             && GetU32(b[8 + n..12 + n]) == crc(b[..8 + n])
    ensures Parse(crc, b) == Good(f, 12 + |f.payload|)
  {
  }

  lemma ParseEncoded(crc: Checksum, f: Frame, tail: seq<byte>)
    requires |f.payload| + 4 < 0x1_0000_0000
    ensures Parse(crc, Encode(crc, f) + tail) == Good(f, 12 + |f.payload|)
  {
    KindWritten(crc, f, tail);
    LengthWritten(crc, f, tail);
    PayloadWritten(crc, f, tail);
    ChecksumWritten(crc, f, tail);
    ParseByParts(crc, Encode(crc, f) + tail, f);
  }

  lemma ParseShort(crc: Checksum, b: seq<byte>, n: nat)
    requires 8 <= |b| < 12 + n && n + 12 < 0x1_0000_0000 && GetU32(b[4..8]) == n
    ensures Parse(crc, b) == Incomplete
  {
  }

  /** Part of a frame is recognised as such. */
  lemma ParsePart(crc: Checksum, f: Frame, n: nat)
    requires Fits(f) && n < 12 + |f.payload|
    ensures Parse(crc, Encode(crc, f)[..n]) == if n < 8 then NoHeader else Incomplete
  {
    if n >= 8 {
      var e := Encode(crc, f);
      LengthWritten(crc, f, []);
      assert e[..n][4..8] == (e + [])[4..8];
      ParseShort(crc, e[..n], |f.payload|);
    }
  }

  /** The parts of a good frame are where they were written: type, length and payload, checksum. */
  lemma ParsedKind(crc: Checksum, b: seq<byte>, f: Frame)
    requires Parse(crc, b).Good? && Parse(crc, b).frame == f
    ensures 12 + |f.payload| <= |b| && b[..4] == PutU32(f.kind)
  {
    BytesRoundTrip(b[0..4]);
    assert b[..4] == b[0..4];
  }

  lemma ParsedPayload(crc: Checksum, b: seq<byte>, f: Frame)
    requires Parse(crc, b).Good? && Parse(crc, b).frame == f
    ensures b[4..8] == PutU32(|f.payload| % 0x1_0000_0000) && b[8..8 + |f.payload|] == f.payload
  {
    BytesRoundTrip(b[4..8]);
  }

  lemma ParsedChecksum(crc: Checksum, b: seq<byte>, f: Frame)
    requires Parse(crc, b).Good? && Parse(crc, b).frame == f
    ensures var n := |f.payload|; b[8 + n..12 + n] == PutU32(crc(b[..8 + n]))
  {
    BytesRoundTrip(b[8 + |f.payload|..12 + |f.payload|]);
  }

  lemma Joined(b: seq<byte>, n: nat)
    requires 12 + n <= |b|
    ensures b[..4] + b[4..8] + b[8..8 + n] == b[..8 + n] && b[..8 + n] + b[8 + n..12 + n] == b[..12 + n]
  {
  }

  /** Only the encoding of a frame reads as that frame. */
  lemma ParseInverse(crc: Checksum, b: seq<byte>, f: Frame)
    requires Parse(crc, b).Good? && Parse(crc, b).frame == f
    ensures Encode(crc, f) <= b
  {
    ParsedKind(crc, b, f);
    ParsedPayload(crc, b, f);
    ParsedChecksum(crc, b, f);
    Joined(b, |f.payload|);
    assert Encode(crc, f) == b[..12 + |f.payload|];
  }

  lemma WalFormatSound(crc: Checksum)
    ensures WalFormat(crc).Sound()
  {
    var fmt := WalFormat(crc);
    forall f: Frame, tail: seq<byte> | Fits(f)
      ensures fmt.parse(fmt.encode(f) + tail) == Good(f, |fmt.encode(f)|)
    {
      ParseEncoded(crc, f, tail);
    }
    forall f: Frame, n: nat | Fits(f) && n < |fmt.encode(f)|
      ensures fmt.parse(fmt.encode(f)[..n]) == if n < 8 then NoHeader else Incomplete
    {
      ParsePart(crc, f, n);
    }
  }

  lemma WalFormatExact(crc: Checksum)
    ensures WalFormat(crc).Exact()
  {
    var fmt := WalFormat(crc);
    forall b: seq<byte> ensures fmt.ExactAt(b) {
      if Parse(crc, b).Good? {
        ParseInverse(crc, b, Parse(crc, b).frame);
      }
    }
  }

  /**
   * Replaying a file again finds the same records, however damaged it is, exactly if no good record
   * comes within 12 bytes of 4 GiB or nothing is cut; then it changes nothing more.
   */
  lemma ReplayAgain(crc: Checksum, b: seq<byte>)
    ensures var fmt := WalFormat(crc);
            var kept := AllFit(Scan(fmt, b).frames) || !Cuts(Scan(fmt, b));
            && (Scan(fmt, AfterReplay(fmt, b)).frames == Scan(fmt, b).frames <==> kept)
            && (kept ==> AfterReplay(fmt, AfterReplay(fmt, b)) == AfterReplay(fmt, b))
            && AfterReplay(fmt, b) <= b
  {
    WalFormatSound(crc);
    WalFormatExact(crc);
    ReplayKeepsIff(WalFormat(crc), b);
  }

  /** A good record of 4 GiB counts as none: behind it, an incomplete one makes replay cut off both. */
  lemma FourGigabytes(crc: Checksum, f: Frame, g: Frame)
    requires |f.payload| == 0xFFFF_FFF4 && Fits(g)
    ensures var fmt, b := WalFormat(crc), Encode(crc, f) + Encode(crc, g)[..8];
            Scan(fmt, b).frames == [f] && AfterReplay(fmt, b) == []
  {
    var fmt, e, part := WalFormat(crc), Encode(crc, f), Encode(crc, g)[..8];
    ParseEncoded(crc, f, part);
    ParsePart(crc, g, 8);
    assert (e + part)[|e|..] == part;
    assert Scan(fmt, part) == Scanned([], 0, Incomplete);
  }

  // ----- writing on after a torn write -----

  /** A frame as the log writes it: one of three types, and a JSON object of at least `{"term":0}` as payload. */
  predicate Written(f: Frame) {
    Fits(f) && 1 <= f.kind <= 3 && |f.payload| >= 10 && f.payload[0] == 0x7B
  }

  /** The first bytes of a written frame. */
  lemma FirstBytes(crc: Checksum, f: Frame)
    requires Written(f)
    ensures var e := Encode(crc, f);
            && |e| >= 22 && HeaderAt(e, 0) && e[0] == f.kind && e[1] == e[2] == e[3] == 0 && e[8] == 0x7B
            && (e[5] == e[6] == e[7] == 0 ==> e[4] >= 10)
  {
    var e := Encode(crc, f);
    assert e + [] == e;
    KindWritten(crc, f, []);
    LengthWritten(crc, f, []);
    PayloadWritten(crc, f, []);
    FourBytes(e, 0);
    FourBytes(e, 4);
    SmallNumber(e[0..4]);
    assert e[8..8 + |f.payload|][0] == e[8];
  }

  lemma SmallNumber(b: seq<byte>)
    requires |b| == 4 && GetU32(b) <= 3
    ensures b[0] == GetU32(b) && b[1] == b[2] == b[3] == 0
  {
  }

  lemma FourBytes(b: seq<byte>, i: nat)
    requires i + 4 <= |b|
    ensures b[i..i + 4] == [b[i], b[i + 1], b[i + 2], b[i + 3]]
  {
  }

  /** Behind one to seven stray bytes, a record reads as no record that is ever written, and never panics. */
  lemma Misread(crc: Checksum, b: seq<byte>, r: nat)
    requires 1 <= r <= 7 && HeaderAt(b, r)
    ensures !Parse(crc, b).Panics?
    ensures Parse(crc, b).Good? ==> !Written(Parse(crc, b).frame)
  {
    var p := Parse(crc, b);
    if |b| >= 8 {
      LengthBounded(b, r);
    }
    if p.Good? && Written(p.frame) {
      ParseInverse(crc, b, p.frame);
      FirstBytes(crc, p.frame);
      assert false;
    }
  }

  lemma LengthBounded(b: seq<byte>, r: nat)
    requires 1 <= r <= 7 && HeaderAt(b, r) && |b| >= 8
    ensures GetU32(b[4..8]) + 4 < 0x1_0000_0000
  {
    assert b[4..8][0] == b[4] && b[4..8][1] == b[5] && b[4..8][2] == b[6] && b[4..8][3] == b[7];
    assert r <= 3 ==> b[4] == 0;
    assert r == 7 ==> b[7] <= 3;
    assert 4 <= r <= 6 ==> b[7] == 0;
  }

  /** Behind three stray bytes, most records are lost whatever the checksum: their length reads as 16 MiB or more. */
  lemma AlwaysLost(crc: Checksum, stray: seq<byte>, f: Frame)
    requires |stray| == 3 && Written(f) && |f.payload| < 0x1_0000 && |f.payload| % 0x100 != 0
    ensures Parse(crc, stray + Encode(crc, f)) == Incomplete
  {
    var e := Encode(crc, f);
    var b := stray + e;
    FirstBytes(crc, f);
    FourBytes(b, 4);
    assert b[4] == e[1] && b[5] == e[2] && b[6] == e[3] && b[7] == e[4];
    LengthWritten(crc, f, []);
    assert e + [] == e;
    FourBytes(e, 4);
    ReadsHuge(crc, b);
  }

  lemma ReadsHuge(crc: Checksum, b: seq<byte>)
    requires 8 <= |b| < 0x100_0000 && b[4] == b[5] == b[6] == 0 && b[7] != 0
    ensures Parse(crc, b) == Incomplete
  {
    FourBytes(b, 4);
  }

  lemma HeaderBehind(stray: seq<byte>, e: seq<byte>, tail: seq<byte>)
    requires HeaderAt(e, 0) && (tail != [] ==> |e| >= 4)
    ensures HeaderAt(stray + e + tail, |stray|)
  {
    var b, r := stray + e + tail, |stray|;
    forall i | r <= i < r + 4 && i < |b| ensures if i == r then 1 <= b[i] <= 3 else b[i] == 0 {
      assert b[i] == e[i - r];
    }
  }

  lemma NewFramesLost(crc: Checksum, gs: seq<Frame>)
    requires gs != [] && Written(gs[0])
    ensures LostBehindStrays(WalFormat(crc), gs)
  {
    var fmt := WalFormat(crc);
    forall stray: seq<byte> | 1 <= |stray| <= 7 ensures Scan(fmt, stray + EncodeAll(fmt, gs)).frames != gs {
      var b, e := stray + EncodeAll(fmt, gs), Encode(crc, gs[0]);
      assert b == stray + e + EncodeAll(fmt, gs[1..]);
      FirstBytes(crc, gs[0]);
      HeaderBehind(stray, e, EncodeAll(fmt, gs[1..]));
      Misread(crc, b, |stray|);
    }
  }

  /**
   * The write-ahead log survives a torn write and the writes after it exactly if the tear left no
   * byte of the unfinished record or at least its whole header.
   */
  lemma SurvivesTear(crc: Checksum, fs: seq<Frame>, n: nat, gs: seq<Frame>)
    requires n <= |EncodeAll(WalFormat(crc), fs)|
    requires AllFit(fs) && gs != [] && forall g | g in gs :: Written(g)
    ensures var fmt := WalFormat(crc);
            var kept := fs[..Whole(fmt, fs, n)];
            var b := EncodeAll(fmt, fs)[..n];
            && Scan(fmt, b).frames == kept
            && (Continues(fmt, AfterReplay(fmt, b), kept, gs) <==> Torn(fmt, fs, n) == 0 || Torn(fmt, fs, n) >= 8)
  {
    var fmt := WalFormat(crc);
    WalFormatSound(crc);
    NewFramesLost(crc, gs);
    TornWrite(fmt, fs, n);
    WritingOn(fmt, fs, n, gs);
  }
}
