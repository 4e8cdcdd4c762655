/**
 * A write-ahead-log file as a stream of frames, whatever the exact layout of one frame: scanning,
 * torn writes, and writing on after them (internal/storage/wal.go, replayFile and truncateFile).
 */
module WalStream {

  type byte = x: int | 0 <= x < 0x100

  type u32 = x: int | 0 <= x < 0x1_0000_0000

  datatype Frame = Frame(kind: u32, payload: seq<byte>)

  /** What reading one frame from the start of some bytes finds. */
  datatype Parsed =
    | NoHeader                    // end of file, or one to seven bytes
    | Incomplete
    | BadChecksum
    | Panics
    | Good(frame: Frame, size: nat)

  /** Behind `r` bytes stand the first bytes, as far as there are any, of a frame of type 1, 2 or 3. */
  ghost predicate HeaderAt(b: seq<byte>, r: nat) {
    r < |b| && forall i | r <= i < r + 4 && i < |b| :: if i == r then 1 <= b[i] <= 3 else b[i] == 0
  }

  /** A sum of 32-bit numbers, wrapped around. */
  function Wrap(v: nat): nat {
    if v >= 0x1_0000_0000 then v - 0x1_0000_0000 else v
  }

  /** The length field and the arithmetic on it do not wrap around. */
  predicate Fits(f: Frame) {
    |f.payload| + 12 < 0x1_0000_0000
  }

  datatype Format = Format(encode: Frame -> seq<byte>, parse: seq<byte> -> Parsed) {

    /** Reading a frame makes progress within the file. */
    ghost predicate Progresses() {
      forall b: seq<byte> :: parse(b).Good? ==> 8 < parse(b).size <= |b|
    }

    /** Whole frames are read back, whatever follows; part of a frame is recognised as such. */
    ghost predicate Sound() {
      && Progresses()
      && parse([]) == NoHeader
      && (forall f: Frame :: |encode(f)| == 12 + |f.payload|)
      && (forall f: Frame, tail: seq<byte> | Fits(f) :: parse(encode(f) + tail) == Good(f, |encode(f)|))
      && (forall f: Frame, n: nat | Fits(f) && n < |encode(f)| ::
            parse(encode(f)[..n]) == if n < 8 then NoHeader else Incomplete)
    }

    /** Nothing but the encoding of a frame reads as that frame. */
    ghost predicate ExactAt(b: seq<byte>) {
      parse(b).Good? ==> parse(b).size == |encode(parse(b).frame)| && encode(parse(b).frame) <= b
    }

    ghost predicate Exact() {
      && (forall f: Frame :: |encode(f)| == 12 + |f.payload|)
      && (forall b: seq<byte> :: ExactAt(b))
    }
  }

  ghost predicate AllFit(fs: seq<Frame>) {
    forall f | f in fs :: Fits(f)
  }

  function EncodeAll(fmt: Format, fs: seq<Frame>): seq<byte> {
    if fs == [] then [] else fmt.encode(fs[0]) + EncodeAll(fmt, fs[1..])
  }

  lemma {:induction false} EncodeAllAppend(fmt: Format, fs: seq<Frame>, gs: seq<Frame>)
    ensures EncodeAll(fmt, fs + gs) == EncodeAll(fmt, fs) + EncodeAll(fmt, gs)
  {
    if fs == [] {
      assert fs + gs == gs;
    } else {
      EncodeAllAppend(fmt, fs[1..], gs);
      assert (fs + gs)[1..] == fs[1..] + gs;
    }
  }

  // ----- scanning -----

  /** The frames read, the offset behind the last good one as it is counted, and why reading stopped. */
  datatype Scanned = Scanned(frames: seq<Frame>, valid: nat, stop: Parsed)

  function Scan(fmt: Format, b: seq<byte>): (r: Scanned)
    requires fmt.Progresses()
    ensures !r.stop.Good? && r.valid <= |b|
    decreases |b|
  {
    var p := fmt.parse(b);
    if p.Good? then
      var rest := Scan(fmt, b[p.size..]);
      Scanned([p.frame] + rest.frames, Wrap(p.size) + rest.valid, rest.stop)
    else Scanned([], 0, p)
  }

  /** Replay cuts the file behind the last good frame, as it counts. */
  predicate Cuts(r: Scanned) {
    r.stop.Incomplete? || r.stop.BadChecksum?
  }

  /** The file after a replay: cut behind the last good frame, unless only a partial header is left. */
  function AfterReplay(fmt: Format, b: seq<byte>): seq<byte>
    requires fmt.Progresses()
  {
    var r := Scan(fmt, b);
    if Cuts(r) then b[..r.valid] else b
  }

  /** The encoded frames in front of some bytes. */
  ghost function Before(fmt: Format, fs: seq<Frame>, tail: seq<byte>): seq<byte> {
    if fs == [] then tail else fmt.encode(fs[0]) + Before(fmt, fs[1..], tail)
  }

  lemma {:induction false} BeforeIs(fmt: Format, fs: seq<Frame>, tail: seq<byte>)
    ensures Before(fmt, fs, tail) == EncodeAll(fmt, fs) + tail
  {
    if fs != [] {
      BeforeIs(fmt, fs[1..], tail);
    }
  }

  /** What the frames in front of the rest of the file add to what is read from it. */
  ghost function Prepend(fs: seq<Frame>, size: nat, rest: Scanned): Scanned {
    Scanned(fs + rest.frames, size + rest.valid, rest.stop)
  }

  lemma ScanOne(fmt: Format, f: Frame, rest: seq<byte>)
    requires fmt.Sound() && Fits(f)
    ensures Scan(fmt, fmt.encode(f) + rest) == Prepend([f], |fmt.encode(f)|, Scan(fmt, rest))
  {
    var e := fmt.encode(f);
    assert (e + rest)[|e|..] == rest;
  }

  lemma PrependPrepend(f: Frame, fs: seq<Frame>, m: nat, n: nat, rest: Scanned)
    ensures Prepend([f], m, Prepend(fs, n, rest)) == Prepend([f] + fs, m + n, rest)
  {
    assert [f] + (fs + rest.frames) == [f] + fs + rest.frames;
  }

  lemma {:induction false} ScanBefore(fmt: Format, fs: seq<Frame>, tail: seq<byte>)
    requires fmt.Sound() && AllFit(fs)
    ensures Scan(fmt, Before(fmt, fs, tail)) == Prepend(fs, |EncodeAll(fmt, fs)|, Scan(fmt, tail))
  {
    if fs == [] {
      assert fs + Scan(fmt, tail).frames == Scan(fmt, tail).frames;
    } else {
      ScanBefore(fmt, fs[1..], tail);
      ScanOne(fmt, fs[0], Before(fmt, fs[1..], tail));
      PrependPrepend(fs[0], fs[1..], |fmt.encode(fs[0])|, |EncodeAll(fmt, fs[1..])|, Scan(fmt, tail));
      assert [fs[0]] + fs[1..] == fs;
    }
  }

  /** Whole frames at the start of a file are all read, and then the rest is. */
  lemma ScanEncoded(fmt: Format, fs: seq<Frame>, tail: seq<byte>)
    requires fmt.Sound() && AllFit(fs)
    ensures Scan(fmt, EncodeAll(fmt, fs) + tail) == Prepend(fs, |EncodeAll(fmt, fs)|, Scan(fmt, tail))
  {
    BeforeIs(fmt, fs, tail);
    ScanBefore(fmt, fs, tail);
  }

  /** Behind whole frames, bytes that no frame can be read from change nothing. */
  lemma ScanWhole(fmt: Format, fs: seq<Frame>, tail: seq<byte>)
    requires fmt.Sound() && AllFit(fs) && !fmt.parse(tail).Good?
    ensures Scan(fmt, EncodeAll(fmt, fs) + tail) == Scanned(fs, |EncodeAll(fmt, fs)|, fmt.parse(tail))
  {
    ScanEncoded(fmt, fs, tail);
    assert fs + [] == fs;
  }

  /** The bytes behind the last good frame. */
  ghost function Unread(fmt: Format, b: seq<byte>): seq<byte>
    requires fmt.Progresses()
    decreases |b|
  {
    if fmt.parse(b).Good? then Unread(fmt, b[fmt.parse(b).size..]) else b
  }

  /** Any file is its good frames followed by bytes from which nothing can be read. */
  lemma {:induction false} ScanInverse(fmt: Format, b: seq<byte>)
    requires fmt.Progresses() && fmt.Exact()
    ensures b == Before(fmt, Scan(fmt, b).frames, Unread(fmt, b))
    decreases |b|
  {
    var p := fmt.parse(b);
    assert fmt.ExactAt(b);
    if p.Good? {
      var rest := b[p.size..];
      ScanInverse(fmt, rest);
      assert ([p.frame] + Scan(fmt, rest).frames)[1..] == Scan(fmt, rest).frames;
      assert b == fmt.encode(p.frame) + rest;
    }
  }

  /** The counted offset is where the last good frame ends if all frames fit, and falls short of it otherwise. */
  lemma {:induction false} ValidIsCounted(fmt: Format, b: seq<byte>)
    requires fmt.Progresses() && fmt.Exact()
    ensures Scan(fmt, b).valid + |Unread(fmt, b)| <= |b|
    ensures Scan(fmt, b).valid + |Unread(fmt, b)| == |b| <==> AllFit(Scan(fmt, b).frames)
    decreases |b|
  {
    var p := fmt.parse(b);
    assert fmt.ExactAt(b);
    if p.Good? {
      var rest := Scan(fmt, b[p.size..]).frames;
      assert Scan(fmt, b).frames == [p.frame] + rest;
      ValidIsCounted(fmt, b[p.size..]);
      AllFitOneMore(p.frame, rest);
    }
  }

  lemma AllFitOneMore(f: Frame, fs: seq<Frame>)
    ensures AllFit([f] + fs) <==> Fits(f) && AllFit(fs)
  {
    assert f in [f] + fs && forall g | g in fs :: g in [f] + fs;
  }

  lemma CutExactly(fmt: Format, b: seq<byte>)
    requires fmt.Sound() && fmt.Exact() && AllFit(Scan(fmt, b).frames) && Cuts(Scan(fmt, b))
    ensures AfterReplay(fmt, b) == EncodeAll(fmt, Scan(fmt, b).frames)
  {
    var fs := Scan(fmt, b).frames;
    ScanInverse(fmt, b);
    BeforeIs(fmt, fs, Unread(fmt, b));
    ValidIsCounted(fmt, b);
  }

  lemma ScanAll(fmt: Format, fs: seq<Frame>)
    requires fmt.Sound() && AllFit(fs)
    ensures Scan(fmt, EncodeAll(fmt, fs)) == Scanned(fs, |EncodeAll(fmt, fs)|, NoHeader)
  {
    ScanWhole(fmt, fs, []);
    assert EncodeAll(fmt, fs) + [] == EncodeAll(fmt, fs);
  }

  lemma CutTooEarly(fmt: Format, b: seq<byte>)
    requires fmt.Sound() && fmt.Exact() && !AllFit(Scan(fmt, b).frames) && Cuts(Scan(fmt, b))
    ensures Scan(fmt, AfterReplay(fmt, b)).frames != Scan(fmt, b).frames
  {
    var c := AfterReplay(fmt, b);
    var fs := Scan(fmt, b).frames;
    ScanInverse(fmt, b);
    BeforeIs(fmt, fs, Unread(fmt, b));
    ValidIsCounted(fmt, b);
    ScanInverse(fmt, c);
    BeforeIs(fmt, Scan(fmt, c).frames, Unread(fmt, c));
  }

  /**
   * Replaying a file again finds the same frames exactly if none of them comes within 12 bytes of
   * 4 GiB or nothing is cut; then it changes nothing more.
   */
  lemma ReplayKeepsIff(fmt: Format, b: seq<byte>)
    requires fmt.Sound() && fmt.Exact()
    ensures Scan(fmt, AfterReplay(fmt, b)).frames == Scan(fmt, b).frames
            <==> AllFit(Scan(fmt, b).frames) || !Cuts(Scan(fmt, b))
    ensures AllFit(Scan(fmt, b).frames) || !Cuts(Scan(fmt, b))
            ==> AfterReplay(fmt, AfterReplay(fmt, b)) == AfterReplay(fmt, b)
    ensures AfterReplay(fmt, b) <= b
  {
    if Cuts(Scan(fmt, b)) {
      if AllFit(Scan(fmt, b).frames) {
        CutExactly(fmt, b);
        ScanAll(fmt, Scan(fmt, b).frames);
      } else {
        CutTooEarly(fmt, b);
      }
    }
  }

  // ----- writing behind a file -----

  lemma {:induction false} UnreadBefore(fmt: Format, fs: seq<Frame>, tail: seq<byte>)
    requires fmt.Sound() && AllFit(fs)
    ensures Unread(fmt, Before(fmt, fs, tail)) == Unread(fmt, tail)
  {
    if fs != [] {
      UnreadBefore(fmt, fs[1..], tail);
      var e, rest := fmt.encode(fs[0]), Before(fmt, fs[1..], tail);
      assert (e + rest)[|e|..] == rest;
    }
  }

  /** What is written behind a file is read together with the bytes that could not be read before. */
  lemma ScanLonger(fmt: Format, b: seq<byte>, more: seq<byte>)
    requires fmt.Sound() && fmt.Exact() && AllFit(Scan(fmt, b).frames)
    ensures var u := Unread(fmt, b);
            && Scan(fmt, b + more).frames == Scan(fmt, b).frames + Scan(fmt, u + more).frames
            && Unread(fmt, b + more) == Unread(fmt, u + more)
  {
    var fs, u := Scan(fmt, b).frames, Unread(fmt, b);
    ScanInverse(fmt, b);
    BeforeIs(fmt, fs, u);
    BeforeIs(fmt, fs, u + more);
    Associative(EncodeAll(fmt, fs), u, more);
    ScanBefore(fmt, fs, u + more);
    UnreadBefore(fmt, fs, u + more);
  }

  lemma {:induction false} StopIsUnread(fmt: Format, b: seq<byte>)
    requires fmt.Progresses()
    ensures Scan(fmt, b).stop == fmt.parse(Unread(fmt, b)) && !fmt.parse(Unread(fmt, b)).Good?
    decreases |b|
  {
    if fmt.parse(b).Good? {
      StopIsUnread(fmt, b[fmt.parse(b).size..]);
    }
  }

  /** Replay leaves unread bytes in place, or none. */
  lemma UnreadAfterReplay(fmt: Format, b: seq<byte>)
    requires fmt.Sound() && fmt.Exact() && AllFit(Scan(fmt, b).frames)
    ensures Scan(fmt, AfterReplay(fmt, b)).frames == Scan(fmt, b).frames
    ensures Unread(fmt, AfterReplay(fmt, b)) == if Cuts(Scan(fmt, b)) then [] else Unread(fmt, b)
  {
    ReplayKeepsIff(fmt, b);
    if Cuts(Scan(fmt, b)) {
      var fs := Scan(fmt, b).frames;
      CutExactly(fmt, b);
      BeforeIs(fmt, fs, []);
      UnreadBefore(fmt, fs, []);
      assert EncodeAll(fmt, fs) + [] == EncodeAll(fmt, fs);
    }
  }

  /** In files below 4 GiB all frames fit. */
  lemma {:induction false} SmallFilesFit(fmt: Format, b: seq<byte>)
    requires fmt.Progresses() && fmt.Exact() && |b| < 0x1_0000_0000
    ensures AllFit(Scan(fmt, b).frames)
    decreases |b|
  {
    var p := fmt.parse(b);
    assert fmt.ExactAt(b);
    if p.Good? {
      SmallFilesFit(fmt, b[p.size..]);
      AllFitOneMore(p.frame, Scan(fmt, b[p.size..]).frames);
    }
  }

  // ----- torn writes -----

  /** How many frames lie wholly within the first `n` bytes. */
  ghost function Whole(fmt: Format, fs: seq<Frame>, n: nat): (k: nat)
    ensures k <= |fs|
  {
    if fs == [] || n < |fmt.encode(fs[0])| then 0
    else 1 + Whole(fmt, fs[1..], n - |fmt.encode(fs[0])|)
  }

  /** Any byte prefix is its whole frames followed by a proper part of the next one. */
  lemma {:induction false} SplitPrefix(fmt: Format, fs: seq<Frame>, n: nat)
    requires n <= |EncodeAll(fmt, fs)|
    ensures var k := Whole(fmt, fs, n);
            && |EncodeAll(fmt, fs[..k])| <= n
            && var torn := n - |EncodeAll(fmt, fs[..k])|;
            && (torn > 0 ==> k < |fs|) && (k < |fs| ==> torn < |fmt.encode(fs[k])|)
            && EncodeAll(fmt, fs)[..n]
               == EncodeAll(fmt, fs[..k]) + if k < |fs| then fmt.encode(fs[k])[..torn] else []
  {
    var k := Whole(fmt, fs, n);
    if fs == [] || n < |fmt.encode(fs[0])| {
      assert fs[..0] == [];
      if fs != [] { assert EncodeAll(fmt, fs)[..n] == fmt.encode(fs[0])[..n]; }
    } else {
      var e, rest := fmt.encode(fs[0]), fs[1..];
      SplitPrefix(fmt, rest, n - |e|);
      assert fs[..k][1..] == rest[..k - 1] && fs[..k][0] == fs[0];
      assert EncodeAll(fmt, fs)[..n] == e + EncodeAll(fmt, rest)[..n - |e|];
    }
  }

  /** How many bytes of the next frame follow the whole ones. */
  ghost function Torn(fmt: Format, fs: seq<Frame>, n: nat): nat
    requires n <= |EncodeAll(fmt, fs)|
  {
    SplitPrefix(fmt, fs, n);
    n - |EncodeAll(fmt, fs[..Whole(fmt, fs, n)])|
  }

  /**
   * After a write cut off at any byte, replay finds exactly the frames that were written whole. The
   * file is then exactly their encoding, unless one to seven bytes were torn, which stay.
   */
  lemma TornWrite(fmt: Format, fs: seq<Frame>, n: nat)
    requires fmt.Sound() && AllFit(fs) && n <= |EncodeAll(fmt, fs)|
    ensures var b, k := EncodeAll(fmt, fs)[..n], Whole(fmt, fs, n);
            && Scan(fmt, b).frames == fs[..k] && !Scan(fmt, b).stop.Panics?
            && AfterReplay(fmt, b) == if Torn(fmt, fs, n) >= 8 then EncodeAll(fmt, fs[..k]) else b
  {
    SplitPrefix(fmt, fs, n);
    var b, k, torn := EncodeAll(fmt, fs)[..n], Whole(fmt, fs, n), Torn(fmt, fs, n);
    var tail := if k < |fs| then fmt.encode(fs[k])[..torn] else [];
    ScanEncoded(fmt, fs[..k], tail);
    assert fs[..k] + [] == fs[..k];
    assert b[..|EncodeAll(fmt, fs[..k])|] == EncodeAll(fmt, fs[..k]);
  }

  /** Frames written after one to seven stray bytes are not read back as they were written. */
  ghost predicate LostBehindStrays(fmt: Format, gs: seq<Frame>)
    requires fmt.Progresses()
  {
    forall stray: seq<byte> | 1 <= |stray| <= 7 :: Scan(fmt, stray + EncodeAll(fmt, gs)).frames != gs
  }

  /** What is written behind `b` is read back behind the frames that `b` already holds. */
  ghost predicate Continues(fmt: Format, b: seq<byte>, fs: seq<Frame>, gs: seq<Frame>)
    requires fmt.Progresses()
  {
    Scan(fmt, b + EncodeAll(fmt, gs)).frames == fs + gs
  }

  lemma NothingStray(fmt: Format, fs: seq<Frame>, gs: seq<Frame>)
    requires fmt.Sound() && AllFit(fs) && AllFit(gs)
    ensures Continues(fmt, EncodeAll(fmt, fs), fs, gs)
  {
    EncodeAllAppend(fmt, fs, gs);
    ScanEncoded(fmt, fs + gs, []);
    assert EncodeAll(fmt, fs + gs) + [] == EncodeAll(fmt, fs) + EncodeAll(fmt, gs);
    assert fs + gs + [] == fs + gs;
  }

  lemma Associative(a: seq<byte>, b: seq<byte>, c: seq<byte>)
    ensures a + (b + c) == a + b + c
  {
  }

  lemma Cancels(fs: seq<Frame>, gs: seq<Frame>, hs: seq<Frame>)
    ensures fs + gs == fs + hs ==> gs == hs
  {
    assert (fs + gs)[|fs|..] == gs && (fs + hs)[|fs|..] == hs;
  }

  lemma SomethingStray(fmt: Format, fs: seq<Frame>, stray: seq<byte>, gs: seq<Frame>)
    requires fmt.Sound() && AllFit(fs) && LostBehindStrays(fmt, gs) && 1 <= |stray| <= 7
    ensures !Continues(fmt, EncodeAll(fmt, fs) + stray, fs, gs)
  {
    var rest := stray + EncodeAll(fmt, gs);
    ScanEncoded(fmt, fs, rest);
    Associative(EncodeAll(fmt, fs), stray, EncodeAll(fmt, gs));
    Cancels(fs, Scan(fmt, rest).frames, gs);
  }

  /** What replay leaves of a file cut off at any byte. */
  lemma LeftBehind(fmt: Format, fs: seq<Frame>, n: nat) returns (stray: seq<byte>)
    requires fmt.Sound() && AllFit(fs) && n <= |EncodeAll(fmt, fs)|
    ensures AfterReplay(fmt, EncodeAll(fmt, fs)[..n]) == EncodeAll(fmt, fs[..Whole(fmt, fs, n)]) + stray
    ensures |stray| == if Torn(fmt, fs, n) >= 8 then 0 else Torn(fmt, fs, n)
  {
    SplitPrefix(fmt, fs, n);
    TornWrite(fmt, fs, n);
    var k, torn := Whole(fmt, fs, n), Torn(fmt, fs, n);
    stray := if 1 <= torn <= 7 then fmt.encode(fs[k])[..torn] else [];
  }

  /**
   * Writing on after a replay works exactly if nothing was torn or at least a whole header was: then,
   * and only then, the next replay finds the old frames followed by the new ones.
   */
  lemma WritingOn(fmt: Format, fs: seq<Frame>, n: nat, gs: seq<Frame>)
    requires fmt.Sound() && AllFit(fs) && n <= |EncodeAll(fmt, fs)| && AllFit(gs) && LostBehindStrays(fmt, gs)
    ensures Continues(fmt, AfterReplay(fmt, EncodeAll(fmt, fs)[..n]), fs[..Whole(fmt, fs, n)], gs)
            <==> Torn(fmt, fs, n) == 0 || Torn(fmt, fs, n) >= 8
  {
    var stray := LeftBehind(fmt, fs, n);
    var kept := fs[..Whole(fmt, fs, n)];
    if stray == [] {
      assert EncodeAll(fmt, kept) + stray == EncodeAll(fmt, kept);
      NothingStray(fmt, kept, gs);
    } else {
      SomethingStray(fmt, kept, stray, gs);
    }
  }
}
