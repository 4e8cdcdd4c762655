/**
 * The files of the write-ahead log over many lives of a process: open, replay, appends, and a crash in
 * the middle of an append, again and again.
 */
module WalLives {
  import opened WalStream
  import opened WalFrames
  import opened Wal

  /** The files, and the size that the log believes the last one to have. */
  datatype Disk = Disk(files: seq<seq<byte>>, fileSize: nat)

  /** A frame is written; or a crash leaves its first `m` bytes; or a crash comes between writes. */
  datatype Event = Append(f: Frame) | Tear(f: Frame, m: nat) | Reopen

  // ----- what the layout of frames guarantees -----

  ghost predicate MisreadAt(fmt: Format, b: seq<byte>, r: nat) {
    !fmt.parse(b).Panics? && (fmt.parse(b).Good? ==> !Written(fmt.parse(b).frame))
  }

  ghost predicate Lawful(fmt: Format) {
    && fmt.Sound() && fmt.Exact()
    && (forall b: seq<byte> :: fmt.parse(b).NoHeader? <==> |b| < 8)
    && (forall g {:trigger fmt.encode(g)} | Written(g) :: HeaderAt(fmt.encode(g), 0))
    && (forall b: seq<byte>, r: nat {:trigger MisreadAt(fmt, b, r)} | 1 <= r <= 7 && HeaderAt(b, r) ::
      MisreadAt(fmt, b, r))
  }

  lemma WalFormatLawful(crc: Checksum)
    ensures Lawful(WalFormat(crc))
  {
    var fmt := WalFormat(crc);
    WalFormatSound(crc);
    WalFormatExact(crc);
    forall g | Written(g) ensures HeaderAt(fmt.encode(g), 0) {
      FirstBytes(crc, g);
    }
    forall b: seq<byte>, r: nat | 1 <= r <= 7 && HeaderAt(b, r) ensures MisreadAt(fmt, b, r) {
      Misread(crc, b, r);
    }
  }

  // ----- steps -----

  predicate Rotates(fmt: Format, d: Disk, f: Frame) {
    d.fileSize + |fmt.encode(f)| > MAX_WAL_SIZE
  }

  /** The first `m` bytes of a frame are written, to the last file or to a new one. */
  function Write(fmt: Format, d: Disk, f: Frame, m: nat): Disk
    requires d.files != [] && m <= |fmt.encode(f)|
  {
    var (files, fileSize) := Placed(d.files, d.fileSize, |fmt.encode(f)|, fmt.encode(f)[..m]);
    Disk(files, fileSize)
  }

  /** A new process takes the size of the last file and then replays all of them. */
  function Open(fmt: Format, d: Disk): Disk
    requires fmt.Progresses() && d.files != []
  {
    Disk(seq(|d.files|, i requires 0 <= i < |d.files| => AfterReplay(fmt, d.files[i])), |d.files[|d.files| - 1]|)
  }

  /** The files as a crash leaves them, or as they are if there is none. */
  function Raw(fmt: Format, d: Disk, e: Event): Disk
    requires d.files != [] && (e.Tear? ==> e.m <= |fmt.encode(e.f)|)
  {
    match e
    case Append(f) => Write(fmt, d, f, |fmt.encode(f)|)
    case Tear(f, m) => Write(fmt, d, f, m)
    case Reopen => d
  }

  function After(fmt: Format, d: Disk, e: Event): Disk
    requires fmt.Progresses() && d.files != [] && (e.Tear? ==> e.m <= |fmt.encode(e.f)|)
  {
    if e.Append? then Raw(fmt, d, e) else Open(fmt, Raw(fmt, d, e))
  }

  /** What an event adds to the frames written whole. */
  ghost function Whole(fmt: Format, e: Event): seq<Frame> {
    if e.Append? || (e.Tear? && e.m == |fmt.encode(e.f)|) then [e.f] else []
  }

  ghost predicate Legal(fmt: Format, e: Event) {
    && (e.Reopen? || Written(e.f))
    && (e.Tear? ==> e.m <= |fmt.encode(e.f)|)
  }

  // ----- reading -----

  ghost function Frames(fmt: Format, files: seq<seq<byte>>): seq<Frame>
    requires fmt.Progresses()
  {
    if files == [] then [] else Frames(fmt, files[..|files| - 1]) + Scan(fmt, files[|files| - 1]).frames
  }

  /** The bytes behind the last good frame of the last file. */
  ghost function Strays(fmt: Format, d: Disk): seq<byte>
    requires fmt.Progresses() && d.files != []
  {
    Unread(fmt, d.files[|d.files| - 1])
  }

  ghost predicate Small(d: Disk) {
    && d.files != [] && |d.files[|d.files| - 1]| <= d.fileSize
    && forall i | 0 <= i < |d.files| :: |d.files[i]| < 0x1_0000_0000
  }

  lemma WriteIsSmall(fmt: Format, d: Disk, f: Frame, m: nat)
    requires Lawful(fmt) && Small(d) && Fits(f) && m <= |fmt.encode(f)|
    ensures Small(Write(fmt, d, f, m))
  {
  }

  lemma OpenIsSmall(fmt: Format, d: Disk)
    requires Lawful(fmt) && Small(d)
    ensures Small(Open(fmt, d))
  {
    forall i | 0 <= i < |d.files| ensures |AfterReplay(fmt, d.files[i])| <= |d.files[i]| {
      ReplayKeepsIff(fmt, d.files[i]);
    }
  }

  /** What is read of a new last file, or of a longer one. */
  lemma FramesNew(fmt: Format, files: seq<seq<byte>>, b: seq<byte>)
    requires fmt.Progresses()
    ensures Frames(fmt, files + [b]) == Frames(fmt, files) + Scan(fmt, b).frames
  {
    assert (files + [b])[..|files|] == files;
  }

  lemma Regroup(a: seq<Frame>, b: seq<Frame>, c: seq<Frame>)
    ensures a + (b + c) == a + b + c
  {
  }

  lemma FramesLonger(fmt: Format, files: seq<seq<byte>>, more: seq<byte>)
    requires Lawful(fmt) && files != [] && |files[|files| - 1]| < 0x1_0000_0000
    ensures var last := |files| - 1;
            var u := Unread(fmt, files[last]);
            && Frames(fmt, files[last := files[last] + more]) == Frames(fmt, files) + Scan(fmt, u + more).frames
            && Unread(fmt, files[last] + more) == Unread(fmt, u + more)
  {
    var last := |files| - 1;
    var init, b := files[..last], files[last];
    SmallFilesFit(fmt, b);
    ScanLonger(fmt, b, more);
    FramesNew(fmt, init, b + more);
    Regroup(Frames(fmt, init), Scan(fmt, b).frames, Scan(fmt, Unread(fmt, b) + more).frames);
    assert files[last := b + more] == init + [b + more];
  }

  /** The bytes that a write is read together with: none in a new file. */
  ghost function Behind(fmt: Format, d: Disk, f: Frame): seq<byte>
    requires fmt.Progresses() && d.files != []
  {
    if Rotates(fmt, d, f) then [] else Strays(fmt, d)
  }

  lemma WriteReads(fmt: Format, d: Disk, f: Frame, m: nat)
    requires Lawful(fmt) && Small(d) && m <= |fmt.encode(f)|
    ensures var tail := Behind(fmt, d, f) + fmt.encode(f)[..m];
            && Frames(fmt, Write(fmt, d, f, m).files) == Frames(fmt, d.files) + Scan(fmt, tail).frames
            && Strays(fmt, Write(fmt, d, f, m)) == Unread(fmt, tail)
  {
    if Rotates(fmt, d, f) { WriteReadsNew(fmt, d, f, m); } else { WriteReadsOn(fmt, d, f, m); }
  }

  lemma WriteReadsNew(fmt: Format, d: Disk, f: Frame, m: nat)
    requires Lawful(fmt) && Small(d) && m <= |fmt.encode(f)| && Rotates(fmt, d, f)
    ensures var tail, w := [] + fmt.encode(f)[..m], Write(fmt, d, f, m);
            Frames(fmt, w.files) == Frames(fmt, d.files) + Scan(fmt, tail).frames && Strays(fmt, w) == Unread(fmt, tail)
  {
    var part, w := fmt.encode(f)[..m], Write(fmt, d, f, m);
    assert [] + part == part;
    assert w.files == d.files + [part] && w.files[|w.files| - 1] == part;
    FramesNew(fmt, d.files, part);
  }

  lemma WriteReadsOn(fmt: Format, d: Disk, f: Frame, m: nat)
    requires Lawful(fmt) && Small(d) && m <= |fmt.encode(f)| && !Rotates(fmt, d, f)
    ensures var tail, w := Strays(fmt, d) + fmt.encode(f)[..m], Write(fmt, d, f, m);
            Frames(fmt, w.files) == Frames(fmt, d.files) + Scan(fmt, tail).frames && Strays(fmt, w) == Unread(fmt, tail)
  {
    var part, w, last := fmt.encode(f)[..m], Write(fmt, d, f, m), |d.files| - 1;
    assert w.files == d.files[last := d.files[last] + part];
    assert w.files[|w.files| - 1] == d.files[last] + part;
    FramesLonger(fmt, d.files, part);
  }

  ghost predicate Opens(fmt: Format, d: Disk)
    requires fmt.Progresses()
  {
    forall i | 0 <= i < |d.files| :: !Scan(fmt, d.files[i]).stop.Panics?
  }

  lemma {:induction false} OpenReads(fmt: Format, files: seq<seq<byte>>, after: seq<seq<byte>>)
    requires Lawful(fmt) && |after| == |files| && forall i | 0 <= i < |files| :: |files[i]| < 0x1_0000_0000
    requires forall i | 0 <= i < |files| :: after[i] == AfterReplay(fmt, files[i])
    ensures Frames(fmt, after) == Frames(fmt, files)
  {
    if files != [] {
      var last := |files| - 1;
      SmallFilesFit(fmt, files[last]);
      UnreadAfterReplay(fmt, files[last]);
      OpenReads(fmt, files[..last], after[..last]);
    }
  }

  /** Opening changes nothing that is read, and leaves at most seven unread bytes in each file. */
  lemma OpenKeeps(fmt: Format, d: Disk)
    requires Lawful(fmt) && Small(d) && Opens(fmt, d)
    ensures Frames(fmt, Open(fmt, d).files) == Frames(fmt, d.files)
    ensures forall i | 0 <= i < |d.files| :: |Unread(fmt, Open(fmt, d).files[i])| <= 7
    ensures |Strays(fmt, d)| <= 7 ==> Strays(fmt, Open(fmt, d)) == Strays(fmt, d)
    ensures |Strays(fmt, d)| >= 8 ==> Strays(fmt, Open(fmt, d)) == []
  {
    OpenReads(fmt, d.files, Open(fmt, d).files);
    forall i | 0 <= i < |d.files|
      ensures var u, v := Unread(fmt, d.files[i]), Unread(fmt, Open(fmt, d).files[i]);
              if |u| <= 7 then v == u else v == []
    {
      SmallFilesFit(fmt, d.files[i]);
      StopIsUnread(fmt, d.files[i]);
      UnreadAfterReplay(fmt, d.files[i]);
    }
  }

  // ----- what a write adds -----

  /** In a tidy place a frame is read exactly when its last byte is written. */
  lemma TidyTail(fmt: Format, f: Frame, m: nat)
    requires Lawful(fmt) && Fits(f) && m <= |fmt.encode(f)|
    ensures var part := fmt.encode(f)[..m];
            && !Scan(fmt, part).stop.Panics?
            && if m == |fmt.encode(f)| then Scan(fmt, part).frames == [f] && Unread(fmt, part) == []
               else Scan(fmt, part).frames == [] && Unread(fmt, part) == part
  {
    var e := fmt.encode(f);
    if m == |e| {
      assert e[..m] == e + [] && (e + [])[|e|..] == [];
      ScanOne(fmt, f, []);
    }
  }

  /** Behind stray bytes nothing is read, or something that nobody wrote. */
  lemma StrayTail(fmt: Format, b: seq<byte>, r: nat)
    requires Lawful(fmt) && 1 <= r <= 7 && HeaderAt(b, r)
    ensures Scan(fmt, b).frames != [] <==> fmt.parse(b).Good?
    ensures Scan(fmt, b).frames == [] ==> !Scan(fmt, b).stop.Panics? && Unread(fmt, b) == b
    ensures Scan(fmt, b).frames != [] ==> !Written(Scan(fmt, b).frames[0])
  {
    assert MisreadAt(fmt, b, r);
  }

  lemma HeaderFollows(fmt: Format, u: seq<byte>, f: Frame, m: nat)
    requires Lawful(fmt) && Written(f) && 1 <= m <= |fmt.encode(f)|
    ensures HeaderAt(u + fmt.encode(f)[..m], |u|)
  {
    var e := fmt.encode(f);
    assert HeaderAt(e[..m], 0);
    HeaderBehind(u, e[..m], []);
    assert u + e[..m] + [] == u + e[..m];
  }

  // ----- tidy logs -----

  /** Replay finds exactly `fs`, and no file holds more than seven bytes behind its last frame. */
  ghost predicate Tidy(fmt: Format, d: Disk, fs: seq<Frame>)
    requires fmt.Progresses()
  {
    Frames(fmt, d.files) == fs && forall i | 0 <= i < |d.files| :: |Unread(fmt, d.files[i])| <= 7
  }

  /** How much of its frame an event writes. */
  ghost function Bytes(fmt: Format, e: Event): nat
    requires !e.Reopen?
  {
    if e.Append? then |fmt.encode(e.f)| else e.m
  }

  /**
   * The event writes behind stray bytes of the same file, and either a whole frame or, by chance of
   * the checksum, something that can be read.
   */
  ghost predicate Spoils(fmt: Format, d: Disk, e: Event)
    requires fmt.Progresses() && d.files != [] && Legal(fmt, e)
  {
    && !e.Reopen? && Behind(fmt, d, e.f) != []
    && (Whole(fmt, e) != [] || fmt.parse(Behind(fmt, d, e.f) + fmt.encode(e.f)[..Bytes(fmt, e)]).Good?)
  }

  /** The last file after a write that does not spoil the log. */
  lemma TidyWrite(fmt: Format, u: seq<byte>, f: Frame, m: nat)
    requires Lawful(fmt) && Written(f) && m <= |fmt.encode(f)| && |u| <= 7
    requires u != [] ==> m < |fmt.encode(f)| && !fmt.parse(u + fmt.encode(f)[..m]).Good?
    ensures var tail := u + fmt.encode(f)[..m];
            && Scan(fmt, tail).frames == (if m == |fmt.encode(f)| then [f] else []) && !Scan(fmt, tail).stop.Panics?
            && (m == |fmt.encode(f)| ==> Unread(fmt, tail) == [])
  {
    var part := fmt.encode(f)[..m];
    if u == [] {
      assert u + part == part;
      TidyTail(fmt, f, m);
    } else if m == 0 {
      assert u + part == u;
    } else {
      HeaderFollows(fmt, u, f, m);
      StrayTail(fmt, u + part, |u|);
    }
  }

  lemma OthersStay(fmt: Format, d: Disk, f: Frame, m: nat)
    requires Lawful(fmt) && Small(d) && m <= |fmt.encode(f)|
    requires forall i | 0 <= i < |d.files| :: |Unread(fmt, d.files[i])| <= 7
    ensures var w := Write(fmt, d, f, m).files;
            forall i | 0 <= i < |w| - 1 :: |Unread(fmt, w[i])| <= 7 && !Scan(fmt, w[i]).stop.Panics?
  {
    var w := Write(fmt, d, f, m).files;
    forall i | 0 <= i < |w| - 1 ensures |Unread(fmt, w[i])| <= 7 && !Scan(fmt, w[i]).stop.Panics? {
      assert w[i] == d.files[i];
      StopIsUnread(fmt, w[i]);
    }
  }

  lemma TidyRaw(fmt: Format, d: Disk, fs: seq<Frame>, e: Event)
    requires Lawful(fmt) && Small(d) && Tidy(fmt, d, fs) && Legal(fmt, e) && !e.Reopen? && !Spoils(fmt, d, e)
    ensures Small(Raw(fmt, d, e)) && Opens(fmt, Raw(fmt, d, e))
    ensures Frames(fmt, Raw(fmt, d, e).files) == fs + Whole(fmt, e)
    ensures e.Append? ==> Tidy(fmt, Raw(fmt, d, e), fs + Whole(fmt, e))
  {
    var u, m := Behind(fmt, d, e.f), Bytes(fmt, e);
    var w := Write(fmt, d, e.f, m);
    assert w == Raw(fmt, d, e);
    WriteIsSmall(fmt, d, e.f, m);
    WriteReads(fmt, d, e.f, m);
    TidyWrite(fmt, u, e.f, m);
    OthersStay(fmt, d, e.f, m);
    LastStop(fmt, w, u + fmt.encode(e.f)[..m]);
  }

  /** Whether the last file panics is decided by its unread bytes. */
  lemma LastStop(fmt: Format, d: Disk, tail: seq<byte>)
    requires Lawful(fmt) && d.files != [] && Strays(fmt, d) == Unread(fmt, tail)
    ensures Scan(fmt, d.files[|d.files| - 1]).stop == Scan(fmt, tail).stop
  {
    StopIsUnread(fmt, d.files[|d.files| - 1]);
    StopIsUnread(fmt, tail);
  }

  lemma TidyOpens(fmt: Format, d: Disk, fs: seq<Frame>)
    requires Lawful(fmt) && Tidy(fmt, d, fs)
    ensures Opens(fmt, d)
  {
    forall i | 0 <= i < |d.files| ensures !Scan(fmt, d.files[i]).stop.Panics? {
      StopIsUnread(fmt, d.files[i]);
    }
  }

  lemma TidyStep(fmt: Format, d: Disk, fs: seq<Frame>, e: Event)
    requires Lawful(fmt) && Small(d) && Tidy(fmt, d, fs) && Legal(fmt, e) && !Spoils(fmt, d, e)
    ensures Opens(fmt, Raw(fmt, d, e))
    ensures Small(After(fmt, d, e)) && Tidy(fmt, After(fmt, d, e), fs + Whole(fmt, e))
  {
    if e.Reopen? {
      TidyOpens(fmt, d, fs);
      assert fs + [] == fs;
    } else {
      TidyRaw(fmt, d, fs, e);
    }
    if !e.Append? {
      OpenIsSmall(fmt, Raw(fmt, d, e));
      OpenKeeps(fmt, Raw(fmt, d, e));
    }
  }

  // ----- spoilt logs -----

  /** Something is read that nobody wrote. */
  ghost predicate Foreign(fs: seq<Frame>) {
    exists f | f in fs :: !Written(f)
  }

  /** Less is read than the `n` frames that were written whole, or something else. */
  ghost predicate Differs(fs: seq<Frame>, n: nat) {
    Foreign(fs) || |fs| < n
  }

  /** What is written behind these bytes will not be read as it was written, or they are few enough to matter later. */
  ghost predicate Buried(u: seq<byte>) {
    |u| <= 7 || exists r | 1 <= r <= 7 && r + 4 <= |u| :: HeaderAt(u, r)
  }

  ghost predicate Spoilt(fmt: Format, d: Disk, n: nat)
    requires fmt.Progresses() && d.files != []
  {
    Differs(Frames(fmt, d.files), n) && (Foreign(Frames(fmt, d.files)) || Buried(Strays(fmt, d)))
  }

  lemma ForeignStays(fs: seq<Frame>, more: seq<Frame>)
    requires Foreign(fs) || (more != [] && !Written(more[0]))
    ensures Foreign(fs + more)
  {
    if Foreign(fs) {
      var f :| f in fs && !Written(f);
      assert f in fs + more;
    } else {
      assert more[0] in fs + more;
    }
  }

  lemma HeaderExtends(u: seq<byte>, more: seq<byte>, r: nat)
    requires HeaderAt(u, r) && r + 4 <= |u|
    ensures HeaderAt(u + more, r)
  {
    forall i | r <= i < r + 4 ensures (u + more)[i] == u[i] {}
  }

  /** The place behind which a header stands once something is written behind buried bytes. */
  lemma BuriedHeader(fmt: Format, u: seq<byte>, f: Frame, m: nat) returns (r: nat)
    requires Lawful(fmt) && Written(f) && 1 <= m <= |fmt.encode(f)| && u != [] && Buried(u)
    ensures 1 <= r <= 7 && HeaderAt(u + fmt.encode(f)[..m], r)
    ensures m == |fmt.encode(f)| ==> r + 4 <= |u| + m
  {
    if |u| <= 7 {
      r := |u|;
      HeaderFollows(fmt, u, f, m);
    } else {
      r :| 1 <= r <= 7 && r + 4 <= |u| && HeaderAt(u, r);
      HeaderExtends(u, fmt.encode(f)[..m], r);
    }
  }

  /** Behind buried bytes a write adds nothing that is read, or something that nobody wrote. */
  lemma BuriedWrite(fmt: Format, u: seq<byte>, f: Frame, m: nat)
    requires Lawful(fmt) && Written(f) && m <= |fmt.encode(f)| && u != [] && Buried(u) && !fmt.parse(u).Good?
    ensures var tail := u + fmt.encode(f)[..m];
            && (Scan(fmt, tail).frames == [] || !Written(Scan(fmt, tail).frames[0]))
            && (Scan(fmt, tail).frames == [] && m == |fmt.encode(f)| ==> Buried(Unread(fmt, tail)))
  {
    var tail := u + fmt.encode(f)[..m];
    if m == 0 {
      assert tail == u;
    } else {
      var r := BuriedHeader(fmt, u, f, m);
      StrayTail(fmt, tail, r);
    }
  }

  lemma WriteSpoilt(fmt: Format, d: Disk, n: nat, f: Frame, m: nat)
    requires Lawful(fmt) && Small(d) && Spoilt(fmt, d, n) && Written(f) && m <= |fmt.encode(f)|
    ensures var w, k := Write(fmt, d, f, m), n + if m == |fmt.encode(f)| then 1 else 0;
            Differs(Frames(fmt, w.files), k) && (m == |fmt.encode(f)| ==> Spoilt(fmt, w, k))
  {
    var fs, u := Frames(fmt, d.files), Behind(fmt, d, f);
    var tail := u + fmt.encode(f)[..m];
    WriteReads(fmt, d, f, m);
    StopIsUnread(fmt, d.files[|d.files| - 1]);
    if Foreign(fs) {
      ForeignStays(fs, Scan(fmt, tail).frames);
    } else if u == [] {
      assert tail == fmt.encode(f)[..m];
      TidyTail(fmt, f, m);
    } else {
      BuriedWrite(fmt, u, f, m);
      if Scan(fmt, tail).frames != [] { ForeignStays(fs, Scan(fmt, tail).frames); }
    }
  }

  lemma OpenSpoilt(fmt: Format, d: Disk, n: nat)
    requires Lawful(fmt) && Small(d) && Opens(fmt, d) && Differs(Frames(fmt, d.files), n)
    ensures Small(Open(fmt, d)) && Spoilt(fmt, Open(fmt, d), n)
  {
    OpenIsSmall(fmt, d);
    OpenKeeps(fmt, d);
    assert |Strays(fmt, Open(fmt, d))| <= 7;
  }

  lemma SpoiltStep(fmt: Format, d: Disk, n: nat, e: Event)
    requires Lawful(fmt) && Small(d) && Spoilt(fmt, d, n) && Legal(fmt, e)
    requires !e.Append? ==> Opens(fmt, Raw(fmt, d, e))
    ensures Small(After(fmt, d, e)) && Spoilt(fmt, After(fmt, d, e), n + |Whole(fmt, e)|)
  {
    if !e.Reopen? {
      WriteIsSmall(fmt, d, e.f, Bytes(fmt, e));
      WriteSpoilt(fmt, d, n, e.f, Bytes(fmt, e));
    }
    if !e.Append? {
      OpenSpoilt(fmt, Raw(fmt, d, e), n + |Whole(fmt, e)|);
    }
  }

  /** The first event that spoils a tidy log. */
  lemma SpoilingStep(fmt: Format, d: Disk, fs: seq<Frame>, e: Event)
    requires Lawful(fmt) && Small(d) && Tidy(fmt, d, fs) && Legal(fmt, e) && Spoils(fmt, d, e)
    requires !e.Append? ==> Opens(fmt, Raw(fmt, d, e))
    ensures Small(After(fmt, d, e)) && Spoilt(fmt, After(fmt, d, e), |fs| + |Whole(fmt, e)|)
  {
    var u, m := Behind(fmt, d, e.f), Bytes(fmt, e);
    var tail := u + fmt.encode(e.f)[..m];
    WriteIsSmall(fmt, d, e.f, m);
    WriteReads(fmt, d, e.f, m);
    StopIsUnread(fmt, d.files[|d.files| - 1]);
    BuriedWrite(fmt, u, e.f, m);
    if Scan(fmt, tail).frames != [] { ForeignStays(fs, Scan(fmt, tail).frames); }
    if !e.Append? {
      OpenSpoilt(fmt, Raw(fmt, d, e), |fs| + |Whole(fmt, e)|);
    }
  }

  // ----- all lives -----

  ghost predicate AllLegal(fmt: Format, es: seq<Event>) {
    forall i | 0 <= i < |es| :: Legal(fmt, es[i])
  }

  /** The disk of a new log after these events. */
  ghost function DiskAfter(fmt: Format, es: seq<Event>): (d: Disk)
    requires fmt.Progresses() && AllLegal(fmt, es)
    ensures d.files != []
  {
    if es == [] then Disk([[]], 0) else After(fmt, DiskAfter(fmt, es[..|es| - 1]), es[|es| - 1])
  }

  /** Everything that was written whole. */
  ghost function WholeOf(fmt: Format, es: seq<Event>): seq<Frame> {
    if es == [] then [] else WholeOf(fmt, es[..|es| - 1]) + Whole(fmt, es[|es| - 1])
  }

  /** The process comes up again after each crash: replay does not panic. */
  ghost predicate ComesUp(fmt: Format, es: seq<Event>)
    requires fmt.Progresses() && AllLegal(fmt, es)
  {
    es != [] ==>
      var init, e := es[..|es| - 1], es[|es| - 1];
      ComesUp(fmt, init) && (!e.Append? ==> Opens(fmt, Raw(fmt, DiskAfter(fmt, init), e)))
  }

  /** No event spoils the log that the events before it left. */
  ghost predicate NoneSpoils(fmt: Format, es: seq<Event>)
    requires fmt.Progresses() && AllLegal(fmt, es)
  {
    es != [] ==>
      var init, e := es[..|es| - 1], es[|es| - 1];
      NoneSpoils(fmt, init) && !Spoils(fmt, DiskAfter(fmt, init), e)
  }

  lemma {:induction false} WholeIsWritten(fmt: Format, es: seq<Event>)
    requires AllLegal(fmt, es)
    ensures !Foreign(WholeOf(fmt, es))
  {
    if es != [] {
      WholeIsWritten(fmt, es[..|es| - 1]);
      assert Legal(fmt, es[|es| - 1]);
    }
  }

  lemma {:induction false} Lives(fmt: Format, es: seq<Event>)
    requires Lawful(fmt) && AllLegal(fmt, es) && ComesUp(fmt, es)
    ensures Small(DiskAfter(fmt, es))
    ensures if NoneSpoils(fmt, es) then Tidy(fmt, DiskAfter(fmt, es), WholeOf(fmt, es))
            else Spoilt(fmt, DiskAfter(fmt, es), |WholeOf(fmt, es)|)
  {
    if es == [] {
      assert Scan(fmt, []).frames == [] && Unread(fmt, []) == [];
      assert Frames(fmt, [[]]) == Frames(fmt, []) + Scan(fmt, []).frames;
    } else {
      var init, e := es[..|es| - 1], es[|es| - 1];
      var d := DiskAfter(fmt, init);
      Lives(fmt, init);
      if NoneSpoils(fmt, init) {
        if Spoils(fmt, d, e) { SpoilingStep(fmt, d, WholeOf(fmt, init), e); } else
          { TidyStep(fmt, d, WholeOf(fmt, init), e); }
      } else {
        SpoiltStep(fmt, d, |WholeOf(fmt, init)|, e);
      }
    }
  }

  /**
   * After any number of lives, each ended at any byte of a write, the log reads back as exactly the
   * frames written whole if and only if no event ever spoilt it.
   */
  lemma ReadsBackIff(fmt: Format, es: seq<Event>)
    requires Lawful(fmt) && AllLegal(fmt, es) && ComesUp(fmt, es)
    ensures Frames(fmt, DiskAfter(fmt, es).files) == WholeOf(fmt, es) <==> NoneSpoils(fmt, es)
  {
    Lives(fmt, es);
    WholeIsWritten(fmt, es);
  }

  /** As long as nothing spoils it, the process always comes up again. */
  lemma {:induction false} TidyLivesComeUp(fmt: Format, es: seq<Event>)
    requires Lawful(fmt) && AllLegal(fmt, es) && NoneSpoils(fmt, es)
    ensures ComesUp(fmt, es) && Opens(fmt, DiskAfter(fmt, es))
  {
    if es != [] {
      var init, e := es[..|es| - 1], es[|es| - 1];
      TidyLivesComeUp(fmt, init);
      Lives(fmt, init);
      TidyStep(fmt, DiskAfter(fmt, init), WholeOf(fmt, init), e);
    }
    Lives(fmt, es);
    TidyOpens(fmt, DiskAfter(fmt, es), WholeOf(fmt, es));
  }

  /** Each crash leaves nothing of the frame that was being written, or at least its whole header. */
  ghost predicate CleanTears(es: seq<Event>) {
    forall i | 0 <= i < |es| && es[i].Tear? :: es[i].m == 0 || es[i].m >= 8
  }

  lemma UnstrayedStep(fmt: Format, d: Disk, fs: seq<Frame>, e: Event)
    requires Lawful(fmt) && Small(d) && Tidy(fmt, d, fs) && Legal(fmt, e) && Strays(fmt, d) == []
    requires e.Tear? ==> e.m == 0 || e.m >= 8
    ensures !Spoils(fmt, d, e) && Strays(fmt, After(fmt, d, e)) == []
  {
    TidyStep(fmt, d, fs, e);
    if !e.Reopen? {
      var part := fmt.encode(e.f)[..Bytes(fmt, e)];
      WriteIsSmall(fmt, d, e.f, Bytes(fmt, e));
      WriteReads(fmt, d, e.f, Bytes(fmt, e));
      assert [] + part == part;
      TidyTail(fmt, e.f, Bytes(fmt, e));
    }
    if !e.Append? { OpenKeeps(fmt, Raw(fmt, d, e)); }
  }

  /** Such crashes never spoil anything. */
  lemma {:induction false} CleanTearsSpoilNothing(fmt: Format, es: seq<Event>)
    requires Lawful(fmt) && AllLegal(fmt, es) && CleanTears(es)
    ensures NoneSpoils(fmt, es) && Strays(fmt, DiskAfter(fmt, es)) == []
  {
    if es != [] {
      var init := es[..|es| - 1];
      CleanTearsSpoilNothing(fmt, init);
      TidyLivesComeUp(fmt, init);
      Lives(fmt, init);
      UnstrayedStep(fmt, DiskAfter(fmt, init), WholeOf(fmt, init), es[|es| - 1]);
    }
  }

  /**
   * Whole frames written behind one to seven stray bytes: unless the checksum fits by chance, the next
   * replay cuts them off together with the strays, and the log is as it was before the tear.
   */
  lemma BuriedIsCut(fmt: Format, b: seq<byte>, gs: seq<Frame>)
    requires Lawful(fmt) && |b| < 0x1_0000_0000 && 1 <= |Unread(fmt, b)| <= 7
    requires gs != [] && Written(gs[0]) && !fmt.parse(Unread(fmt, b) + EncodeAll(fmt, gs)).Good?
    ensures AfterReplay(fmt, b + EncodeAll(fmt, gs)) == EncodeAll(fmt, Scan(fmt, b).frames)
  {
    var u, more := Unread(fmt, b), EncodeAll(fmt, gs);
    SmallFilesFit(fmt, b);
    ScanLonger(fmt, b, more);
    BuriedTail(fmt, u, gs);
    StopIsUnread(fmt, b + more);
    StopIsUnread(fmt, u + more);
    assert Scan(fmt, b).frames + [] == Scan(fmt, b).frames;
    CutExactly(fmt, b + more);
  }

  lemma BuriedTail(fmt: Format, u: seq<byte>, gs: seq<Frame>)
    requires Lawful(fmt) && 1 <= |u| <= 7
    requires gs != [] && Written(gs[0]) && !fmt.parse(u + EncodeAll(fmt, gs)).Good?
    ensures Scan(fmt, u + EncodeAll(fmt, gs)).frames == [] && Cuts(Scan(fmt, u + EncodeAll(fmt, gs)))
  {
    var e, rest := fmt.encode(gs[0]), EncodeAll(fmt, gs[1..]);
    HeaderBehind(u, e, rest);
    Associative(u, e, rest);
    StrayTail(fmt, u + EncodeAll(fmt, gs), |u|);
  }
}
