/** What is written to the log is what replay finds, across rotation and a write cut off at any byte. */
module WalProof {
  import opened Types
  import opened Recovery
  import opened WalStream
  import opened WalFrames
  import opened Wal
  import opened WalLives

  /** A record that its JSON can be read back from; the JSON is an object and shorter than 4 GiB. */
  ghost predicate Writable(codec: Codec, rec: Record) {
    Decode(codec, FrameOf(codec, rec)) == Some(rec) && Written(FrameOf(codec, rec))
  }

  ghost predicate AllWritable(codec: Codec, recs: seq<Record>) {
    forall i | 0 <= i < |recs| :: Writable(codec, recs[i])
  }

  ghost function FramesOf(codec: Codec, recs: seq<Record>): (fs: seq<Frame>)
    ensures |fs| == |recs| && forall i | 0 <= i < |fs| :: fs[i] == FrameOf(codec, recs[i])
  {
    seq(|recs|, i requires 0 <= i < |recs| => FrameOf(codec, recs[i]))
  }

  lemma {:induction false} FoldFramesOf(codec: Codec, recs: seq<Record>)
    requires AllWritable(codec, recs)
    ensures FoldFrames(codec, FramesOf(codec, recs)) == Fold(recs)
  {
    if recs != [] {
      var init, last := recs[..|recs| - 1], recs[|recs| - 1];
      FoldFramesOf(codec, init);
      assert FramesOf(codec, recs) == FramesOf(codec, init) + [FrameOf(codec, last)];
      FoldFramesAppend(codec, FramesOf(codec, init), FrameOf(codec, last));
      assert Writable(codec, last);
    }
  }

  // ----- the object and the steps of its lives -----

  lemma AppendIsWrite(codec: Codec, files: seq<seq<byte>>, fileSize: nat, rec: Record)
    requires files != []
    ensures var fmt, f := WalFormat(codec.crc), FrameOf(codec, rec);
            var d := Write(fmt, Disk(files, fileSize), f, |fmt.encode(f)|);
            Appended(codec, files, fileSize, rec) == (d.files, d.fileSize)
  {
    var e := Encode(codec.crc, FrameOf(codec, rec));
    assert e[..|e|] == e;
  }

  /** Where nothing fails, replay leaves the files that a new life starts with and returns what they tell. */
  lemma OpenIsReplay(codec: Codec, d: Disk)
    requires d.files != []
    ensures var all := ReplayFrom(codec, _ => HEALTHY, d.files, 0, NOTHING);
            && (all.panicked <==> !Opens(WalFormat(codec.crc), d))
            && (!all.panicked ==>
                  all.files == Open(WalFormat(codec.crc), d).files && all.recovered == ReadFiles(codec, d.files))
  {
    var healthy: Faults := _ => HEALTHY;
    forall i | 0 <= i < |d.files|
      ensures Seen(d.files[i], HEALTHY) == d.files[i] && !Broken(codec, d.files[i], HEALTHY)
      ensures Left(codec, d.files[i], HEALTHY) == Repaired(codec, d.files[i])
    {
      Healthy(codec, d.files[i]);
    }
    NoneBroken(codec, healthy, d.files, 0);
    OpensIff(codec, d.files, |d.files|);
    ReplayRecovers(codec, healthy, d.files);
    assert AllSeen(healthy, d.files) == d.files && d.files[..|d.files|] == d.files;
    assert Through(d.files, AllLeft(codec, healthy, d.files), |d.files|) == Open(WalFormat(codec.crc), d).files;
  }

  lemma OpensIff(codec: Codec, files: seq<seq<byte>>, n: nat)
    requires n == |files|
    ensures AnyPanics(codec, files, n) <==> exists i | 0 <= i < |files| ::
        Scan(WalFormat(codec.crc), files[i]).stop.Panics?
  {
    NonePanics(codec, files, n);
    if exists i | 0 <= i < |files| :: Scan(WalFormat(codec.crc), files[i]).stop.Panics? {
      var i :| 0 <= i < |files| && Scan(WalFormat(codec.crc), files[i]).stop.Panics?;
      assert Panicking(codec, files[i]);
    }
  }

  lemma {:induction false} NoneBroken(codec: Codec, faults: Faults, files: seq<seq<byte>>, i: nat)
    requires i <= |files| && forall k | i <= k < |files| :: !Broken(codec, files[k], faults(k))
    ensures FirstBroken(codec, faults, files, i) == |files|
    decreases |files| - i
  {
    if i < |files| { NoneBroken(codec, faults, files, i + 1); }
  }

  lemma {:induction false} NonePanics(codec: Codec, files: seq<seq<byte>>, n: nat)
    requires n <= |files|
    ensures AnyPanics(codec, files, n) <==> exists i | 0 <= i < n :: Panicking(codec, files[i])
  {
    if n > 0 { NonePanics(codec, files, n - 1); }
  }

  // ----- recovery -----

  lemma SplitWritable(codec: Codec, a: seq<Record>, b: seq<Record>)
    requires AllWritable(codec, a + b)
    ensures AllWritable(codec, a) && AllWritable(codec, b)
  {
    forall i | 0 <= i < |a| ensures Writable(codec, a[i]) { assert a[i] == (a + b)[i]; }
    forall i | 0 <= i < |b| ensures Writable(codec, b[i]) { assert b[i] == (a + b)[|a| + i]; }
  }

  /** Files whose frames are those of some records are replayed to what these fold to, however they are split. */
  lemma {:induction false} ReadFilesIs(codec: Codec, files: seq<seq<byte>>, recs: seq<Record>)
    requires Frames(WalFormat(codec.crc), files) == FramesOf(codec, recs) && AllWritable(codec, recs) && Orderly(recs)
    ensures ReadFiles(codec, files) == Fold(recs)
  {
    if files != [] {
      var fmt, init, last := WalFormat(codec.crc), files[..|files| - 1], files[|files| - 1];
      var a, b := SplitFrames(codec, Frames(fmt, init), Scan(fmt, last).frames, recs);
      SplitWritable(codec, a, b);
      OrderlyPrefix(a, b);
      ReadFilesIs(codec, init, a);
      FoldFramesOf(codec, b);
      FoldSplit(a, b);
      assert ReadFile(codec, last) == Fold(b);
    }
  }

  lemma SplitFrames(codec: Codec, fs: seq<Frame>, gs: seq<Frame>, recs: seq<Record>)
    returns (a: seq<Record>, b: seq<Record>)
    requires fs + gs == FramesOf(codec, recs)
    ensures recs == a + b && fs == FramesOf(codec, a) && gs == FramesOf(codec, b)
  {
    assert |fs + gs| == |recs|;
    a, b := recs[..|fs|], recs[|fs|..];
    forall i | 0 <= i < |fs| ensures fs[i] == FrameOf(codec, a[i]) { assert fs[i] == (fs + gs)[i]; }
    forall i | 0 <= i < |gs| ensures gs[i] == FrameOf(codec, b[i]) { assert gs[i] == (fs + gs)[|fs| + i]; }
  }

  /**
   * Whatever a node has written over any number of lives, in however many files, and wherever each
   * crash has cut off a write: as long as nothing was spoilt, the process comes up again and replay
   * returns the fold of all records written whole.
   */
  lemma CutOffWrites(codec: Codec, es: seq<Event>, recs: seq<Record>)
    requires AllLegal(WalFormat(codec.crc), es) && NoneSpoils(WalFormat(codec.crc), es)
    requires WholeOf(WalFormat(codec.crc), es) == FramesOf(codec, recs) && AllWritable(codec, recs) && Orderly(recs)
    ensures var d := DiskAfter(WalFormat(codec.crc), es);
            !AnyPanics(codec, d.files, |d.files|) && ReadFiles(codec, d.files) == Fold(recs)
  {
    var fmt := WalFormat(codec.crc);
    WalFormatLawful(codec.crc);
    TidyLivesComeUp(fmt, es);
    Lives(fmt, es);
    OpensIff(codec, DiskAfter(fmt, es).files, |DiskAfter(fmt, es).files|);
    ReadFilesIs(codec, DiskAfter(fmt, es).files, recs);
  }

  /** And it finds exactly those records if and only if nothing was spoilt. */
  lemma CutOffWritesIff(codec: Codec, es: seq<Event>)
    requires AllLegal(WalFormat(codec.crc), es) && ComesUp(WalFormat(codec.crc), es)
    ensures var fmt := WalFormat(codec.crc);
            Frames(fmt, DiskAfter(fmt, es).files) == WholeOf(fmt, es) <==> NoneSpoils(fmt, es)
  {
    WalFormatLawful(codec.crc);
    ReadsBackIff(WalFormat(codec.crc), es);
  }

  /** In particular if no crash leaves one to seven bytes. */
  lemma CleanTearsReadBack(codec: Codec, es: seq<Event>, recs: seq<Record>)
    requires AllLegal(WalFormat(codec.crc), es) && CleanTears(es)
    requires WholeOf(WalFormat(codec.crc), es) == FramesOf(codec, recs) && AllWritable(codec, recs) && Orderly(recs)
    ensures ReadFiles(codec, DiskAfter(WalFormat(codec.crc), es).files) == Fold(recs)
  {
    WalFormatLawful(codec.crc);
    CleanTearsSpoilNothing(WalFormat(codec.crc), es);
    CutOffWrites(codec, es, recs);
  }

  /**
   * Three bytes of a record stay in the file, and then a whole record is written: for any checksum it
   * is lost, and the file is empty again.
   */
  lemma RecordLost(codec: Codec, torn: Record, rec: Record)
    requires Writable(codec, torn) && Writable(codec, rec)
    requires |codec.marshal(rec)| < 0x1_0000 && |codec.marshal(rec)| % 0x100 != 0
    ensures var b := Encode(codec.crc, FrameOf(codec, torn))[..3];
            var later := b + Encode(codec.crc, FrameOf(codec, rec));
            Repaired(codec, b) == b && ReadFile(codec, later) == NOTHING && Repaired(codec, later) == []
  {
    var b := Encode(codec.crc, FrameOf(codec, torn))[..3];
    AlwaysLost(codec.crc, b, FrameOf(codec, rec));
    ReadsNothing(codec, b);
    ReadsNothing(codec, b + Encode(codec.crc, FrameOf(codec, rec)));
  }

  lemma ReadsNothing(codec: Codec, b: seq<byte>)
    requires !Parse(codec.crc, b).Good?
    ensures ReadFile(codec, b) == NOTHING
    ensures Parse(codec.crc, b).NoHeader? ==> Repaired(codec, b) == b
    ensures Parse(codec.crc, b).Incomplete? ==> Repaired(codec, b) == []
  {
  }
}
