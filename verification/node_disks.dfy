/**
 * The records, stray bytes and restarts of the cluster's nodes stand for bytes in files: for every run and
 * every node, the files that the node's writes and crashes leave hold exactly the records that the model
 * lets replay find.
 */
module NodeDisks {
  import opened Types
  import opened Recovery
  import opened NodeSpec
  import opened Cluster
  import opened VoteRecords
  import opened WalStream
  import opened WalFrames
  import opened Wal
  import opened WalLives
  import opened WalProof

  /** All but the last file end with at most seven bytes that cannot be read. */
  ghost predicate OldFilesTidy(fmt: Format, d: Disk)
    requires fmt.Progresses()
  {
    forall i | 0 <= i < |d.files| - 1 :: |Unread(fmt, d.files[i])| <= 7
  }

  /**
   * The disk of a node: replay finds the readable records, and behind them there are the stray bytes, with
   * what was written behind them.
   */
  ghost predicate Mirrors(codec: Codec, d: Disk, s: NodeState) {
    var fmt := WalFormat(codec.crc);
    && Small(d) && OldFilesTidy(fmt, d) && s.stray <= 7 && s.found <= |s.wal|
    && Frames(fmt, d.files) == FramesOf(codec, Readable(s))
    && if Intact(s) then |Strays(fmt, d)| == s.stray
       else |Strays(fmt, d)| >= 8 && Buried(Strays(fmt, d))
  }

  /** Nothing that nobody wrote fits a checksum by chance, and a file with stray bytes is not left for a new one. */
  ghost predicate Plain(fmt: Format, d: Disk, e: Event)
    requires fmt.Progresses() && d.files != [] && Legal(fmt, e)
  {
    && !Foreign(Frames(fmt, Raw(fmt, d, e).files))
    && (!e.Reopen? ==> !Rotates(fmt, d, e.f) || Strays(fmt, d) == [])
  }

  /** One plain event turns `d` into `d'`. */
  ghost predicate Happens(fmt: Format, d: Disk, e: Event, d': Disk) {
    fmt.Progresses() && d.files != [] && Legal(fmt, e) && Plain(fmt, d, e) && d' == After(fmt, d, e)
  }

  /** Replay of the last file does not panic. */
  ghost predicate LastReads(fmt: Format, d: Disk)
    requires fmt.Progresses() && d.files != []
  {
    !Scan(fmt, d.files[|d.files| - 1]).stop.Panics?
  }

  // ----- one write -----

  /** What a write does to the frames and the stray bytes, where the checksum does not fit by chance. */
  lemma PlainWrite(fmt: Format, d: Disk, f: Frame, m: nat)
    requires Lawful(fmt) && Small(d) && Written(f) && m <= |fmt.encode(f)|
    requires !Foreign(Frames(fmt, Write(fmt, d, f, m).files)) && (!Rotates(fmt, d, f) || Strays(fmt, d) == [])
    requires Strays(fmt, d) != [] ==> Buried(Strays(fmt, d))
    ensures var u, w := Strays(fmt, d), Write(fmt, d, f, m);
            if u == [] && m == |fmt.encode(f)| then
              Frames(fmt, w.files) == Frames(fmt, d.files) + [f] && Strays(fmt, w) == []
            else
              Frames(fmt, w.files) == Frames(fmt, d.files) && Strays(fmt, w) == u + fmt.encode(f)[..m]
    ensures LastReads(fmt, Write(fmt, d, f, m))
  {
    var u, part := Strays(fmt, d), fmt.encode(f)[..m];
    WriteReads(fmt, d, f, m);
    LastStop(fmt, Write(fmt, d, f, m), u + part);
    assert Behind(fmt, d, f) == u;
    if u == [] {
      assert u + part == part;
      TidyTail(fmt, f, m);
    } else {
      StopIsUnread(fmt, d.files[|d.files| - 1]);
      BuriedPart(fmt, u, f, m);
      if Scan(fmt, u + part).frames != [] { ForeignStays(Frames(fmt, d.files), Scan(fmt, u + part).frames); }
    }
    assert Frames(fmt, d.files) + [] == Frames(fmt, d.files);
  }

  lemma BuriedPart(fmt: Format, u: seq<byte>, f: Frame, m: nat)
    requires Lawful(fmt) && Written(f) && m <= |fmt.encode(f)| && u != [] && Buried(u) && !fmt.parse(u).Good?
    ensures var tail := u + fmt.encode(f)[..m];
            Scan(fmt, tail).frames == [] ==> Unread(fmt, tail) == tail && !Scan(fmt, tail).stop.Panics?
    ensures var tail := u + fmt.encode(f)[..m];
            Scan(fmt, tail).frames != [] ==> !Written(Scan(fmt, tail).frames[0])
  {
    var tail := u + fmt.encode(f)[..m];
    if m > 0 {
      var r := BuriedHeader(fmt, u, f, m);
      StrayTail(fmt, tail, r);
    } else {
      assert tail == u;
      BuriedStays(fmt, u);
    }
  }

  lemma BuriedStays(fmt: Format, u: seq<byte>)
    requires Lawful(fmt) && u != [] && Buried(u) && !fmt.parse(u).Good?
    ensures Scan(fmt, u).frames == [] && Unread(fmt, u) == u && !Scan(fmt, u).stop.Panics?
  {
    if |u| > 7 {
      var r :| 1 <= r <= 7 && r + 4 <= |u| && HeaderAt(u, r);
      StrayTail(fmt, u, r);
    }
  }

  // ----- one record -----

  lemma ReadableGrows(s: NodeState, rec: Record)
    requires s.found <= |s.wal|
    ensures var s' := s.(wal := s.wal + [rec]);
            if s.stray == 0 then Intact(s') && Readable(s') == Readable(s) + [rec]
            else !Intact(s') && Readable(s') == Readable(s)
  {
    var s' := s.(wal := s.wal + [rec]);
    assert s'.wal[..s.found] == s.wal[..s.found];
    if s.stray != 0 && Intact(s) { assert s.wal[..s.found] == s.wal; }
  }

  lemma FramesOfAppend(codec: Codec, recs: seq<Record>, rec: Record)
    ensures FramesOf(codec, recs + [rec]) == FramesOf(codec, recs) + [FrameOf(codec, rec)]
  {
  }

  /** A record is written whole. */
  lemma MirrorAppend(codec: Codec, d: Disk, s: NodeState, rec: Record)
    requires Mirrors(codec, d, s) && Writable(codec, rec)
    requires Plain(WalFormat(codec.crc), d, Append(FrameOf(codec, rec)))
    ensures Mirrors(codec, After(WalFormat(codec.crc), d, Append(FrameOf(codec, rec))), s.(wal := s.wal + [rec]))
  {
    var fmt, f := WalFormat(codec.crc), FrameOf(codec, rec);
    var m := |fmt.encode(f)|;
    WalFormatLawful(codec.crc);
    PlainWrite(fmt, d, f, m);
    WriteIsSmall(fmt, d, f, m);
    OldStay(fmt, d, f, m);
    ReadableGrows(s, rec);
    FramesOfAppend(codec, Readable(s), rec);
    if s.stray != 0 {
      StopIsUnread(fmt, d.files[|d.files| - 1]);
      WholeBuries(fmt, Strays(fmt, d), f);
    }
  }

  lemma WholeBuries(fmt: Format, u: seq<byte>, f: Frame)
    requires Lawful(fmt) && Written(f) && u != [] && Buried(u)
    ensures var tail := u + fmt.encode(f)[..|fmt.encode(f)|]; |tail| >= 8 && Buried(tail)
  {
    var m := |fmt.encode(f)|;
    assert HeaderAt(fmt.encode(f), 0);
    var r := BuriedHeader(fmt, u, f, m);
  }

  lemma OldStay(fmt: Format, d: Disk, f: Frame, m: nat)
    requires Lawful(fmt) && Small(d) && OldFilesTidy(fmt, d) && m <= |fmt.encode(f)|
    requires !Rotates(fmt, d, f) || Strays(fmt, d) == []
    ensures OldFilesTidy(fmt, Write(fmt, d, f, m))
  {
    var w := Write(fmt, d, f, m);
    forall i | 0 <= i < |w.files| - 1 ensures |Unread(fmt, w.files[i])| <= 7 {
      assert w.files[i] == d.files[i];
    }
  }

  // ----- one crash -----

  lemma RestartReads(s: NodeState, left: nat)
    ensures var r := Restart(s, left);
            && Intact(r) && Readable(r) == Readable(s) && r.found == |r.wal|
            && r.stray == if Intact(s) && s.stray + left <= 7 then s.stray + left else 0
  {
  }

  lemma OpenTidies(fmt: Format, raw: Disk)
    requires Lawful(fmt) && Small(raw) && OldFilesTidy(fmt, raw) && LastReads(fmt, raw)
    ensures var d := Open(fmt, raw);
            && Small(d) && OldFilesTidy(fmt, d) && Frames(fmt, d.files) == Frames(fmt, raw.files)
            && |Strays(fmt, d)| == if |Strays(fmt, raw)| <= 7 then |Strays(fmt, raw)| else 0
  {
    forall i | 0 <= i < |raw.files| ensures !Scan(fmt, raw.files[i]).stop.Panics? {
      StopIsUnread(fmt, raw.files[i]);
    }
    OpenKeeps(fmt, raw);
    OpenIsSmall(fmt, raw);
  }

  /** A new process on the files as the crash left them. */
  lemma MirrorOpen(codec: Codec, raw: Disk, s: NodeState, left: nat)
    requires var fmt := WalFormat(codec.crc);
             && Small(raw) && OldFilesTidy(fmt, raw) && LastReads(fmt, raw)
             && Frames(fmt, raw.files) == FramesOf(codec, Readable(s))
             && if Intact(s) then |Strays(fmt, raw)| == s.stray + left else |Strays(fmt, raw)| >= 8
    ensures Mirrors(codec, Open(WalFormat(codec.crc), raw), Restart(s, left))
  {
    WalFormatLawful(codec.crc);
    OpenTidies(WalFormat(codec.crc), raw);
    RestartReads(s, left);
  }

  /** A crash inside a record that comes next. */
  lemma MirrorTear(codec: Codec, d: Disk, s: NodeState, rec: Record, m: nat)
    requires Mirrors(codec, d, s) && Writable(codec, rec) && m < |Encode(codec.crc, FrameOf(codec, rec))|
    requires Plain(WalFormat(codec.crc), d, Tear(FrameOf(codec, rec), m))
    ensures Mirrors(codec, After(WalFormat(codec.crc), d, Tear(FrameOf(codec, rec), m)), Restart(s, m))
  {
    var fmt, f := WalFormat(codec.crc), FrameOf(codec, rec);
    WalFormatLawful(codec.crc);
    PlainWrite(fmt, d, f, m);
    WriteIsSmall(fmt, d, f, m);
    OldStay(fmt, d, f, m);
    MirrorOpen(codec, Write(fmt, d, f, m), s, m);
  }

  /** A crash between two records. */
  lemma MirrorReopen(codec: Codec, d: Disk, s: NodeState)
    requires Mirrors(codec, d, s)
    ensures Mirrors(codec, After(WalFormat(codec.crc), d, Reopen), Restart(s, 0))
  {
    WalFormatLawful(codec.crc);
    StraysRead(WalFormat(codec.crc), d);
    MirrorOpen(codec, d, s, 0);
  }

  lemma StraysRead(fmt: Format, d: Disk)
    requires Lawful(fmt) && d.files != [] && (Strays(fmt, d) != [] ==> Buried(Strays(fmt, d)))
    ensures LastReads(fmt, d)
  {
    StopIsUnread(fmt, d.files[|d.files| - 1]);
    if Strays(fmt, d) != [] { BuriedStays(fmt, Strays(fmt, d)); }
  }

  /** Only whether it is at least eight matters of the number of bytes left. */
  lemma LeftMatters(s: NodeState, left: nat, m: nat)
    requires left == m || (left >= 8 && m >= 8)
    ensures Restart(s, left) == Restart(s, m)
  {
  }

  // ----- several events -----

  // The following is about any way in which disks stand for nodes (`shows`) and change (`happens`).

  type Shows = (Disk, NodeState) -> bool
  type Happening = (Disk, Event, Disk) -> bool

  ghost predicate AllHappen(happens: Happening, d: Disk, es: seq<Event>, d': Disk)
    decreases |es|
  {
    if es == [] then d' == d else exists next :: happens(d, es[0], next) && AllHappen(happens, next, es[1..], d')
  }

  /** Records written one after the other, and then the end of the life if there is one. */
  function Appends(frame: Record -> Frame, recs: seq<Record>, end: seq<Event>): seq<Event> {
    if recs == [] then end else [Append(frame(recs[0]))] + Appends(frame, recs[1..], end)
  }

  ghost predicate WriteShows(frame: Record -> Frame, happens: Happening, shows: Shows, rec: Record) {
    forall d, s, d' {:trigger shows(d, s), happens(d, Append(frame(rec)), d')} |
      shows(d, s) && happens(d, Append(frame(rec)), d') :: shows(d', s.(wal := s.wal + [rec]))
  }

  ghost predicate EndShows(happens: Happening, shows: Shows, e: Event, left: nat) {
    forall d, s, d' {:trigger shows(d, s), happens(d, e, d')} | shows(d, s) && happens(d, e, d') ::
      shows(d', Restart(s, left))
  }

  /** Only the records and what is behind them matter. */
  ghost predicate RecordsShow(shows: Shows) {
    forall d, s: NodeState, s': NodeState {:trigger shows(d, s), shows(d, s')} |
      shows(d, s) && s'.wal == s.wal && s'.stray == s.stray && s'.found == s.found :: shows(d, s')
  }

  lemma {:induction false} AppendsShow(frame: Record -> Frame, happens: Happening, shows: Shows,
                                       d: Disk, s: NodeState, recs: seq<Record>, end: seq<Event>, d'': Disk)
      returns (d': Disk)
    requires shows(d, s) && AllHappen(happens, d, Appends(frame, recs, end), d'')
    requires forall i | 0 <= i < |recs| :: WriteShows(frame, happens, shows, recs[i])
    ensures shows(d', s.(wal := s.wal + recs)) && AllHappen(happens, d', end, d'')
    decreases |recs|
  {
    if recs == [] {
      d' := d;
      assert s.wal + recs == s.wal;
    } else {
      var es := Appends(frame, recs, end);
      assert es[0] == Append(frame(recs[0])) && es[1..] == Appends(frame, recs[1..], end);
      var next :| happens(d, es[0], next) && AllHappen(happens, next, es[1..], d'');
      assert WriteShows(frame, happens, shows, recs[0]);
      d' := AppendsShow(frame, happens, shows, next, s.(wal := s.wal + [recs[0]]), recs[1..], end, d'');
      assert s.wal + [recs[0]] + recs[1..] == s.wal + recs;
    }
  }

  /** Some records are written, and then the life ends. */
  lemma PartShows(frame: Record -> Frame, happens: Happening, shows: Shows,
                  d: Disk, s: NodeState, recs: seq<Record>, e: Event, left: nat, d'': Disk)
    requires shows(d, s) && AllHappen(happens, d, Appends(frame, recs, [e]), d'')
    requires forall i | 0 <= i < |recs| :: WriteShows(frame, happens, shows, recs[i])
    requires EndShows(happens, shows, e, left)
    ensures shows(d'', Restart(s.(wal := s.wal + recs), left))
  {
    var d' := AppendsShow(frame, happens, shows, d, s, recs, [e], d'');
    var next :| happens(d', [e][0], next) && AllHappen(happens, next, [e][1..], d'');
  }

  // ----- steps -----

  /** The records that the acting node would write. */
  ghost function More(cfg: Config, s: System, a: Action): seq<Record>
    requires Enabled(cfg, s, a)
  {
    WalGrows(cfg, s, a);
    NextNode(cfg, s, a).wal[|s.nodes[Actor(a)].wal|..]
  }

  /** Where a crash stops, in front of `rest`. */
  ghost function End(codec: Codec, rest: seq<Record>, left: nat): Event
    requires left > 0 ==> rest != []
  {
    if left == 0 then Reopen
    else Tear(FrameOf(codec, rest[0]), Min(left, |Encode(codec.crc, FrameOf(codec, rest[0]))| - 1))
  }

  ghost function Framing(codec: Codec): Record -> Frame {
    (rec: Record) => FrameOf(codec, rec)
  }

  ghost function Plainly(codec: Codec): Happening {
    (d: Disk, e: Event, d': Disk) => Happens(WalFormat(codec.crc), d, e, d')
  }

  ghost function Mirroring(codec: Codec): Shows {
    (d: Disk, s: NodeState) => Mirrors(codec, d, s)
  }

  /** What a step does to the files of the acting node. */
  ghost function Events(codec: Codec, cfg: Config, s: System, step: Step): seq<Event>
    requires CanHappen(cfg, s, step)
  {
    var more := More(cfg, s, step.a);
    match step
    case Complete(_) => Appends(Framing(codec), more, [])
    case Crash(_, written, left) => Appends(Framing(codec), more[..written], [End(codec, more[written..], left)])
  }

  lemma CompleteShows(cfg: Config, s: System, a: Action, frame: Record -> Frame, happens: Happening, shows: Shows,
                      d: Disk, d': Disk)
    requires CanHappen(cfg, s, Complete(a)) && shows(d, s.nodes[Actor(a)]) && RecordsShow(shows)
    requires forall i | 0 <= i < |More(cfg, s, a)| :: WriteShows(frame, happens, shows, More(cfg, s, a)[i])
    requires AllHappen(happens, d, Appends(frame, More(cfg, s, a), []), d')
    ensures shows(d', NextNode(cfg, s, a))
  {
    var st, st', more := s.nodes[Actor(a)], NextNode(cfg, s, a), More(cfg, s, a);
    WalGrows(cfg, s, a);
    StraysStay(cfg, s, a);
    var last := AppendsShow(frame, happens, shows, d, st, more, [], d');
    assert st'.wal == st.wal + more;
    assert shows(d', st.(wal := st.wal + more));
    assert shows(d', st') by { SameShows(shows, d', st.(wal := st.wal + more), st'); }
  }

  lemma SameShows(shows: Shows, d: Disk, s: NodeState, s': NodeState)
    requires RecordsShow(shows) && shows(d, s) && s'.wal == s.wal && s'.stray == s.stray && s'.found == s.found
    ensures shows(d, s')
  {
    var b := shows(d, s');
  }

  lemma CrashedIs(cfg: Config, s: System, a: Action, written: nat)
    requires CanHappen(cfg, s, Crash(a, written, 0))
    ensures written <= |More(cfg, s, a)|
    ensures var st := s.nodes[Actor(a)];
            Crashed(cfg, s, a, written) == st.(wal := st.wal + More(cfg, s, a)[..written])
  {
    WalGrows(cfg, s, a);
  }

  lemma CrashShows(cfg: Config, s: System, a: Action, written: nat, left: nat, e: Event,
                   frame: Record -> Frame, happens: Happening, shows: Shows, d: Disk, d': Disk)
    requires CanHappen(cfg, s, Crash(a, written, left)) && shows(d, s.nodes[Actor(a)]) && written <= |More(cfg, s, a)|
    requires forall i | 0 <= i < |More(cfg, s, a)| :: WriteShows(frame, happens, shows, More(cfg, s, a)[i])
    requires EndShows(happens, shows, e, left)
    requires AllHappen(happens, d, Appends(frame, More(cfg, s, a)[..written], [e]), d')
    ensures shows(d', Restart(Crashed(cfg, s, a, written), left))
  {
    var part := More(cfg, s, a)[..written];
    CrashedIs(cfg, s, a, written);
    forall i | 0 <= i < |part| ensures WriteShows(frame, happens, shows, part[i]) {
      assert part[i] == More(cfg, s, a)[i];
    }
    PartShows(frame, happens, shows, d, s.nodes[Actor(a)], part, e, left, d');
  }

  // ----- what the write-ahead log guarantees -----

  lemma LogWrites(codec: Codec, rec: Record)
    requires Writable(codec, rec)
    ensures WriteShows(Framing(codec), Plainly(codec), Mirroring(codec), rec)
  {
    forall d, s, d' | Mirroring(codec)(d, s) && Plainly(codec)(d, Append(Framing(codec)(rec)), d')
      ensures Mirroring(codec)(d', s.(wal := s.wal + [rec]))
    {
      MirrorAppend(codec, d, s, rec);
    }
  }

  /** The end of a life: between two records, or inside the next one. */
  lemma LogEnds(codec: Codec, rest: seq<Record>, left: nat)
    requires left > 0 ==> rest != [] && Writable(codec, rest[0])
    ensures EndShows(Plainly(codec), Mirroring(codec), End(codec, rest, left), left)
  {
    var e := End(codec, rest, left);
    forall d, s, d' | Mirroring(codec)(d, s) && Plainly(codec)(d, e, d')
      ensures Mirroring(codec)(d', Restart(s, left)) {
      EndMirrors(codec, d, s, rest, left, d');
    }
  }

  lemma EndMirrors(codec: Codec, d: Disk, s: NodeState, rest: seq<Record>, left: nat, d': Disk)
    requires Mirrors(codec, d, s) && (left > 0 ==> rest != [] && Writable(codec, rest[0]))
    requires Happens(WalFormat(codec.crc), d, End(codec, rest, left), d')
    ensures Mirrors(codec, d', Restart(s, left))
  {
    if left == 0 {
      MirrorReopen(codec, d, s);
    } else {
      var e := End(codec, rest, left);
      FirstBytes(codec.crc, FrameOf(codec, rest[0]));
      MirrorTear(codec, d, s, rest[0], e.m);
      LeftMatters(s, left, e.m);
    }
  }

  lemma LogRecords(codec: Codec)
    ensures RecordsShow(Mirroring(codec))
  {
  }

  // ----- runs -----

  /** All that happens to the files of `n` in the first `k` steps, starting with a new one, leaves `d`. */
  ghost predicate Leaves(codec: Codec, happens: Happening, cfg: Config, run: Run, n: NodeId, k: nat, d: Disk)
    requires IsAnyRun(cfg, run) && k < |run.states|
  {
    if k == 0 then d == Disk([[]], 0)
    else
      assert Linked(cfg, run, k - 1);
      var s, step := run.states[k - 1], run.steps[k - 1];
      if Actor(step.a) != n then Leaves(codec, happens, cfg, run, n, k - 1, d)
      else
        exists before | Leaves(codec, happens, cfg, run, n, k - 1, before) ::
          AllHappen(happens, before, Events(codec, cfg, s, step), d)
  }

  /** The codec can write every record of the run. */
  ghost predicate Encodes(codec: Codec, cfg: Config, run: Run)
    requires IsAnyRun(cfg, run)
  {
    forall k {:trigger Linked(cfg, run, k)} | 0 <= k < |run.steps| ::
      Linked(cfg, run, k) && AllWritable(codec, More(cfg, run.states[k], run.steps[k].a))
  }

  ghost predicate StepShows(codec: Codec, happens: Happening, shows: Shows, cfg: Config, s: System, step: Step) {
    && CanHappen(cfg, s, step) && RecordsShow(shows)
    && (forall i | 0 <= i < |More(cfg, s, step.a)| ::
          WriteShows(Framing(codec), happens, shows, More(cfg, s, step.a)[i]))
    && (step.Crash? ==>
          && step.written <= |More(cfg, s, step.a)| && (step.left > 0 ==> step.written < |More(cfg, s, step.a)|)
          && EndShows(happens, shows, End(codec, More(cfg, s, step.a)[step.written..], step.left), step.left))
  }

  lemma StepLeaves(codec: Codec, happens: Happening, shows: Shows, cfg: Config, s: System, step: Step, d: Disk,
          d': Disk)
    requires StepShows(codec, happens, shows, cfg, s, step) && shows(d, s.nodes[Actor(step.a)])
    requires AllHappen(happens, d, Events(codec, cfg, s, step), d')
    ensures shows(d', Next(cfg, s, step).nodes[Actor(step.a)])
  {
    match step {
      case Complete(a) => CompleteShows(cfg, s, a, Framing(codec), happens, shows, d, d');
      case Crash(a, written, left) =>
        var e := End(codec, More(cfg, s, a)[written..], left);
        CrashShows(cfg, s, a, written, left, e, Framing(codec), happens, shows, d, d');
    }
  }

  lemma {:induction false} RunLeaves(codec: Codec, happens: Happening, shows: Shows,
                                     cfg: Config, run: Run, n: NodeId, k: nat, d: Disk)
    requires IsAnyRun(cfg, run) && k < |run.states| && n in run.states[k].nodes
    requires shows(Disk([[]], 0), NewNode()) && Leaves(codec, happens, cfg, run, n, k, d)
    requires forall j | 0 <= j < |run.steps| :: StepShows(codec, happens, shows, cfg, run.states[j], run.steps[j])
    ensures shows(d, run.states[k].nodes[n])
    decreases k
  {
    if k > 0 {
      var before := LeavesBefore(codec, happens, cfg, run, n, k, d);
      RunLeaves(codec, happens, shows, cfg, run, n, k - 1, before);
      var s, step := run.states[k - 1], run.steps[k - 1];
      if Actor(step.a) == n { StepLeaves(codec, happens, shows, cfg, s, step, before, d); }
    }
  }

  /** The disk one step earlier. */
  lemma LeavesBefore(codec: Codec, happens: Happening, cfg: Config, run: Run, n: NodeId, k: nat, d: Disk)
          returns (before: Disk)
    requires IsAnyRun(cfg, run) && 0 < k < |run.states| && n in run.states[k].nodes
        && Leaves(codec, happens, cfg, run, n, k, d)
    ensures n in run.states[k - 1].nodes && Leaves(codec, happens, cfg, run, n, k - 1, before)
        && Linked(cfg, run, k - 1)
    ensures if Actor(run.steps[k - 1].a) == n
            then AllHappen(happens, before, Events(codec, cfg, run.states[k - 1], run.steps[k - 1]), d)
            else before == d && run.states[k].nodes[n] == run.states[k - 1].nodes[n]
  {
    assert Linked(cfg, run, k - 1);
    var s, step := run.states[k - 1], run.steps[k - 1];
    if Actor(step.a) != n {
      before := d;
    } else {
      before :| Leaves(codec, happens, cfg, run, n, k - 1, before)
                && AllHappen(happens, before, Events(codec, cfg, s, step), d);
    }
  }

  lemma NewDisk(codec: Codec)
    ensures Mirrors(codec, Disk([[]], 0), NewNode())
  {
    var fmt := WalFormat(codec.crc);
    WalFormatLawful(codec.crc);
    assert Scan(fmt, []).frames == [] && Unread(fmt, []) == [];
    assert Frames(fmt, [[]]) == Frames(fmt, []) + Scan(fmt, []).frames;
  }

  lemma LogSteps(codec: Codec, cfg: Config, s: System, step: Step)
    requires CanHappen(cfg, s, step) && AllWritable(codec, More(cfg, s, step.a))
    ensures StepShows(codec, Plainly(codec), Mirroring(codec), cfg, s, step)
  {
    var more := More(cfg, s, step.a);
    LogRecords(codec);
    forall i | 0 <= i < |more| ensures WriteShows(Framing(codec), Plainly(codec), Mirroring(codec), more[i]) {
      assert Writable(codec, more[i]);
      LogWrites(codec, more[i]);
    }
    if step.Crash? {
      CrashedIs(cfg, s, step.a, step.written);
      var rest := more[step.written..];
      assert step.left > 0 ==> rest != [] && rest[0] == more[step.written] && Writable(codec, more[step.written]);
      LogEnds(codec, rest, step.left);
    }
  }

  /** The model's records, stray bytes and restarts stand for the bytes in the files. */
  lemma FilesMirrorRecords(codec: Codec, cfg: Config, run: Run, n: NodeId, k: nat, d: Disk)
    requires IsAnyRun(cfg, run) && k < |run.states| && n in run.states[k].nodes && Encodes(codec, cfg, run)
    requires Leaves(codec, Plainly(codec), cfg, run, n, k, d)
    ensures Mirrors(codec, d, run.states[k].nodes[n])
  {
    NewDisk(codec);
    forall j | 0 <= j < |run.steps|
      ensures StepShows(codec, Plainly(codec), Mirroring(codec), cfg, run.states[j], run.steps[j])
    {
      assert Linked(cfg, run, j);
      LogSteps(codec, cfg, run.states[j], run.steps[j]);
    }
    RunLeaves(codec, Plainly(codec), Mirroring(codec), cfg, run, n, k, d);
  }

  lemma {:induction false} RecordsWritable(codec: Codec, cfg: Config, run: Run, n: NodeId, k: nat)
    requires IsAnyRun(cfg, run) && k < |run.states| && n in run.states[k].nodes && Encodes(codec, cfg, run)
    ensures AllWritable(codec, run.states[k].nodes[n].wal)
  {
    if k > 0 {
      assert Linked(cfg, run, k - 1);
      var s, step := run.states[k - 1], run.steps[k - 1];
      RecordsWritable(codec, cfg, run, n, k - 1);
      if Actor(step.a) == n { StepWritable(codec, cfg, s, step); }
    }
  }

  lemma StepWritable(codec: Codec, cfg: Config, s: System, step: Step)
    requires CanHappen(cfg, s, step) && AllWritable(codec, s.nodes[Actor(step.a)].wal)
    requires AllWritable(codec, More(cfg, s, step.a))
    ensures AllWritable(codec, Next(cfg, s, step).nodes[Actor(step.a)].wal)
  {
    RecordsRemain(cfg, s, step);
    PartWritable(codec, s.nodes[Actor(step.a)].wal, More(cfg, s, step.a), Next(cfg, s, step).nodes[Actor(step.a)].wal);
  }

  lemma RecordsRemain(cfg: Config, s: System, step: Step)
    requires CanHappen(cfg, s, step)
    ensures Next(cfg, s, step).nodes[Actor(step.a)].wal <= NextNode(cfg, s, step.a).wal
    ensures NextNode(cfg, s, step.a).wal == s.nodes[Actor(step.a)].wal + More(cfg, s, step.a)
  {
    WalGrows(cfg, s, step.a);
  }

  lemma PartWritable(codec: Codec, a: seq<Record>, b: seq<Record>, p: seq<Record>)
    requires AllWritable(codec, a) && AllWritable(codec, b) && p <= a + b
    ensures AllWritable(codec, p)
  {
    forall i | 0 <= i < |p| ensures Writable(codec, p[i]) {
      assert p[i] == if i < |a| then a[i] else b[i - |a|];
    }
  }

  /**
   * In every run, and for every node: replaying the files that its writes and crashes have left does not
   * panic, and recovers exactly what the model lets a restart recover, provided that no checksum fits by
   * chance and no file with stray bytes is left for a new one.
   */
  lemma FilesTellRecords(codec: Codec, cfg: Config, run: Run, n: NodeId, k: nat, d: Disk, left: nat)
    requires IsAnyRun(cfg, run) && k < |run.states| && n in run.states[k].nodes && Encodes(codec, cfg, run)
    requires Leaves(codec, Plainly(codec), cfg, run, n, k, d)
    ensures var r := Restart(run.states[k].nodes[n], left);
            && !AnyPanics(codec, d.files, |d.files|)
            && ReadFiles(codec, d.files) == Recovered(r.currentTerm, r.votedFor, r.log)
  {
    var s := run.states[k].nodes[n];
    FilesMirrorRecords(codec, cfg, run, n, k, d);
    RecordsWritable(codec, cfg, run, n, k);
    RunRecords(cfg, run, k);
    assert Sincere(s);
    MirrorsRead(codec, d, s);
  }

  lemma MirrorsRead(codec: Codec, d: Disk, s: NodeState)
    requires Mirrors(codec, d, s) && Orderly(s.wal) && AllWritable(codec, s.wal)
    ensures !AnyPanics(codec, d.files, |d.files|) && ReadFiles(codec, d.files) == Fold(Readable(s))
  {
    var p := Readable(s);
    assert s.wal == p + s.wal[|p|..];
    OrderlyPrefix(p, s.wal[|p|..]);
    SplitWritable(codec, p, s.wal[|p|..]);
    ReadFilesIs(codec, d.files, p);
    MirrorsOpen(codec, d, s);
  }

  lemma MirrorsOpen(codec: Codec, d: Disk, s: NodeState)
    requires Mirrors(codec, d, s)
    ensures !AnyPanics(codec, d.files, |d.files|)
  {
    var fmt := WalFormat(codec.crc);
    WalFormatLawful(codec.crc);
    AllRead(fmt, d);
    OpensIff(codec, d.files, |d.files|);
  }

  lemma AllRead(fmt: Format, d: Disk)
    requires Lawful(fmt) && d.files != [] && OldFilesTidy(fmt, d)
    requires Strays(fmt, d) != [] ==> Buried(Strays(fmt, d))
    ensures Opens(fmt, d)
  {
    StraysRead(fmt, d);
    forall i | 0 <= i < |d.files| ensures !Scan(fmt, d.files[i]).stop.Panics? {
      StopIsUnread(fmt, d.files[i]);
    }
  }
}
