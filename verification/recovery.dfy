/** What replay makes of the write-ahead log's records (internal/storage/wal.go, Replay and replayFile). */
module Recovery {
  import opened Types

  datatype Recovered = Recovered(term: nat, votedFor: NodeId, entries: seq<Entry>)

  const NOTHING := Recovered(0, NO_NODE, [])

  /** One record: the last term and vote win, entries accumulate. */
  function Absorb(r: Recovered, rec: Record): Recovered {
    match rec
    case TermRecord(t) => r.(term := t)
    case VoteRecord(v, t) => r.(votedFor := v, term := Max(r.term, t))
    case EntryRecord(i, t, c) => r.(entries := r.entries + [Entry(t, i, c)])
  }

  function Fold(records: seq<Record>): Recovered {
    if records == [] then NOTHING else Absorb(Fold(records[..|records| - 1]), records[|records| - 1])
  }

  /** Two files: a zero term or an empty vote in the later one counts as absent. */
  function Merge(r: Recovered, file: Recovered): Recovered {
    Recovered(
      if file.term > 0 then file.term else r.term,
      if file.votedFor != NO_NODE then file.votedFor else r.votedFor,
      r.entries + file.entries)
  }

  /** Replay of several files, each folded from scratch. */
  function FoldFiles(files: seq<seq<Record>>): Recovered {
    if files == [] then NOTHING else Merge(FoldFiles(files[..|files| - 1]), Fold(files[|files| - 1]))
  }

  function Concat<T>(files: seq<seq<T>>): seq<T> {
    if files == [] then [] else Concat(files[..|files| - 1]) + files[|files| - 1]
  }

  /** The record's term if it bears on the current term, and 0 for log entries. */
  function TermOf(rec: Record): nat {
    if rec.EntryRecord? then 0 else rec.term
  }

  /** A history as nodes write it: positive terms that never decrease, and real votes. */
  ghost predicate Orderly(records: seq<Record>) {
    && (forall i | 0 <= i < |records| :: records[i].EntryRecord? || records[i].term >= 1)
    && (forall i | 0 <= i < |records| && records[i].VoteRecord? :: records[i].votedFor != NO_NODE)
    && (forall i, j | 0 <= i < j < |records| && !records[i].EntryRecord? && !records[j].EntryRecord? ::
          records[i].term <= records[j].term)
  }

  lemma FoldAppend(records: seq<Record>, rec: Record)
    ensures Fold(records + [rec]) == Absorb(Fold(records), rec)
  {
    assert (records + [rec])[..|records|] == records;
  }

  /** The recovered term is the greatest one written. */
  lemma {:induction false} FoldTermIsMax(records: seq<Record>)
    requires Orderly(records)
    ensures forall i | 0 <= i < |records| :: TermOf(records[i]) <= Fold(records).term
    ensures Fold(records).term == 0 || exists i | 0 <= i < |records| :: TermOf(records[i]) == Fold(records).term
  {
    if records != [] {
      var init, last := records[..|records| - 1], records[|records| - 1];
      FoldTermIsMax(init);
      assert Fold(records) == Absorb(Fold(init), last);
      forall i | 0 <= i < |records| ensures TermOf(records[i]) <= Fold(records).term {
        if i < |init| { assert records[i] == init[i]; }
      }
      forall i | 0 <= i < |init| && !last.EntryRecord? ensures TermOf(init[i]) <= last.term {
        assert records[i] == init[i];
      }
      if last.EntryRecord? && Fold(init).term != 0 {
        var i :| 0 <= i < |init| && TermOf(init[i]) == Fold(init).term;
        assert records[i] == init[i];
      } else if !last.EntryRecord? {
        assert TermOf(records[|records| - 1]) == Fold(records).term;
      }
    }
  }

  /** Recovery never invents a vote: the recovered one is the last one written. */
  lemma {:induction false} FoldVoteIsLast(records: seq<Record>)
    ensures Fold(records).votedFor == NO_NODE ||
            exists i | 0 <= i < |records| && records[i].VoteRecord? ::
              && records[i].votedFor == Fold(records).votedFor
              && forall j | i < j < |records| :: !records[j].VoteRecord?
  {
    if records != [] {
      var init, last := records[..|records| - 1], records[|records| - 1];
      FoldVoteIsLast(init);
      if last.VoteRecord? {
        assert records[|records| - 1].VoteRecord?;
      } else if Fold(init).votedFor != NO_NODE {
        var i :| 0 <= i < |init| && init[i].VoteRecord? && init[i].votedFor == Fold(init).votedFor
                 && forall j | i < j < |init| :: !init[j].VoteRecord?;
        assert records[i] == init[i];
        forall j | i < j < |records| ensures !records[j].VoteRecord? {
          if j < |init| { assert records[j] == init[j]; }
        }
      }
    }
  }

  lemma OrderlyPrefix(a: seq<Record>, b: seq<Record>)
    requires Orderly(a + b)
    ensures Orderly(a) && Orderly(b)
  {
    forall i | 0 <= i < |a| ensures (a + b)[i] == a[i] {}
    forall i | 0 <= i < |b| ensures (a + b)[|a| + i] == b[i] {}
    forall i, j | 0 <= i < j < |b| && !b[i].EntryRecord? && !b[j].EntryRecord? ensures b[i].term <= b[j].term {
      assert (a + b)[|a| + i] == b[i] && (a + b)[|a| + j] == b[j];
    }
  }

  /** The last vote written is the one recovered. */
  lemma {:induction false} LastVoteCounts(p: seq<Record>, i: nat)
    requires i < |p| && p[i].VoteRecord? && forall j | i < j < |p| :: !p[j].VoteRecord?
    ensures Fold(p).votedFor == p[i].votedFor
  {
    if i < |p| - 1 {
      var init := p[..|p| - 1];
      LastVoteCounts(init, i);
    }
  }

  /** A vote that is not found again was not written in an earlier term than the last one found. */
  lemma LostVoteIsLater(wal: seq<Record>, p: seq<Record>, k: nat)
    requires Orderly(wal) && p <= wal && |p| <= k < |wal| && wal[k].VoteRecord?
    ensures Fold(p).term <= wal[k].term
  {
    assert wal == p + wal[|p|..];
    OrderlyPrefix(p, wal[|p|..]);
    FoldTermIsMax(p);
    if Fold(p).term > 0 {
      var i :| 0 <= i < |p| && TermOf(p[i]) == Fold(p).term;
      assert wal[i] == p[i];
    }
  }

  /** Lost records that tell no later term change nothing about the term. */
  lemma SameTerm(wal: seq<Record>, p: seq<Record>)
    requires Orderly(wal) && p <= wal && Orderly(p) && forall i | |p| <= i < |wal| :: TermOf(wal[i]) <= Fold(p).term
    ensures Fold(p).term == Fold(wal).term
  {
    FoldTermIsMax(wal);
    FoldTermIsMax(p);
    if Fold(wal).term > 0 {
      var i :| 0 <= i < |wal| && TermOf(wal[i]) == Fold(wal).term;
      if i < |p| { assert p[i] == wal[i]; }
    }
    if Fold(p).term > 0 {
      var i :| 0 <= i < |p| && TermOf(p[i]) == Fold(p).term;
      assert p[i] == wal[i];
    }
  }

  /** Splitting an orderly history over two files is invisible to replay. */
  lemma {:induction false} FoldSplit(a: seq<Record>, b: seq<Record>)
    requires Orderly(a + b)
    ensures Fold(a + b) == Merge(Fold(a), Fold(b))
  {
    if b == [] {
      assert a + b == a;
    } else {
      var init, last := b[..|b| - 1], b[|b| - 1];
      assert a + b == (a + init) + [last];
      OrderlyPrefix(a + init, [last]);
      FoldSplit(a, init);
      FoldAppend(a + init, last);
      assert Fold(b) == Absorb(Fold(init), last);
      if last.VoteRecord? {
        EarlierTermsBelow(a + init, last);
        OrderlyPrefix(a, init);
      }
      assert (a + b)[|a + b| - 1] == last;
    }
  }

  lemma EarlierTermsBelow(records: seq<Record>, last: Record)
    requires Orderly(records + [last]) && Orderly(records) && !last.EntryRecord?
    ensures Fold(records).term <= last.term
  {
    FoldTermIsMax(records);
    var all := records + [last];
    assert all[|records|] == last;
    forall i | 0 <= i < |records| ensures TermOf(records[i]) <= last.term {
      assert all[i] == records[i];
    }
  }

  /** Rotation is invisible: replay file by file equals one fold over the whole history. */
  lemma {:induction false} RotationInvisible(files: seq<seq<Record>>)
    requires Orderly(Concat(files))
    ensures FoldFiles(files) == Fold(Concat(files))
  {
    if files != [] {
      var init, last := files[..|files| - 1], files[|files| - 1];
      OrderlyPrefix(Concat(init), last);
      RotationInvisible(init);
      FoldSplit(Concat(init), last);
    }
  }
}
