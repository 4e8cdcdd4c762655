/** The log object (internal/raft/log.go): entry 0 is a sentinel, so that positions are indices. */
module RaftLogs {
  import opened Types
  import opened Logs
  import opened NodeSpec

  /** Positions with the sentinel are one higher than without. */
  lemma Shifted(entries: seq<Entry>, first: nat, end: nat)
    requires 1 <= first <= end <= |entries|
    ensures entries[first..end] == entries[1..][first - 1..end - 1]
  {
    var a, b := entries[first..end], entries[1..][first - 1..end - 1];
    forall k | 0 <= k < |a| ensures a[k] == b[k] {
      assert b[k] == entries[1..][first - 1 + k];
    }
  }

  class RaftLog {
    var entries: seq<Entry>

    ghost predicate Valid()
      reads this
    {
      entries != [] && entries[0] == SENTINEL
    }

    /** The log without its sentinel. */
    ghost function Contents(): Log
      requires Valid()
      reads this
    {
      entries[1..]
    }

    constructor ()
      ensures Valid() && Contents() == []
    {
      entries := [SENTINEL];
    }

    method Append(more: seq<Entry>)
      requires Valid()
      modifies this
      ensures Valid() && Contents() == old(Contents()) + more
    {
      entries := entries + more;
    }

    method LastIndex() returns (i: nat)
      requires Valid()
      ensures i == |Contents()|
    {
      i := |entries| - 1;
    }

    method LastTerm() returns (t: nat)
      requires Valid()
      ensures t == Logs.LastTerm(Contents())
    {
      t := entries[|entries| - 1].term;
    }

    /** Keeps what is at or before `index`; nothing happens if that is everything. */
    method TruncateAfter(index: nat)
      requires Valid()
      modifies this
      ensures Valid() && Contents() == old(Contents())[..Min(index, old(|Contents()|))]
    {
      if index < |entries| - 1 {
        entries := entries[..index + 1];
      }
    }

    /** A copy of the entries from `first` to `last`, as far as they exist; from 0 it starts with the sentinel. */
    method Entries(first: nat, last: nat) returns (copied: seq<Entry>)
      requires Valid()
      ensures first >= 1 ==> copied == EntriesBetween(Contents(), first, last)
      ensures first == 0 ==> copied == [SENTINEL] + Contents()[..Min(last, |Contents()|)]
      ensures last == |Contents()| ==> copied == Logs.EntriesFrom(Contents(), first)
    {
      if first > last || first >= |entries| {
        return [];
      }
      var end := if last >= |entries| then |entries| - 1 else last;
      copied := entries[first..end + 1];
      if first >= 1 {
        Shifted(entries, first, end + 1);
      } else {
        assert entries[..end + 1] == [SENTINEL] + entries[1..][..end];
      }
    }

    method EntriesFrom(first: nat) returns (copied: seq<Entry>)
      requires Valid()
      ensures copied == Logs.EntriesFrom(Contents(), first)
    {
      var last := LastIndex();
      copied := Entries(first, last);
    }

    method Contains(index: nat) returns (c: bool)
      requires Valid()
      ensures c == Logs.Contains(Contents(), index)
    {
      c := index < |entries|;
    }

    method TermAt(index: nat) returns (t: nat)
      requires Valid()
      ensures t == Logs.TermAt(Contents(), index)
    {
      var c := Contains(index);
      if !c {
        return 0;
      }
      t := entries[index].term;
    }

    method RestoreEntries(restored: seq<Entry>)
      modifies this
      ensures Valid() && Contents() == restored
    {
      entries := [SENTINEL];
      entries := entries + restored;
    }

    method FindFirstIndexOfTerm(term: nat) returns (first: nat)
      requires Valid()
      ensures first == FirstIndexOfTerm(Contents(), term)
    {
      for i := 1 to |entries|
        invariant FirstIndexOfTerm(Contents(), term) == FirstIndexFrom(Contents(), term, i - 1)
      {
        if entries[i].term == term {
          return i;
        }
      }
      first := 0;
    }
  }
}
