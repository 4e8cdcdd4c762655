/** The truncate-and-append loop of HandleAppendEntries as a function on logs. */
module Merging {
  import opened Types
  import opened Logs
  import opened NodeSpec

  /**
   * A follower that matches the sender at `prev` ends up with its own log unchanged, if that
   * already extends the sender's, and otherwise with exactly the sender's log.
   */
  lemma MergeIsAdopt(ledger: map<nat, Log>, own: Log, sender: Log, prev: nat)
    requires Rooted(ledger, own) && Rooted(ledger, sender)
    requires prev <= |own| && prev <= |sender| && TermAt(own, prev) == TermAt(sender, prev)
    ensures MergeEntries(own, prev, sender[prev..]) == Adopt(own, sender)
    ensures sender <= MergeEntries(own, prev, sender[prev..])
  {
    var entries := sender[prev..];
    var d := Divergence(own, prev, entries);
    if prev + d > 0 {
      assert d > 0 ==> own[prev + (d - 1)].term == entries[d - 1].term;
      RootedMatch(ledger, own, sender, prev + d - 1);
    }
    assert own[..prev + d] == sender[..prev + d];
    assert sender[..prev + d] + entries[d..] == sender;
  }

  /** The merged log keeps everything up to `prev` and holds an entry of each sent term behind it. */
  lemma MergeHolds(own: Log, prev: nat, entries: seq<Entry>)
    requires prev <= |own|
    ensures var r := MergeEntries(own, prev, entries);
            && |r| >= prev + |entries| && r[..prev] == own[..prev]
            && forall j | 0 <= j < |entries| :: r[prev + j].term == entries[j].term
  {
    var d := Divergence(own, prev, entries);
    var r := MergeEntries(own, prev, entries);
    forall j | 0 <= j < |entries| ensures prev + j < |r| && r[prev + j].term == entries[j].term {
      if d < |entries| && j >= d {
        assert r[prev + j] == entries[d..][j - d];
      }
    }
    if entries != [] { assert prev + (|entries| - 1) < |r|; }
  }

  /** If the follower holds all sent terms, the divergence is at the end and nothing changes. */
  lemma MergeNothingNew(own: Log, prev: nat, entries: seq<Entry>)
    requires prev + |entries| <= |own|
    requires forall j | 0 <= j < |entries| :: own[prev + j].term == entries[j].term
    ensures MergeEntries(own, prev, entries) == own
  {
    var d := Divergence(own, prev, entries);
    assert d == |entries|;
  }

  /** Handling the same message again changes nothing. */
  lemma MergeIdempotent(own: Log, prev: nat, entries: seq<Entry>)
    requires prev <= |own|
    ensures prev <= |MergeEntries(own, prev, entries)|
    ensures MergeEntries(MergeEntries(own, prev, entries), prev, entries) == MergeEntries(own, prev, entries)
  {
    MergeHolds(own, prev, entries);
    MergeNothingNew(MergeEntries(own, prev, entries), prev, entries);
  }

  /** A delayed message of a leader whose longer log has already arrived never shortens the log. */
  lemma MergeDelayed(own: Log, older: Log, newer: Log, prev: nat)
    requires older <= newer && newer <= own && prev <= |older|
    ensures MergeEntries(own, prev, older[prev..]) == own
  {
    MergeNothingNew(own, prev, older[prev..]);
  }
}
