/** A node's records always tell its term, its last vote and, if it never truncated, its log. */
module Durability {
  import opened Types
  import opened Recovery
  import opened NodeSpec

  /** Memory and records agree; the records hold exactly the discarded entries in excess. */
  ghost predicate Durable(s: NodeState) {
    && s.found <= |s.wal| && Orderly(s.wal)
    && Fold(s.wal).term == s.currentTerm
    && |Fold(s.wal).entries| == |s.log| + s.discarded
    && (s.discarded == 0 ==> Fold(s.wal).entries == s.log)
  }

  /** While no record lies behind stray bytes, replay gives back the term, and the log unless entries were dropped. */
  lemma ReplayExactIff(s: NodeState, left: nat)
    requires Durable(s) && Intact(s)
    ensures Restart(s, left).currentTerm == s.currentTerm
    ensures Restart(s, left).log == s.log <==> s.discarded == 0
  {
  }

  lemma OrderlyAppend(records: seq<Record>, rec: Record)
    requires Orderly(records)
    requires !rec.EntryRecord? ==> rec.term >= 1 && rec.term >= Fold(records).term
    requires rec.VoteRecord? ==> rec.votedFor != NO_NODE
    ensures Orderly(records + [rec])
  {
    FoldTermIsMax(records);
    var all := records + [rec];
    forall i | 0 <= i < |records| ensures all[i] == records[i] && TermOf(records[i]) <= Fold(records).term {}
  }

  lemma {:induction false} FoldEntryRecords(records: seq<Record>, entries: seq<Entry>)
    ensures Fold(records + EntryRecords(entries)) == Fold(records).(entries := Fold(records).entries + entries)
    ensures Orderly(records) ==> Orderly(records + EntryRecords(entries))
  {
    if entries == [] {
      assert records + EntryRecords(entries) == records;
    } else {
      var init, e := entries[..|entries| - 1], entries[|entries| - 1];
      var rec := EntryRecord(e.index, e.term, e.command);
      FoldEntryRecords(records, init);
      assert EntryRecords(entries) == EntryRecords(init) + [rec];
      assert records + EntryRecords(entries) == (records + EntryRecords(init)) + [rec];
      FoldAppend(records + EntryRecords(init), rec);
      assert init + [e] == entries;
      if Orderly(records) { OrderlyAppend(records + EntryRecords(init), rec); }
    }
  }

  /** More records tell more entries, exactly if there is an entry among them. */
  lemma {:induction false} EntriesExtend(a: seq<Record>, b: seq<Record>)
    requires a <= b
    ensures Fold(a).entries <= Fold(b).entries
    ensures Fold(a).entries == Fold(b).entries <==> forall i | |a| <= i < |b| :: !b[i].EntryRecord?
    decreases |b|
  {
    if |a| < |b| {
      var init := b[..|b| - 1];
      EntriesExtend(a, init);
      assert forall i | |a| <= i < |init| :: init[i] == b[i];
    } else {
      assert a == b;
    }
  }

  lemma BecomeFollowerDurable(s: NodeState, term: nat)
    requires Durable(s)
    ensures Durable(BecomeFollower(s, term))
    ensures Fold(BecomeFollower(s, term).wal).votedFor == Fold(s.wal).votedFor
  {
    FoldAppend(s.wal, TermRecord(term));
    if term > s.currentTerm { OrderlyAppend(s.wal, TermRecord(term)); }
  }

  lemma VoteDurable(s: NodeState, v: NodeId)
    requires Durable(s) && v != NO_NODE && s.currentTerm >= 1
    ensures Durable(s.(votedFor := v, wal := s.wal + [VoteRecord(v, s.currentTerm)]))
    ensures Fold(s.wal + [VoteRecord(v, s.currentTerm)]).votedFor == v
  {
    FoldAppend(s.wal, VoteRecord(v, s.currentTerm));
    OrderlyAppend(s.wal, VoteRecord(v, s.currentTerm));
  }

  lemma StartElectionDurable(s: NodeState, id: NodeId)
    requires Durable(s) && id != NO_NODE
    ensures Durable(StartElection(s, id)) && Fold(StartElection(s, id).wal).votedFor == id
  {
    var t := BecomeFollower(s, s.currentTerm + 1);
    BecomeFollowerDurable(s, s.currentTerm + 1);
    assert Durable(t) && t.currentTerm == s.currentTerm + 1;
    VoteDurable(t, id);
    assert StartElection(s, id).wal == t.wal + [VoteRecord(id, t.currentTerm)];
  }

  lemma HandleVoteDurable(s: NodeState, args: VoteArgs)
    requires Durable(s) && args.candidate != NO_NODE && args.term >= 1
    ensures Durable(HandleVote(s, args).0)
    ensures Fold(HandleVote(s, args).0.wal).votedFor
            == if HandleVote(s, args).1.granted then args.candidate else Fold(s.wal).votedFor
  {
    BecomeFollowerDurable(s, args.term);
    var t := if args.term > s.currentTerm then BecomeFollower(s, args.term) else s;
    if GrantsVote(s, args) { VoteDurable(t, args.candidate); }
  }

  lemma StoreEntriesDurable(s: NodeState, args: AppendArgs)
    requires Durable(s) && args.prevLogIndex <= |s.log|
    ensures Durable(StoreEntries(s, args))
    ensures Fold(StoreEntries(s, args).wal).votedFor == Fold(s.wal).votedFor
  {
    var d := Divergence(s.log, args.prevLogIndex, args.entries);
    FoldEntryRecords(s.wal, args.entries[d..]);
    if d < |args.entries| && args.prevLogIndex + d == |s.log| {
      assert s.log[..args.prevLogIndex + d] == s.log;
    }
  }

  lemma HandleAppendDurable(s: NodeState, args: AppendArgs)
    requires Durable(s)
    ensures Durable(HandleAppend(s, args).0)
    ensures Fold(HandleAppend(s, args).0.wal).votedFor == Fold(s.wal).votedFor
  {
    BecomeFollowerDurable(s, args.term);
    if args.term >= s.currentTerm && Matches(s.log, args) {
      StoreEntriesDurable(Listen(s, args), args);
    }
  }

  lemma SubmitDurable(s: NodeState, command: Command)
    requires Durable(s) && s.role == Leader
    ensures Durable(Submit(s, command)) && Fold(Submit(s, command).wal).votedFor == Fold(s.wal).votedFor
  {
    var rec := EntryRecord(|s.log| + 1, s.currentTerm, command);
    FoldAppend(s.wal, rec);
    OrderlyAppend(s.wal, rec);
  }
}
