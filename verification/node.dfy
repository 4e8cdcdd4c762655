/**
 * A node as an object (internal/raft/node.go, internal/raft/replication.go). Each method is one
 * critical section, and changes the state exactly as the functions of NodeSpec say.
 */
module Nodes {
  import opened Types
  import opened Logs
  import opened Recovery
  import opened NodeSpec
  import opened RaftLogs

  lemma FilledOneMore(m: map<NodeId, nat>, peers: seq<NodeId>, i: nat, v: nat)
    requires i < |peers|
    ensures Filled(m, peers[..i + 1], v) == Filled(m, peers[..i], v)[peers[i] := v]
  {
    assert peers[..i + 1][..i] == peers[..i];
  }

  /** What one turn of SubmitCommand's waiting loop comes to. */
  datatype Outcome = Returned(index: nat, term: nat) | NotLeader | TimedOut | Waiting

  class Node {
    const id: NodeId
    const peers: seq<NodeId>
    const log: RaftLog

    var currentTerm: nat
    var votedFor: NodeId
    var state: Role
    var commitIndex: nat
    var lastApplied: nat
    var nextIndex: map<NodeId, nat>
    var matchIndex: map<NodeId, nat>
    var votes: nat
    var votesReceived: set<NodeId>

    /** The records persisted so far, and the entries sent on the apply channel. */
    var wal: seq<Record>
    var applied: seq<Entry>

    /** What the goroutines hold in their local variables between critical sections. */
    var tickets: set<Ticket>
    var submissions: set<Submission>
    var phase: ApplyPhase
    ghost var discarded: nat

    /** What replay left in the file behind the records it found. */
    ghost var stray: nat
    ghost var found: nat

    ghost predicate Valid()
      reads this, log
    {
      log.Valid()
    }

    ghost function State(): NodeState
      requires Valid()
      reads this, log
    {
      NodeState(currentTerm, votedFor, log.Contents(), state, commitIndex, lastApplied, nextIndex, matchIndex, votes,
                votesReceived, wal, discarded, tickets, submissions, phase, applied, stray, found)
    }

    constructor (id: NodeId, peers: seq<NodeId>, records: seq<Record>, ghost stray: nat)
      ensures Valid() && fresh(log) && this.id == id && this.peers == peers
      ensures State() == NewNode().(wal := records, stray := stray, found := |records|)
    {
      this.id := id;
      this.peers := peers;
      log := new RaftLog();
      currentTerm, votedFor, state, commitIndex, lastApplied := 0, NO_NODE, Follower, 0, 0;
      nextIndex, matchIndex, votes, votesReceived := map[], map[], 0, {};
      wal, applied, tickets, submissions, phase, discarded := records, [], {}, {}, Idle, 0;
      this.stray, found := stray, |records|;
    }

    /** Takes over what replay of the write-ahead log found. */
    method Replay(term: nat, votedFor: NodeId, entries: seq<Entry>)
      requires Valid()
      modifies this, log
      ensures Valid()
      ensures State() == old(State()).(
                currentTerm := term, votedFor := votedFor, log := if entries == [] then old(State()).log else entries)
      ensures old(State()) == NewNode().(wal := old(wal), stray := old(stray), found := |old(wal)|)
              && Recovered(term, votedFor, entries) == Fold(old(wal))
              ==> State() == Boot(old(wal), old(stray))
    {
      currentTerm := term;
      this.votedFor := votedFor;
      if |entries| > 0 {
        var restored: seq<Entry> := [];
        for i := 0 to |entries|
          invariant restored == entries[..i]
        {
          restored := restored + [Entry(entries[i].term, entries[i].index, entries[i].command)];
        }
        log.RestoreEntries(restored);
      }
    }

    // ----- elections -----

    method BeginElection() returns (args: VoteArgs)
      requires Valid()
      modifies this
      ensures Valid() && State() == StartElection(old(State()), id) && args == VoteRequest(State(), id)
    {
      BecomeCandidate();
      args := BuildVoteRequest();
    }

    /** The term goes up, and the vote for itself is persisted with it. */
    method BecomeCandidate()
      requires Valid()
      modifies this
      ensures Valid() && State() == StartElection(old(State()), id)
    {
      ghost var before := State();
      currentTerm := currentTerm + 1;
      state := Candidate;
      votedFor := id;
      votes := 1;
      votesReceived := {id};
      wal := wal + [TermRecord(currentTerm)];
      wal := wal + [VoteRecord(votedFor, currentTerm)];
      assert log.Contents() == before.log;
    }

    method BuildVoteRequest() returns (args: VoteArgs)
      requires Valid()
      ensures args == VoteRequest(State(), id)
    {
      var lastLogIndex := log.LastIndex();
      var lastLogTerm := log.LastTerm();
      args := VoteArgs(currentTerm, id, lastLogIndex, lastLogTerm);
    }

    method StepDown(term: nat)
      requires Valid()
      modifies this
      ensures Valid() && State() == BecomeFollower(old(State()), term)
    {
      if term > currentTerm {
        currentTerm := term;
        votedFor := NO_NODE;
        wal := wal + [TermRecord(term)];
      }
      state := Follower;
      votes := 0;
      votesReceived := {};
    }

    method TakeLead()
      requires Valid()
      modifies this
      ensures Valid() && State() == BecomeLeader(old(State()), peers)
    {
      state := Leader;
      InitializeIndices();
    }

    method InitializeIndices()
      requires Valid()
      modifies this`nextIndex, this`matchIndex
      ensures nextIndex == Filled(old(nextIndex), peers, |log.Contents()| + 1)
      ensures matchIndex == Filled(old(matchIndex), peers, 0)
    {
      var last := log.LastIndex();
      var next := last + 1;
      for i := 0 to |peers|
        invariant nextIndex == Filled(old(nextIndex), peers[..i], next)
        invariant matchIndex == Filled(old(matchIndex), peers[..i], 0)
      {
        FilledOneMore(old(nextIndex), peers, i, next);
        FilledOneMore(old(matchIndex), peers, i, 0);
        nextIndex := nextIndex[peers[i] := next];
        matchIndex := matchIndex[peers[i] := 0];
      }
      assert peers[..|peers|] == peers;
    }

    method IsLogUpToDate(lastTerm: nat, lastIndex: nat) returns (b: bool)
      requires Valid()
      ensures b == UpToDate(lastTerm, lastIndex, log.Contents())
    {
      var ourLastTerm := log.LastTerm();
      var ourLastIndex := log.LastIndex();
      if lastTerm != ourLastTerm {
        return lastTerm > ourLastTerm;
      }
      return lastIndex >= ourLastIndex;
    }

    method HandleRequestVote(args: VoteArgs) returns (reply: VoteReply)
      requires Valid()
      modifies this
      ensures Valid() && (State(), reply) == HandleVote(old(State()), args)
    {
      reply := VoteReply(currentTerm, false);
      if args.term > currentTerm {
        StepDown(args.term);
        reply := reply.(term := currentTerm);
      }
      if args.term < currentTerm {
        return;
      }
      var canVote := votedFor == NO_NODE || votedFor == args.candidate;
      var logOk := IsLogUpToDate(args.lastLogTerm, args.lastLogIndex);
      if canVote && logOk {
        votedFor := args.candidate;
        reply := reply.(granted := true);
        wal := wal + [VoteRecord(votedFor, currentTerm)];
      }
    }

    method ReceiveVote(p: NodeId, term: nat, reply: VoteReply)
      requires Valid()
      modifies this
      ensures Valid() && State() == HandleVoteReply(old(State()), peers, p, term, reply)
    {
      if currentTerm != term || state != Candidate {
        return;
      }
      if reply.term > currentTerm {
        StepDown(reply.term);
        return;
      }
      if reply.granted {
        if p in votesReceived {
          return;
        }
        votesReceived := votesReceived + {p};
        votes := votes + 1;
        var majority := (|peers| + 1) / 2 + 1;
        if votes >= majority {
          TakeLead();
        }
      }
    }

    // ----- receiving entries -----

    method HandleAppendEntries(args: AppendArgs) returns (reply: AppendReply)
      requires Valid()
      modifies this, log
      ensures Valid() && (State(), reply) == HandleAppend(old(State()), args)
    {
      if args.term < currentTerm {
        return AppendReply(currentTerm, false, 0, 0);
      }
      ListenTo(args);
      var consistent;
      consistent, reply := CheckPrevious(args);
      if consistent {
        Store(args);
        reply := reply.(success := true);
      }
    }

    /** The sender is a valid leader: follow it. */
    method ListenTo(args: AppendArgs)
      requires Valid()
      modifies this
      ensures Valid() && State() == Listen(old(State()), args)
    {
      if args.term > currentTerm {
        StepDown(args.term);
      }
      if state != Follower {
        state := Follower;
      }
    }

    /** Compares the entry before the sent ones; the reply is the refusal, with its hint, if they differ. */
    method CheckPrevious(args: AppendArgs) returns (consistent: bool, reply: AppendReply)
      requires Valid()
      ensures consistent == Matches(log.Contents(), args)
      ensures reply == if consistent then AppendReply(currentTerm, false, 0, 0) else Refusal(State(), args)
    {
      reply := AppendReply(currentTerm, false, 0, 0);
      if args.prevLogIndex > 0 {
        var contains := log.Contains(args.prevLogIndex);
        if !contains {
          var last := log.LastIndex();
          return false, reply.(conflictIndex := last + 1, conflictTerm := 0);
        }
        var term := log.TermAt(args.prevLogIndex);
        if term != args.prevLogTerm {
          var first := log.FindFirstIndexOfTerm(term);
          return false, reply.(conflictTerm := term, conflictIndex := first);
        }
      }
      return true, reply;
    }

    /** Stores what was sent and learns the leader's commit index. */
    method Store(args: AppendArgs)
      requires Valid() && args.prevLogIndex <= |log.Contents()|
      modifies this`wal, this`discarded, this`commitIndex, log
      ensures Valid() && State() == StoreEntries(old(State()), args)
    {
      MergeReceived(args.prevLogIndex, args.entries);
      if args.leaderCommit > commitIndex {
        var newCommit := args.leaderCommit;
        var last := log.LastIndex();
        if last < newCommit {
          newCommit := last;
        }
        commitIndex := newCommit;
      }
    }

    /** Appends what is new, after cutting off a conflicting suffix. */
    method MergeReceived(prev: nat, entries: seq<Entry>)
      requires Valid() && prev <= |log.Contents()|
      modifies this`wal, this`discarded, log
      ensures Valid()
      ensures log.Contents() == MergeEntries(old(log.Contents()), prev, entries)
      ensures wal == old(wal) + EntryRecords(entries[Divergence(old(log.Contents()), prev, entries)..])
      ensures var d := Divergence(old(log.Contents()), prev, entries);
              discarded == old(discarded) + if d < |entries| && prev + d < |old(log.Contents())|
                                            then |old(log.Contents())| - (prev + d) else 0
    {
      ghost var before := log.Contents();
      for i := 0 to |entries|
        invariant log.Valid() && log.Contents() == before && wal == old(wal) && discarded == old(discarded)
        invariant Divergence(before, prev, entries) == DivergenceFrom(before, prev, entries, i)
      {
        var index := prev + i + 1;
        var contains := log.Contains(index);
        if contains {
          var term := log.TermAt(index);
          if term != entries[i].term {
            assert Divergence(before, prev, entries) == i;
            ReplaceAfter(index - 1, entries[i..]);
            return;
          }
        } else {
          assert Divergence(before, prev, entries) == i && before[..prev + i] == before;
          AppendAndPersist(entries[i..]);
          return;
        }
      }
    }

    /** A conflicting suffix gives way to the leader's. */
    method ReplaceAfter(index: nat, entries: seq<Entry>)
      requires Valid() && index <= |log.Contents()|
      modifies this`wal, this`discarded, log
      ensures Valid() && log.Contents() == old(log.Contents())[..index] + entries
      ensures wal == old(wal) + EntryRecords(entries)
      ensures discarded == old(discarded) + (|old(log.Contents())| - index)
    {
      discarded := discarded + (|log.Contents()| - index);
      log.TruncateAfter(index);
      AppendAndPersist(entries);
    }

    method AppendAndPersist(entries: seq<Entry>)
      requires Valid()
      modifies this`wal, log
      ensures Valid() && log.Contents() == old(log.Contents()) + entries
      ensures wal == old(wal) + EntryRecords(entries)
    {
      log.Append(entries);
      for k := 0 to |entries|
        invariant log.Valid() && log.Contents() == old(log.Contents()) + entries
        invariant wal == old(wal) + EntryRecords(entries)[..k]
      {
        wal := wal + [EntryRecord(entries[k].index, entries[k].term, entries[k].command)];
      }
    }

    // ----- sending entries -----

    /** The first critical section of a heartbeat, which only a leader sends. */
    method CaptureHeartbeat() returns (leading: bool, ticket: Ticket)
      requires Valid()
      modifies this
      ensures Valid() && leading == (old(state) == Leader)
      ensures leading ==> ticket == Ticket(currentTerm, commitIndex)
      ensures State() == if leading then old(State()).(tickets := old(tickets) + {ticket}) else old(State())
    {
      ticket := Ticket(currentTerm, commitIndex);
      if state != Leader {
        return false, ticket;
      }
      tickets := tickets + {ticket};
      return true, ticket;
    }

    /** One round of replication: only a leader sends, and only if there are entries to send. */
    method PrepareReplication(p: NodeId) returns (send: bool, args: AppendArgs)
      requires Valid()
      ensures send == (state == Leader && EntriesFrom(log.Contents(), Lookup(nextIndex, p)) != [])
      ensures send ==> args == AppendRequest(State(), id, p, Ticket(currentTerm, commitIndex))
    {
      args := PrepareAppend(p, Ticket(currentTerm, commitIndex));
      send := state == Leader && |args.entries| != 0;
    }

    /** What is sent to `p`, as in the second critical section of a heartbeat. */
    method PrepareAppend(p: NodeId, ticket: Ticket) returns (args: AppendArgs)
      requires Valid()
      ensures args == AppendRequest(State(), id, p, ticket)
    {
      var next := Lookup(nextIndex, p);
      var prevLogIndex := Decrement(next);
      var prevLogTerm := log.TermAt(prevLogIndex);
      var entries := log.EntriesFrom(next);
      args := AppendArgs(ticket.term, id, prevLogIndex, prevLogTerm, entries, ticket.commit);
    }

    method ReceiveAppendReply(p: NodeId, args: AppendArgs, reply: AppendReply)
      requires Valid()
      modifies this
      ensures Valid() && State() == HandleAppendReply(old(State()), peers, p, args, reply)
    {
      if state != Leader || currentTerm != args.term {
        return;
      }
      if reply.term > currentTerm {
        StepDown(reply.term);
        return;
      }
      if reply.success {
        if |args.entries| > 0 {
          var newNext := args.entries[|args.entries| - 1].index + 1;
          if newNext > Lookup(nextIndex, p) {
            nextIndex := nextIndex[p := newNext];
          }
          var newMatch := newNext - 1;
          if newMatch > Lookup(matchIndex, p) {
            matchIndex := matchIndex[p := newMatch];
          }
          AdvanceCommitIndex();
        }
      } else {
        HandleConflict(p, reply);
      }
    }

    method HandleConflict(p: NodeId, reply: AppendReply)
      requires Valid()
      modifies this`nextIndex
      ensures nextIndex == RolledBack(old(nextIndex), log.Contents(), p, reply)
    {
      if reply.conflictTerm > 0 {
        var lastOfTerm := FindLastIndexOfTerm(reply.conflictTerm);
        if lastOfTerm > 0 {
          nextIndex := nextIndex[p := lastOfTerm + 1];
        } else {
          nextIndex := nextIndex[p := reply.conflictIndex];
        }
      } else if reply.conflictIndex > 0 {
        nextIndex := nextIndex[p := reply.conflictIndex];
      } else {
        if Lookup(nextIndex, p) > 1 {
          nextIndex := nextIndex[p := Lookup(nextIndex, p) - 1];
        }
      }
    }

    /** Scans backward for an entry of `term`. */
    method FindLastIndexOfTerm(term: nat) returns (last: nat)
      requires Valid()
      ensures last == LastIndexOfTerm(log.Contents(), term)
    {
      var i := log.LastIndex();
      ghost var all := log.Contents();
      assert all[..i] == all;
      while i > 0
        invariant i <= |all|
        invariant LastIndexOfTerm(all, term) == LastIndexOfTerm(all[..i], term)
      {
        var t := log.TermAt(i);
        if t == term {
          return i;
        }
        assert all[..i][..i - 1] == all[..i - 1];
        i := i - 1;
      }
      last := 0;
    }

    method AdvanceCommitIndex()
      requires Valid()
      modifies this`commitIndex
      ensures State() == AdvanceCommit(old(State()), peers)
    {
      var own := log.LastIndex();
      var matches := [own];
      for i := 0 to |peers|
        invariant matches == MatchIndices(State(), peers)[..i + 1]
      {
        matches := matches + [Lookup(matchIndex, peers[i])];
      }
      assert matches == MatchIndices(State(), peers);
      var sorted := SortDescending(matches);
      var majority := (|peers| + 1) / 2;
      if majority >= |sorted| {
        return;
      }
      var candidate := sorted[majority];
      var contains := log.Contains(candidate);
      var term := log.TermAt(candidate);
      if candidate > commitIndex && contains && term == currentTerm {
        commitIndex := candidate;
      }
    }

    // ----- clients and the apply loop -----

    method SubmitCommand(command: Command) returns (accepted: bool, index: nat, term: nat)
      requires Valid()
      modifies this, log
      ensures Valid() && accepted == (old(state) == Leader)
      ensures State() == if accepted then Submit(old(State()), command) else old(State())
      ensures accepted ==>
                Submission(index, term, command) in submissions && index == |log.Contents()| && term == currentTerm
      ensures !accepted ==> index == 0 && term == 0
    {
      if state != Leader {
        return false, 0, 0;
      }
      var last := log.LastIndex();
      var e := Entry(currentTerm, last + 1, command);
      log.Append([e]);
      wal := wal + [EntryRecord(e.index, e.term, e.command)];
      submissions := submissions + {Submission(e.index, e.term, e.command)};
      return true, e.index, e.term;
    }

    /** One turn of the loop that waits for a submitted command, where `expired` says that the deadline is over. */
    method PollSubmission(sub: Submission, expired: bool) returns (outcome: Outcome)
      requires Valid() && sub in submissions
      ensures outcome == TimedOut <==> expired
      ensures outcome == Returned(sub.index, sub.term) <==> !expired && SubmitReturns(State(), sub)
      ensures outcome == NotLeader <==> !expired && !(state == Leader && currentTerm == sub.term)
      ensures outcome == Waiting <==> !expired && state == Leader && currentTerm == sub.term && lastApplied < sub.index
    {
      if expired {
        return TimedOut;
      }
      if state != Leader || currentTerm != sub.term {
        return NotLeader;
      }
      if lastApplied >= sub.index {
        return Returned(sub.index, sub.term);
      }
      return Waiting;
    }

    method CollectCommitted()
      requires Valid()
      modifies this`phase
      ensures State() == BeginApply(old(State()))
    {
      if phase != Idle || lastApplied >= commitIndex {
        return;
      }
      var entries := log.Entries(lastApplied + 1, commitIndex);
      phase := Delivering(entries, commitIndex);
    }

    method DeliverEntry()
      requires Valid()
      modifies this
      ensures Valid() && State() == DeliverOne(old(State()))
    {
      if phase.Delivering? && phase.rest != [] {
        applied := applied + [phase.rest[0]];
        phase := phase.(rest := phase.rest[1..]);
      }
    }

    method FinishBatch()
      requires Valid()
      modifies this
      ensures Valid() && State() == EndApply(old(State()))
    {
      if phase.Delivering? && phase.rest == [] {
        lastApplied := phase.newLastApplied;
        phase := Idle;
      }
    }
  }
}
