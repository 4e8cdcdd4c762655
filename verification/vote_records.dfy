/**
 * What the records tell of a server's votes, in all runs: even a restart that loses records leaves a
 * process whose memory and records agree.
 */
module VoteRecords {
  import opened Types
  import opened Recovery
  import opened NodeSpec
  import opened Durability
  import opened Cluster

  /** Votes of one term are for one candidate. */
  ghost predicate VotesAgree(wal: seq<Record>) {
    forall i, j | 0 <= i < |wal| && 0 <= j < |wal| && wal[i].VoteRecord? && wal[j].VoteRecord? ::
      wal[i].term == wal[j].term ==> wal[i].votedFor == wal[j].votedFor
  }

  /** No vote is of a later term, and those of the current one are remembered. */
  ghost predicate VotesTold(currentTerm: nat, votedFor: NodeId, wal: seq<Record>) {
    forall i | 0 <= i < |wal| && wal[i].VoteRecord? ::
      wal[i].term <= currentTerm && (wal[i].term == currentTerm ==> wal[i].votedFor == votedFor)
  }

  /**
   * The process came up with what the first `found` records tell. If that is a vote, it votes for nobody
   * else in that term, be the vote of an earlier term.
   */
  ghost predicate Resumes(currentTerm: nat, votedFor: NodeId, wal: seq<Record>, found: nat)
    requires found <= |wal|
  {
    var r := Fold(wal[..found]);
    && r.term <= currentTerm
    && (r.votedFor != NO_NODE ==>
          && (r.term == currentTerm ==> votedFor == r.votedFor)
          && forall i | found <= i < |wal| && wal[i].VoteRecord? :: wal[i].term == r.term ==>
            wal[i].votedFor == r.votedFor)
  }

  ghost predicate Voting(currentTerm: nat, votedFor: NodeId, wal: seq<Record>, found: nat) {
    && found <= |wal| && Orderly(wal) && VotesAgree(wal)
    && VotesTold(currentTerm, votedFor, wal) && Resumes(currentTerm, votedFor, wal, found)
  }

  ghost predicate Sincere(s: NodeState) {
    Durable(s) && Voting(s.currentTerm, s.votedFor, s.wal, s.found)
  }

  // ----- writing -----

  lemma FoundStays(wal: seq<Record>, more: seq<Record>, found: nat)
    requires found <= |wal|
    ensures (wal + more)[..found] == wal[..found]
  {
  }

  /** Other records add no votes. */
  lemma OldVotes(wal: seq<Record>, more: seq<Record>)
    requires forall i | 0 <= i < |more| :: !more[i].VoteRecord?
    ensures var all := wal + more;
            forall i | 0 <= i < |all| && all[i].VoteRecord? :: i < |wal| && all[i] == wal[i]
  {
  }

  lemma NoVoteAdded(currentTerm: nat, votedFor: NodeId, wal: seq<Record>, found: nat, more: seq<Record>,
                    currentTerm': nat, votedFor': NodeId)
    requires Voting(currentTerm, votedFor, wal, found) && Orderly(wal + more)
    requires forall i | 0 <= i < |more| :: !more[i].VoteRecord?
    requires currentTerm' > currentTerm || (currentTerm' == currentTerm && votedFor' == votedFor)
    ensures Voting(currentTerm', votedFor', wal + more, found)
  {
    var all := wal + more;
    OldVotes(wal, more);
    FoundStays(wal, more, found);
    assert VotesAgree(all) && VotesTold(currentTerm', votedFor', all);
  }

  lemma AddTerm(currentTerm: nat, votedFor: NodeId, wal: seq<Record>, found: nat, term: nat)
    requires Voting(currentTerm, votedFor, wal, found) && Fold(wal).term == currentTerm < term
    ensures Voting(term, NO_NODE, wal + [TermRecord(term)], found)
  {
    OrderlyAppend(wal, TermRecord(term));
    NoVoteAdded(currentTerm, votedFor, wal, found, [TermRecord(term)], term, NO_NODE);
  }

  lemma AddVote(currentTerm: nat, votedFor: NodeId, wal: seq<Record>, found: nat, c: NodeId)
    requires Voting(currentTerm, votedFor, wal, found) && Fold(wal).term == currentTerm >= 1
    requires c != NO_NODE && (votedFor == NO_NODE || votedFor == c)
    ensures Voting(currentTerm, c, wal + [VoteRecord(c, currentTerm)], found)
  {
    OrderlyAppend(wal, VoteRecord(c, currentTerm));
    FoundStays(wal, [VoteRecord(c, currentTerm)], found);
  }

  lemma AddEntries(currentTerm: nat, votedFor: NodeId, wal: seq<Record>, found: nat, es: seq<Entry>)
    requires Voting(currentTerm, votedFor, wal, found)
    ensures Voting(currentTerm, votedFor, wal + EntryRecords(es), found)
  {
    FoldEntryRecords(wal, es);
    NoVoteAdded(currentTerm, votedFor, wal, found, EntryRecords(es), currentTerm, votedFor);
  }

  lemma AddCandidacy(currentTerm: nat, votedFor: NodeId, wal: seq<Record>, found: nat, id: NodeId)
    requires Voting(currentTerm, votedFor, wal, found) && Fold(wal).term == currentTerm && id != NO_NODE
    ensures Voting(currentTerm + 1, id, wal + [TermRecord(currentTerm + 1)] + [VoteRecord(id, currentTerm + 1)], found)
  {
    AddTerm(currentTerm, votedFor, wal, found, currentTerm + 1);
    FoldAppend(wal, TermRecord(currentTerm + 1));
    AddVote(currentTerm + 1, NO_NODE, wal + [TermRecord(currentTerm + 1)], found, id);
  }

  lemma StandSincere(s: NodeState, id: NodeId)
    requires Sincere(s) && id != NO_NODE
    ensures Sincere(StartElection(s, id))
  {
    StartElectionDurable(s, id);
    AddCandidacy(s.currentTerm, s.votedFor, s.wal, s.found, id);
  }

  lemma FollowSincere(s: NodeState, term: nat)
    requires Sincere(s)
    ensures Sincere(BecomeFollower(s, term))
  {
    BecomeFollowerDurable(s, term);
    if term > s.currentTerm { AddTerm(s.currentTerm, s.votedFor, s.wal, s.found, term); }
  }

  lemma VoteSincere(s: NodeState, args: VoteArgs)
    requires Sincere(s) && args.candidate != NO_NODE && args.term >= 1
    ensures Sincere(HandleVote(s, args).0)
  {
    HandleVoteDurable(s, args);
    FollowSincere(s, args.term);
    var t := if args.term > s.currentTerm then BecomeFollower(s, args.term) else s;
    if GrantsVote(s, args) { AddVote(t.currentTerm, t.votedFor, t.wal, t.found, args.candidate); }
  }

  lemma AppendSincere(s: NodeState, args: AppendArgs)
    requires Sincere(s)
    ensures Sincere(HandleAppend(s, args).0)
  {
    HandleAppendDurable(s, args);
    if args.term >= s.currentTerm {
      FollowSincere(s, args.term);
      var t := Listen(s, args);
      if Matches(t.log, args) {
        var es := args.entries[Divergence(t.log, args.prevLogIndex, args.entries)..];
        AddEntries(t.currentTerm, t.votedFor, t.wal, t.found, es);
      }
    }
  }

  lemma ReplySincere(s: NodeState, peers: seq<NodeId>, from: NodeId, args: AppendArgs, reply: AppendReply)
    requires Sincere(s)
    ensures Sincere(HandleAppendReply(s, peers, from, args, reply))
  {
    FollowSincere(s, reply.term);
  }

  lemma SubmitSincere(s: NodeState, command: Command)
    requires Sincere(s) && s.role == Leader
    ensures Sincere(Submit(s, command))
  {
    var e := Entry(s.currentTerm, |s.log| + 1, command);
    SubmitDurable(s, command);
    AddEntries(s.currentTerm, s.votedFor, s.wal, s.found, [e]);
    assert EntryRecords([e]) == [EntryRecord(e.index, e.term, e.command)];
  }

  // ----- reading -----

  /** Any part of the records, read from the start, gives a process whose memory agrees with them. */
  lemma BootSincere(wal: seq<Record>, p: seq<Record>, stray: nat)
    requires Orderly(wal) && VotesAgree(wal) && p <= wal
    ensures Sincere(Boot(p, stray))
  {
    assert wal == p + wal[|p|..];
    OrderlyPrefix(p, wal[|p|..]);
    assert VotesAgree(p) by {
      assert forall i | 0 <= i < |p| :: p[i] == wal[i];
    }
    assert p[..|p|] == p;
    forall i | 0 <= i < |p| && p[i].VoteRecord?
      ensures p[i].term <= Fold(p).term && (p[i].term == Fold(p).term ==> p[i].votedFor == Fold(p).votedFor)
    {
      RecordBinds(p, i);
    }
  }

  /** A server keeps to a vote whose record it finds. */
  lemma {:induction false} RecordBinds(p: seq<Record>, i: nat)
    requires Orderly(p) && VotesAgree(p) && i < |p| && p[i].VoteRecord?
    ensures KeepsTo(Fold(p).term, Fold(p).votedFor, p[i].votedFor, p[i].term)
  {
    var init, last := p[..|p| - 1], p[|p| - 1];
    assert p == init + [last];
    OrderlyPrefix(init, [last]);
    FoldTermIsMax(p);
    assert TermOf(p[i]) <= Fold(p).term;
    TermsRise(init, last);
    if i < |init| && !last.VoteRecord? {
      assert forall k | 0 <= k < |init| :: init[k] == p[k];
      RecordBinds(init, i);
    }
  }

  /** And to the vote that it came up with. */
  lemma {:induction false} ResumedBinds(currentTerm: nat, votedFor: NodeId, wal: seq<Record>, found: nat,
          p: seq<Record>)
    requires Voting(currentTerm, votedFor, wal, found) && found <= |p| && p <= wal
    ensures var r := Fold(wal[..found]);
            r.term <= Fold(p).term && (r.votedFor != NO_NODE ==>
              KeepsTo(Fold(p).term, Fold(p).votedFor, r.votedFor, r.term))
    decreases |p|
  {
    if |p| == found {
      assert p == wal[..found];
    } else {
      var init, last := p[..|p| - 1], p[|p| - 1];
      ResumedBinds(currentTerm, votedFor, wal, found, init);
      assert p == init + [last] && last == wal[|p| - 1] && wal == p + wal[|p|..];
      OrderlyPrefix(p, wal[|p|..]);
      FoldTermIsMax(p);
      OrderlyPrefix(init, [last]);
      FoldTermIsMax(init);
      TermsRise(init, last);
    }
  }

  lemma TermsRise(init: seq<Record>, last: Record)
    requires Orderly(init + [last])
    ensures Fold(init).term <= Fold(init + [last]).term
    ensures !last.EntryRecord? ==> Fold(init + [last]).term == last.term
  {
    var p := init + [last];
    OrderlyPrefix(init, [last]);
    FoldTermIsMax(init);
    FoldAppend(init, last);
    if !last.EntryRecord? && Fold(init).term != 0 {
      var i :| 0 <= i < |init| && TermOf(init[i]) == Fold(init).term;
      assert p[i] == init[i] && p[|init|] == last;
    }
  }

  /** The vote is recorded, or what the process came up with already binds it to that vote. */
  ghost predicate Anchored(s: NodeState, c: NodeId, term: nat) {
    && s.found <= |s.wal|
    && (VoteRecord(c, term) in s.wal
        || KeepsTo(Fold(s.wal[..s.found]).term, Fold(s.wal[..s.found]).votedFor, c, term))
  }

  /** More records loosen nothing. */
  lemma AnchorHolds(s: NodeState, s': NodeState, c: NodeId, term: nat)
    requires Anchored(s, c, term) && s.wal <= s'.wal && s'.found == s.found
    ensures Anchored(s', c, term)
  {
    assert s'.wal[..s.found] == s.wal[..s.found];
    if VoteRecord(c, term) in s.wal {
      var i :| 0 <= i < |s.wal| && s.wal[i] == VoteRecord(c, term);
      assert s'.wal[i] == s.wal[i];
    }
  }

  /** A new process that keeps to the recorded votes keeps to those that the last one came up with. */
  lemma AnchorBinds(s: NodeState, t: NodeState, p: seq<Record>, c: NodeId, term: nat)
    requires Anchored(s, c, term) && c != NO_NODE
    requires s.wal <= t.wal && t.found == s.found && Sincere(t) && s.found <= |p| && p <= t.wal
    requires VoteRecord(c, term) in s.wal ==> KeepsTo(Fold(p).term, Fold(p).votedFor, c, term)
    ensures KeepsTo(Fold(p).term, Fold(p).votedFor, c, term)
  {
    ResumedBinds(t.currentTerm, t.votedFor, t.wal, t.found, p);
    assert t.wal[..s.found] == s.wal[..s.found];
  }

  // ----- all runs -----

  /** Requests for votes are from real candidates in real terms. */
  ghost predicate RequestOk(cfg: Config, m: Message) {
    m.RequestVote? ==> m.src in cfg.servers && m.vote.candidate == m.src && m.vote.term >= 1
  }

  ghost predicate RecordsOk(cfg: Config, s: System) {
    && ValidConfig(cfg) && s.nodes.Keys == cfg.servers
    && (forall n {:trigger Sincere(s.nodes[n])} | n in cfg.servers :: Sincere(s.nodes[n]))
    && (forall m {:trigger RequestOk(cfg, m)} | m in s.net :: RequestOk(cfg, m))
  }

  lemma VoteReplySincere(s: NodeState, peers: seq<NodeId>, from: NodeId, term: nat, reply: VoteReply)
    requires Sincere(s)
    ensures Sincere(HandleVoteReply(s, peers, from, term, reply))
  {
    FollowSincere(s, reply.term);
  }

  /** The other actions write nothing and leave term, vote and log alone. */
  lemma SilentSincere(cfg: Config, s: System, a: Action)
    requires Enabled(cfg, s, a) && Sincere(s.nodes[Actor(a)])
    requires a.BeginHeartbeat? || a.SendHeartbeat? || a.Replicate? || a.ClientReturn?
             || a.ApplyBegin? || a.ApplyDeliver? || a.ApplyEnd?
    ensures Sincere(NextNode(cfg, s, a))
  {
    var st, st' := s.nodes[Actor(a)], NextNode(cfg, s, a);
    assert st'.wal == st.wal && st'.found == st.found && st'.currentTerm == st.currentTerm
      && st'.votedFor == st.votedFor
           && st'.log == st.log && st'.discarded == st.discarded;
  }

  lemma ActionSincere(cfg: Config, s: System, a: Action)
    requires RecordsOk(cfg, s) && Enabled(cfg, s, a)
    ensures Sincere(NextNode(cfg, s, a))
  {
    var n := Actor(a);
    var st := s.nodes[n];
    assert Sincere(st);
    match a {
      case ElectionTimeout(_) => StandSincere(st, n);
      case DeliverVoteRequest(m) =>
        assert RequestOk(cfg, m);
        VoteSincere(st, m.vote);
      case DeliverVoteReply(m) => VoteReplySincere(st, cfg.peers[n], m.src, m.vote.term, m.voteReply);
      case DeliverAppend(m) => AppendSincere(st, m.append);
      case DeliverAppendReply(m) => ReplySincere(st, cfg.peers[n], m.src, m.append, m.appendReply);
      case ClientSubmit(_, command) => SubmitSincere(st, command);
      case _ => SilentSincere(cfg, s, a);
    }
  }

  lemma SentRequests(cfg: Config, s: System, a: Action)
    requires Enabled(cfg, s, a)
    ensures forall m | m in Sent(cfg, s, a) :: RequestOk(cfg, m)
  {
  }

  /** A crash leaves a part of what the completed action would have written. */
  lemma FoundIsPart(cfg: Config, s: System, a: Action, written: nat)
    requires RecordsOk(cfg, s) && CanHappen(cfg, s, Crash(a, written, 0))
    ensures var found, st := Found(cfg, s, a, written), s.nodes[Actor(a)];
            found <= NextNode(cfg, s, a).wal && st.found <= |found|
  {
    assert Sincere(s.nodes[Actor(a)]);
  }

  lemma CrashBoots(cfg: Config, s: System, a: Action, written: nat, left: nat) returns (st': NodeState)
    requires CanHappen(cfg, s, Crash(a, written, left))
    ensures CanHappen(cfg, s, Crash(a, written, 0))
    ensures exists stray :: st' == Boot(Found(cfg, s, a, written), stray)
    ensures Next(cfg, s, Crash(a, written, left)) == System(s.nodes[Actor(a) := st'], s.net)
  {
    st' := Restart(Crashed(cfg, s, a, written), left);
    var stray := st'.stray;
    assert st' == Boot(Found(cfg, s, a, written), stray);
  }

  lemma CrashSincere(cfg: Config, s: System, a: Action, written: nat, left: nat) returns (st': NodeState)
    requires RecordsOk(cfg, s) && CanHappen(cfg, s, Crash(a, written, left))
    ensures Sincere(st') && Next(cfg, s, Crash(a, written, left)) == System(s.nodes[Actor(a) := st'], s.net)
  {
    st' := CrashBoots(cfg, s, a, written, left);
    var stray :| st' == Boot(Found(cfg, s, a, written), stray);
    FoundIsPart(cfg, s, a, written);
    ActionSincere(cfg, s, a);
    BootSincere(NextNode(cfg, s, a).wal, Found(cfg, s, a, written), stray);
  }

  lemma StepRecords(cfg: Config, s: System, step: Step)
    requires RecordsOk(cfg, s) && CanHappen(cfg, s, step)
    ensures RecordsOk(cfg, Next(cfg, s, step))
  {
    match step {
      case Complete(a) =>
        ActionSincere(cfg, s, a);
        SentRequests(cfg, s, a);
        OneChanges(cfg, s, Actor(a), NextNode(cfg, s, a), Sent(cfg, s, a));
      case Crash(a, written, left) =>
        var st' := CrashSincere(cfg, s, a, written, left);
        OneChanges(cfg, s, Actor(a), st', {});
        assert s.net + {} == s.net;
    }
  }

  lemma OneChanges(cfg: Config, s: System, n: NodeId, st': NodeState, sent: set<Message>)
    requires RecordsOk(cfg, s) && n in cfg.servers && Sincere(st') && forall m | m in sent :: RequestOk(cfg, m)
    ensures RecordsOk(cfg, System(s.nodes[n := st'], s.net + sent))
  {
    var s' := System(s.nodes[n := st'], s.net + sent);
    forall v | v in cfg.servers ensures Sincere(s'.nodes[v]) {
      if v != n { assert Sincere(s.nodes[v]); }
    }
    forall m | m in s'.net ensures RequestOk(cfg, m) {
      if m in s.net { assert RequestOk(cfg, m); }
    }
  }

  /** In all runs, whatever restarts lose, records and memory tell the same votes. */
  lemma {:induction false} RunRecords(cfg: Config, run: Run, k: nat)
    requires IsAnyRun(cfg, run) && k < |run.states|
    ensures RecordsOk(cfg, run.states[k])
  {
    if k == 0 {
      assert Fold([]) == NOTHING;
      forall n | n in cfg.servers ensures Sincere(run.states[0].nodes[n]) {
        assert run.states[0].nodes[n] == NewNode();
      }
    } else {
      RunRecords(cfg, run, k - 1);
      assert Linked(cfg, run, k - 1);
      StepRecords(cfg, run.states[k - 1], run.steps[k - 1]);
    }
  }
}
