/** What replication, delivery, acknowledgement and recovery guarantee in every run. */
module ReplicationSafety {
  import opened Types
  import opened Logs
  import opened NodeSpec
  import opened Recovery
  import opened Durability
  import opened Merging
  import opened CommitRule
  import opened Cluster
  import opened History
  import opened HistoryGrowth
  import opened ClusterInv
  import opened ClusterReplication
  import opened ClusterProof
  import opened Safety
  import opened Restarts

  // ----- leaders' indices -----

  /** In every leader state nextIndex stays within the log, so prevLogIndex never wraps around. */
  lemma NextIndexBounds(cfg: Config, run: Run, i: nat, n: NodeId, p: NodeId)
    requires Leads(cfg, run, i, n) && n in cfg.peers && p in cfg.peers[n]
    ensures var s := NodeAt(cfg, run, i, n);
            && p in s.nextIndex && 1 <= s.nextIndex[p] <= |s.log| + 1
            && p in s.matchIndex && s.matchIndex[p] <= |s.log|
  {
    var h := ConsultOne(cfg, run, i, n);
    assert PeerOk(h, NodeAt(cfg, run, i, n), p);
  }

  /** While leader and peer are in one term, the peer holds the leader's log up to matchIndex. */
  lemma MatchIndexSound(cfg: Config, run: Run, i: nat, n: NodeId, p: NodeId)
    requires Leads(cfg, run, i, n) && At(cfg, run, i, p) && n in cfg.peers && p in cfg.peers[n]
    requires NodeAt(cfg, run, i, p).currentTerm == NodeAt(cfg, run, i, n).currentTerm
    ensures var s, t := NodeAt(cfg, run, i, n), NodeAt(cfg, run, i, p);
            && p in s.matchIndex && s.matchIndex[p] <= |s.log| && s.matchIndex[p] <= |t.log|
            && t.log[..s.matchIndex[p]] == s.log[..s.matchIndex[p]]
  {
    var s, t := NodeAt(cfg, run, i, n), NodeAt(cfg, run, i, p);
    var h := ConsultOne(cfg, run, i, n);
    assert NodeOk(cfg, h, p, run.states[i].nodes[p]);
    PeerHolds(cfg, h, n, p, s, t);
  }

  lemma PeerHolds(cfg: Config, h: History, n: NodeId, p: NodeId, s: NodeState, t: NodeState)
    requires ServersOk(h) && ElectionsOk(h) && LogsKeep(h) && LeaderOk(cfg, h, n, s) && s.role == Leader
    requires n in h.servers && h.term[n] == s.currentTerm
    requires p in h.servers && h.term[p] == t.currentTerm && h.log[p] == t.log
    requires n in cfg.peers && p in cfg.peers[n] && t.currentTerm == s.currentTerm
    ensures p in s.matchIndex && s.matchIndex[p] <= |s.log| && s.matchIndex[p] <= |t.log|
    ensures t.log[..s.matchIndex[p]] == s.log[..s.matchIndex[p]]
  {
    assert PeerOk(h, s, p);
    var m := s.matchIndex[p];
    if m != 0 {
      var a :| a in h.acks && a.voter == p && a.term == s.currentTerm && a.length >= m;
      assert LogKeeps(h, a);
      assert ElectedAt(h, s.currentTerm);
      PrefixesAgree(t.log, s.log, a.length, m);
    }
  }

  /** A leader that handles a refusal always finds a hint: the slow fallback is never reached. */
  lemma RefusalsAreHinted(cfg: Config, run: Run, i: nat, m: Message)
    requires IsRun(cfg, run) && i < |run.steps| && run.steps[i] == Complete(DeliverAppendReply(m))
    requires IsStep(cfg, run, i)
    requires var s := run.states[i].nodes[m.dst];
             && s.role == Leader && s.currentTerm == m.append.term
             && m.appendReply.term <= s.currentTerm && !m.appendReply.success
    ensures m.appendReply.conflictIndex >= 1
    ensures var s := run.states[i].nodes[m.dst];
            1 <= RollBack(s.log, Lookup(s.nextIndex, m.src), m.appendReply) <= |s.log| + 1
  {
    var h := ConsultOne(cfg, run, i, m.dst);
    assert MessageOk(h, m);
    RollBackBounds(cfg, h, m.dst, run.states[i].nodes[m.dst], m.src, m.append, m.appendReply);
  }

  /** In every run, a leader that looks for an index to commit finds the highest that meets the rule. */
  lemma CommitFindsHighest(cfg: Config, run: Run, i: nat, n: NodeId)
    requires Leads(cfg, run, i, n) && n in cfg.peers
    ensures var s, peers := NodeAt(cfg, run, i, n), cfg.peers[n];
            var c := AdvanceCommit(s, peers).commitIndex;
            if exists x: nat :: Committable(s, peers, x)
            then Committable(s, peers, c) && forall x: nat | Committable(s, peers, x) :: x <= c
            else c == s.commitIndex
  {
    var s, peers := NodeAt(cfg, run, i, n), cfg.peers[n];
    LogsOrdered(cfg, run, i, n);
    forall x | 0 <= x < |peers| ensures Lookup(s.matchIndex, peers[x]) <= |s.log| {
      NextIndexBounds(cfg, run, i, n, peers[x]);
    }
    AdvanceCommitFindsHighest(s, peers);
  }

  // ----- followers' logs -----

  /** The message was sent in step `i`. */
  ghost predicate SentAt(cfg: Config, run: Run, i: nat, m: Message) {
    && IsRun(cfg, run) && i < |run.steps| && m.AppendEntries?
    && Enabled(cfg, run.states[i], run.steps[i].a) && run.steps[i].Complete?
    && (run.steps[i].a.SendHeartbeat? || run.steps[i].a.Replicate?)
    && m in Sent(cfg, run.states[i], run.steps[i].a)
  }

  lemma {:induction false} WasSent(cfg: Config, run: Run, k: nat, m: Message) returns (i: nat)
    requires IsRun(cfg, run) && k < |run.states| && m in run.states[k].net && m.AppendEntries?
    ensures i < k && SentAt(cfg, run, i, m)
    decreases k
  {
    assert k > 0;
    assert IsStep(cfg, run, k - 1);
    if m in run.states[k - 1].net {
      i := WasSent(cfg, run, k - 1, m);
    } else {
      i := k - 1;
      OnlySendersSend(cfg, run.states[i], run.steps[i], m);
    }
  }

  lemma OnlySendersSend(cfg: Config, s: System, step: Step, m: Message)
    requires Possible(cfg, s, step) && m in Next(cfg, s, step).net && m !in s.net && m.AppendEntries?
    ensures step.Complete? && (step.a.SendHeartbeat? || step.a.Replicate?) && m in Sent(cfg, s, step.a)
  {
  }

  /** Every append carries the sender's complete log from prevLogIndex on, as it was when sent. */
  lemma CompleteSuffix(cfg: Config, run: Run, i: nat, m: Message)
    requires SentAt(cfg, run, i, m)
    ensures m.src in run.states[i].nodes
    ensures var log := run.states[i].nodes[m.src].log;
            if m.append.prevLogIndex <= |log|
            then m.append.entries == log[m.append.prevLogIndex..]
                 && m.append.prevLogTerm == TermAt(log, m.append.prevLogIndex)
            else m.append.entries == [] && m.append.prevLogTerm == 0
  {
    var n := run.steps[i].a.n;
    assert m.src == n;
    var h := ConsultOne(cfg, run, i, n);
    SentCarries(cfg, run.states[i], run.steps[i].a, m, h);
  }

  lemma SentCarries(cfg: Config, s: System, a: Action, m: Message, h: History)
    requires Reflects(cfg, s, h) && Enabled(cfg, s, a) && (a.SendHeartbeat? || a.Replicate?) && m in Sent(cfg, s, a)
    ensures m.AppendEntries? && m.src == a.n && exists commit ::
        Carries(h, Offer(a.n, m.append.term, s.nodes[a.n].log, commit), a.n, m.append)
  {
    var st := s.nodes[a.n];
    assert NodeOk(cfg, h, a.n, st);
    var t := if a.SendHeartbeat? then a.t else Ticket(st.currentTerm, st.commitIndex);
    if a.Replicate? {
      FreshTicket(cfg, h, a.n, st);
    } else {
      assert TicketOk(cfg, h, a.n, st, t);
    }
    RequestCarries(cfg, h, a.n, st, a.p, t);
  }

  /** The message is accepted by the node it is delivered to. */
  ghost predicate Accepted(cfg: Config, run: Run, k: nat, m: Message) {
    && IsRun(cfg, run) && k < |run.steps| && run.steps[k] == Complete(DeliverAppend(m)) && IsStep(cfg, run, k)
    && HandleAppend(run.states[k].nodes[m.dst], m.append).1.success
  }

  /**
   * A successful append leaves the follower's log unchanged or makes it exactly the log the sender
   * had when it sent the message.
   */
  lemma AppendOutcome(cfg: Config, run: Run, k: nat, m: Message) returns (i: nat)
    requires Accepted(cfg, run, k, m)
    ensures i < k && SentAt(cfg, run, i, m) && At(cfg, run, i, m.src) && At(cfg, run, k + 1, m.dst)
    ensures var own, sender := run.states[k].nodes[m.dst].log, NodeAt(cfg, run, i, m.src).log;
            var after := NodeAt(cfg, run, k + 1, m.dst).log;
            sender <= after && (after == own || after == sender)
  {
    i := WasSent(cfg, run, k, m);
    CompleteSuffix(cfg, run, i, m);
    Delivered(cfg, run, k, m);
    var h1, h2, h := Consult(cfg, run, i, k, m.src, m.dst);
    AcceptedLog(h1, h, run.states[i].nodes[m.src], run.states[k].nodes[m.dst], m.append);
  }

  lemma Delivered(cfg: Config, run: Run, k: nat, m: Message)
    requires Accepted(cfg, run, k, m)
    ensures At(cfg, run, k, m.dst) && At(cfg, run, k + 1, m.dst)
    ensures NodeAt(cfg, run, k + 1, m.dst) == HandleAppend(run.states[k].nodes[m.dst], m.append).0
  {
  }

  lemma AcceptedLog(h1: History, h: History, sender: NodeState, own: NodeState, args: AppendArgs)
    requires Rooted(h1.ledger, sender.log) && Rooted(h.ledger, own.log) && LedgerOk(h.ledger) && Grows(h1, h)
    requires HandleAppend(own, args).1.success
    requires if args.prevLogIndex <= |sender.log|
             then args.entries == sender.log[args.prevLogIndex..]
               && args.prevLogTerm == TermAt(sender.log, args.prevLogIndex)
             else args.entries == [] && args.prevLogTerm == 0
    ensures HandleAppend(own, args).0.log == Adopt(own.log, sender.log)
    ensures sender.log <= HandleAppend(own, args).0.log
  {
    RootedGrows(h1.ledger, h.ledger, sender.log);
    RootedOrdered(h.ledger, own.log);
    MergeIsAdopt(h.ledger, own.log, sender.log, args.prevLogIndex);
  }

  /**
   * The follower's clamp by its own last index never bites: the announced commit index lies within
   * the entries just matched, so it is also the minimum with the last new entry.
   */
  lemma ClampNeverBites(cfg: Config, run: Run, k: nat, m: Message)
    requires Accepted(cfg, run, k, m)
    ensures At(cfg, run, k + 1, m.dst)
    ensures var s, t := run.states[k].nodes[m.dst], NodeAt(cfg, run, k + 1, m.dst);
            && m.append.leaderCommit <= m.append.prevLogIndex + |m.append.entries| <= |t.log|
            && t.commitIndex == Max(s.commitIndex, m.append.leaderCommit)
  {
    var h := ConsultOne(cfg, run, k, m.dst);
    assert MessageOk(h, m);
    AcceptedCommit(cfg, h, m.dst, run.states[k].nodes[m.dst], m);
  }

  lemma AcceptedCommit(cfg: Config, h: History, n: NodeId, s: NodeState, m: Message)
    requires Inv(h) && n in h.servers && h.log[n] == s.log && m.AppendEntries? && Sends(h, m.src, m.append)
    requires HandleAppend(s, m.append).1.success
    ensures var t := HandleAppend(s, m.append).0;
            && m.append.leaderCommit <= m.append.prevLogIndex + |m.append.entries| <= |t.log|
            && t.commitIndex == Max(s.commitIndex, m.append.leaderCommit)
  {
    var o :| o in h.offers && Carries(h, o, m.src, m.append);
    StoreIsAccept(h, n, Listen(s, m.append), o, m.src, m.append);
  }

  // ----- delivery -----

  /** What a process has delivered is a prefix of its committed log, and covers lastApplied. */
  lemma DeliveredIsCommitted(cfg: Config, run: Run, i: nat, n: NodeId)
    requires At(cfg, run, i, n)
    ensures var s := NodeAt(cfg, run, i, n);
            && s.commitIndex <= |s.log| && s.delivered <= s.log[..s.commitIndex]
            && s.lastApplied <= |s.delivered| && s.lastApplied <= s.commitIndex
  {
    var h := ConsultOne(cfg, run, i, n);
    var s := NodeAt(cfg, run, i, n);
    assert ApplyOk(s);
  }

  /** What two replicas have delivered, at any moments, is the same as far as both have got. */
  lemma DeliveriesAgree(cfg: Config, run: Run, i: nat, j: nat, a: NodeId, b: NodeId)
    requires At(cfg, run, i, a) && At(cfg, run, j, b)
    ensures var s, t := NodeAt(cfg, run, i, a).delivered, NodeAt(cfg, run, j, b).delivered;
            s <= t || t <= s
  {
    var s, t := NodeAt(cfg, run, i, a), NodeAt(cfg, run, j, b);
    DeliveredIsCommitted(cfg, run, i, a);
    DeliveredIsCommitted(cfg, run, j, b);
    StateMachineSafety(cfg, run, i, j, a, b);
    PrefixesComparable(s.log[..s.commitIndex], t.log[..t.commitIndex], s.delivered, t.delivered);
  }

  lemma PrefixesComparable(l1: Log, l2: Log, d1: Log, d2: Log)
    requires d1 <= l1 && d2 <= l2 && l1[..Min(|l1|, |l2|)] == l2[..Min(|l1|, |l2|)]
    ensures d1 <= d2 || d2 <= d1
  {
    var c := Min(|d1|, |d2|);
    assert l1[..c] == l1[..Min(|l1|, |l2|)][..c] && l2[..c] == l2[..Min(|l1|, |l2|)][..c];
  }

  // ----- acknowledged writes -----

  /** SubmitCommand returns success to its caller in step `i`. */
  ghost predicate Acknowledged(cfg: Config, run: Run, i: nat, n: NodeId, sub: Submission) {
    IsRun(cfg, run) && i < |run.steps| && IsStep(cfg, run, i) && run.steps[i] == Complete(ClientReturn(n, sub))
  }

  lemma AcknowledgedIsCommitted(cfg: Config, run: Run, i: nat, n: NodeId, sub: Submission)
    requires Acknowledged(cfg, run, i, n, sub)
    ensures At(cfg, run, i, n)
    ensures var s := NodeAt(cfg, run, i, n);
            && s.currentTerm == sub.term && 1 <= sub.index <= s.commitIndex <= |s.log|
            && s.log[sub.index - 1] == Entry(sub.term, sub.index, sub.command)
            && sub.index <= |s.delivered| && s.delivered[sub.index - 1] == s.log[sub.index - 1]
  {
    var h := ConsultOne(cfg, run, i, n);
    var s := NodeAt(cfg, run, i, n);
    assert SubmissionOk(h, n, sub);
    DeliveredIsCommitted(cfg, run, i, n);
  }

  /**
   * Acknowledged writes are permanent: the command is at its index in the log of every leader of
   * every later term, of every node whose commit index reaches it, at any moment, and of the node
   * that acknowledged it for ever after.
   */
  lemma AcknowledgedWritesArePermanent(cfg: Config, run: Run, i: nat, n: NodeId, sub: Submission, j: nat, b: NodeId)
    requires Acknowledged(cfg, run, i, n, sub) && At(cfg, run, j, b)
    requires var t := NodeAt(cfg, run, j, b);
             (t.role == Leader && t.currentTerm > sub.term) || t.commitIndex >= sub.index || (b == n && j >= i)
    ensures var t := NodeAt(cfg, run, j, b);
            1 <= sub.index <= |t.log| && t.log[sub.index - 1] == Entry(sub.term, sub.index, sub.command)
  {
    AcknowledgedIsCommitted(cfg, run, i, n, sub);
    var s, t := NodeAt(cfg, run, i, n), NodeAt(cfg, run, j, b);
    var p := s.log[..s.commitIndex];
    if t.role == Leader && t.currentTerm > sub.term {
      LeaderCompleteness(cfg, run, i, j, n, b);
      assert p[sub.index - 1] == t.log[sub.index - 1];
    } else if t.commitIndex >= sub.index {
      StateMachineSafety(cfg, run, i, j, n, b);
      var c := Min(s.commitIndex, t.commitIndex);
      assert s.log[..c][sub.index - 1] == t.log[..c][sub.index - 1];
    } else {
      CommittedStays(cfg, run, i, j, n);
      assert p[sub.index - 1] == t.log[sub.index - 1];
    }
  }

  // ----- restarted logs -----

  /** Every entry stores its position as its index. */
  ghost predicate InPlace(log: Log) {
    forall i | 0 <= i < |log| :: log[i].index == i + 1
  }

  ghost predicate Misplaced(log: Log) {
    exists i | 0 <= i < |log| :: log[i].index < i + 1
  }

  lemma MisplacedStays(a: Log, b: Log)
    requires Misplaced(a) && a <= b
    ensures Misplaced(b)
  {
    var i :| 0 <= i < |a| && a[i].index < i + 1;
    assert b[i] == a[i];
  }

  lemma SentInPlace(h: History, src: NodeId, args: AppendArgs, d: nat)
    requires ServersOk(h) && LogsOk(h) && Sends(h, src, args) && d < |args.entries|
    ensures args.entries[d].index == args.prevLogIndex + d + 1
  {
    var o :| o in h.offers && Carries(h, o, src, args);
    RootedOrdered(h.ledger, o.log);
    assert args.entries[d] == o.log[args.prevLogIndex + d];
  }

  /** The records of an append that truncates. */
  lemma Truncates(s: NodeState, args: AppendArgs) returns (t: NodeState, d: nat)
    requires s.discarded == 0 && HandleAppend(s, args).0.discarded > 0
    ensures t == BecomeFollower(s, args.term) && d < |args.entries| && args.prevLogIndex + d < |s.log|
    ensures HandleAppend(s, args).0.wal == t.wal + EntryRecords(args.entries[d..])
    ensures s.wal <= t.wal && forall i | |s.wal| <= i < |t.wal| :: !t.wal[i].EntryRecord?
  {
    t, d := BecomeFollower(s, args.term), Divergence(s.log, args.prevLogIndex, args.entries);
  }

  lemma FirstOfMany(t: seq<Record>, es: seq<Entry>, p: seq<Record>)
    requires es != [] && p <= t + EntryRecords(es) && |t| < |p|
    ensures t + EntryRecords([es[0]]) <= p
  {
    assert p[|t|] == EntryRecords(es)[0];
    assert p[..|t|] == t;
  }

  /** The first entry that a node records when it truncates tells an index below its position. */
  lemma TruncationMisplaces(h: History, s: NodeState, src: NodeId, args: AppendArgs, p: seq<Record>)
    requires ServersOk(h) && LogsOk(h) && Durable(s) && s.discarded == 0 && Sends(h, src, args)
    requires HandleAppend(s, args).0.discarded > 0 && p <= HandleAppend(s, args).0.wal
    requires exists i | |s.wal| <= i < |p| :: p[i].EntryRecord?
    ensures Misplaced(Fold(p).entries)
  {
    var t, d := Truncates(s, args);
    var i :| |s.wal| <= i < |p| && p[i].EntryRecord?;
    SentInPlace(h, src, args, d);
    BecomeFollowerDurable(s, args.term);
    FirstOfMany(t.wal, args.entries[d..], p);
    FirstMisplaced(t.wal, args.entries[d], p);
  }

  lemma FirstMisplaced(wal: seq<Record>, e: Entry, p: seq<Record>)
    requires wal + EntryRecords([e]) <= p && e.index < |Fold(wal).entries| + 1
    ensures Misplaced(Fold(p).entries)
  {
    FoldEntryRecords(wal, [e]);
    EntriesExtend(wal + EntryRecords([e]), p);
    var all := Fold(wal).entries + [e];
    assert all[|all| - 1] == e;
    MisplacedStays(all, Fold(p).entries);
  }

  lemma NodeMisplaces(cfg: Config, s: System, a: Action, h: History)
    requires ServersOk(h) && LogsOk(h) && Enabled(cfg, s, a) && Durable(s.nodes[Actor(a)])
    requires a.DeliverAppend? ==> Sends(h, a.m.src, a.m.append)
    requires s.nodes[Actor(a)].discarded > 0 ==> Misplaced(Fold(s.nodes[Actor(a)].wal).entries)
    ensures NextNode(cfg, s, a).discarded > 0 ==> Misplaced(Fold(NextNode(cfg, s, a).wal).entries)
  {
    var st := s.nodes[Actor(a)];
    OnlyAppendsDrop(cfg, s, a);
    if st.discarded > 0 {
      WalGrows(cfg, s, a);
      EntriesExtend(st.wal, NextNode(cfg, s, a).wal);
      MisplacedStays(Fold(st.wal).entries, Fold(NextNode(cfg, s, a).wal).entries);
    } else if NextNode(cfg, s, a).discarded > 0 {
      var t, d := Truncates(st, a.m.append);
      var wal := NextNode(cfg, s, a).wal;
      assert wal[|t.wal|].EntryRecord?;
      TruncationMisplaces(h, st, a.m.src, a.m.append, wal);
    }
  }

  lemma {:induction false} DroppedIsMisplaced(cfg: Config, run: Run, i: nat, n: NodeId)
    requires At(cfg, run, i, n)
    ensures NodeAt(cfg, run, i, n).discarded > 0 ==> Misplaced(Fold(NodeAt(cfg, run, i, n).wal).entries)
  {
    if i > 0 {
      assert IsStep(cfg, run, i - 1);
      var s, step := run.states[i - 1], run.steps[i - 1];
      if Actor(step.a) != n {
        DroppedIsMisplaced(cfg, run, i - 1, n);
      } else if step.Complete? {
        DroppedIsMisplaced(cfg, run, i - 1, n);
        var h := ConsultOne(cfg, run, i - 1, n);
        if step.a.DeliverAppend? { assert MessageOk(h, step.a.m); }
        NodeMisplaces(cfg, s, step.a, h);
      }
    }
  }

  /** Records that do not tell the log tell one in which an index is below its position. */
  lemma UntoldIsMisplaced(cfg: Config, run: Run, i: nat, a: Action, written: nat)
    requires At(cfg, run, i, Actor(a)) && KeepsEntries(cfg, run.states[i], Crash(a, written, 0))
    requires !TellsLog(cfg, run.states[i], Crash(a, written, 0))
    ensures Misplaced(Fold(Found(cfg, run.states[i], a, written)).entries)
  {
    var s, n := run.states[i], Actor(a);
    var st, p := s.nodes[n], Found(cfg, s, a, written);
    var h := ConsultOne(cfg, run, i, n);
    FoundOrAll(cfg, s, a, written);
    if st.discarded > 0 {
      DroppedIsMisplaced(cfg, run, i, n);
      if st.wal <= p { EntriesExtend(st.wal, p); } else { EntriesExtend(p, st.wal); }
      MisplacedStays(Fold(st.wal).entries, Fold(p).entries);
    } else {
      OnlyAppendsDrop(cfg, s, a);
      assert MessageOk(h, a.m);
      var k :| |st.wal| <= k < |p| && NextNode(cfg, s, a).wal[k].EntryRecord?;
      assert p[k].EntryRecord?;
      TruncationMisplaces(h, st, a.m.src, a.m.append, p);
    }
  }

  /** What is found begins with all that was there before the action, or is a part of it. */
  lemma FoundOrAll(cfg: Config, s: System, a: Action, written: nat)
    requires CanHappen(cfg, s, Crash(a, written, 0)) && s.nodes[Actor(a)].found <= |s.nodes[Actor(a)].wal|
    ensures var st, p := s.nodes[Actor(a)], Found(cfg, s, a, written);
            p <= NextNode(cfg, s, a).wal && if Intact(Crashed(cfg, s, a, written)) then st.wal <= p else p <= st.wal
  {
    WalGrows(cfg, s, a);
  }

  /** And those that do tell it in order: where replay finds all of them, */
  lemma AllIsInPlace(cfg: Config, run: Run, i: nat, a: Action, written: nat, left: nat)
    requires At(cfg, run, i, Actor(a)) && TellsLog(cfg, run.states[i], Crash(a, written, left))
    requires LosesNothing(cfg, run.states[i], Crash(a, written, left))
    ensures InPlace(Next(cfg, run.states[i], Crash(a, written, left)).nodes[Actor(a)].log)
  {
    var s, n, step := run.states[i], Actor(a), Crash(a, written, left);
    var h := ConsultOne(cfg, run, i, n);
    GuardedRunsCount(cfg, run);
    IntactKeepsAll(cfg, run, i, step);
    var h' := StepKeeps(cfg, s, step, h);
    assert NodeOk(cfg, h', n, Next(cfg, s, step).nodes[n]);
    RootedOrdered(h'.ledger, Next(cfg, s, step).nodes[n].log);
  }

  /** and where it loses none that tells an entry. */
  lemma PartIsInPlace(cfg: Config, run: Run, i: nat, a: Action, written: nat)
    requires At(cfg, run, i, Actor(a)) && CanHappen(cfg, run.states[i], Crash(a, written, 0))
    requires KeepsEntries(cfg, run.states[i], Crash(a, written, 0)) && run.states[i].nodes[Actor(a)].discarded == 0
    requires !Intact(Crashed(cfg, run.states[i], a, written))
    ensures InPlace(Fold(Found(cfg, run.states[i], a, written)).entries)
  {
    var s, n := run.states[i], Actor(a);
    var h := ConsultOne(cfg, run, i, n);
    FoundOrAll(cfg, s, a, written);
    EntriesExtend(Found(cfg, s, a, written), s.nodes[n].wal);
    RootedOrdered(h.ledger, s.nodes[n].log);
  }

  /**
   * In every run, for every crash after which no entry is lost: the restarted log has each stored index in
   * its place if and only if the process had truncated nothing, and no entry is found of an append that
   * truncates.
   */
  lemma RestartedInPlaceIff(cfg: Config, run: Run, i: nat, a: Action, written: nat, left: nat)
    requires At(cfg, run, i, Actor(a)) && KeepsEntries(cfg, run.states[i], Crash(a, written, left))
    ensures InPlace(Next(cfg, run.states[i], Crash(a, written, left)).nodes[Actor(a)].log)
            <==> TellsLog(cfg, run.states[i], Crash(a, written, left))
  {
    if TellsLog(cfg, run.states[i], Crash(a, written, left)) {
      if Intact(Crashed(cfg, run.states[i], a, written)) {
        AllIsInPlace(cfg, run, i, a, written, left);
      } else {
        PartIsInPlace(cfg, run, i, a, written);
      }
    } else {
      UntoldIsMisplaced(cfg, run, i, a, written);
    }
  }
}
