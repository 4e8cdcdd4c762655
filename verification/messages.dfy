/** What requests tell of their senders, in every run, however its nodes crash. */
module Messages {
  import opened Types
  import opened Logs
  import opened NodeSpec
  import opened Cluster
  import opened Conduct

  // ----- vote requests -----

  /** In step `i` the sender of `m` stood for election, with the log that the request describes. */
  ghost predicate AskedAt(cfg: Config, run: Run, i: nat, m: Message) {
    && i < |run.steps| && i + 1 < |run.states| && run.steps[i] == Complete(ElectionTimeout(m.src))
    && m.src in run.states[i + 1].nodes && m.RequestVote? && m.src in cfg.peers && m.dst in cfg.peers[m.src]
    && var s := run.states[i + 1].nodes[m.src];
       && s.role == Candidate && m.vote.candidate == m.src && m.vote.term == s.currentTerm
       && m.vote.lastLogTerm == EndTerm(s.log) && m.vote.lastLogIndex == |s.log|
  }

  lemma AskedNow(cfg: Config, run: Run, k: nat, m: Message)
    requires IsAnyRun(cfg, run) && k < |run.steps| && Linked(cfg, run, k) && m.RequestVote?
    requires m in run.states[k + 1].net && m !in run.states[k].net
    ensures AskedAt(cfg, run, k, m)
  {
  }

  lemma {:induction false} RequestsTellLog(cfg: Config, run: Run, k: nat, m: Message) returns (i: nat)
    requires IsAnyRun(cfg, run) && k < |run.states| && m in run.states[k].net && m.RequestVote?
    ensures i < k && AskedAt(cfg, run, i, m)
    decreases k
  {
    assert k > 0;
    assert Linked(cfg, run, k - 1);
    if m in run.states[k - 1].net {
      i := RequestsTellLog(cfg, run, k - 1, m);
    } else {
      i := k - 1;
      AskedNow(cfg, run, i, m);
    }
  }

  /** A candidate asks each of its peers. */
  lemma EveryPeerIsAsked(cfg: Config, run: Run, k: nat, n: NodeId, p: NodeId)
    requires IsAnyRun(cfg, run) && k < |run.steps| && Linked(cfg, run, k)
    requires run.steps[k] == Complete(ElectionTimeout(n)) && p in cfg.peers[n]
    ensures exists m | m in run.states[k + 1].net :: m.dst == p && AskedAt(cfg, run, k, m)
  {
    var t := NextNode(cfg, run.states[k], ElectionTimeout(n));
    var m := RequestVote(n, p, VoteRequest(t, n));
    assert m in Sent(cfg, run.states[k], ElectionTimeout(n));
    assert AskedAt(cfg, run, k, m);
  }

  /**
   * In every run, a request is granted if and only if the voter is in no later term, has not voted for
   * another candidate in this one, and its log is not ahead of the log that the candidate stood with.
   */
  lemma RequestGrantedIff(cfg: Config, run: Run, k: nat, m: Message) returns (i: nat)
    requires IsAnyRun(cfg, run) && k < |run.states| && Enabled(cfg, run.states[k], DeliverVoteRequest(m))
    ensures i < k && AskedAt(cfg, run, i, m)
    ensures var v, c := run.states[k].nodes[m.dst], run.states[i + 1].nodes[m.src];
            HandleVote(v, m.vote).1.granted <==>
              && v.currentTerm <= c.currentTerm
              && (v.currentTerm == c.currentTerm ==> v.votedFor in {NO_NODE, m.src})
              && EndsBy(v.log, EndTerm(c.log), |c.log|)
  {
    i := RequestsTellLog(cfg, run, k, m);
    GrantedIff(run.states[k].nodes[m.dst], m.vote);
  }

  // ----- appends -----

  /** In step `h`, `n` began a heartbeat as leader, and captured term and commit index. */
  ghost predicate CapturedAt(cfg: Config, run: Run, h: nat, n: NodeId, t: Ticket) {
    && h < |run.steps| && h < |run.states| && run.steps[h] == Complete(BeginHeartbeat(n)) && n in run.states[h].nodes
    && var s := run.states[h].nodes[n]; s.role == Leader && t == Ticket(s.currentTerm, s.commitIndex)
  }

  lemma CapturedNow(cfg: Config, run: Run, k: nat, n: NodeId, t: Ticket)
    requires IsAnyRun(cfg, run) && k < |run.steps| && Linked(cfg, run, k) && n in run.states[k].nodes
    requires n in run.states[k + 1].nodes && t in run.states[k + 1].nodes[n].tickets
    requires t !in run.states[k].nodes[n].tickets
    ensures CapturedAt(cfg, run, k, n, t)
  {
    GoroutinesConfined(cfg, run.states[k], run.steps[k].a);
  }

  lemma {:induction false} HeartbeatsWereBegun(cfg: Config, run: Run, k: nat, n: NodeId, t: Ticket) returns (h: nat)
    requires IsAnyRun(cfg, run) && k < |run.states| && n in run.states[k].nodes && t in run.states[k].nodes[n].tickets
    ensures h < k && CapturedAt(cfg, run, h, n, t)
    decreases k
  {
    assert k > 0;
    assert Linked(cfg, run, k - 1);
    if t in run.states[k - 1].nodes[n].tickets {
      h := HeartbeatsWereBegun(cfg, run, k - 1, n, t);
    } else {
      h := k - 1;
      CapturedNow(cfg, run, h, n, t);
    }
  }

  /** What is sent of a log from `next` on; before its start, the index wraps around and the sentinel is included. */
  ghost predicate SendsFrom(log: Log, next: nat, args: AppendArgs) {
    if next == 0 then
      && args.prevLogIndex == 0xFFFF_FFFF_FFFF_FFFF && args.entries == [Entry(0, 0, [])] + log
      && (|log| < 0xFFFF_FFFF_FFFF_FFFF ==> args.prevLogTerm == 0)
    else
      && args.prevLogIndex == next - 1
      && args.prevLogTerm == (if 2 <= next <= |log| + 1 then log[next - 2].term else 0)
      && args.entries == if next <= |log| then log[next - 1..] else []
  }

  /**
   * In step `i` the sender of `m` sent its log from nextIndex on. Term and commit index are those of moment
   * `h`, at which it led that term: the same moment, or that at which it began the heartbeat.
   */
  ghost predicate SentFrom(cfg: Config, run: Run, h: nat, i: nat, m: Message) {
    && h <= i < |run.steps| && i < |run.states| && m.AppendEntries? && run.steps[i].Complete?
    && (h == i ==> run.steps[i].a == Replicate(m.src, m.dst))
    && (h < i ==> run.steps[h] == Complete(BeginHeartbeat(m.src)) && run.steps[i].a.SendHeartbeat?)
    && m.src in run.states[h].nodes && m.src in run.states[i].nodes
    && var s, t := run.states[h].nodes[m.src], run.states[i].nodes[m.src];
       && s.role == Leader && m.append.leader == m.src
       && m.append.term == s.currentTerm && m.append.leaderCommit == s.commitIndex
       && SendsFrom(t.log, Lookup(t.nextIndex, m.dst), m.append)
  }

  /** A leader that begins a heartbeat captures its term and commit index, beside those that it has begun before. */
  lemma HeartbeatCaptures(cfg: Config, run: Run, k: nat, n: NodeId)
    requires IsAnyRun(cfg, run) && k < |run.steps| && Linked(cfg, run, k) && run.steps[k] == Complete(BeginHeartbeat(n))
    ensures n in run.states[k].nodes && n in run.states[k + 1].nodes
    ensures run.states[k].nodes[n].tickets <= run.states[k + 1].nodes[n].tickets
    ensures exists t | t in run.states[k + 1].nodes[n].tickets :: CapturedAt(cfg, run, k, n, t)
  {
    var s := run.states[k].nodes[n];
    assert CapturedAt(cfg, run, k, n, Ticket(s.currentTerm, s.commitIndex));
  }

  lemma RequestSendsFrom(s: NodeState, n: NodeId, p: NodeId, t: Ticket)
    ensures SendsFrom(s.log, Lookup(s.nextIndex, p), AppendRequest(s, n, p, t))
  {
  }

  /** A tick of replication sends one append. */
  lemma TickSends(cfg: Config, run: Run, k: nat, n: NodeId, p: NodeId) returns (m: Message)
    requires IsAnyRun(cfg, run) && k < |run.steps| && Linked(cfg, run, k) && run.steps[k] == Complete(Replicate(n, p))
    ensures m in run.states[k + 1].net && m.src == n && m.dst == p && SentFrom(cfg, run, k, k, m)
  {
    var s := run.states[k].nodes[n];
    var t := Ticket(s.currentTerm, s.commitIndex);
    m := AppendEntries(n, p, AppendRequest(s, n, p, t));
    RequestSendsFrom(s, n, p, t);
  }

  /** So does a heartbeat that goes on, with what it captured. */
  lemma HeartbeatSends(cfg: Config, run: Run, k: nat, n: NodeId, p: NodeId, t: Ticket) returns (m: Message, h: nat)
    requires IsAnyRun(cfg, run) && k < |run.steps| && Linked(cfg, run, k)
    requires run.steps[k] == Complete(SendHeartbeat(n, p, t))
    ensures m in run.states[k + 1].net && m.src == n && m.dst == p && SentFrom(cfg, run, h, k, m)
    ensures m.append.term == t.term && m.append.leaderCommit == t.commit
  {
    var s := run.states[k].nodes[n];
    h := HeartbeatsWereBegun(cfg, run, k, n, t);
    m := AppendEntries(n, p, AppendRequest(s, n, p, t));
    RequestSendsFrom(s, n, p, t);
  }

  lemma SentNow(cfg: Config, run: Run, k: nat, m: Message) returns (h: nat)
    requires IsAnyRun(cfg, run) && k < |run.steps| && Linked(cfg, run, k) && m.AppendEntries?
    requires m in run.states[k + 1].net && m !in run.states[k].net
    ensures SentFrom(cfg, run, h, k, m)
  {
    h := k;
    match run.steps[k].a {
      case SendHeartbeat(n, p, t) =>
        var m';
        m', h := HeartbeatSends(cfg, run, k, n, p, t);
      case Replicate(n, p) =>
        var m' := TickSends(cfg, run, k, n, p);
      case _ =>
    }
  }

  lemma {:induction false} AppendsTellSender(cfg: Config, run: Run, k: nat, m: Message) returns (h: nat, i: nat)
    requires IsAnyRun(cfg, run) && k < |run.states| && m in run.states[k].net && m.AppendEntries?
    ensures h <= i < k && SentFrom(cfg, run, h, i, m)
    decreases k
  {
    assert k > 0;
    assert Linked(cfg, run, k - 1);
    if m in run.states[k - 1].net {
      h, i := AppendsTellSender(cfg, run, k - 1, m);
    } else {
      i := k - 1;
      h := SentNow(cfg, run, i, m);
    }
  }
}
