/**
 * A cluster is never stuck: from every state that a run can reach, any majority of the servers can elect a
 * leader, commit a new command and acknowledge it, without any step of the others. And nothing less can.
 */
module Availability {
  import opened Types
  import opened Logs
  import opened Quorums
  import opened NodeSpec
  import opened CommitRule
  import opened Cluster
  import opened Restarts
  import opened Safety
  import opened ReplicationSafety
  import opened Rollback
  import opened Conduct
  import opened Elections

  // ----- going on with a run -----

  /** The state at the end of a run. */
  ghost function Now(run: Run): System
    requires |run.states| > 0
  {
    run.states[|run.states| - 1]
  }

  /** `run'` goes on from `run`, with completed steps of servers in `q` only. */
  ghost predicate GoesOn(cfg: Config, run: Run, run': Run, q: set<NodeId>) {
    && IsRun(cfg, run) && IsRun(cfg, run') && run.states <= run'.states && run.steps <= run'.steps
    && forall i | |run.steps| <= i < |run'.steps| :: run'.steps[i].Complete? && Actor(run'.steps[i].a) in q
  }

  lemma GoesFurther(cfg: Config, a: Run, b: Run, c: Run, q: set<NodeId>)
    requires GoesOn(cfg, a, b, q) && GoesOn(cfg, b, c, q)
    ensures GoesOn(cfg, a, c, q)
  {
    forall i | |a.steps| <= i < |c.steps| ensures c.steps[i].Complete? && Actor(c.steps[i].a) in q {
      if i < |b.steps| { assert c.steps[i] == b.steps[i]; }
    }
  }

  /** Whatever is enabled can happen next. */
  lemma Do(cfg: Config, run: Run, q: set<NodeId>, a: Action) returns (run': Run)
    requires IsRun(cfg, run) && Enabled(cfg, Now(run), a) && Actor(a) in q
    ensures GoesOn(cfg, run, run', q) && |run'.steps| == |run.steps| + 1
    ensures run'.steps[|run.steps|] == Complete(a) && IsStep(cfg, run', |run.steps|)
    ensures Now(run').nodes == Now(run).nodes[Actor(a) := NextNode(cfg, Now(run), a)]
    ensures Now(run').net == Now(run).net + Sent(cfg, Now(run), a)
  {
    run' := Run(run.states + [Next(cfg, Now(run), Complete(a))], run.steps + [Complete(a)]);
    forall i | 0 <= i < |run'.steps| ensures IsStep(cfg, run', i) {
      if i < |run.steps| { assert IsStep(cfg, run, i); }
    }
  }

  lemma {:induction false} ServersStay(cfg: Config, run: Run, k: nat)
    requires IsRun(cfg, run) && k < |run.states|
    ensures run.states[k].nodes.Keys == cfg.servers
  {
    if k > 0 {
      ServersStay(cfg, run, k - 1);
      assert IsStep(cfg, run, k - 1);
    }
  }

  /** What every server of a run has. */
  lemma Present(cfg: Config, run: Run, n: NodeId)
    requires IsRun(cfg, run) && n in cfg.servers
    ensures n in Now(run).nodes && PeersOk(cfg, n) && At(cfg, run, |run.states| - 1, n)
    ensures forall v | v in cfg.servers && v != n :: v in cfg.peers[n]
  {
    ServersStay(cfg, run, |run.states| - 1);
    assert PeersOk(cfg, n);
    forall v | v in cfg.servers && v != n ensures v in cfg.peers[n] { assert v in Elements(cfg.peers[n]); }
  }

  // ----- who can win -----

  /** Of any servers, there is one whose log is behind that of none. */
  lemma Best(s: System, q: set<NodeId>) returns (n: NodeId)
    requires q != {} && q <= s.nodes.Keys
    ensures n in q
    ensures forall v | v in q :: UpToDate(LastTerm(s.nodes[n].log), |s.nodes[n].log|, s.nodes[v].log)
    decreases |q|
  {
    n :| n in q;
    if q != {n} {
      var m := Best(s, q - {n});
      forall v | v in q - {n} {
        UpToDateIsOrder(s.nodes[n].log, s.nodes[m].log, s.nodes[v].log, 0, 0, 0);
      }
      if !UpToDate(LastTerm(s.nodes[n].log), |s.nodes[n].log|, s.nodes[m].log) { n := m; }
    }
  }

  lemma Top(s: System, q: set<NodeId>) returns (term: nat)
    requires q <= s.nodes.Keys
    ensures forall v | v in q :: s.nodes[v].currentTerm <= term
    decreases |q|
  {
    term := 0;
    if q != {} {
      var v :| v in q;
      term := Top(s, q - {v});
      term := Max(term, s.nodes[v].currentTerm);
    }
  }

  // ----- winning -----

  /** `n` stands in a term above `term`, and has asked all its peers. */
  ghost predicate Asking(cfg: Config, s: System, n: NodeId, term: nat, log: Log) {
    && n in s.nodes && n in cfg.peers
    && var st := s.nodes[n];
       && st.role == Candidate && st.currentTerm > term && st.log == log && st.votesReceived == {n}
       && forall p | p in cfg.peers[n] :: RequestVote(n, p, VoteRequest(st, n)) in s.net
  }

  lemma Stand(cfg: Config, run: Run, q: set<NodeId>, n: NodeId, term: nat) returns (run': Run)
    requires IsRun(cfg, run) && q <= cfg.servers && n in q && n in Now(run).nodes
    ensures GoesOn(cfg, run, run', q) && Asking(cfg, Now(run'), n, term, Now(run).nodes[n].log)
    ensures Now(run').nodes == Now(run).nodes[n := Now(run').nodes[n]]
    decreases term - Now(run).nodes[n].currentTerm
  {
    Present(cfg, run, n);
    run' := Do(cfg, run, q, ElectionTimeout(n));
    var st := Now(run').nodes[n];
    if st.currentTerm <= term {
      var further := Stand(cfg, run', q, n, term);
      GoesFurther(cfg, run, run', further, q);
      run' := further;
    }
  }

  /**
   * `n` has a good enough log for all of `q`, and has the votes of those that are not in `rest`, or has won
   * already. Those in `rest` have been asked and are in earlier terms.
   */
  ghost predicate Canvassing(cfg: Config, s: System, q: set<NodeId>, n: NodeId, rest: set<NodeId>, term: nat,
    log: Log) {
    && q <= cfg.servers && n in q && rest <= q - {n} && q <= s.nodes.Keys && PeersOk(cfg, n)
    && var st := s.nodes[n];
       && st.currentTerm == term && st.log == log
       && (st.role == Leader ==> StartsLeading(cfg.peers[n], st))
       && (st.role != Leader ==> st.role == Candidate && q - rest <= st.votesReceived)
       && (forall v | v in q :: s.nodes[v].currentTerm <= term)
       && (forall v | v in rest ::
             && s.nodes[v].currentTerm < term && UpToDate(LastTerm(log), |log|, s.nodes[v].log)
             && RequestVote(n, v, VoteArgs(term, n, |log|, LastTerm(log))) in s.net)
  }

  /** Asks one server for its vote, and gets it. */
  lemma Ask(cfg: Config, run: Run, q: set<NodeId>, n: NodeId, rest: set<NodeId>, term: nat, log: Log, v: NodeId)
      returns (run': Run)
    requires IsRun(cfg, run) && Canvassing(cfg, Now(run), q, n, rest, term, log) && v in rest
    ensures GoesOn(cfg, run, run', q)
    ensures v in Now(run').nodes && Now(run').nodes[v].currentTerm == term
    ensures Now(run').nodes == Now(run).nodes[v := Now(run').nodes[v]] && Now(run).net <= Now(run').net
    ensures VoteResponse(v, n, VoteArgs(term, n, |log|, LastTerm(log)), VoteReply(term, true)) in Now(run').net
  {
    var args := VoteArgs(term, n, |log|, LastTerm(log));
    var m, st := RequestVote(n, v, args), Now(run).nodes[v];
    Present(cfg, run, v);
    run' := Do(cfg, run, q, DeliverVoteRequest(m));
    GrantedIff(st, args);
    AnswersInTerm(st, args, AppendArgs(0, 0, 0, 0, [], 0));
    assert HandleVote(st, args).1 == VoteReply(term, true);
    assert VoteResponse(v, n, args, HandleVote(st, args).1) in Sent(cfg, Now(run), DeliverVoteRequest(m));
  }

  /** Counts the vote. */
  lemma Count(cfg: Config, run: Run, q: set<NodeId>, n: NodeId, v: NodeId, args: VoteArgs, term: nat)
          returns (run': Run)
    requires IsRun(cfg, run) && n in q && q <= cfg.servers && n in Now(run).nodes && n in cfg.peers
    requires VoteResponse(v, n, args, VoteReply(term, true)) in Now(run).net && args.term == term
    requires var st := Now(run).nodes[n];
             st.currentTerm == term && (st.role == Candidate || (st.role == Leader && StartsLeading(cfg.peers[n], st)))
    ensures GoesOn(cfg, run, run', q)
    ensures n in Now(run').nodes
    ensures Now(run').nodes == Now(run).nodes[n := Now(run').nodes[n]] && Now(run).net <= Now(run').net
    ensures var st, t := Now(run).nodes[n], Now(run').nodes[n];
            && t.currentTerm == term && t.log == st.log
            && if t.role == Leader then StartsLeading(cfg.peers[n], t)
               else st.role == t.role == Candidate && t.votesReceived == st.votesReceived + {v}
  {
    var m := VoteResponse(v, n, args, VoteReply(term, true));
    run' := Do(cfg, run, q, DeliverVoteReply(m));
    if Now(run).nodes[n].role == Candidate {
      GuardedRunsCount(cfg, run);
      WinsIff(cfg, run, |run.states| - 1, m);
    } else {
      TermAfter(cfg, Now(run), DeliverVoteReply(m));
    }
  }

  lemma CanvassOne(cfg: Config, run: Run, q: set<NodeId>, n: NodeId, rest: set<NodeId>, term: nat, log: Log, v: NodeId)
      returns (run': Run)
    requires IsRun(cfg, run) && Canvassing(cfg, Now(run), q, n, rest, term, log) && v in rest
    ensures GoesOn(cfg, run, run', q) && Canvassing(cfg, Now(run'), q, n, rest - {v}, term, log)
  {
    var asked := Ask(cfg, run, q, n, rest, term, log, v);
    run' := Count(cfg, asked, q, n, v, VoteArgs(term, n, |log|, LastTerm(log)), term);
    GoesFurther(cfg, run, asked, run', q);
  }

  lemma Canvass(cfg: Config, run: Run, q: set<NodeId>, n: NodeId, rest: set<NodeId>, term: nat, log: Log)
      returns (run': Run)
    requires IsRun(cfg, run) && Canvassing(cfg, Now(run), q, n, rest, term, log)
    ensures GoesOn(cfg, run, run', q) && Canvassing(cfg, Now(run'), q, n, {}, term, log)
    decreases |rest|
  {
    run' := run;
    if rest != {} {
      var v :| v in rest;
      var one := CanvassOne(cfg, run, q, n, rest, term, log, v);
      run' := Canvass(cfg, one, q, n, rest - {v}, term, log);
      GoesFurther(cfg, run, one, run', q);
    }
  }

  /** With the votes of a majority, a candidate leads. */
  lemma Elected(cfg: Config, run: Run, q: set<NodeId>, n: NodeId, term: nat, log: Log)
    requires IsRun(cfg, run) && Canvassing(cfg, Now(run), q, n, {}, term, log)
    requires IsQuorum(cfg.servers, q) && |cfg.servers| >= 2
    ensures StartsLeading(cfg.peers[n], Now(run).nodes[n])
  {
    var st := Now(run).nodes[n];
    if st.role == Candidate {
      GuardedRunsCount(cfg, run);
      RunCounts(cfg, run, |run.states| - 1);
      assert CountOk(cfg, n, st);
      SubsetSize(q, st.votesReceived);
      assert false;
    }
  }

  /** Any majority can elect one of its members, in a term that is later than those of all of them. */
  lemma AnyMajorityElects(cfg: Config, run: Run, q: set<NodeId>) returns (run': Run, n: NodeId)
    requires IsRun(cfg, run) && |cfg.servers| >= 2 && IsQuorum(cfg.servers, q)
    ensures GoesOn(cfg, run, run', q) && n in q && q <= Now(run').nodes.Keys && PeersOk(cfg, n)
    ensures StartsLeading(cfg.peers[n], Now(run').nodes[n])
    ensures forall v | v in q :: Now(run').nodes[v].currentTerm <= Now(run').nodes[n].currentTerm
  {
    ServersStay(cfg, run, |run.states| - 1);
    var s := Now(run);
    n := Best(s, q);
    var top := Top(s, q);
    var standing := Stand(cfg, run, q, n, top);
    var st := Now(standing).nodes[n];
    Present(cfg, standing, n);
    assert VoteRequest(st, n) == VoteArgs(st.currentTerm, n, |st.log|, LastTerm(st.log));
    assert Canvassing(cfg, Now(standing), q, n, q - {n}, st.currentTerm, st.log);
    run' := Canvass(cfg, standing, q, n, q - {n}, st.currentTerm, st.log);
    Elected(cfg, run', q, n, st.currentTerm, st.log);
    GoesFurther(cfg, run, standing, run', q);
  }

  /** An entry of the leader's term that a majority holds meets the rule. */
  lemma MajorityCommits(cfg: Config, q: set<NodeId>, n: NodeId, s: NodeState)
    requires IsQuorum(cfg.servers, q) && n in q && PeersOk(cfg, n)
    requires s.log != [] && LastTerm(s.log) == s.currentTerm && s.commitIndex < |s.log|
    requires forall v | v in q && v != n :: Lookup(s.matchIndex, v) >= |s.log|
    ensures Committable(s, cfg.peers[n], |s.log|)
  {
    forall v | v in q ensures KnownToHold(n, cfg.peers[n], s, v, |s.log|) {
      if v != n { assert v in Elements(cfg.peers[n]); }
    }
    HoldersCount(cfg.servers, n, cfg.peers[n], s, q, |s.log|);
  }

  // ----- replicating -----

  /** `n` leads, with `log`; its peers in `q` are in no later term, and all but those in `rest` hold the log. */
  ghost predicate Leading(cfg: Config, s: System, q: set<NodeId>, n: NodeId, rest: set<NodeId>, term: nat, log: Log) {
    && q <= cfg.servers && n in q && rest <= q - {n} && q <= s.nodes.Keys && PeersOk(cfg, n)
    && log != [] && LastTerm(log) == term
    && var st := s.nodes[n];
       && st.role == Leader && st.currentTerm == term && st.log == log
       && (forall v | v in q :: s.nodes[v].currentTerm <= term)
       && (forall v | v in rest :: 1 <= Lookup(st.nextIndex, v) <= |log|)
       && (forall v | v in q - {n} - rest :: Lookup(st.matchIndex, v) >= |log|)
       && (rest == {} && q != {n} ==> st.commitIndex >= |log|)
  }

  /** A round between `n` and `v`, as three steps. */
  lemma OneRound(cfg: Config, run: Run, q: set<NodeId>, n: NodeId, v: NodeId) returns (run': Run)
    requires IsRun(cfg, run) && q <= cfg.servers && n in q && v in q && v != n && q <= Now(run).nodes.Keys
    requires PeersOk(cfg, n) && Now(run).nodes[n].role == Leader
    requires 1 <= Lookup(Now(run).nodes[n].nextIndex, v) <= |Now(run).nodes[n].log|
    ensures GoesOn(cfg, run, run', q)
    ensures var st := Now(run).nodes[n];
            var y := Round(n, cfg.peers[n], v, st.commitIndex)(Pair(st, Now(run).nodes[v])).0;
            Now(run').nodes == Now(run).nodes[v := y.follower][n := y.leader]
  {
    var st, f := Now(run).nodes[n], Now(run).nodes[v];
    Present(cfg, run, n);
    Present(cfg, run, v);
    var args := AppendRequest(st, n, v, Ticket(st.currentTerm, st.commitIndex));
    var r1 := Do(cfg, run, q, Replicate(n, v));
    assert Now(r1).nodes == Now(run).nodes;
    var r2 := Do(cfg, r1, q, DeliverAppend(AppendEntries(n, v, args)));
    var m := AppendResponse(v, n, args, HandleAppend(f, args).1);
    assert m in Sent(cfg, Now(r1), DeliverAppend(AppendEntries(n, v, args)));
    run' := Do(cfg, r2, q, DeliverAppendReply(m));
    GoesFurther(cfg, run, r1, r2, q);
    GoesFurther(cfg, run, r2, run', q);
  }

  /** What the leader counts after a round. */
  ghost predicate Holding(s: NodeState, t: NodeState, v: NodeId) {
    && t == s.(nextIndex := t.nextIndex, matchIndex := t.matchIndex, commitIndex := t.commitIndex)
    && forall p | p != v ::
         Lookup(t.nextIndex, p) == Lookup(s.nextIndex, p) && Lookup(t.matchIndex, p) == Lookup(s.matchIndex, p)
  }

  /** What the leader sends and counts with. */
  lemma LeaderFacts(cfg: Config, run: Run, n: NodeId, v: NodeId)
    requires IsRun(cfg, run) && n in Now(run).nodes && Now(run).nodes[n].role == Leader && PeersOk(cfg, n)
    requires 1 <= Lookup(Now(run).nodes[n].nextIndex, v) <= |Now(run).nodes[n].log|
    ensures var s := Now(run).nodes[n];
            && (forall i, j | 0 <= i <= j < |s.log| :: s.log[i].term <= s.log[j].term <= s.currentTerm)
            && (forall i | 0 <= i < |cfg.peers[n]| :: Lookup(s.matchIndex, cfg.peers[n][i]) <= |s.log|)
            && var entries := AppendRequest(s, n, v, Ticket(s.currentTerm, s.commitIndex)).entries;
               entries != [] && entries[|entries| - 1].index == |s.log|
  {
    var k := |run.states| - 1;
    assert Leads(cfg, run, k, n) && NodeAt(cfg, run, k, n) == Now(run).nodes[n];
    LogsOrdered(cfg, run, k, n);
    forall i | 0 <= i < |cfg.peers[n]| ensures Lookup(Now(run).nodes[n].matchIndex,
      cfg.peers[n][i]) <= |Now(run).nodes[n].log| {
      NextIndexBounds(cfg, run, k, n, cfg.peers[n][i]);
    }
  }

  /** A leader that learns that `v` holds its log, and what follows if all of `q` do. */
  lemma LeaderLearns(cfg: Config, q: set<NodeId>, n: NodeId, s: NodeState, v: NodeId, args: AppendArgs,
                     reply: AppendReply)
    requires IsQuorum(cfg.servers, q) && n in q && PeersOk(cfg, n) && s.log != []
    requires s.role == Leader && LastTerm(s.log) == s.currentTerm == args.term && reply.term <= s.currentTerm
    requires reply.success && args.entries != [] && args.entries[|args.entries| - 1].index == |s.log|
    requires forall i, j | 0 <= i <= j < |s.log| :: s.log[i].term <= s.log[j].term <= s.currentTerm
    requires forall i | 0 <= i < |cfg.peers[n]| :: Lookup(s.matchIndex, cfg.peers[n][i]) <= |s.log|
    ensures var t := HandleAppendReply(s, cfg.peers[n], v, args, reply);
            && Holding(s, t, v) && Lookup(t.matchIndex, v) >= |s.log|
            && ((forall u | u in q && u != n :: Lookup(t.matchIndex, u) >= |s.log|) ==> t.commitIndex >= |s.log|)
  {
    var t := HandleAppendReply(s, cfg.peers[n], v, args, reply);
    SuccessCounted(s, cfg.peers[n], v, args, reply);
    var u := s.(matchIndex := t.matchIndex);
    if s.commitIndex < |s.log| && forall p | p in q && p != n :: Lookup(u.matchIndex, p) >= |s.log| {
      MajorityCommits(cfg, q, n, u);
    }
  }

  /** An accepted round: the peer holds the log, and the leader knows it. */
  lemma RoundAccepted(cfg: Config, run: Run, q: set<NodeId>, n: NodeId, v: NodeId) returns (y: Pair)
    requires IsRun(cfg, run) && IsQuorum(cfg.servers, q) && n in q && v in q && v != n && q <= Now(run).nodes.Keys
    requires PeersOk(cfg, n)
    requires var st := Now(run).nodes[n];
             && st.role == Leader && LastTerm(st.log) == st.currentTerm && 1 <= Lookup(st.nextIndex, v) <= |st.log|
             && Now(run).nodes[v].currentTerm <= st.currentTerm
             && Round(n, cfg.peers[n], v, st.commitIndex)(Pair(st, Now(run).nodes[v])).1
    ensures var st := Now(run).nodes[n];
            && y == Round(n, cfg.peers[n], v, st.commitIndex)(Pair(st, Now(run).nodes[v])).0
            && y.follower.currentTerm == st.currentTerm && Holding(st, y.leader, v)
            && Lookup(y.leader.matchIndex, v) >= |st.log|
            && ((forall u | u in q && u != n :: Lookup(y.leader.matchIndex, u) >= |st.log|) ==>
                  y.leader.commitIndex >= |st.log|)
  {
    var st, f := Now(run).nodes[n], Now(run).nodes[v];
    var args := AppendRequest(st, n, v, Ticket(st.currentTerm, st.commitIndex));
    var reply := HandleAppend(f, args).1;
    y := Pair(HandleAppendReply(st, cfg.peers[n], v, args, reply), HandleAppend(f, args).0);
    LeaderFacts(cfg, run, n, v);
    AnswersInTerm(f, VoteArgs(0, 0, 0, 0), args);
    LeaderLearns(cfg, q, n, st, v, args, reply);
  }

  /** A refused one: nextIndex comes down. */
  lemma RoundRefused(cfg: Config, run: Run, n: NodeId, v: NodeId) returns (y: Pair)
    requires IsRun(cfg, run) && n in Now(run).nodes && v in Now(run).nodes && PeersOk(cfg, n)
    requires var st := Now(run).nodes[n];
             && st.role == Leader && 1 <= Lookup(st.nextIndex, v) <= |st.log|
             && Now(run).nodes[v].currentTerm <= st.currentTerm
             && !Round(n, cfg.peers[n], v, st.commitIndex)(Pair(st, Now(run).nodes[v])).1
    ensures var st := Now(run).nodes[n];
            && y == Round(n, cfg.peers[n], v, st.commitIndex)(Pair(st, Now(run).nodes[v])).0
            && y.follower.currentTerm <= st.currentTerm && Holding(st, y.leader, v)
            && 1 <= Lookup(y.leader.nextIndex, v) < Lookup(st.nextIndex, v)
  {
    var st, k := Now(run).nodes[n], |run.states| - 1;
    y := RoundIsProbe(Pair(st, Now(run).nodes[v]), n, cfg.peers[n], v, st.commitIndex);
    RefusedProbeLowers(cfg, run, k, n, v, Lookup(st.nextIndex, v));
  }

  lemma LeadingOn(cfg: Config, s: System, s': System, q: set<NodeId>, n: NodeId, rest: set<NodeId>, term: nat, log: Log,
                  v: NodeId, y: Pair, held: bool)
    requires Leading(cfg, s, q, n, rest, term, log) && v in rest
    requires s'.nodes == s.nodes[v := y.follower][n := y.leader]
    requires y.follower.currentTerm <= term && Holding(s.nodes[n], y.leader, v)
    requires if held then Lookup(y.leader.matchIndex, v) >= |log| else 1 <= Lookup(y.leader.nextIndex, v) <= |log|
    requires held && (forall u | u in q && u != n :: Lookup(y.leader.matchIndex, u) >= |log|) ==>
               y.leader.commitIndex >= |log|
    ensures Leading(cfg, s', q, n, if held then rest - {v} else rest, term, log)
  {
  }

  /** One round with `v`: either it holds the log, or nextIndex has come down. */
  lemma Nearer(cfg: Config, run: Run, q: set<NodeId>, n: NodeId, rest: set<NodeId>, term: nat, log: Log, v: NodeId)
      returns (run': Run, held: bool)
    requires IsRun(cfg, run) && IsQuorum(cfg.servers, q)
    requires Leading(cfg, Now(run), q, n, rest, term, log) && v in rest
    ensures GoesOn(cfg, run, run', q)
    ensures Leading(cfg, Now(run'), q, n, if held then rest - {v} else rest, term, log)
    ensures Now(run').nodes[n].submissions == Now(run).nodes[n].submissions
    ensures !held ==> Lookup(Now(run').nodes[n].nextIndex, v) < Lookup(Now(run).nodes[n].nextIndex, v)
  {
    var st, y := Now(run).nodes[n], Pair(NewNode(), NewNode());
    run' := OneRound(cfg, run, q, n, v);
    held := Round(n, cfg.peers[n], v, st.commitIndex)(Pair(st, Now(run).nodes[v])).1;
    if held { y := RoundAccepted(cfg, run, q, n, v); } else { y := RoundRefused(cfg, run, n, v); }
    LeadingOn(cfg, Now(run), Now(run'), q, n, rest, term, log, v, y, held);
  }

  /** Rounds with `v` until it holds the log. */
  lemma CatchUp(cfg: Config, run: Run, q: set<NodeId>, n: NodeId, rest: set<NodeId>, term: nat, log: Log, v: NodeId)
      returns (run': Run)
    requires IsRun(cfg, run) && IsQuorum(cfg.servers, q)
    requires Leading(cfg, Now(run), q, n, rest, term, log) && v in rest
    ensures GoesOn(cfg, run, run', q) && Leading(cfg, Now(run'), q, n, rest - {v}, term, log)
    ensures Now(run').nodes[n].submissions == Now(run).nodes[n].submissions
    decreases Lookup(Now(run).nodes[n].nextIndex, v)
  {
    var held;
    run', held := Nearer(cfg, run, q, n, rest, term, log, v);
    if !held {
      var further := CatchUp(cfg, run', q, n, rest, term, log, v);
      GoesFurther(cfg, run, run', further, q);
      run' := further;
    }
  }

  lemma CatchAllUp(cfg: Config, run: Run, q: set<NodeId>, n: NodeId, rest: set<NodeId>, term: nat, log: Log)
      returns (run': Run)
    requires IsRun(cfg, run) && IsQuorum(cfg.servers, q) && Leading(cfg, Now(run), q, n, rest, term, log)
    ensures GoesOn(cfg, run, run', q) && Leading(cfg, Now(run'), q, n, {}, term, log)
    ensures Now(run').nodes[n].submissions == Now(run).nodes[n].submissions
    decreases |rest|
  {
    run' := run;
    if rest != {} {
      var v :| v in rest;
      var one := CatchUp(cfg, run, q, n, rest, term, log, v);
      run' := CatchAllUp(cfg, one, q, n, rest - {v}, term, log);
      GoesFurther(cfg, run, one, run', q);
    }
  }

  // ----- applying -----

  /** Only the apply loop has moved. */
  ghost predicate Applying(s: NodeState, t: NodeState) {
    t == s.(phase := t.phase, delivered := t.delivered, lastApplied := t.lastApplied)
  }

  /** The apply loop ends its batch. */
  lemma Drain(cfg: Config, run: Run, q: set<NodeId>, n: NodeId) returns (run': Run)
    requires IsRun(cfg, run) && n in q && q <= cfg.servers && n in Now(run).nodes && Now(run).nodes[n].phase.Delivering?
    ensures GoesOn(cfg, run, run', q) && n in Now(run').nodes && Applying(Now(run).nodes[n], Now(run').nodes[n])
    ensures Now(run').nodes[n].phase == Idle
    ensures Now(run').nodes[n].lastApplied == Now(run).nodes[n].phase.newLastApplied
    decreases |Now(run).nodes[n].phase.rest|
  {
    Present(cfg, run, n);
    if Now(run).nodes[n].phase.rest == [] {
      run' := Do(cfg, run, q, ApplyEnd(n));
    } else {
      var one := Do(cfg, run, q, ApplyDeliver(n));
      run' := Drain(cfg, one, q, n);
      GoesFurther(cfg, run, one, run', q);
    }
  }

  /** Everything committed gets applied. */
  lemma ApplyAll(cfg: Config, run: Run, q: set<NodeId>, n: NodeId) returns (run': Run)
    requires IsRun(cfg, run) && n in q && q <= cfg.servers && n in Now(run).nodes
    ensures GoesOn(cfg, run, run', q) && n in Now(run').nodes && Applying(Now(run).nodes[n], Now(run').nodes[n])
    ensures Now(run').nodes[n].lastApplied >= Now(run).nodes[n].commitIndex
  {
    Present(cfg, run, n);
    var idle := run;
    if Now(run).nodes[n].phase.Delivering? { idle := Drain(cfg, run, q, n); }
    Present(cfg, idle, n);
    run' := idle;
    if Now(idle).nodes[n].lastApplied < Now(idle).nodes[n].commitIndex {
      var begun := Do(cfg, idle, q, ApplyBegin(n));
      run' := Drain(cfg, begun, q, n);
      GoesFurther(cfg, idle, begun, run', q);
    }
    GoesFurther(cfg, run, idle, run', q);
  }

  // ----- all together -----

  lemma SubmitTo(cfg: Config, run: Run, q: set<NodeId>, n: NodeId, command: Command)
          returns (run': Run, sub: Submission)
    requires IsRun(cfg, run) && n in q && q <= cfg.servers && q <= Now(run).nodes.Keys && PeersOk(cfg, n) && q != {n}
    requires StartsLeading(cfg.peers[n], Now(run).nodes[n])
    requires forall v | v in q :: Now(run).nodes[v].currentTerm <= Now(run).nodes[n].currentTerm
    ensures GoesOn(cfg, run, run', q) && n in Now(run').nodes
    ensures var t := Now(run').nodes[n];
            && Leading(cfg, Now(run'), q, n, q - {n}, t.currentTerm, t.log)
            && sub in t.submissions && sub == Submission(|t.log|, t.currentTerm, command)
  {
    Present(cfg, run, n);
    run' := Do(cfg, run, q, ClientSubmit(n, command));
    var t := Now(run').nodes[n];
    sub := Submission(|t.log|, t.currentTerm, command);
  }

  /** The servers in `q` go on until `n` answers the client that submitted `sub`. */
  ghost predicate Serves(cfg: Config, run: Run, run': Run, q: set<NodeId>, n: NodeId, sub: Submission) {
    && GoesOn(cfg, run, run', q) && |run'.steps| > |run.steps|
    && Acknowledged(cfg, run', |run'.steps| - 1, n, sub)
  }

  /** A leader whose log a majority holds answers its client. */
  lemma Answer(cfg: Config, run: Run, q: set<NodeId>, n: NodeId, sub: Submission, log: Log) returns (run': Run)
    requires IsRun(cfg, run) && Leading(cfg, Now(run), q, n, {}, sub.term, log) && q != {n}
    requires sub in Now(run).nodes[n].submissions && sub.index == |log|
    ensures Serves(cfg, run, run', q, n, sub)
  {
    var applied := ApplyAll(cfg, run, q, n);
    Present(cfg, applied, n);
    run' := Do(cfg, applied, q, ClientReturn(n, sub));
    GoesFurther(cfg, run, applied, run', q);
  }

  lemma Serve(cfg: Config, run: Run, q: set<NodeId>, n: NodeId, command: Command) returns (run': Run, sub: Submission)
    requires IsRun(cfg, run) && IsQuorum(cfg.servers, q) && n in q && q <= Now(run).nodes.Keys && PeersOk(cfg, n)
    requires StartsLeading(cfg.peers[n], Now(run).nodes[n]) && q != {n}
    requires forall v | v in q :: Now(run).nodes[v].currentTerm <= Now(run).nodes[n].currentTerm
    ensures Serves(cfg, run, run', q, n, sub) && sub.command == command
  {
    var submitted;
    submitted, sub := SubmitTo(cfg, run, q, n, command);
    var log := Now(submitted).nodes[n].log;
    var held := CatchAllUp(cfg, submitted, q, n, q - {n}, sub.term, log);
    run' := Answer(cfg, held, q, n, sub, log);
    GoesFurther(cfg, run, submitted, held, q);
    GoesFurther(cfg, run, held, run', q);
  }

  /**
   * From every state of every run, any majority can commit and acknowledge any command, whatever the other
   * servers do or do not do.
   */
  lemma AnyMajorityCommits(cfg: Config, run: Run, q: set<NodeId>, command: Command)
      returns (run': Run, n: NodeId, sub: Submission)
    requires IsRun(cfg, run) && |cfg.servers| >= 2 && IsQuorum(cfg.servers, q)
    ensures Serves(cfg, run, run', q, n, sub) && sub.command == command
  {
    var elected;
    elected, n := AnyMajorityElects(cfg, run, q);
    assert |{n}| == 1;
    run', sub := Serve(cfg, elected, q, n, command);
    GoesFurther(cfg, run, elected, run', q);
  }

  // ----- nothing less will do -----

  lemma {:induction false} OthersRest(cfg: Config, run: Run, run': Run, q: set<NodeId>, k: nat, v: NodeId)
    requires GoesOn(cfg, run, run', q) && v in cfg.servers && v !in q && |run.steps| <= k < |run'.states|
    ensures v in Now(run).nodes && v in run'.states[k].nodes && run'.states[k].nodes[v] == Now(run).nodes[v]
    decreases k
  {
    Present(cfg, run, v);
    if k == |run.steps| {
      assert run'.states[k] == Now(run);
    } else {
      OthersRest(cfg, run, run', q, k - 1, v);
      assert IsStep(cfg, run', k - 1);
    }
  }

  /** Without a majority, nothing is acknowledged that has not already reached a server outside. */
  lemma AlreadyOutside(cfg: Config, run: Run, run': Run, q: set<NodeId>, k: nat, n: NodeId, sub: Submission)
      returns (v: NodeId)
    requires GoesOn(cfg, run, run', q) && |run.steps| <= k && Acknowledged(cfg, run', k, n, sub)
    requires q <= cfg.servers && !IsQuorum(cfg.servers, q)
    ensures v in Now(run).nodes && Entry(sub.term, sub.index, sub.command) in Now(run).nodes[v].log
  {
    AcknowledgedIsCommitted(cfg, run', k, n, sub);
    var s := NodeAt(cfg, run', k, n);
    var holders := CommittedIsHeld(cfg, run', k, k, n);
    if holders <= q { SubsetSize(holders, q); }
    v :| v in holders && v !in q;
    OthersRest(cfg, run, run', q, k, v);
    assert s.log[..s.commitIndex][sub.index - 1] == Entry(sub.term, sub.index, sub.command);
  }

  /** In a cluster of one, there is nobody to vote, and so no leader. */
  lemma {:induction false} LonersNeverLead(cfg: Config, run: Run, k: nat, n: NodeId)
    requires IsAnyRun(cfg, run) && k < |run.states| && |cfg.servers| < 2 && n in run.states[k].nodes
    ensures run.states[k].nodes[n].role != Leader
  {
    if k > 0 {
      assert Linked(cfg, run, k - 1);
      LonersNeverLead(cfg, run, k - 1, n);
      RunCounts(cfg, run, k - 1);
      var a := run.steps[k - 1].a;
      if run.states[k].nodes[n].role == Leader {
        assert a.DeliverVoteReply? && BetweenServers(cfg, a.m);
        TwoServers(cfg, a.m.src, a.m.dst);
        assert false;
      }
    }
  }

  /** A command that no log holds. */
  lemma FreshFor(log: Log) returns (length: nat)
    ensures forall e | e in log :: |e.command| < length
  {
    length := 0;
    if log != [] {
      var last := |log| - 1;
      length := FreshFor(log[..last]);
      length := Max(length, |log[last].command| + 1);
    }
  }

  lemma FreshCommand(s: System, q: set<NodeId>) returns (length: nat)
    requires q <= s.nodes.Keys
    ensures forall v, e | v in q && e in s.nodes[v].log :: |e.command| < length
    decreases |q|
  {
    length := 0;
    if q != {} {
      var v :| v in q;
      length := FreshCommand(s, q - {v});
      var own := FreshFor(s.nodes[v].log);
      length := Max(length, own);
    }
  }

  /** The servers in `q` can still get `command` acknowledged. */
  ghost predicate CanServe(cfg: Config, run: Run, q: set<NodeId>, command: Command) {
    exists run', n, sub :: Serves(cfg, run, run', q, n, sub) && sub.command == command
  }

  lemma MinorityFails(cfg: Config, run: Run, q: set<NodeId>) returns (command: Command)
    requires IsRun(cfg, run) && q <= cfg.servers && !(IsQuorum(cfg.servers, q) && |cfg.servers| >= 2)
    ensures !CanServe(cfg, run, q, command)
  {
    ServersStay(cfg, run, |run.states| - 1);
    var length := FreshCommand(Now(run), cfg.servers);
    command := seq(length, _ => 0);
    if CanServe(cfg, run, q, command) {
      var run', n, sub :| Serves(cfg, run, run', q, n, sub) && sub.command == command;
      var k := |run'.steps| - 1;
      if |cfg.servers| < 2 {
        GuardedRunsCount(cfg, run');
        LonersNeverLead(cfg, run', k, n);
      } else {
        var v := AlreadyOutside(cfg, run, run', q, k, n, sub);
      }
      assert false;
    }
  }

  /**
   * From every state of every run, a set of servers can get every command acknowledged by itself if and only
   * if it is a majority of at least two servers.
   */
  lemma AvailableIff(cfg: Config, run: Run, q: set<NodeId>)
    requires IsRun(cfg, run) && q <= cfg.servers
    ensures (forall command :: CanServe(cfg, run, q, command)) <==> IsQuorum(cfg.servers, q) && |cfg.servers| >= 2
  {
    if IsQuorum(cfg.servers, q) && |cfg.servers| >= 2 {
      forall command ensures CanServe(cfg, run, q, command) {
        var run', n, sub := AnyMajorityCommits(cfg, run, q, command);
      }
    } else {
      var command := MinorityFails(cfg, run, q);
    }
  }
}
