/** Runs put together step by step, for what does not hold in all runs. */
module Scenarios {
  import opened Types
  import opened Logs
  import opened Recovery
  import opened NodeSpec
  import opened CommitRule
  import opened Cluster
  import opened Restarts

  ghost function Last(run: Run): System
    requires |run.states| == |run.steps| + 1
  {
    run.states[|run.steps|]
  }

  /** Which restarts are admitted: such as forget votes, terms or entries, or bring back a truncated log. */
  datatype Flaws = Flaws(votes: bool, terms: bool, entries: bool, truncates: bool)

  ghost predicate Admitted(cfg: Config, f: Flaws, s: System, step: Step) {
    && CanHappen(cfg, s, step)
    && (f.votes || KeepsVotes(cfg, s, step)) && (f.terms || KeepsTerms(cfg, s, step))
    && (f.entries || KeepsEntries(cfg, s, step)) && (f.truncates || TellsLog(cfg, s, step))
  }

  ghost predicate AllAdmitted(cfg: Config, f: Flaws, run: Run)
    requires |run.states| == |run.steps| + 1
  {
    forall i {:trigger Linked(cfg, run, i)} | 0 <= i < |run.steps| :: Admitted(cfg, f, run.states[i], run.steps[i])
  }

  /** A run with no other crashes. */
  datatype Play = Play(cfg: Config, run: Run, flaws: Flaws)

  ghost predicate Reached(p: Play, s: System) {
    && IsAnyRun(p.cfg, p.run) && Last(p.run) == s && s.nodes.Keys == p.cfg.servers && s.nodes.Keys == p.cfg.peers.Keys
    && AllAdmitted(p.cfg, p.flaws, p.run)
  }

  ghost predicate Continues(p: Play, q: Play) {
    p.run.states <= q.run.states && p.run.steps <= q.run.steps && q.flaws == p.flaws && q.cfg == p.cfg
  }

  lemma Then(p: Play, s: System, step: Step) returns (q: Play)
    requires Reached(p, s) && CanHappen(p.cfg, s, step) && Admitted(p.cfg, p.flaws, s, step)
    ensures Reached(q, Next(p.cfg, s, step)) && Continues(p, q)
    ensures |q.run.steps| == |p.run.steps| + 1 && q.run.steps[|p.run.steps|] == step
  {
    var run := p.run;
    q := Play(p.cfg, Run(run.states + [Next(p.cfg, s, step)], run.steps + [step]), p.flaws);
    forall i | 0 <= i < |q.run.steps|
      ensures Linked(p.cfg, q.run, i) && Admitted(p.cfg, p.flaws, q.run.states[i], q.run.steps[i])
    {
      if i < |run.steps| { assert Linked(p.cfg, run, i); }
    }
  }

  // ----- elections -----

  lemma StandsUp(p: Play, s: System, n: NodeId) returns (q: Play, net: set<Message>)
    requires Reached(p, s) && n in p.cfg.servers
    ensures Reached(q, System(s.nodes[n := StartElection(s.nodes[n], n)], net)) && Continues(p, q) && s.net <= net
    ensures forall v | v in p.cfg.peers[n] :: RequestVote(n, v, VoteRequest(StartElection(s.nodes[n], n), n)) in net
  {
    q := Then(p, s, Complete(ElectionTimeout(n)));
    net := Last(q.run).net;
  }

  lemma Votes(p: Play, s: System, m: Message) returns (q: Play, net: set<Message>)
    requires Reached(p, s) && m in s.net && m.RequestVote? && m.dst in p.cfg.servers
    ensures Reached(q, System(s.nodes[m.dst := HandleVote(s.nodes[m.dst], m.vote).0], net))
    ensures Continues(p, q) && s.net <= net
    ensures VoteResponse(m.dst, m.src, m.vote, HandleVote(s.nodes[m.dst], m.vote).1) in net
  {
    q := Then(p, s, Complete(DeliverVoteRequest(m)));
    net := Last(q.run).net;
  }

  lemma Counts(p: Play, s: System, m: Message) returns (q: Play)
    requires Reached(p, s) && m in s.net && m.VoteResponse? && m.dst in p.cfg.servers
    ensures Reached(q, System(s.nodes[m.dst :=
              HandleVoteReply(s.nodes[m.dst], p.cfg.peers[m.dst], m.src, m.vote.term, m.voteReply)], s.net))
    ensures Continues(p, q)
  {
    q := Then(p, s, Complete(DeliverVoteReply(m)));
    assert s.net + {} == s.net;
  }

  lemma Overwritten(nodes: map<NodeId, NodeState>, n: NodeId, v: NodeId, a: NodeState, b: NodeState, c: NodeState)
    requires n != v
    ensures nodes[n := a][v := b][n := c] == nodes[n := c][v := b]
  {
  }

  lemma Twice(nodes: map<NodeId, NodeState>, n: NodeId, a: NodeState, b: NodeState)
    ensures nodes[n := a][n := b] == nodes[n := b]
  {
  }

  lemma Swapped(nodes: map<NodeId, NodeState>, n: NodeId, v: NodeId, a: NodeState, b: NodeState)
    requires n != v
    ensures nodes[v := b][n := a] == nodes[n := a][v := b]
  {
  }

  // ----- replication -----

  lemma Submits(p: Play, s: System, n: NodeId, command: Command) returns (q: Play)
    requires Reached(p, s) && n in p.cfg.servers && s.nodes[n].role == Leader
    ensures Reached(q, System(s.nodes[n := Submit(s.nodes[n], command)], s.net)) && Continues(p, q)
  {
    q := Then(p, s, Complete(ClientSubmit(n, command)));
    assert s.net + {} == s.net;
  }

  /** What the leader sends to `p` now. */
  function Request(s: NodeState, n: NodeId, p: NodeId): AppendArgs {
    AppendRequest(s, n, p, Ticket(s.currentTerm, s.commitIndex))
  }

  lemma Sends(p: Play, s: System, n: NodeId, to: NodeId) returns (q: Play, net: set<Message>)
    requires Reached(p, s) && n in p.cfg.servers && s.nodes[n].role == Leader && to in p.cfg.peers[n]
    requires EntriesFrom(s.nodes[n].log, Lookup(s.nodes[n].nextIndex, to)) != []
    ensures Reached(q, System(s.nodes, net)) && AppendEntries(n, to, Request(s.nodes[n], n, to)) in net
    ensures Continues(p, q) && s.net <= net
  {
    q := Then(p, s, Complete(Replicate(n, to)));
    net := Last(q.run).net;
    assert s.nodes[n := s.nodes[n]] == s.nodes;
  }

  /** A leader begins a heartbeat: it captures its term and commit index. */
  lemma Captures(p: Play, s: System, n: NodeId) returns (q: Play)
    requires Reached(p, s) && n in p.cfg.servers && s.nodes[n].role == Leader
    ensures var st := s.nodes[n];
            Reached(q, System(s.nodes[n := st.(tickets := st.tickets + {Ticket(st.currentTerm, st.commitIndex)})],
              s.net))
    ensures Continues(p, q)
  {
    q := Then(p, s, Complete(BeginHeartbeat(n)));
    assert s.net + {} == s.net;
  }

  /** It goes on with the heartbeat, whatever has become of it since. */
  lemma Beats(p: Play, s: System, n: NodeId, to: NodeId, t: Ticket) returns (q: Play, net: set<Message>)
    requires Reached(p, s) && n in p.cfg.servers && to in p.cfg.peers[n] && t in s.nodes[n].tickets
    ensures Reached(q, System(s.nodes, net)) && AppendEntries(n, to, AppendRequest(s.nodes[n], n, to, t)) in net
    ensures Continues(p, q) && s.net <= net
  {
    q := Then(p, s, Complete(SendHeartbeat(n, to, t)));
    net := Last(q.run).net;
    assert s.nodes[n := s.nodes[n]] == s.nodes;
  }

  lemma Receives(p: Play, s: System, m: Message) returns (q: Play, net: set<Message>)
    requires Reached(p, s) && m in s.net && m.AppendEntries? && m.dst in p.cfg.servers
    ensures Reached(q, System(s.nodes[m.dst := HandleAppend(s.nodes[m.dst], m.append).0], net))
    ensures AppendResponse(m.dst, m.src, m.append, HandleAppend(s.nodes[m.dst], m.append).1) in net
    ensures Continues(p, q) && s.net <= net
  {
    q := Then(p, s, Complete(DeliverAppend(m)));
    net := Last(q.run).net;
  }

  lemma Answered(p: Play, s: System, m: Message) returns (q: Play)
    requires Reached(p, s) && m in s.net && m.AppendResponse? && m.dst in p.cfg.servers
    ensures Reached(q, System(s.nodes[m.dst :=
              HandleAppendReply(s.nodes[m.dst], p.cfg.peers[m.dst], m.src, m.append, m.appendReply)], s.net))
    ensures Continues(p, q)
  {
    q := Then(p, s, Complete(DeliverAppendReply(m)));
    assert s.net + {} == s.net;
  }

  /** One round of replication: the leader sends to `to`, which handles what it receives. */
  lemma Replicates(p: Play, s: System, n: NodeId, to: NodeId) returns (q: Play, net: set<Message>)
    requires Reached(p, s) && n in p.cfg.servers && s.nodes[n].role == Leader && to in p.cfg.peers[n]
    requires to in p.cfg.servers && EntriesFrom(s.nodes[n].log, Lookup(s.nodes[n].nextIndex, to)) != []
    ensures var (after, reply) := HandleAppend(s.nodes[to], Request(s.nodes[n], n, to));
            && Reached(q, System(s.nodes[to := after], net))
            && AppendResponse(to, n, Request(s.nodes[n], n, to), reply) in net
    ensures Continues(p, q) && s.net <= net
  {
    q, net := Sends(p, s, n, to);
    q, net := Receives(q, System(s.nodes, net), AppendEntries(n, to, Request(s.nodes[n], n, to)));
  }

  /** The middle of three match indices of which the first is not exceeded and reached by one more. */
  lemma MiddleOfThree(a: nat, b: nat, c: nat)
    requires (a == b && c < a) || (a == c && b < a)
    ensures MiddleMatch([a, b, c]) == a
  {
    var m := [a, b, c];
    assert m[1..] == [b, c] && m[1..][1..] == [c];
    assert CountAtLeast([c], a) == if c >= a then 1 else 0;
    assert CountAtLeast([b, c], a) == (if b >= a then 1 else 0) + CountAtLeast([c], a);
    assert CountAtLeast([b, c], a + 1) == CountAtLeast([c], a + 1) == 0;
    MiddleIsMajority(m, a);
    MiddleIsMajority(m, a + 1);
  }

  // ----- the apply loop and clients -----

  /** One batch of the apply loop, up to its first delivery. */
  lemma Delivers(p: Play, s: System, n: NodeId) returns (q: Play)
    requires Reached(p, s) && n in p.cfg.servers
    ensures Reached(q, System(s.nodes[n := DeliverOne(BeginApply(s.nodes[n]))], s.net)) && Continues(p, q)
  {
    q := Then(p, s, Complete(ApplyBegin(n)));
    assert s.net + {} == s.net;
    var began := System(s.nodes[n := BeginApply(s.nodes[n])], s.net);
    q := Then(q, began, Complete(ApplyDeliver(n)));
    assert began.nodes[n := DeliverOne(BeginApply(s.nodes[n]))] == s.nodes[n := DeliverOne(BeginApply(s.nodes[n]))];
  }

  lemma Finishes(p: Play, s: System, n: NodeId) returns (q: Play)
    requires Reached(p, s) && n in p.cfg.servers
    ensures Reached(q, System(s.nodes[n := EndApply(s.nodes[n])], s.net)) && Continues(p, q)
  {
    q := Then(p, s, Complete(ApplyEnd(n)));
    assert s.net + {} == s.net;
  }

  /** A batch of one entry. */
  lemma Applies(p: Play, s: System, n: NodeId) returns (q: Play)
    requires Reached(p, s) && n in p.cfg.servers
    ensures Reached(q, System(s.nodes[n := EndApply(DeliverOne(BeginApply(s.nodes[n])))], s.net)) && Continues(p, q)
  {
    var d := DeliverOne(BeginApply(s.nodes[n]));
    q := Delivers(p, s, n);
    q := Finishes(q, System(s.nodes[n := d], s.net), n);
    assert s.nodes[n := d][n := EndApply(d)] == s.nodes[n := EndApply(d)];
  }

  /** SubmitCommand returns success to its caller. */
  lemma Returns(p: Play, s: System, n: NodeId, sub: Submission) returns (q: Play)
    requires Reached(p, s) && n in p.cfg.servers && SubmitReturns(s.nodes[n], sub)
    ensures Reached(q, System(s.nodes[n := s.nodes[n].(submissions := s.nodes[n].submissions - {sub})], s.net))
    ensures Continues(p, q) && |q.run.steps| > |p.run.steps|
    ensures q.run.steps[|p.run.steps|] == Complete(ClientReturn(n, sub))
  {
    q := Then(p, s, Complete(ClientReturn(n, sub)));
    assert s.net + {} == s.net;
  }

  // ----- crashes -----

  /** A crash after which replay finds everything. */
  lemma FindsAll(p: Play, s: System, a: Action, written: nat, left: nat) returns (q: Play)
    requires Reached(p, s) && CanHappen(p.cfg, s, Crash(a, written, left)) && Intact(Crashed(p.cfg, s, a, written))
    requires p.flaws.truncates || (s.nodes[Actor(a)].discarded == 0 && NextNode(p.cfg, s, a).discarded == 0)
    ensures Reached(q, System(s.nodes[Actor(a) := Restart(Crashed(p.cfg, s, a, written), left)], s.net))
    ensures Continues(p, q)
  {
    IntactKeepsAll(p.cfg, p.run, |p.run.steps|, Crash(a, written, left));
    q := Then(p, s, Crash(a, written, left));
  }

  /** The node as it is, for a crash in front of the first record of a candidacy. */
  lemma IdleCrash(cfg: Config, s: System, n: NodeId, left: nat)
    requires n in cfg.servers && n in cfg.peers && n in s.nodes
    ensures CanHappen(cfg, s, Crash(ElectionTimeout(n), 0, left))
    ensures Crashed(cfg, s, ElectionTimeout(n), 0) == s.nodes[n]
  {
    var wal := StartElection(s.nodes[n], n).wal;
    assert wal[..|s.nodes[n].wal| + 0] == s.nodes[n].wal;
  }

  lemma Reboots(p: Play, s: System, n: NodeId, left: nat) returns (q: Play)
    requires Reached(p, s) && n in p.cfg.servers && Intact(s.nodes[n])
    requires p.flaws.truncates || s.nodes[n].discarded == 0
    ensures Reached(q, System(s.nodes[n := Restart(s.nodes[n], left)], s.net)) && Continues(p, q)
  {
    IdleCrash(p.cfg, s, n, left);
    q := FindsAll(p, s, ElectionTimeout(n), 0, left);
  }

  /** All that lies behind stray bytes may be lost with these flaws. */
  ghost predicate LosesOnly(f: Flaws, found: seq<Record>, lost: seq<Record>) {
    forall i | 0 <= i < |lost| ::
      && (f.votes || !lost[i].VoteRecord?) && (f.entries || !lost[i].EntryRecord?)
      && (f.terms || TermOf(lost[i]) <= Fold(found).term)
  }

  ghost predicate MayLose(f: Flaws, s: NodeState) {
    !Intact(s) && s.discarded == 0 && LosesOnly(f, s.wal[..s.found], s.wal[s.found..])
  }

  /** A crash after which replay loses what lies behind stray bytes. */
  lemma Loses(p: Play, s: System, n: NodeId) returns (q: Play)
    requires Reached(p, s) && n in p.cfg.servers && MayLose(p.flaws, s.nodes[n])
    ensures Reached(q, System(s.nodes[n := Restart(s.nodes[n], 0)], s.net)) && Continues(p, q)
  {
    IdleCrash(p.cfg, s, n, 0);
    LossAdmitted(p, s, n);
    q := Then(p, s, Crash(ElectionTimeout(n), 0, 0));
  }

  lemma LossAdmitted(p: Play, s: System, n: NodeId)
    requires Reached(p, s) && n in p.cfg.servers && MayLose(p.flaws, s.nodes[n])
    ensures Admitted(p.cfg, p.flaws, s, Crash(ElectionTimeout(n), 0, 0))
  {
    var st, k := s.nodes[n], |p.run.steps|;
    var found, lost := st.wal[..st.found], st.wal[st.found..];
    IdleCrash(p.cfg, s, n, 0);
    assert Found(p.cfg, s, ElectionTimeout(n), 0) == found;
    assert forall i | |found| <= i < |st.wal| :: st.wal[i] == lost[i - |found|];
    if !p.flaws.votes {
      forall rec | rec in st.wal && rec.VoteRecord? ensures rec in found {
        var i :| 0 <= i < |st.wal| && st.wal[i] == rec;
        assert i < |found| && found[i] == rec;
      }
      NoVoteBehind(p.cfg, p.run, k, ElectionTimeout(n), 0, 0);
    }
  }
}

/** Runs of three servers. */
module ThreeServers {
  import opened Types
  import opened Quorums
  import opened NodeSpec
  import opened Cluster
  import opened Scenarios

  const CFG := Config({1, 2, 3}, map[1 := [2, 3], 2 := [1, 3], 3 := [1, 2]])

  lemma CfgOk()
    ensures ValidConfig(CFG)
  {
    assert Elements([2, 3]) == {2, 3} && Elements([1, 3]) == {1, 3} && Elements([1, 2]) == {1, 2};
    assert PeersOk(CFG, 1) && PeersOk(CFG, 2) && PeersOk(CFG, 3);
  }

  function Three(a: NodeState, b: NodeState, c: NodeState): map<NodeId, NodeState> {
    map[1 := a, 2 := b, 3 := c]
  }

  lemma ThreeUpdates(a: NodeState, b: NodeState, c: NodeState, x: NodeState)
    ensures Three(a, b, c)[1 := x] == Three(x, b, c)
    ensures Three(a, b, c)[2 := x] == Three(a, x, c)
    ensures Three(a, b, c)[3 := x] == Three(a, b, x)
    ensures Three(a, b, c).Keys == CFG.servers
  {
  }

  /** A run of the three servers with these flaws. */
  ghost predicate Plays(p: Play, flaws: Flaws) {
    p.cfg == CFG && p.flaws == flaws
  }

  ghost predicate PlayedOut(p: Play, flaws: Flaws) {
    |p.run.states| == |p.run.steps| + 1 && Reached(p, Last(p.run)) && Plays(p, flaws)
  }

  lemma Begin(flaws: Flaws) returns (p: Play)
    ensures Reached(p, System(Three(NewNode(), NewNode(), NewNode()), {})) && Plays(p, flaws)
  {
    CfgOk();
    p := Play(CFG, Run([System(Three(NewNode(), NewNode(), NewNode()), {})], []), flaws);
  }

  /** The state of `n` when it has won with the vote of one peer. */
  function Winner(s: NodeState, n: NodeId, v: NodeId): NodeState
    requires n in CFG.peers
  {
    BecomeLeader(StartElection(s, n).(votesReceived := {n, v}, votes := 2), CFG.peers[n])
  }

  lemma VoteDecides(s: NodeState, n: NodeId, v: NodeId)
    requires n in CFG.servers && v in CFG.peers[n]
    ensures var candidate := StartElection(s, n);
            HandleVoteReply(candidate, CFG.peers[n], v, candidate.currentTerm, VoteReply(candidate.currentTerm, true))
            == Winner(s, n, v)
  {
    assert {n} + {v} == {n, v} && v != n && |CFG.peers[n]| == 2;
  }

  /** Two steps in which `n` stands and `v` grants its vote. */
  lemma GetsVote(p: Play, s: System, n: NodeId, v: NodeId) returns (q: Play, net: set<Message>)
    requires Reached(p, s) && p.cfg == CFG && n in CFG.servers && v in CFG.peers[n]
    requires GrantsVote(s.nodes[v], VoteRequest(StartElection(s.nodes[n], n), n))
    requires s.nodes[v].currentTerm <= s.nodes[n].currentTerm + 1
    ensures var args := VoteRequest(StartElection(s.nodes[n], n), n);
            && Reached(q, System(s.nodes[n := StartElection(s.nodes[n], n)][v := HandleVote(s.nodes[v], args).0], net))
            && VoteResponse(v, n, args, VoteReply(args.term, true)) in net
    ensures Continues(p, q) && s.net <= net
  {
    var candidate := StartElection(s.nodes[n], n);
    var args := VoteRequest(candidate, n);
    q, net := StandsUp(p, s, n);
    q, net := Votes(q, System(s.nodes[n := candidate], net), RequestVote(n, v, args));
  }

  /** Three steps in which `n` stands and wins with the vote of `v`. */
  lemma Wins(p: Play, s: System, n: NodeId, v: NodeId) returns (q: Play, net: set<Message>)
    requires Reached(p, s) && p.cfg == CFG && n in CFG.servers && v in CFG.peers[n]
    requires GrantsVote(s.nodes[v], VoteRequest(StartElection(s.nodes[n], n), n))
    requires s.nodes[v].currentTerm <= s.nodes[n].currentTerm + 1
    ensures var args := VoteRequest(StartElection(s.nodes[n], n), n);
            && Reached(q, System(s.nodes[n := Winner(s.nodes[n], n, v)][v := HandleVote(s.nodes[v], args).0], net))
            && VoteResponse(v, n, args, VoteReply(args.term, true)) in net
    ensures Continues(p, q) && s.net <= net
  {
    var candidate := StartElection(s.nodes[n], n);
    var args := VoteRequest(candidate, n);
    var voter := HandleVote(s.nodes[v], args).0;
    q, net := GetsVote(p, s, n, v);
    VoteDecides(s.nodes[n], n, v);
    q := Counts(q, System(s.nodes[n := candidate][v := voter], net),
      VoteResponse(v, n, args, VoteReply(args.term, true)));
    Overwritten(s.nodes, n, v, candidate, voter, Winner(s.nodes[n], n, v));
  }
}

/**
 * How a leader of an empty log commits, delivers and acknowledges its first entry with the help of
 * server 3, and how server 3 comes to write behind stray bytes.
 */
module FirstEntries {
  import opened Types
  import opened Logs
  import opened Recovery
  import opened NodeSpec
  import opened Cluster
  import opened Scenarios
  import opened ThreeServers

  /** A leader that has not done anything yet; `a` is its other peer. */
  ghost predicate Begins(w: NodeState, term: nat, a: NodeId) {
    && w.role == Leader && w.currentTerm == term && w.log == [] && w.commitIndex == 0 && w.lastApplied == 0
    && w.phase == Idle && w.delivered == []
    && a in w.matchIndex && w.matchIndex[a] == 0 && 3 in w.matchIndex && w.matchIndex[3] == 0
    && 3 in w.nextIndex && w.nextIndex[3] == 1
  }

  /** A leader that has committed its first entry. */
  ghost predicate Done(w: NodeState, e: Entry) {
    && w.role == Leader && w.currentTerm == e.term && w.log == [e] && w.commitIndex == 1
    && w.lastApplied == 0 && w.phase == Idle && w.delivered == [] && Submission(1, e.term, e.command) in w.submissions
  }

  /** A leader that has also delivered it and told its client. */
  ghost predicate Told(w: NodeState, e: Entry) {
    w.role == Leader && w.currentTerm == e.term && w.log == [e] && w.commitIndex == 1 && w.delivered == [e]
  }

  lemma WinnerBegins(s: NodeState, n: NodeId, v: NodeId, a: NodeId)
    requires n in CFG.servers && CFG.peers[n] == [a, 3]
    requires s.log == [] && s.commitIndex == 0 && s.lastApplied == 0 && s.phase == Idle && s.delivered == []
    ensures Begins(Winner(s, n, v), s.currentTerm + 1, a)
  {
    assert a in CFG.peers[n] && 3 in CFG.peers[n];
  }

  /** What it sends when it has taken its first command. */
  function First(n: NodeId, e: Entry): AppendArgs {
    AppendArgs(e.term, n, 0, 0, [e], 0)
  }

  lemma FirstRequest(w: NodeState, n: NodeId, a: NodeId, e: Entry)
    requires Begins(w, e.term, a) && e.index == 1
    ensures var u := Submit(w, e.command);
            && u.log == [e] && EntriesFrom(u.log, Lookup(u.nextIndex, 3)) == [e] && Request(u, n, 3) == First(n, e)
  {
    assert Submit(w, e.command).log == [e];
  }

  /** Server 3 answers that it holds the entry, be it only one of the same term. */
  ghost predicate Accepts(s: NodeState, n: NodeId, e: Entry) {
    HandleAppend(s, First(n, e)).1 == AppendReply(e.term, true, 0, 0)
  }

  lemma FirstAccepted(s: NodeState, n: NodeId, e: Entry)
    requires s.log == [] && s.currentTerm <= e.term
    ensures Accepts(s, n, e) && HandleAppend(s, First(n, e)).0.log == [e]
  {
    assert Divergence([], 0, [e]) == 0;
    assert s.log[..0] + [e][0..] == [e];
  }

  lemma FirstCommitted(w: NodeState, n: NodeId, a: NodeId, e: Entry)
    requires Begins(w, e.term, a) && e.index == 1 && a != 3
    ensures Done(HandleAppendReply(Submit(w, e.command), [a, 3], 3, First(n, e), AppendReply(e.term, true, 0, 0)), e)
  {
    var u := Submit(w, e.command);
    assert u.log == [e];
    var s := u.(nextIndex := Raise(u.nextIndex, 3, 2), matchIndex := Raise(u.matchIndex, 3, 1));
    assert MatchIndices(s, [a, 3]) == [1, 0, 1];
    MiddleOfThree(1, 0, 1);
  }

  /** The leader takes a command and server 3 accepts it. */
  lemma Offered(p: Play, s: System, n: NodeId, a: NodeId, e: Entry) returns (q: Play, net: set<Message>)
    requires Reached(p, s) && p.cfg == CFG && n in {1, 2} && CFG.peers[n] == [a, 3] && e.index == 1
    requires Begins(s.nodes[n], e.term, a) && Accepts(s.nodes[3], n, e)
    ensures Reached(q, System(s.nodes[n := Submit(s.nodes[n], e.command)]
                                     [3 := HandleAppend(s.nodes[3], First(n, e)).0], net))
    ensures Continues(p, q) && s.net <= net && AppendResponse(3, n, First(n, e), AppendReply(e.term, true, 0, 0)) in net
  {
    FirstRequest(s.nodes[n], n, a, e);
    q := Submits(p, s, n, e.command);
    q, net := Replicates(q, System(s.nodes[n := Submit(s.nodes[n], e.command)], s.net), n, 3);
  }

  /** It counts the answer and commits. */
  lemma Committed(p: Play, s: System, n: NodeId, a: NodeId, e: Entry) returns (q: Play, net: set<Message>, w: NodeState)
    requires Reached(p, s) && p.cfg == CFG && n in {1, 2} && CFG.peers[n] == [a, 3] && e.index == 1 && a != 3
    requires Begins(s.nodes[n], e.term, a) && Accepts(s.nodes[3], n, e)
    ensures Reached(q, System(s.nodes[n := w][3 := HandleAppend(s.nodes[3], First(n, e)).0], net))
    ensures Continues(p, q) && s.net <= net && Done(w, e)
  {
    var u, f := Submit(s.nodes[n], e.command), HandleAppend(s.nodes[3], First(n, e)).0;
    var m := AppendResponse(3, n, First(n, e), AppendReply(e.term, true, 0, 0));
    q, net := Offered(p, s, n, a, e);
    FirstCommitted(s.nodes[n], n, a, e);
    w := HandleAppendReply(u, [a, 3], 3, First(n, e), m.appendReply);
    q := Answered(q, System(s.nodes[n := u][3 := f], net), m);
    Overwritten(s.nodes, n, 3, u, f, w);
  }

  lemma AppliesFirst(w: NodeState, e: Entry)
    requires Done(w, e)
    ensures var d := EndApply(DeliverOne(BeginApply(w)));
            && d == w.(lastApplied := 1, delivered := [e])
            && SubmitReturns(d, Submission(1, e.term, e.command))
  {
    assert EntriesBetween([e], 1, 1) == [e];
  }

  /** It delivers the entry and returns to its client. */
  lemma Acknowledged(p: Play, s: System, n: NodeId, e: Entry) returns (q: Play, w: NodeState, k: nat)
    requires Reached(p, s) && n in p.cfg.servers && Done(s.nodes[n], e)
    ensures Reached(q, System(s.nodes[n := w], s.net)) && Continues(p, q) && Told(w, e)
    ensures k < |q.run.steps| && q.run.steps[k] == Complete(ClientReturn(n, Submission(1, e.term, e.command)))
  {
    var sub, f := Submission(1, e.term, e.command), EndApply(DeliverOne(BeginApply(s.nodes[n])));
    AppliesFirst(s.nodes[n], e);
    var r := Applies(p, s, n);
    k := |r.run.steps|;
    q := Returns(r, System(s.nodes[n := f], s.net), n, sub);
    w := f.(submissions := f.submissions - {sub});
    assert s.nodes[n := f][n := w] == s.nodes[n := w];
  }

  /** All of it. */
  lemma Tells(p: Play, s: System, n: NodeId, a: NodeId, e: Entry)
          returns (q: Play, net: set<Message>, w: NodeState, k: nat)
    requires Reached(p, s) && p.cfg == CFG && n in {1, 2} && CFG.peers[n] == [a, 3] && e.index == 1 && a != 3
    requires Begins(s.nodes[n], e.term, a) && Accepts(s.nodes[3], n, e)
    ensures Reached(q, System(s.nodes[n := w][3 := HandleAppend(s.nodes[3], First(n, e)).0], net))
    ensures Continues(p, q) && s.net <= net && Told(w, e)
    ensures k < |q.run.steps| && q.run.steps[k] == Complete(ClientReturn(n, Submission(1, e.term, e.command)))
  {
    var f, c := HandleAppend(s.nodes[3], First(n, e)).0, s.nodes[n];
    q, net, c := Committed(p, s, n, a, e);
    q, w, k := Acknowledged(q, System(s.nodes[n := c][3 := f], net), n, e);
    Overwritten(s.nodes, n, 3, c, f, w);
  }

  /** After a first leader, server 2 does the same. */
  lemma SecondTells(q: Play, net: set<Message>, a: NodeState, x: NodeState, h: NodeState, e: Entry, f: Entry)
      returns (p: Play)
    requires Reached(q, System(Three(a, x, h), net)) && q.cfg == CFG && f.index == 1
    requires Told(a, e) && Begins(x, f.term, 1) && Accepts(h, 2, f)
    ensures PlayedOut(p, q.flaws) && Continues(q, p) && 1 in Last(p.run).nodes && 2 in Last(p.run).nodes
    ensures Told(Last(p.run).nodes[1], e) && Told(Last(p.run).nodes[2], f)
  {
    var net', b, k;
    p, net', b, k := Tells(q, System(Three(a, x, h), net), 2, 1, f);
  }

  // ----- server 3 crashes inside its first vote, when its term is written -----

  /** In term 1 and without a vote, behind `stray` bytes of one. */
  function Undecided(stray: nat): NodeState {
    Boot([TermRecord(1)], stray)
  }

  lemma UndecidedIs(stray: nat)
    ensures var u := Undecided(stray);
            && u.currentTerm == 1 && u.votedFor == NO_NODE && u.log == [] && u.wal == [TermRecord(1)]
            && u.found == 1 && u.discarded == 0 && u.stray == stray && Fold([TermRecord(1)]).term == 1
  {
    FoldAppend([], TermRecord(1));
    assert [] + [TermRecord(1)] == [TermRecord(1)];
  }

  lemma HalfVote(s: System, m: Message)
    requires s.nodes.Keys == CFG.servers && s.nodes[3] == NewNode() && m in s.net
    requires m == RequestVote(1, 3, VoteArgs(1, 1, 0, 0))
    ensures CanHappen(CFG, s, Crash(DeliverVoteRequest(m), 1, 3))
        && NextNode(CFG, s, DeliverVoteRequest(m)).discarded == 0
    ensures var c := Crashed(CFG, s, DeliverVoteRequest(m), 1); Intact(c) && Restart(c, 3) == Undecided(3)
  {
    var wal := NextNode(CFG, s, DeliverVoteRequest(m)).wal;
    assert wal == [TermRecord(1), VoteRecord(1, 1)];
    assert wal[..1] == [TermRecord(1)];
  }

  /** Server 1 stands for term 1, and server 3 crashes when it has written three bytes of its vote. */
  lemma Interrupted(flaws: Flaws) returns (p: Play, net: set<Message>)
    ensures Reached(p, System(Three(StartElection(NewNode(), 1), NewNode(), Undecided(3)), net)) && Plays(p, flaws)
    ensures forall v | v in {2, 3} :: RequestVote(1, v, VoteArgs(1, 1, 0, 0)) in net
  {
    var n, c := NewNode(), StartElection(NewNode(), 1);
    p := Begin(flaws);
    p, net := StandsUp(p, System(Three(n, n, n), {}), 1);
    ThreeUpdates(n, n, n, c);
    assert VoteRequest(c, 1) == VoteArgs(1, 1, 0, 0);
    var s, m := System(Three(c, n, n), net), RequestVote(1, 3, VoteArgs(1, 1, 0, 0));
    HalfVote(s, m);
    p := FindsAll(p, s, DeliverVoteRequest(m), 1, 3);
    ThreeUpdates(c, n, n, Undecided(3));
  }

  /** `v` grants its vote and server 1 leads term 1. */
  lemma Decides(p: Play, s: System, v: NodeId) returns (q: Play, net: set<Message>)
    requires Reached(p, s) && p.cfg == CFG && v in {2, 3} && s.nodes[1] == StartElection(NewNode(), 1)
    requires RequestVote(1, v, VoteArgs(1, 1, 0, 0)) in s.net
    requires GrantsVote(s.nodes[v], VoteArgs(1, 1, 0, 0)) && s.nodes[v].currentTerm <= 1
    ensures var f := HandleVote(s.nodes[v], VoteArgs(1, 1, 0, 0)).0;
            Reached(q, System(s.nodes[1 := Winner(NewNode(), 1, v)][v := f], net))
    ensures Continues(p, q) && s.net <= net && VoteResponse(v, 1, VoteArgs(1, 1, 0, 0), VoteReply(1, true)) in net
  {
    var cand, args, w := StartElection(NewNode(), 1), VoteArgs(1, 1, 0, 0), Winner(NewNode(), 1, v);
    var f := HandleVote(s.nodes[v], args).0;
    q, net := Votes(p, s, RequestVote(1, v, args));
    VoteDecides(NewNode(), 1, v);
    q := Counts(q, System(s.nodes[v := f], net), VoteResponse(v, 1, args, VoteReply(1, true)));
    Swapped(s.nodes, 1, v, w, f);
  }
}
