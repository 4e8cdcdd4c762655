/** Runs of five servers. */
module FiveServers {
  import opened Types
  import opened Logs
  import opened Quorums
  import opened NodeSpec
  import opened CommitRule
  import opened Cluster
  import opened Scenarios

  const FIVE := Config({1, 2, 3, 4, 5},
                       map[1 := [2, 3, 4, 5], 2 := [1, 3, 4, 5], 3 := [1, 2, 4, 5], 4 := [1, 2, 3, 5],
                         5 := [1, 2, 3, 4]])

  lemma FiveOk()
    ensures ValidConfig(FIVE)
  {
    PeersAre(1, [2, 3, 4, 5]);
    PeersAre(2, [1, 3, 4, 5]);
    PeersAre(3, [1, 2, 4, 5]);
    PeersAre(4, [1, 2, 3, 5]);
    PeersAre(5, [1, 2, 3, 4]);
  }

  lemma PeersAre(n: NodeId, peers: seq<NodeId>)
    requires n in FIVE.peers && FIVE.peers[n] == peers && |peers| == 4 && NoDuplicates(peers)
    requires {peers[0], peers[1], peers[2], peers[3]} == FIVE.servers - {n}
    ensures PeersOk(FIVE, n)
  {
    assert Elements(peers) == {peers[0], peers[1], peers[2], peers[3]};
  }

  function Five(a: NodeState, b: NodeState, c: NodeState, d: NodeState, e: NodeState): map<NodeId, NodeState> {
    map[1 := a, 2 := b, 3 := c, 4 := d, 5 := e]
  }

  lemma FiveUpdates(a: NodeState, b: NodeState, c: NodeState, d: NodeState, e: NodeState, x: NodeState)
    ensures Five(a, b, c, d, e)[1 := x] == Five(x, b, c, d, e)
    ensures Five(a, b, c, d, e)[2 := x] == Five(a, x, c, d, e)
    ensures Five(a, b, c, d, e)[3 := x] == Five(a, b, x, d, e)
    ensures Five(a, b, c, d, e)[4 := x] == Five(a, b, c, x, e)
    ensures Five(a, b, c, d, e)[5 := x] == Five(a, b, c, d, x)
  {
    LeadersUpdate(a, b, c, d, e, x);
    VotersUpdate(a, b, c, d, e, x);
  }

  lemma LeadersUpdate(a: NodeState, b: NodeState, c: NodeState, d: NodeState, e: NodeState, x: NodeState)
    ensures Five(a, b, c, d, e)[1 := x] == Five(x, b, c, d, e)
    ensures Five(a, b, c, d, e)[2 := x] == Five(a, x, c, d, e)
  {
  }

  lemma VotersUpdate(a: NodeState, b: NodeState, c: NodeState, d: NodeState, e: NodeState, x: NodeState)
    ensures Five(a, b, c, d, e)[3 := x] == Five(a, b, x, d, e)
    ensures Five(a, b, c, d, e)[4 := x] == Five(a, b, c, x, e)
    ensures Five(a, b, c, d, e)[5 := x] == Five(a, b, c, d, x)
  {
  }

  ghost predicate Plays(p: Play, flaws: Flaws) {
    p.cfg == FIVE && p.flaws == flaws
  }

  ghost predicate PlayedOut(p: Play, flaws: Flaws) {
    |p.run.states| == |p.run.steps| + 1 && Reached(p, Last(p.run)) && Plays(p, flaws)
  }

  lemma Begin(flaws: Flaws) returns (p: Play)
    ensures var n := NewNode(); Reached(p, System(Five(n, n, n, n, n), {})) && Plays(p, flaws)
  {
    var n := NewNode();
    FiveOk();
    p := Play(FIVE, Run([System(Five(n, n, n, n, n), {})], []), flaws);
  }

  // ----- elections -----

  ghost predicate Distinct(n: NodeId, v: NodeId, w: NodeId) {
    n in FIVE.servers && v in FIVE.servers && w in FIVE.servers && n != v && n != w && v != w
  }

  lemma ArePeers(n: NodeId, v: NodeId, w: NodeId)
    requires Distinct(n, v, w)
    ensures v in Others(n) && w in Others(n) && |Others(n)| == 4
  {
  }

  function Others(n: NodeId): seq<NodeId> {
    if n in FIVE.peers then FIVE.peers[n] else []
  }

  /** The state of `n` when it has won with the votes of two peers. */
  function Won(s: NodeState, n: NodeId, v: NodeId, w: NodeId): NodeState {
    BecomeLeader(StartElection(s, n).(votesReceived := {n, v, w}, votes := 3), Others(n))
  }

  lemma VotesDecide(s: NodeState, n: NodeId, v: NodeId, w: NodeId)
    requires Distinct(n, v, w)
    ensures var c := StartElection(s, n);
            var reply := VoteReply(c.currentTerm, true);
            var c1 := HandleVoteReply(c, Others(n), v, c.currentTerm, reply);
            && c1 == c.(votesReceived := {n, v}, votes := 2)
            && HandleVoteReply(c1, Others(n), w, c.currentTerm, reply) == Won(s, n, v, w)
  {
    ArePeers(n, v, w);
    assert {n} + {v} == {n, v} && {n, v} + {w} == {n, v, w};
  }

  /** A vote is granted, with a reply in the candidate's term. */
  ghost predicate Grants(s: NodeState, args: VoteArgs) {
    GrantsVote(s, args) && s.currentTerm <= args.term
  }

  /** What `n` asks for when it stands. */
  function Asked(s: NodeState, n: NodeId): VoteArgs {
    VoteRequest(StartElection(s, n), n)
  }

  /** The nodes when `n` has become `st` and `v` and `w` have handled its request. */
  function Decided(nodes: map<NodeId, NodeState>, n: NodeId, v: NodeId, w: NodeId, st: NodeState, args: VoteArgs)
      : map<NodeId, NodeState>
    requires v in nodes && w in nodes
  {
    nodes[n := st][v := HandleVote(nodes[v], args).0][w := HandleVote(nodes[w], args).0]
  }

  /** `v` and `w` will vote for `n`. */
  ghost predicate Wanted(nodes: map<NodeId, NodeState>, n: NodeId, v: NodeId, w: NodeId, args: VoteArgs) {
    && n in nodes && v in nodes && w in nodes && Distinct(n, v, w)
    && Grants(nodes[v], args) && Grants(nodes[w], args)
  }

  /** `n` stands and gets the votes of `v` and `w`. */
  lemma GetsVotes(p: Play, s: System, n: NodeId, v: NodeId, w: NodeId, st: NodeState)
      returns (q: Play, net: set<Message>)
    requires Wanted(s.nodes, n, v, w, Asked(st, n)) && s.nodes[n] == st && Reached(p, s) && p.cfg == FIVE
    ensures Reached(q, System(Decided(s.nodes, n, v, w, StartElection(st, n), Asked(st, n)), net))
    ensures VoteResponse(v, n, Asked(st, n), VoteReply(Asked(st, n).term, true)) in net
    ensures VoteResponse(w, n, Asked(st, n), VoteReply(Asked(st, n).term, true)) in net
    ensures Continues(p, q) && s.net <= net
  {
    var args := Asked(st, n);
    ArePeers(n, v, w);
    q, net := StandsUp(p, s, n);
    var s1 := System(s.nodes[n := StartElection(st, n)], net);
    q, net := Votes(q, s1, RequestVote(n, v, args));
    q, net := Votes(q, System(s1.nodes[v := HandleVote(s.nodes[v], args).0], net), RequestVote(n, w, args));
  }

  /** And wins. */
  lemma Wins(p: Play, s: System, n: NodeId, v: NodeId, w: NodeId, st: NodeState) returns (q: Play, net: set<Message>)
    requires Wanted(s.nodes, n, v, w, Asked(st, n)) && s.nodes[n] == st && Reached(p, s) && p.cfg == FIVE
    ensures Reached(q, System(Decided(s.nodes, n, v, w, Won(st, n, v, w), Asked(st, n)), net))
    ensures Continues(p, q) && s.net <= net
  {
    var c, args := StartElection(st, n), Asked(st, n);
    q, net := GetsVotes(p, s, n, v, w, st);
    q := CountsTwo(q, System(Decided(s.nodes, n, v, w, c, args), net), st, n, v, w);
    Rewritten(s.nodes, n, v, w, c, Won(st, n, v, w), HandleVote(s.nodes[v], args).0, HandleVote(s.nodes[w], args).0);
  }

  lemma CountsTwo(p: Play, s: System, st: NodeState, n: NodeId, v: NodeId, w: NodeId) returns (q: Play)
    requires Reached(p, s) && p.cfg == FIVE && Distinct(n, v, w) && s.nodes[n] == StartElection(st, n)
    requires var args := VoteRequest(StartElection(st, n), n);
             && VoteResponse(v, n, args, VoteReply(args.term, true)) in s.net
             && VoteResponse(w, n, args, VoteReply(args.term, true)) in s.net
    ensures Reached(q, System(s.nodes[n := Won(st, n, v, w)], s.net)) && Continues(p, q)
  {
    var c := StartElection(st, n);
    var args, reply := VoteRequest(c, n), VoteReply(c.currentTerm, true);
    var c1 := c.(votesReceived := {n, v}, votes := 2);
    VotesDecide(st, n, v, w);
    q := Counts(p, s, VoteResponse(v, n, args, reply));
    q := Counts(q, System(s.nodes[n := c1], s.net), VoteResponse(w, n, args, reply));
    Twice(s.nodes, n, c1, Won(st, n, v, w));
  }

  /** `n` stands in vain, and wins in the term after that. */
  lemma Overtakes(p: Play, s: System, n: NodeId, v: NodeId, w: NodeId, st: NodeState)
      returns (q: Play, net: set<Message>)
    requires Wanted(s.nodes, n, v, w, Asked(st, n)) && Reached(p, s) && p.cfg == FIVE
    requires st == StartElection(s.nodes[n], n)
    ensures Reached(q, System(Decided(s.nodes, n, v, w, Won(st, n, v, w), Asked(st, n)), net))
    ensures Continues(p, q) && s.net <= net
  {
    q, net := StandsUp(p, s, n);
    q, net := Wins(q, System(s.nodes[n := st], net), n, v, w, st);
    Twice(s.nodes, n, st, Won(st, n, v, w));
  }

  lemma Rewritten(nodes: map<NodeId, NodeState>, n: NodeId, v: NodeId, w: NodeId,
                  a: NodeState, b: NodeState, x: NodeState, y: NodeState)
    requires n != v && n != w
    ensures nodes[n := a][v := x][w := y][n := b] == nodes[n := b][v := x][w := y]
  {
  }

  // ----- leaders -----

  /** Nothing is known to be committed yet. */
  ghost predicate Quiet(s: NodeState) {
    s.commitIndex == 0 && s.lastApplied == 0 && s.phase == Idle && s.delivered == []
  }

  ghost predicate Heads(w: NodeState, term: nat, log: Log) {
    w.role == Leader && w.currentTerm == term && w.log == log && Quiet(w)
  }

  /** Nobody has acknowledged anything, and everybody is to get what follows. */
  ghost predicate Unheard(w: NodeState, n: NodeId, next: nat) {
    forall p | p in Others(n) :: p in w.nextIndex && w.nextIndex[p] == next && p in w.matchIndex && w.matchIndex[p] == 0
  }

  lemma WonHeads(s: NodeState, n: NodeId, v: NodeId, w: NodeId)
    requires Quiet(s)
    ensures var l := Won(s, n, v, w);
            Heads(l, s.currentTerm + 1, s.log) && Unheard(l, n, |s.log| + 1) && l.tickets == s.tickets
  {
  }

  lemma SubmitHeads(w: NodeState, n: NodeId, term: nat, log: Log, next: nat, command: Command)
    requires Heads(w, term, log) && Unheard(w, n, next)
    ensures var l := Submit(w, command);
            Heads(l, term, log + [Entry(term, |log| + 1, command)]) && Unheard(l, n, next) && l.tickets == w.tickets
  {
  }

  /** A server without entries grants every vote of a later term. */
  ghost predicate Blank(s: NodeState, term: nat) {
    s.log == [] && s.currentTerm == term
  }

  lemma BlankVotes(s: NodeState, args: VoteArgs)
    requires Blank(s, s.currentTerm) && s.currentTerm < args.term
    ensures Grants(s, args) && Blank(HandleVote(s, args).0, args.term)
  {
  }

  /** A round of replication: the leader sends to `to`, which answers. */
  lemma Hears(p: Play, s: System, n: NodeId, to: NodeId, args: AppendArgs)
      returns (q: Play, net: set<Message>, f: NodeState, l: NodeState)
    requires Reached(p, s) && p.cfg == FIVE && n in FIVE.servers && to in Others(n) && to in FIVE.servers
    requires s.nodes[n].role == Leader && args == Request(s.nodes[n], n, to)
    requires EntriesFrom(s.nodes[n].log, Lookup(s.nodes[n].nextIndex, to)) != []
    ensures f == HandleAppend(s.nodes[to], args).0
    ensures l == HandleAppendReply(s.nodes[n], Others(n), to, args, HandleAppend(s.nodes[to], args).1)
    ensures Reached(q, System(s.nodes[to := f][n := l], net)) && Continues(p, q) && s.net <= net
  {
    var reply := HandleAppend(s.nodes[to], args).1;
    f := HandleAppend(s.nodes[to], args).0;
    l := HandleAppendReply(s.nodes[n], Others(n), to, args, reply);
    q, net := Replicates(p, s, n, to);
    q := Answered(q, System(s.nodes[to := f], net), AppendResponse(to, n, args, reply));
  }

  // ----- commits -----

  /** Of the peers, `x` alone has acknowledged everything. */
  ghost predicate Heard(w: NodeState, n: NodeId, x: NodeId) {
    forall p | p in Others(n) :: p in w.matchIndex && w.matchIndex[p] == if p == x then |w.log| else 0
  }

  /** An answer to a request that carried the end of the log. */
  ghost predicate Carries(args: AppendArgs, term: nat, log: Log) {
    && log != [] && log[|log| - 1].term == term && args.term == term
    && args.entries != [] && args.entries[|args.entries| - 1].index == |log|
  }

  lemma CountFive(m: seq<nat>, a: nat)
    requires |m| == 5
    ensures CountAtLeast(m, a) == (if m[0] >= a then 1 else 0) + (if m[1] >= a then 1 else 0)
              + (if m[2] >= a then 1 else 0) + (if m[3] >= a then 1 else 0) + (if m[4] >= a then 1 else 0)
  {
    var m1, m2, m3, m4 := m[1..], m[2..], m[3..], m[4..];
    assert m1[1..] == m2 && m2[1..] == m3 && m3[1..] == m4 && m4[1..] == [];
    assert CountAtLeast(m4, a) == if m[4] >= a then 1 else 0;
    assert CountAtLeast(m3, a) == (if m[3] >= a then 1 else 0) + CountAtLeast(m4, a);
    assert CountAtLeast(m2, a) == (if m[2] >= a then 1 else 0) + CountAtLeast(m3, a);
    assert CountAtLeast(m1, a) == (if m[1] >= a then 1 else 0) + CountAtLeast(m2, a);
  }

  lemma MiddleOfFive(m: seq<nat>, a: nat)
    requires |m| == 5 && a > 0 && CountAtLeast(m, a) == 3 && CountAtLeast(m, a + 1) == 0
    ensures MiddleMatch(m) == a
  {
    MiddleIsMajority(m, a);
    MiddleIsMajority(m, a + 1);
  }

  lemma MiddleIsNone(m: seq<nat>)
    requires |m| == 5 && CountAtLeast(m, 1) <= 2
    ensures MiddleMatch(m) == 0
  {
    MiddleIsMajority(m, 1);
  }

  /** What the leader and its peers `x` and `y` hold is committed if these are two. */
  lemma Reaches(l: NodeState, n: NodeId, x: NodeId, y: NodeId)
    requires n in {1, 2} && x in Others(n) && y in Others(n) && l.log != []
    requires forall p | p in Others(n) :: Lookup(l.matchIndex, p) == if p == x || p == y then |l.log| else 0
    ensures MiddleMatch(MatchIndices(l, Others(n))) == if x == y then 0 else |l.log|
  {
    var m := MatchIndices(l, Others(n));
    assert |m| == 5 && m[0] == |l.log|
           && forall i | 1 <= i < 5 :: m[i] == if Others(n)[i - 1] == x || Others(n)[i - 1] == y then |l.log| else 0;
    if x == y {
      CountFive(m, 1);
      MiddleIsNone(m);
    } else {
      CountFive(m, |l.log|);
      CountFive(m, |l.log| + 1);
      MiddleOfFive(m, |l.log|);
    }
  }

  /** The first acknowledgement is not enough. */
  lemma OneAnswer(w: NodeState, n: NodeId, x: NodeId, term: nat, log: Log, next: nat, args: AppendArgs)
    requires n in {1, 2} && x in Others(n) && Heads(w, term, log) && Unheard(w, n, next) && Carries(args, term, log)
    ensures var l := HandleAppendReply(w, Others(n), x, args, AppendReply(term, true, 0, 0));
            && Heads(l, term, log) && Heard(l, n, x)
            && forall p | p in Others(n) && p != x :: p in l.nextIndex && l.nextIndex[p] == next
  {
    var l := w.(nextIndex := Raise(w.nextIndex, x, |log| + 1), matchIndex := Raise(w.matchIndex, x, |log|));
    Reaches(l, n, x, x);
  }

  /** The second one is. */
  lemma TwoAnswers(w: NodeState, n: NodeId, x: NodeId, y: NodeId, term: nat, log: Log, args: AppendArgs)
    requires n in {1, 2} && x in Others(n) && y in Others(n) && x != y
    requires Heads(w, term, log) && Heard(w, n, x) && Carries(args, term, log)
    ensures var l := HandleAppendReply(w, Others(n), y, args, AppendReply(term, true, 0, 0));
            && l.role == Leader && l.currentTerm == term && l.log == log && l.commitIndex == |log|
            && l.lastApplied == 0 && l.phase == Idle && l.delivered == [] && l.submissions == w.submissions
  {
    var l := w.(nextIndex := Raise(w.nextIndex, y, |log| + 1), matchIndex := Raise(w.matchIndex, y, |log|));
    Reaches(l, n, x, y);
  }
}
