/**
 * Why restarts of truncated nodes are left out: such a restart brings back an entry that was replaced, and
 * none of the theorems on logs, commits and deliveries holds from then on. Nothing is forgotten otherwise.
 */
module Forgotten {
  import opened Types
  import opened Logs
  import opened Recovery
  import opened NodeSpec
  import opened Durability
  import opened Cluster
  import opened Scenarios
  import opened ThreeServers

  const TRUNCATING := Flaws(false, false, false, true)

  const A := Entry(1, 1, [7])
  const B := Entry(2, 1, [8])
  const C := Entry(2, 2, [9])
  const D := Entry(3, 3, [9])

  /** A leader of term 1 with an entry of its own, before and after it is overruled. */
  function Deposed(): NodeState {
    Submit(Winner(NewNode(), 1, 3), [7])
  }

  function Overruled(): NodeState {
    HandleAppend(Deposed(), AppendArgs(2, 2, 0, 0, [B], 0)).0
  }

  function Voter(): NodeState {
    HandleVote(NewNode(), VoteArgs(1, 1, 0, 0)).0
  }

  /** The leader of term 2. */
  function Usurper(): NodeState {
    Submit(Winner(StartElection(NewNode(), 2), 2, 3), [8])
  }

  lemma OverruledForgets()
    ensures Deposed().log == [A] && Overruled().log == [B] && Overruled().currentTerm == 2
        && Overruled().role == Follower
    ensures HandleAppend(Deposed(), AppendArgs(2, 2, 0, 0, [B], 0)).1 == AppendReply(2, true, 0, 0)
    ensures Restart(Overruled(), 0).log == [A, B] && Restart(Overruled(), 0).currentTerm == 2
  {
    var s := Deposed();
    assert s.log == [A] && s.currentTerm == 1;
    FoldAppend([], TermRecord(1));
    FoldAppend([] + [TermRecord(1)], VoteRecord(1, 1));
    FoldAppend([] + [TermRecord(1)] + [VoteRecord(1, 1)], EntryRecord(1, 1, [7]));
    assert Fold(s.wal).entries == [A];
    var t := Listen(s, AppendArgs(2, 2, 0, 0, [B], 0));
    FoldAppend(s.wal, TermRecord(2));
    FoldEntryRecords(t.wal, [B]);
    assert Divergence(t.log, 0, [B]) == 0;
    assert t.log[..0] + [B][0..] == [B];
  }

  lemma UsurperSends()
    ensures var s := Usurper();
            && s.role == Leader && s.currentTerm == 2 && s.log == [B]
              && EntriesFrom(s.log, Lookup(s.nextIndex, 1)) == [B]
            && Request(s, 2, 1) == AppendArgs(2, 2, 0, 0, [B], 0)
  {
    var s := Usurper();
    assert s.log == [B];
    assert 1 in CFG.peers[2];
  }

  /** Node 1 leads term 1 and takes a command that it never replicates. */
  lemma FirstLeader() returns (p: Play, net: set<Message>)
    ensures Reached(p, System(Three(Deposed(), NewNode(), Voter()), net)) && Plays(p, TRUNCATING)
  {
    var n := NewNode();
    p := Begin(TRUNCATING);
    p, net := Wins(p, System(Three(n, n, n), {}), 1, 3);
    ThreeUpdates(n, n, n, Winner(n, 1, 3));
    ThreeUpdates(Winner(n, 1, 3), n, n, Voter());
    p := Submits(p, System(Three(Winner(n, 1, 3), n, Voter()), net), 1, [7]);
    ThreeUpdates(Winner(n, 1, 3), n, Voter(), Deposed());
  }

  /** The voter of both terms: it holds no entry and is in term 2. */
  function Third(): NodeState {
    HandleVote(Voter(), VoteArgs(2, 2, 0, 0)).0
  }

  /** Node 2 leads term 2 */
  lemma SecondWins() returns (p: Play, net: set<Message>)
    ensures Reached(p, System(Three(Deposed(), Winner(StartElection(NewNode(), 2), 2, 3), Third()), net))
    ensures Plays(p, TRUNCATING)
  {
    var n, d := NewNode(), Deposed();
    var c := StartElection(n, 2);
    p, net := FirstLeader();
    p, net := StandsUp(p, System(Three(d, n, Voter()), net), 2);
    ThreeUpdates(d, n, Voter(), c);
    p, net := Wins(p, System(Three(d, c, Voter()), net), 2, 3);
    ThreeUpdates(d, c, Voter(), Winner(c, 2, 3));
    ThreeUpdates(d, Winner(c, 2, 3), Voter(), Third());
  }

  /** and takes another one. */
  lemma SecondLeader() returns (p: Play, net: set<Message>)
    ensures Reached(p, System(Three(Deposed(), Usurper(), Third()), net)) && Plays(p, TRUNCATING)
  {
    var d, w := Deposed(), Winner(StartElection(NewNode(), 2), 2, 3);
    p, net := SecondWins();
    p := Submits(p, System(Three(d, w, Third()), net), 2, [8]);
    ThreeUpdates(d, w, Third(), Usurper());
  }

  /** Node 1 replaces its entry by that of node 2. */
  lemma Replaced() returns (p: Play, net: set<Message>)
    ensures Reached(p, System(Three(Overruled(), Usurper(), Third()), net)) && Plays(p, TRUNCATING)
    ensures AppendResponse(1, 2, AppendArgs(2, 2, 0, 0, [B], 0), AppendReply(2, true, 0, 0)) in net
  {
    var d, u := Deposed(), Usurper();
    UsurperSends();
    OverruledForgets();
    p, net := SecondLeader();
    p, net := Replicates(p, System(Three(d, u, Third()), net), 2, 1);
    ThreeUpdates(d, u, Third(), Overruled());
  }

  // ----- Log Matching -----

  ghost predicate Mismatched(own: Log, other: Log) {
    |own| >= 2 && |other| >= 2 && own[1].term == other[1].term && own[..2] != other[..2]
  }

  lemma Differs(r: NodeState, u: NodeState)
    requires r.log == [A, B] && u.role == Leader && u.currentTerm == 2 && u.log == [B]
    ensures Mismatched(r.log, Submit(u, [9]).log)
  {
    var own, other := r.log, Submit(u, [9]).log;
    assert other == [B, C];
    assert own[..2][0] == A && other[..2][0] == B;
  }

  lemma OneMore(p: Play, r: NodeState, u: NodeState, t: NodeState, net: set<Message>) returns (q: Play)
    requires Reached(p, System(Three(r, u, t), net)) && Plays(p, TRUNCATING) && u.role == Leader
    requires Mismatched(r.log, Submit(u, [9]).log)
    ensures PlayedOut(q, TRUNCATING) && 1 in Last(q.run).nodes && 2 in Last(q.run).nodes
    ensures Mismatched(Last(q.run).nodes[1].log, Last(q.run).nodes[2].log)
  {
    q := Submits(p, System(Three(r, u, t), net), 2, [9]);
    ThreeUpdates(r, u, t, Submit(u, [9]));
  }

  /**
   * A run with one restart of a truncated node, at whose end two logs agree on index and term of an
   * entry but not on what precedes it.
   */
  lemma MatchingBroken() returns (q: Play)
    ensures PlayedOut(q, TRUNCATING) && 1 in Last(q.run).nodes && 2 in Last(q.run).nodes
    ensures Mismatched(Last(q.run).nodes[1].log, Last(q.run).nodes[2].log)
  {
    var r, u := Restart(Overruled(), 0), Usurper();
    OverruledForgets();
    UsurperSends();
    Differs(r, u);
    var p, net := Replaced();
    p := Reboots(p, System(Three(Overruled(), u, Third()), net), 1, 0);
    ThreeUpdates(Overruled(), u, Third(), r);
    q := OneMore(p, r, u, Third(), net);
  }

  // ----- commits, acknowledgements and deliveries -----

  /** A leader of term 2 that has committed its entry at index 1. */
  ghost predicate Settled(b: NodeState) {
    b.role == Leader && b.currentTerm == 2 && b.log == [B] && b.commitIndex == 1
  }

  /** A leader of term 2 that has submitted its entry and counts on nobody but itself. */
  ghost predicate Waits(u: NodeState) {
    && u.role == Leader && u.currentTerm == 2 && u.log == [B] && u.commitIndex == 0 && u.lastApplied == 0
    && u.phase == Idle && u.delivered == [] && Submission(1, 2, [8]) in u.submissions
    && 1 in u.matchIndex && 3 in u.matchIndex && u.matchIndex[1] == 0 && u.matchIndex[3] == 0
  }

  lemma UsurperWaits()
    ensures Waits(Usurper())
  {
    UsurperSends();
    assert CFG.peers[2] == [1, 3];
  }

  lemma UsurperCommits(u: NodeState)
    requires Waits(u)
    ensures var b := HandleAppendReply(u, [1, 3], 1, AppendArgs(2, 2, 0, 0, [B], 0), AppendReply(2, true, 0, 0));
            && Settled(b) && b.lastApplied == 0 && b.phase == Idle && b.delivered == []
            && Submission(1, 2, [8]) in b.submissions
  {
    var s := u.(nextIndex := Raise(u.nextIndex, 1, 2), matchIndex := Raise(u.matchIndex, 1, 1));
    assert MatchIndices(s, [1, 3]) == [1, 1, 0];
    MiddleOfThree(1, 1, 0);
  }

  lemma AppliesOne(b: NodeState)
    requires Settled(b) && b.lastApplied == 0 && b.phase == Idle && b.delivered == []
    ensures var e := EndApply(DeliverOne(BeginApply(b)));
            Settled(e) && e.lastApplied == 1 && e.delivered == [B] && e.submissions == b.submissions
  {
    assert EntriesBetween([B], 1, 1) == [B];
  }

  /** Node 2 counts its entry as committed, applies it, and acknowledges it to its client. */
  lemma Acknowledges() returns (p: Play, net: set<Message>, b: NodeState, k: nat)
    ensures Reached(p, System(Three(Overruled(), b, Third()), net)) && Plays(p, TRUNCATING)
    ensures Settled(b) && b.delivered == [B]
    ensures k < |p.run.steps| && p.run.steps[k] == Complete(ClientReturn(2, Submission(1, 2, [8])))
  {
    var o, u, t := Overruled(), Usurper(), Third();
    var args, reply := AppendArgs(2, 2, 0, 0, [B], 0), AppendReply(2, true, 0, 0);
    p, net := Replaced();
    UsurperWaits();
    UsurperCommits(u);
    var c := HandleAppendReply(u, [1, 3], 1, args, reply);
    p := Answered(p, System(Three(o, u, t), net), AppendResponse(1, 2, args, reply));
    ThreeUpdates(o, u, t, c);
    p, b, k := Returned(p, net, c);
  }

  lemma Returned(p: Play, net: set<Message>, c: NodeState) returns (q: Play, b: NodeState, k: nat)
    requires Reached(p, System(Three(Overruled(), c, Third()), net)) && Plays(p, TRUNCATING)
    requires Settled(c) && c.lastApplied == 0 && c.phase == Idle && c.delivered == []
    requires Submission(1, 2, [8]) in c.submissions
    ensures Reached(q, System(Three(Overruled(), b, Third()), net)) && Plays(q, TRUNCATING)
    ensures Settled(b) && b.delivered == [B]
    ensures k < |q.run.steps| && q.run.steps[k] == Complete(ClientReturn(2, Submission(1, 2, [8])))
  {
    var o, t, sub := Overruled(), Third(), Submission(1, 2, [8]);
    var d := DeliverOne(BeginApply(c));
    var e := EndApply(d);
    AppliesOne(c);
    q := Delivers(p, System(Three(o, c, t), net), 2);
    ThreeUpdates(o, c, t, d);
    q := Finishes(q, System(Three(o, d, t), net), 2);
    ThreeUpdates(o, d, t, e);
    k := |q.run.steps|;
    b := e.(submissions := e.submissions - {sub});
    q := Returns(q, System(Three(o, e, t), net), 2, sub);
    ThreeUpdates(o, e, t, b);
  }

  /** A leader of term 3 whose log holds the replaced entry again. */
  ghost predicate Usurps(w: NodeState) {
    && w.role == Leader && w.currentTerm == 3 && w.log == [A, B] && w.commitIndex == 0 && w.lastApplied == 0
    && w.phase == Idle && w.delivered == [] && 2 in w.matchIndex && 3 in w.matchIndex && w.matchIndex[2] == 0
    && 3 in w.nextIndex && w.nextIndex[3] == 3 && w.matchIndex[3] == 0
  }

  lemma ReturnsWithBoth(r: NodeState)
    requires r == Restart(Overruled(), 0)
    ensures VoteRequest(StartElection(r, 1), 1) == VoteArgs(3, 1, 2, 2) && Usurps(Winner(r, 1, 3))
  {
    OverruledForgets();
    assert CFG.peers[1] == [2, 3];
  }

  lemma ThirdVotes()
    ensures GrantsVote(Third(), VoteArgs(3, 1, 2, 2)) && Third().currentTerm == 2
    ensures var t := HandleVote(Third(), VoteArgs(3, 1, 2, 2)).0;
            t.currentTerm == 3 && t.log == [] && t.commitIndex == 0
  {
  }

  /** Node 1 restarts after node 2 has acknowledged its entry. */
  lemma OverruledReturns() returns (p: Play, net: set<Message>, b: NodeState, k: nat)
    ensures Reached(p, System(Three(Restart(Overruled(), 0), b, Third()), net)) && Plays(p, TRUNCATING)
    ensures Settled(b) && b.delivered == [B]
    ensures k < |p.run.steps| && p.run.steps[k] == Complete(ClientReturn(2, Submission(1, 2, [8])))
  {
    p, net, b, k := Acknowledges();
    ThreeUpdates(Overruled(), b, Third(), Restart(Overruled(), 0));
    p := Reboots(p, System(Three(Overruled(), b, Third()), net), 1, 0);
  }

  /**
   * Node 1 restarts and leads term 3 with a log that lacks what node 2 has committed in term 2: Leader
   * Completeness fails.
   */
  lemma CompletenessBroken() returns (p: Play, net: set<Message>, w: NodeState, b: NodeState, t: NodeState, k: nat)
    ensures Reached(p, System(Three(w, b, t), net)) && Plays(p, TRUNCATING)
    ensures Usurps(w) && Settled(b) && b.delivered == [B] && t.currentTerm == 3 && t.log == [] && t.commitIndex == 0
    ensures k < |p.run.steps| && p.run.steps[k] == Complete(ClientReturn(2, Submission(1, 2, [8])))
  {
    var r := Restart(Overruled(), 0);
    p, net, b, k := OverruledReturns();
    ReturnsWithBoth(r);
    ThirdVotes();
    w, t := Winner(r, 1, 3), HandleVote(Third(), VoteArgs(3, 1, 2, 2)).0;
    p, net := Wins(p, System(Three(r, b, Third()), net), 1, 3);
    ThreeUpdates(r, b, Third(), w);
    ThreeUpdates(w, b, Third(), t);
  }

  // How the leader of term 3 replicates its log to node 3 and commits it.

  /** The leader with one more entry, and what it knows of node 3. */
  ghost predicate Pushing(w: NodeState, next: nat) {
    && w.role == Leader && w.currentTerm == 3 && w.log == [A, B, D] && w.commitIndex == 0 && w.lastApplied == 0
    && w.phase == Idle && w.delivered == [] && 2 in w.matchIndex && 3 in w.matchIndex && w.matchIndex[2] == 0
    && 3 in w.nextIndex && w.nextIndex[3] == next && w.matchIndex[3] == 0
  }

  lemma Pushes(w: NodeState)
    requires Usurps(w)
    ensures Pushing(Submit(w, [9]), 3)
  {
    assert [A, B] + [D] == [A, B, D];
  }

  lemma FirstRound(w: NodeState, t: NodeState)
    requires Pushing(w, 3) && t.currentTerm == 3 && t.log == []
    ensures EntriesFrom(w.log, 3) == [D] && Request(w, 1, 3) == AppendArgs(3, 1, 2, 2, [D], 0)
    ensures var (t', reply) := HandleAppend(t, AppendArgs(3, 1, 2, 2, [D], 0));
            && reply == AppendReply(3, false, 0, 1) && t'.currentTerm == 3 && t'.log == []
            && Pushing(HandleAppendReply(w, [2, 3], 3, AppendArgs(3, 1, 2, 2, [D], 0), reply), 1)
  {
    assert [A, B, D][2..] == [D];
  }

  lemma SecondRound(w: NodeState, t: NodeState)
    requires Pushing(w, 1) && t.currentTerm == 3 && t.log == []
    ensures EntriesFrom(w.log, 1) == [A, B, D] && Request(w, 1, 3) == AppendArgs(3, 1, 0, 0, [A, B, D], 0)
    ensures var args := AppendArgs(3, 1, 0, 0, [A, B, D], 0);
            var (t', reply) := HandleAppend(t, args);
            && reply == AppendReply(3, true, 0, 0)
            && var w' := HandleAppendReply(w, [2, 3], 3, args, reply);
            && w'.log == w.log && w'.commitIndex == 3 && w'.lastApplied == 0 && w'.phase == Idle && w'.delivered == []
  {
    assert [A, B, D][0..] == [A, B, D];
    var s := w.(nextIndex := Raise(w.nextIndex, 3, 4), matchIndex := Raise(w.matchIndex, 3, 3));
    assert MatchIndices(s, [2, 3]) == [3, 0, 3];
    MiddleOfThree(3, 0, 3);
  }

  lemma DeliversFirst(w: NodeState)
    requires w.log == [A, B, D] && w.commitIndex == 3 && w.lastApplied == 0 && w.phase == Idle && w.delivered == []
    ensures var d := DeliverOne(BeginApply(w)); d.log == w.log && d.commitIndex == 3 && d.delivered == [A]
  {
    assert EntriesBetween([A, B, D], 1, 3) == [A, B, D];
  }

  lemma RefusedRound(p: Play, net: set<Message>, w: NodeState, b: NodeState, t: NodeState)
      returns (q: Play, net': set<Message>, w': NodeState, t': NodeState)
    requires Reached(p, System(Three(w, b, t), net)) && p.cfg == CFG && Pushing(w, 3) && t.currentTerm == 3
        && t.log == []
    ensures Reached(q, System(Three(w', b, t'), net')) && Continues(p, q)
    ensures Pushing(w', 1) && t'.currentTerm == 3 && t'.log == []
  {
    FirstRound(w, t);
    var args := AppendArgs(3, 1, 2, 2, [D], 0);
    t' := HandleAppend(t, args).0;
    q, net' := Replicates(p, System(Three(w, b, t), net), 1, 3);
    ThreeUpdates(w, b, t, t');
    w' := HandleAppendReply(w, [2, 3], 3, args, AppendReply(3, false, 0, 1));
    q := Answered(q, System(Three(w, b, t'), net'), AppendResponse(3, 1, args, AppendReply(3, false, 0, 1)));
    ThreeUpdates(w, b, t', w');
  }

  lemma AcceptedRound(p: Play, net: set<Message>, w: NodeState, b: NodeState, t: NodeState)
      returns (q: Play, net': set<Message>, w': NodeState, t': NodeState)
    requires Reached(p, System(Three(w, b, t), net)) && p.cfg == CFG && Pushing(w, 1) && t.currentTerm == 3
        && t.log == []
    ensures Reached(q, System(Three(w', b, t'), net')) && Continues(p, q)
    ensures w'.log == [A, B, D] && w'.commitIndex == 3 && w'.lastApplied == 0 && w'.phase == Idle && w'.delivered == []
  {
    SecondRound(w, t);
    var args := AppendArgs(3, 1, 0, 0, [A, B, D], 0);
    t' := HandleAppend(t, args).0;
    q, net' := Replicates(p, System(Three(w, b, t), net), 1, 3);
    ThreeUpdates(w, b, t, t');
    w' := HandleAppendReply(w, [2, 3], 3, args, AppendReply(3, true, 0, 0));
    q := Answered(q, System(Three(w, b, t'), net'), AppendResponse(3, 1, args, AppendReply(3, true, 0, 0)));
    ThreeUpdates(w, b, t', w');
  }

  lemma FirstDelivered(p: Play, net: set<Message>, w: NodeState, b: NodeState, t: NodeState)
      returns (q: Play, w': NodeState)
    requires Reached(p, System(Three(w, b, t), net)) && p.cfg == CFG
    requires w.log == [A, B, D] && w.commitIndex == 3 && w.lastApplied == 0 && w.phase == Idle && w.delivered == []
    ensures Reached(q, System(Three(w', b, t), net)) && Continues(p, q)
    ensures w'.log == w.log && w'.commitIndex == 3 && w'.delivered == [A]
  {
    DeliversFirst(w);
    w' := DeliverOne(BeginApply(w));
    ThreeUpdates(w, b, t, w');
    q := Delivers(p, System(Three(w, b, t), net), 1);
  }

  /** Node 1 commits and delivers another entry at index 1. */
  lemma Commits(p: Play, net: set<Message>, w: NodeState, b: NodeState, t: NodeState)
      returns (q: Play, net': set<Message>, w': NodeState, t': NodeState)
    requires Reached(p, System(Three(w, b, t), net)) && p.cfg == CFG && Usurps(w) && t.currentTerm == 3 && t.log == []
    ensures Reached(q, System(Three(w', b, t'), net')) && Continues(p, q)
    ensures w'.log == [A, B, D] && w'.commitIndex == 3 && w'.delivered == [A]
  {
    Pushes(w);
    q := Submits(p, System(Three(w, b, t), net), 1, [9]);
    ThreeUpdates(w, b, t, Submit(w, [9]));
    q, net', w', t' := RefusedRound(q, net, Submit(w, [9]), b, t);
    q, net', w', t' := AcceptedRound(q, net', w', b, t');
    q, w' := FirstDelivered(q, net', w', b, t');
  }

  /**
   * At the end of the run two nodes have committed, and delivered, different entries at index 1, and
   * the client of one of them has been told that its command is done: State Machine Safety and the
   * permanence of acknowledged writes fail.
   */
  lemma CommitsBroken() returns (q: Play, k: nat)
    ensures PlayedOut(q, TRUNCATING) && 1 in Last(q.run).nodes && 2 in Last(q.run).nodes
    ensures var a, b := Last(q.run).nodes[1], Last(q.run).nodes[2];
            && a.commitIndex >= 1 && b.commitIndex >= 1 && a.log != [] && b.log != [] && a.log[0] == A && b.log[0] == B
            && a.delivered == [A] && b.delivered == [B]
    ensures k < |q.run.steps| && q.run.steps[k] == Complete(ClientReturn(2, Submission(1, 2, [8])))
  {
    var p, net, w, b, t, k' := CompletenessBroken();
    var net', w', t';
    q, net', w', t' := Commits(p, net, w, b, t);
    k := k';
  }
}
