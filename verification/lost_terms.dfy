/**
 * Why restarts that forget a term are left out: nobody forgets a vote or an entry and no truncated node
 * restarts, and still a committed entry is replaced. It takes five servers and a heartbeat that a leader
 * begins in one term and goes on with two terms later: with it server 5 gets an entry of term 3 while it is
 * in term 1, so that nothing but the record of term 3 protects that entry from a leader of term 2.
 */
module LostTerms {
  import opened Types
  import opened Logs
  import opened Recovery
  import opened NodeSpec
  import opened Cluster
  import opened Scenarios
  import opened FiveServers

  const AMNESIC := Flaws(false, true, false, false)

  const G := Entry(2, 1, [8])
  const H := Entry(3, 1, [9])
  const K := Entry(4, 2, [10])

  // ----- three leaders -----

  /** Server 1 leads term 1 with the votes of servers 3 and 4, and begins a heartbeat. */
  lemma FirstLeader() returns (p: Play, net: set<Message>, a: NodeState, c: NodeState, d: NodeState)
    ensures Reached(p, System(Five(a, NewNode(), c, d, NewNode()), net)) && Plays(p, AMNESIC)
    ensures Heads(a, 1, []) && a.tickets == {Ticket(1, 0)} && Blank(c, 1) && Blank(d, 1)
  {
    var n, args := NewNode(), VoteArgs(1, 1, 0, 0);
    var l, v := Won(n, 1, 3, 4), HandleVote(n, args).0;
    assert VoteRequest(StartElection(n, 1), 1) == args;
    BlankVotes(n, args);
    WonHeads(n, 1, 3, 4);
    p := Begin(AMNESIC);
    p, net := Wins(p, System(Five(n, n, n, n, n), {}), 1, 3, 4, n);
    FiveUpdates(n, n, n, n, n, l);
    FiveUpdates(l, n, n, n, n, v);
    FiveUpdates(l, n, v, n, n, v);
    p := Captures(p, System(Five(l, n, v, v, n), net), 1);
    a, c, d := l.(tickets := l.tickets + {Ticket(1, 0)}), v, v;
    FiveUpdates(l, n, v, v, n, a);
  }

  /** What server 2 sends to server 5. */
  function Late(): Message {
    AppendEntries(2, 5, AppendArgs(2, 2, 0, 0, [G], 0))
  }

  lemma LateIsSent(w: NodeState)
    requires Heads(w, 2, [G]) && Unheard(w, 2, 1)
    ensures EntriesFrom(w.log, Lookup(w.nextIndex, 5)) != [] && AppendEntries(2, 5, Request(w, 2, 5)) == Late()
  {
    assert 5 in Others(2);
  }

  /** Server 2 leads term 2 with the same votes, and takes a command that it sends to server 5. */
  lemma SecondLeader() returns (p: Play, net: set<Message>, a: NodeState, b: NodeState, c: NodeState, d: NodeState)
    ensures Reached(p, System(Five(a, b, c, d, NewNode()), net)) && Plays(p, AMNESIC) && Late() in net
    ensures Heads(a, 1, []) && a.tickets == {Ticket(1, 0)} && Heads(b, 2, [G]) && Blank(c, 2) && Blank(d, 2)
  {
    var n, args, n1 := NewNode(), VoteArgs(2, 2, 0, 0), StartElection(NewNode(), 2);
    var l := Won(n1, 2, 3, 4);
    var c1, d1;
    p, net, a, c1, d1 := FirstLeader();
    assert VoteRequest(StartElection(n1, 2), 2) == args;
    BlankVotes(c1, args);
    BlankVotes(d1, args);
    WonHeads(n1, 2, 3, 4);
    p, net := Overtakes(p, System(Five(a, n, c1, d1, n), net), 2, 3, 4, n1);
    c, d := HandleVote(c1, args).0, HandleVote(d1, args).0;
    FiveUpdates(a, n, c1, d1, n, l);
    FiveUpdates(a, l, c1, d1, n, c);
    FiveUpdates(a, l, c, d1, n, d);
    p, net, b := Takes(p, System(Five(a, l, c, d, n), net));
    FiveUpdates(a, l, c, d, n, b);
  }

  lemma Takes(p: Play, s: System) returns (q: Play, net: set<Message>, b: NodeState)
    requires Reached(p, s) && p.cfg == FIVE && Heads(s.nodes[2], 2, []) && Unheard(s.nodes[2], 2, 1)
    ensures Reached(q, System(s.nodes[2 := b], net)) && Continues(p, q) && Heads(b, 2, [G]) && Late() in net
  {
    b := Submit(s.nodes[2], [8]);
    SubmitHeads(s.nodes[2], 2, 2, [], 1, [8]);
    assert [] + [G] == [G];
    LateIsSent(b);
    q := Submits(p, s, 2, [8]);
    q, net := Sends(q, System(s.nodes[2 := b], s.net), 2, 5);
  }

  /** Server 1 leads term 3 with the same votes. Its heartbeat of term 1 is still under way. */
  lemma LeadsAgain() returns (p: Play, net: set<Message>, a: NodeState, b: NodeState, c: NodeState, d: NodeState)
    ensures Reached(p, System(Five(a, b, c, d, NewNode()), net)) && Plays(p, AMNESIC) && Late() in net
    ensures Heads(a, 3, []) && Unheard(a, 1, 1) && Ticket(1, 0) in a.tickets
    ensures Heads(b, 2, [G]) && Blank(c, 3) && Blank(d, 3)
  {
    var a1, c1, d1;
    p, net, a1, b, c1, d1 := SecondLeader();
    var a2 := StartElection(a1, 1);
    LaterVote(a1, c1, d1);
    WonHeads(a2, 1, 3, 4);
    p, net := Overtakes(p, System(Five(a1, b, c1, d1, NewNode()), net), 1, 3, 4, a2);
    var args := VoteArgs(3, 1, 0, 0);
    a, c, d := Won(a2, 1, 3, 4), HandleVote(c1, args).0, HandleVote(d1, args).0;
    FiveUpdates(a1, b, c1, d1, NewNode(), a);
    FiveUpdates(a, b, c1, d1, NewNode(), c);
    FiveUpdates(a, b, c, d1, NewNode(), d);
  }

  lemma LaterVote(a: NodeState, c: NodeState, d: NodeState)
    requires Heads(a, 1, []) && Blank(c, 2) && Blank(d, 2)
    ensures var a2, args := StartElection(a, 1), VoteArgs(3, 1, 0, 0);
            && VoteRequest(StartElection(a2, 1), 1) == args && a2.currentTerm == 2 && a2.log == [] && Quiet(a2)
            && Grants(c, args) && Blank(HandleVote(c, args).0, 3) && Grants(d, args) && Blank(HandleVote(d, args).0, 3)
  {
    BlankVotes(c, VoteArgs(3, 1, 0, 0));
    BlankVotes(d, VoteArgs(3, 1, 0, 0));
  }

  /** And it takes a command. */
  lemma ThirdLeader() returns (p: Play, net: set<Message>, a: NodeState, b: NodeState, c: NodeState, d: NodeState)
    ensures Reached(p, System(Five(a, b, c, d, NewNode()), net)) && Plays(p, AMNESIC) && Late() in net
    ensures Heads(a, 3, [H]) && Unheard(a, 1, 1) && Ticket(1, 0) in a.tickets
    ensures Heads(b, 2, [G]) && Blank(c, 3) && Blank(d, 3)
  {
    var l;
    p, net, l, b, c, d := LeadsAgain();
    a := Submit(l, [9]);
    SubmitHeads(l, 1, 3, [], 1, [9]);
    assert [] + [H] == [H];
    p := Submits(p, System(Five(l, b, c, d, NewNode()), net), 1, [9]);
    FiveUpdates(l, b, c, d, NewNode(), a);
  }

  // ----- server 5 holds an entry of a later term than its own -----

  const HELD := [TermRecord(1), EntryRecord(1, 3, [9])]

  /** Server 5 in term 1 with the entry of term 3, behind `stray` bytes. */
  function Ahead(stray: nat): NodeState {
    Boot(HELD, stray)
  }

  lemma AheadIs(stray: nat)
    ensures var s := Ahead(stray);
            && s.currentTerm == 1 && s.votedFor == NO_NODE && s.log == [H] && s.wal == HELD && s.discarded == 0
            && s.found == 2 && s.stray == stray && Quiet(s)
  {
    FoldAppend([], TermRecord(1));
    FoldAppend([] + [TermRecord(1)], EntryRecord(1, 3, [9]));
    assert [] + [TermRecord(1)] + [EntryRecord(1, 3, [9])] == HELD;
  }

  /** The heartbeat of term 1 carries the log of term 3. */
  lemma StaleBeat(a: NodeState)
    requires Heads(a, 3, [H]) && Unheard(a, 1, 1)
    ensures AppendRequest(a, 1, 5, Ticket(1, 0)) == AppendArgs(1, 1, 0, 0, [H], 0)
  {
    assert 5 in Others(1);
  }

  lemma BeatIsHeld()
    ensures var e := HandleAppend(NewNode(), AppendArgs(1, 1, 0, 0, [H], 0)).0;
            Intact(e) && e.discarded == 0 && e.wal == HELD && Restart(e, 3) == Ahead(3)
  {
    var e := HandleAppend(NewNode(), AppendArgs(1, 1, 0, 0, [H], 0)).0;
    assert Divergence([], 0, [H]) == 0;
    assert EntryRecords([H]) == [EntryRecord(1, 3, [9])];
    assert e.wal == [TermRecord(1)] + EntryRecords([H]);
  }

  lemma GetsAhead() returns (p: Play, net: set<Message>, a: NodeState, b: NodeState, c: NodeState, d: NodeState)
    ensures Reached(p, System(Five(a, b, c, d, Ahead(3)), net)) && Plays(p, AMNESIC) && Late() in net
    ensures Heads(a, 3, [H]) && Unheard(a, 1, 1) && Heads(b, 2, [G]) && Blank(c, 3) && Blank(d, 3)
  {
    var n, args := NewNode(), AppendArgs(1, 1, 0, 0, [H], 0);
    var e := HandleAppend(n, args).0;
    BeatIsHeld();
    p, net, a, b, c, d := ThirdLeader();
    StaleBeat(a);
    p, net := Beats(p, System(Five(a, b, c, d, n), net), 1, 5, Ticket(1, 0));
    p, net := Receives(p, System(Five(a, b, c, d, n), net), AppendEntries(1, 5, args));
    FiveUpdates(a, b, c, d, n, e);
    p := Reboots(p, System(Five(a, b, c, d, e), net), 5, 3);
    FiveUpdates(a, b, c, d, e, Ahead(3));
  }

  // ----- the entry is committed with the help of server 5 -----

  const OFFER := AppendArgs(3, 1, 0, 0, [H], 0)

  lemma Offers(a: NodeState, to: NodeId)
    requires Heads(a, 3, [H]) && to in a.nextIndex && a.nextIndex[to] == 1
    ensures Request(a, 1, to) == OFFER && EntriesFrom(a.log, Lookup(a.nextIndex, to)) != []
  {
  }

  /** Server 5 holds the entry already: it records nothing but the term. */
  function Promised(): NodeState {
    HandleAppend(Ahead(3), OFFER).0
  }

  lemma AheadAnswers()
    ensures HandleAppend(Ahead(3), OFFER).1 == AppendReply(3, true, 0, 0) && Promised().wal == HELD + [TermRecord(3)]
    ensures MayLose(AMNESIC, Promised()) && Restart(Promised(), 0) == Ahead(0)
  {
    AheadIs(3);
    assert Divergence([H], 0, [H]) == 1;
    assert [H][1..] == [] && EntryRecords([]) == [];
    assert Promised().wal == HELD + [TermRecord(3)];
    assert Promised().wal[..2] == HELD && Promised().wal[2..] == [TermRecord(3)];
  }

  lemma BlankAnswers(c: NodeState)
    requires Blank(c, 3)
    ensures HandleAppend(c, OFFER).1 == AppendReply(3, true, 0, 0)
  {
    assert Divergence([], 0, [H]) == 0;
  }

  /** The leader of term 3 has committed its entry. */
  ghost predicate Settled(a: NodeState) {
    a.role == Leader && a.currentTerm == 3 && a.log == [H] && a.commitIndex == 1
  }

  lemma HearsFive() returns (p: Play, net: set<Message>, a: NodeState, b: NodeState, c: NodeState, d: NodeState)
    ensures Reached(p, System(Five(a, b, c, d, Promised()), net)) && Plays(p, AMNESIC) && Late() in net
    ensures Heads(a, 3, [H]) && Heard(a, 1, 5) && 3 in a.nextIndex && a.nextIndex[3] == 1
    ensures Heads(b, 2, [G]) && Blank(c, 3) && Blank(d, 3)
  {
    var a1, f;
    p, net, a1, b, c, d := GetsAhead();
    assert 5 in Others(1) && 3 in Others(1);
    Offers(a1, 5);
    AheadAnswers();
    OneAnswer(a1, 1, 5, 3, [H], 1, OFFER);
    p, net, f, a := Hears(p, System(Five(a1, b, c, d, Ahead(3)), net), 1, 5, OFFER);
    FiveUpdates(a1, b, c, d, Ahead(3), f);
    FiveUpdates(a1, b, c, d, f, a);
  }

  lemma Commits() returns (p: Play, net: set<Message>, a: NodeState, b: NodeState, c: NodeState, d: NodeState)
    ensures Reached(p, System(Five(a, b, c, d, Promised()), net)) && Plays(p, AMNESIC) && Late() in net
    ensures Settled(a) && Heads(b, 2, [G]) && Blank(d, 3)
  {
    var a1, c1;
    p, net, a1, b, c1, d := HearsFive();
    assert 5 in Others(1) && 3 in Others(1);
    Offers(a1, 3);
    BlankAnswers(c1);
    TwoAnswers(a1, 1, 5, 3, 3, [H], OFFER);
    p, net, c, a := Hears(p, System(Five(a1, b, c1, d, Promised()), net), 1, 3, OFFER);
    FiveUpdates(a1, b, c1, d, Promised(), c);
    FiveUpdates(a1, b, c, d, Promised(), a);
  }

  // ----- server 5 forgets term 3 and listens to the leader of term 2 -----

  function Turned(): NodeState {
    HandleAppend(Ahead(0), AppendArgs(2, 2, 0, 0, [G], 0)).0
  }

  lemma TurnedIs()
    ensures Turned().log == [G] && Turned().currentTerm == 2
  {
    AheadIs(0);
    assert Divergence([H], 0, [G]) == 0;
    assert [H][..0] + [G][0..] == [G];
  }

  lemma Forgets() returns (p: Play, net: set<Message>, a: NodeState, b: NodeState, c: NodeState, d: NodeState)
    ensures Reached(p, System(Five(a, b, c, d, Turned()), net)) && Plays(p, AMNESIC)
    ensures Settled(a) && Heads(b, 2, [G]) && Blank(d, 3)
  {
    AheadAnswers();
    p, net, a, b, c, d := Commits();
    p := Loses(p, System(Five(a, b, c, d, Promised()), net), 5);
    FiveUpdates(a, b, c, d, Promised(), Ahead(0));
    p, net := Receives(p, System(Five(a, b, c, d, Ahead(0)), net), Late());
    FiveUpdates(a, b, c, d, Ahead(0), Turned());
  }

  // ----- the leader of term 2 wins term 4 -----

  lemma LastVote(b: NodeState, d: NodeState, e: NodeState)
    requires Heads(b, 2, [G]) && Blank(d, 3) && e.log == [G] && e.currentTerm == 2
    ensures var args := VoteArgs(4, 2, 1, 2);
            && Asked(StartElection(b, 2), 2) == args && Grants(d, args) && Blank(HandleVote(d, args).0, 4)
            && Grants(e, args) && HandleVote(e, args).0.log == [G] && HandleVote(e, args).0.currentTerm == 4
  {
    BlankVotes(d, VoteArgs(4, 2, 1, 2));
  }

  lemma LastWinner(b: NodeState)
    requires Heads(b, 2, [G])
    ensures var l := Won(StartElection(b, 2), 2, 4, 5); Heads(l, 4, [G]) && Unheard(l, 2, 2)
  {
    WonHeads(StartElection(b, 2), 2, 4, 5);
  }

  /**
   * Server 2 leads term 4 without the entry that server 1 committed in term 3: Leader Completeness fails.
   */
  lemma CompletenessForgotten()
      returns (p: Play, net: set<Message>, a: NodeState, b: NodeState, c: NodeState, d: NodeState, e: NodeState)
    ensures Reached(p, System(Five(a, b, c, d, e), net)) && Plays(p, AMNESIC)
    ensures Settled(a) && Heads(b, 4, [G]) && Unheard(b, 2, 2) && Blank(d, 4) && e.log == [G] && e.currentTerm == 4
  {
    var b1, d1;
    p, net, a, b1, c, d1 := Forgets();
    TurnedIs();
    p, net, b, d, e := LastElection(p, net, a, b1, c, d1, Turned());
  }

  lemma LastElection(p: Play, net: set<Message>, a: NodeState, b: NodeState, c: NodeState, d: NodeState, e: NodeState)
      returns (q: Play, net': set<Message>, b': NodeState, d': NodeState, e': NodeState)
    requires Reached(p, System(Five(a, b, c, d, e), net)) && Plays(p, AMNESIC)
    requires Heads(b, 2, [G]) && Blank(d, 3) && e.log == [G] && e.currentTerm == 2
    ensures Reached(q, System(Five(a, b', c, d', e'), net')) && Plays(q, AMNESIC)
    ensures Heads(b', 4, [G]) && Unheard(b', 2, 2) && Blank(d', 4) && e'.log == [G] && e'.currentTerm == 4
  {
    var args := VoteArgs(4, 2, 1, 2);
    LastVote(b, d, e);
    LastWinner(b);
    q, net' := Overtakes(p, System(Five(a, b, c, d, e), net), 2, 4, 5, StartElection(b, 2));
    b', d', e' := Won(StartElection(b, 2), 2, 4, 5), HandleVote(d, args).0, HandleVote(e, args).0;
    FiveUpdates(a, b, c, d, e, b');
    FiveUpdates(a, b', c, d, e, d');
    FiveUpdates(a, b', c, d', e, e');
  }

  // ----- and commits another entry at index 1 -----

  const NEXT := AppendArgs(4, 2, 1, 2, [K], 0)
  const BOTH := AppendArgs(4, 2, 0, 0, [G, K], 0)

  lemma Asks(b: NodeState, to: NodeId)
    requires Heads(b, 4, [G, K]) && to in b.nextIndex && b.nextIndex[to] in {1, 2}
    ensures Request(b, 2, to) == (if b.nextIndex[to] == 2 then NEXT else BOTH)
    ensures EntriesFrom(b.log, Lookup(b.nextIndex, to)) != []
  {
    assert [G, K][1..] == [K];
  }

  lemma FiveAnswers(e: NodeState)
    requires e.log == [G] && e.currentTerm == 4
    ensures HandleAppend(e, NEXT).1 == AppendReply(4, true, 0, 0)
  {
  }

  /** Server 4 lacks the previous entry at first. */
  lemma FourAnswers(d: NodeState)
    requires Blank(d, 4)
    ensures HandleAppend(d, NEXT).1 == AppendReply(4, false, 0, 1) && Blank(HandleAppend(d, NEXT).0, 4)
    ensures HandleAppend(d, BOTH).1 == AppendReply(4, true, 0, 0)
  {
  }

  lemma RollsBack(b: NodeState)
    requires Heads(b, 4, [G, K]) && Heard(b, 2, 5) && 4 in b.nextIndex && b.nextIndex[4] == 2
    ensures var l := HandleAppendReply(b, Others(2), 4, NEXT, AppendReply(4, false, 0, 1));
            Heads(l, 4, [G, K]) && Heard(l, 2, 5) && 4 in l.nextIndex && l.nextIndex[4] == 1
  {
  }

  lemma TakesLast() returns (p: Play, net: set<Message>, a: NodeState, b: NodeState, c: NodeState, d: NodeState,
          e: NodeState)
    ensures Reached(p, System(Five(a, b, c, d, e), net)) && Plays(p, AMNESIC)
    ensures Settled(a) && Heads(b, 4, [G, K]) && Unheard(b, 2, 2) && Blank(d, 4) && e.log == [G] && e.currentTerm == 4
  {
    var l;
    p, net, a, l, c, d, e := CompletenessForgotten();
    b := Submit(l, [10]);
    SubmitHeads(l, 2, 4, [G], 2, [10]);
    assert [G] + [K] == [G, K];
    p := Submits(p, System(Five(a, l, c, d, e), net), 2, [10]);
    FiveUpdates(a, l, c, d, e, b);
  }

  lemma HearsLast() returns (p: Play, net: set<Message>, a: NodeState, b: NodeState, c: NodeState, d: NodeState,
          e: NodeState)
    ensures Reached(p, System(Five(a, b, c, d, e), net)) && Plays(p, AMNESIC) && Settled(a) && Blank(d, 4)
    ensures Heads(b, 4, [G, K]) && Heard(b, 2, 5) && 4 in b.nextIndex && b.nextIndex[4] == 2
  {
    var b1, e1;
    p, net, a, b1, c, d, e1 := TakesLast();
    assert 5 in Others(2) && 4 in Others(2);
    Asks(b1, 5);
    FiveAnswers(e1);
    OneAnswer(b1, 2, 5, 4, [G, K], 2, NEXT);
    p, net, e, b := Hears(p, System(Five(a, b1, c, d, e1), net), 2, 5, NEXT);
    FiveUpdates(a, b1, c, d, e1, e);
    FiveUpdates(a, b1, c, d, e, b);
  }

  lemma Retries() returns (p: Play, net: set<Message>, a: NodeState, b: NodeState, c: NodeState, d: NodeState,
          e: NodeState)
    ensures Reached(p, System(Five(a, b, c, d, e), net)) && Plays(p, AMNESIC) && Settled(a) && Blank(d, 4)
    ensures Heads(b, 4, [G, K]) && Heard(b, 2, 5) && 4 in b.nextIndex && b.nextIndex[4] == 1
  {
    var b1, d1;
    p, net, a, b1, c, d1, e := HearsLast();
    assert 4 in Others(2);
    Asks(b1, 4);
    FourAnswers(d1);
    RollsBack(b1);
    p, net, d, b := Hears(p, System(Five(a, b1, c, d1, e), net), 2, 4, NEXT);
    FiveUpdates(a, b1, c, d1, e, d);
    FiveUpdates(a, b1, c, d, e, b);
  }

  /** Two nodes have committed different entries at index 1. */
  lemma CommitsForgotten() returns (p: Play)
    ensures PlayedOut(p, AMNESIC) && 1 in Last(p.run).nodes && 2 in Last(p.run).nodes
    ensures var a, b := Last(p.run).nodes[1], Last(p.run).nodes[2];
            && a.commitIndex == 1 && a.log == [H] && b.commitIndex == 2 && b.log == [G, K]
  {
    var q, net, a, b1, c, d1, e := Retries();
    assert 4 in Others(2) && 5 in Others(2);
    Asks(b1, 4);
    FourAnswers(d1);
    TwoAnswers(b1, 2, 5, 4, 4, [G, K], BOTH);
    var r, net', d, b := Hears(q, System(Five(a, b1, c, d1, e), net), 2, 4, BOTH);
    FiveUpdates(a, b1, c, d1, e, d);
    FiveUpdates(a, b1, c, d, e, b);
    p := r;
  }
}
