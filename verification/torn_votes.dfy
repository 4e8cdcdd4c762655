/**
 * Why restarts that forget votes are left out: a server votes twice in one term, and the term has two
 * leaders that commit different entries. No term and no entry is forgotten, and no log truncated.
 */
module TornVotes {
  import opened Types
  import opened NodeSpec
  import opened Cluster
  import opened VoteSafety
  import opened Scenarios
  import opened ThreeServers
  import opened FirstEntries

  const FORGETFUL := Flaws(true, false, false, false)

  const A := Entry(1, 1, [7])
  const B := Entry(1, 1, [8])

  /** Server 3 when its vote for server 1 is recorded behind three stray bytes. */
  function Voted(): NodeState {
    HandleVote(Undecided(3), VoteArgs(1, 1, 0, 0)).0
  }

  lemma VoteForgotten()
    ensures GrantsVote(Undecided(3), VoteArgs(1, 1, 0, 0)) && Voted().wal == [TermRecord(1), VoteRecord(1, 1)]
    ensures MayLose(FORGETFUL, Voted()) && Restart(Voted(), 0) == Undecided(0)
  {
    UndecidedIs(3);
    assert Voted().wal[..1] == [TermRecord(1)] && Voted().wal[1..] == [VoteRecord(1, 1)];
  }

  /** Server 1 wins term 1 with the vote of server 3, which then restarts. */
  lemma VoterRestarts() returns (p: Play, net: set<Message>)
    ensures Reached(p, System(Three(Winner(NewNode(), 1, 3), NewNode(), Undecided(0)), net)) && Plays(p, FORGETFUL)
    ensures VoteResponse(3, 1, VoteArgs(1, 1, 0, 0), VoteReply(1, true)) in net
  {
    var n, c, w := NewNode(), StartElection(NewNode(), 1), Winner(NewNode(), 1, 3);
    VoteForgotten();
    UndecidedIs(3);
    p, net := Interrupted(FORGETFUL);
    p, net := Decides(p, System(Three(c, n, Undecided(3)), net), 3);
    ThreeUpdates(c, n, Undecided(3), w);
    ThreeUpdates(w, n, Undecided(3), Voted());
    p := Loses(p, System(Three(w, n, Voted()), net), 3);
    ThreeUpdates(w, n, Voted(), Undecided(0));
  }

  /** Server 3 in term 1 with a vote for server 2. */
  function VotedAgain(): NodeState {
    HandleVote(Undecided(0), VoteArgs(1, 2, 0, 0)).0
  }

  lemma VotesAgain()
    ensures GrantsVote(Undecided(0), VoteArgs(1, 2, 0, 0)) && VotedAgain().log == [] && VotedAgain().currentTerm == 1
  {
    UndecidedIs(0);
  }

  lemma SecondElection() returns (p: Play, net: set<Message>)
    ensures Reached(p, System(Three(Winner(NewNode(), 1, 3), Winner(NewNode(), 2, 3), VotedAgain()), net))
    ensures Plays(p, FORGETFUL)
    ensures VoteResponse(3, 1, VoteArgs(1, 1, 0, 0), VoteReply(1, true)) in net
    ensures VoteResponse(3, 2, VoteArgs(1, 2, 0, 0), VoteReply(1, true)) in net
  {
    var n, w, x := NewNode(), Winner(NewNode(), 1, 3), Winner(NewNode(), 2, 3);
    VotesAgain();
    UndecidedIs(0);
    p, net := VoterRestarts();
    p, net := Wins(p, System(Three(w, n, Undecided(0)), net), 2, 3);
    ThreeUpdates(w, n, Undecided(0), x);
    ThreeUpdates(w, x, Undecided(0), VotedAgain());
  }

  /** Two leaders of one term, and two votes of one server in it. */
  lemma TwoLeaders() returns (p: Play)
    ensures PlayedOut(p, FORGETFUL) && LeadsTerm(Last(p.run), 1, 1) && LeadsTerm(Last(p.run), 2, 1)
    ensures Granted(Last(p.run), 3, 1, 1) && Granted(Last(p.run), 3, 2, 1)
  {
    var net;
    p, net := SecondElection();
  }

  // ----- commits -----

  /** Server 3 with the first leader's entry. */
  function Holder(): NodeState {
    HandleAppend(VotedAgain(), First(1, A)).0
  }

  /** It takes the second leader's entry for the one that it holds, since they are of one term. */
  lemma HolderAccepts()
    ensures Accepts(VotedAgain(), 1, A) && Accepts(Holder(), 2, B)
  {
    VotesAgain();
    FirstAccepted(VotedAgain(), 1, A);
    assert Holder().log == [A] && Holder().currentTerm == 1;
    assert Divergence([A], 0, [B]) == 1;
  }

  /** The first leader commits its entry and tells its client. */
  lemma FirstTold() returns (p: Play, net: set<Message>, a: NodeState, k: nat)
    ensures Reached(p, System(Three(a, Winner(NewNode(), 2, 3), Holder()), net)) && Plays(p, FORGETFUL) && Told(a, A)
    ensures k < |p.run.steps| && p.run.steps[k] == Complete(ClientReturn(1, Submission(1, 1, [7])))
  {
    var w, x := Winner(NewNode(), 1, 3), Winner(NewNode(), 2, 3);
    HolderAccepts();
    WinnerBegins(NewNode(), 1, 3, 2);
    p, net := SecondElection();
    p, net, a, k := Tells(p, System(Three(w, x, VotedAgain()), net), 1, 2, A);
    ThreeUpdates(w, x, VotedAgain(), a);
    ThreeUpdates(a, x, VotedAgain(), Holder());
  }

  /** The two leaders commit and deliver different entries at index 1. */
  lemma CommitsForgotten() returns (p: Play, k: nat)
    ensures PlayedOut(p, FORGETFUL) && 1 in Last(p.run).nodes && 2 in Last(p.run).nodes
    ensures Told(Last(p.run).nodes[1], A) && Told(Last(p.run).nodes[2], B)
    ensures k < |p.run.steps| && p.run.steps[k] == Complete(ClientReturn(1, Submission(1, 1, [7])))
  {
    HolderAccepts();
    WinnerBegins(NewNode(), 2, 3, 1);
    var q, net, a, k' := FirstTold();
    p := SecondTells(q, net, a, Winner(NewNode(), 2, 3), Holder(), A, B);
    k := k';
  }
}
