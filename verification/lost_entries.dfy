/**
 * Why restarts that lose entries behind stray bytes are left out: nobody forgets a vote or a term, nobody
 * truncates a log, and still a committed and acknowledged entry is replaced.
 */
module LostEntries {
  import opened Types
  import opened NodeSpec
  import opened Cluster
  import opened Scenarios
  import opened ThreeServers
  import opened FirstEntries

  const LOSSY := Flaws(false, false, true, false)

  const A := Entry(1, 1, [7])
  const B := Entry(2, 1, [8])

  /** Server 2 when it has voted in term 1, and server 3 when it has the entry behind three stray bytes. */
  function Voter(): NodeState {
    HandleVote(NewNode(), VoteArgs(1, 1, 0, 0)).0
  }

  function Holder(): NodeState {
    HandleAppend(Undecided(3), First(1, A)).0
  }

  lemma HolderForgets()
    ensures Accepts(Undecided(3), 1, A) && Holder().log == [A]
        && Holder().wal == [TermRecord(1), EntryRecord(1, 1, [7])]
    ensures MayLose(LOSSY, Holder()) && Restart(Holder(), 0) == Undecided(0)
  {
    UndecidedIs(3);
    FirstAccepted(Undecided(3), 1, A);
    assert EntryRecords([A]) == [EntryRecord(1, 1, [7])];
    assert Holder().wal[..1] == [TermRecord(1)] && Holder().wal[1..] == [EntryRecord(1, 1, [7])];
  }

  /** Server 1 wins term 1 with the vote of server 2, commits its entry with server 3 and acknowledges it. */
  lemma FirstTold() returns (p: Play, net: set<Message>, w: NodeState, k: nat)
    ensures Reached(p, System(Three(w, Voter(), Holder()), net)) && Plays(p, LOSSY) && Told(w, A)
    ensures k < |p.run.steps| && p.run.steps[k] == Complete(ClientReturn(1, Submission(1, 1, [7])))
  {
    var n, c, l, u := NewNode(), StartElection(NewNode(), 1), Winner(NewNode(), 1, 2), Undecided(3);
    HolderForgets();
    WinnerBegins(n, 1, 2, 2);
    p, net := Interrupted(LOSSY);
    p, net := Decides(p, System(Three(c, n, u), net), 2);
    ThreeUpdates(c, n, u, l);
    ThreeUpdates(l, n, u, Voter());
    p, net, w, k := Tells(p, System(Three(l, Voter(), u), net), 1, 2, A);
    ThreeUpdates(l, Voter(), u, w);
    ThreeUpdates(w, Voter(), u, Holder());
  }

  lemma HolderRestarts() returns (p: Play, net: set<Message>, w: NodeState, k: nat)
    ensures Reached(p, System(Three(w, Voter(), Undecided(0)), net)) && Plays(p, LOSSY) && Told(w, A)
    ensures k < |p.run.steps| && p.run.steps[k] == Complete(ClientReturn(1, Submission(1, 1, [7])))
  {
    HolderForgets();
    p, net, w, k := FirstTold();
    p := Loses(p, System(Three(w, Voter(), Holder()), net), 3);
    ThreeUpdates(w, Voter(), Holder(), Undecided(0));
  }

  function Again(): NodeState {
    HandleVote(Undecided(0), VoteArgs(2, 2, 0, 0)).0
  }

  lemma VoterWins()
    ensures VoteRequest(StartElection(Voter(), 2), 2) == VoteArgs(2, 2, 0, 0) && Voter().currentTerm == 1
    ensures GrantsVote(Undecided(0), VoteArgs(2, 2, 0, 0)) && Again().log == [] && Again().currentTerm == 2
    ensures Begins(Winner(Voter(), 2, 3), 2, 1)
  {
    UndecidedIs(0);
    WinnerBegins(Voter(), 2, 3, 1);
  }

  /**
   * Server 2 leads term 2 with an empty log, although server 1 has committed and acknowledged an entry in
   * term 1: Leader Completeness fails.
   */
  lemma CompletenessLost() returns (p: Play, net: set<Message>, w: NodeState, k: nat)
    ensures Reached(p, System(Three(w, Winner(Voter(), 2, 3), Again()), net)) && Plays(p, LOSSY)
    ensures Told(w, A) && Begins(Winner(Voter(), 2, 3), 2, 1)
    ensures k < |p.run.steps| && p.run.steps[k] == Complete(ClientReturn(1, Submission(1, 1, [7])))
  {
    var l := Winner(Voter(), 2, 3);
    VoterWins();
    UndecidedIs(0);
    p, net, w, k := HolderRestarts();
    p, net := Wins(p, System(Three(w, Voter(), Undecided(0)), net), 2, 3);
    ThreeUpdates(w, Voter(), Undecided(0), l);
    ThreeUpdates(w, l, Undecided(0), Again());
  }

  /** It goes on to commit another entry at index 1 and to deliver it. */
  lemma CommitsLost() returns (p: Play, k: nat)
    ensures PlayedOut(p, LOSSY) && 1 in Last(p.run).nodes && 2 in Last(p.run).nodes
    ensures Told(Last(p.run).nodes[1], A) && Told(Last(p.run).nodes[2], B)
    ensures k < |p.run.steps| && p.run.steps[k] == Complete(ClientReturn(1, Submission(1, 1, [7])))
  {
    VoterWins();
    FirstAccepted(Again(), 2, B);
    var q, net, w, k' := CompletenessLost();
    p := SecondTells(q, net, w, Winner(Voter(), 2, 3), Again(), A, B);
    k := k';
  }
}
