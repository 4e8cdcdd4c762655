/** How votes are counted, in every run of clusters of every size, however nodes crash. */
module Elections {
  import opened Types
  import opened Quorums
  import opened NodeSpec
  import opened CommitRule
  import opened Cluster

  /** A candidate counts distinct servers, itself among them, which are not yet a majority. */
  ghost predicate CountOk(cfg: Config, n: NodeId, s: NodeState) {
    s.role == Candidate ==>
      && n in s.votesReceived && s.votesReceived <= cfg.servers && s.votes == |s.votesReceived|
      && (|cfg.servers| >= 2 ==> 2 * |s.votesReceived| <= |cfg.servers|)
  }

  ghost predicate BetweenServers(cfg: Config, m: Message) {
    (m.RequestVote? || m.VoteResponse?) ==> m.src in cfg.servers && m.dst in cfg.servers && m.src != m.dst
  }

  ghost predicate CountsOk(cfg: Config, s: System) {
    && ValidConfig(cfg) && s.nodes.Keys == cfg.servers
    && (forall n {:trigger CountOk(cfg, n, s.nodes[n])} | n in cfg.servers :: CountOk(cfg, n, s.nodes[n]))
    && (forall m {:trigger BetweenServers(cfg, m)} | m in s.net :: BetweenServers(cfg, m))
  }

  lemma TwoServers(cfg: Config, a: NodeId, b: NodeId)
    requires a in cfg.servers && b in cfg.servers && a != b
    ensures |cfg.servers| >= 2
  {
    SubsetSize({a, b}, cfg.servers);
  }

  /** Everything but the role and what a candidate or new leader counts with is as it was. */
  predicate OnlyCounts(s: NodeState, t: NodeState) {
    t == s.(role := t.role, votes := t.votes, votesReceived := t.votesReceived, nextIndex := t.nextIndex,
            matchIndex := t.matchIndex)
  }

  /** A new leader takes its peers to hold all of its log, and knows of nothing that they do. */
  ghost predicate StartsLeading(peers: seq<NodeId>, t: NodeState) {
    t.role == Leader && forall p | p in peers :: Lookup(t.nextIndex, p) == |t.log| + 1 && Lookup(t.matchIndex, p) == 0
  }

  /**
   * A candidate that gets an answer in its term counts the sender if it grants, and leads if and only if the
   * servers counted are then more than half of all.
   */
  lemma VoteCounted(cfg: Config, n: NodeId, s: NodeState, from: NodeId, reply: VoteReply)
    requires PeersOk(cfg, n) && n in cfg.servers && from in cfg.servers && from != n
    requires CountOk(cfg, n, s) && s.role == Candidate && reply.term <= s.currentTerm
    ensures var t := HandleVoteReply(s, cfg.peers[n], from, s.currentTerm, reply);
            && OnlyCounts(s, t) && t.votesReceived == s.votesReceived + (if reply.granted then {from} else {})
            && (t.role == Leader <==> 2 * |t.votesReceived| > |cfg.servers|)
            && (t.role == Leader ==> StartsLeading(cfg.peers[n], t))
            && (t.role != Leader ==> t == s.(votes := t.votes, votesReceived := t.votesReceived) && CountOk(cfg, n, t))
  {
    AllServers(cfg.servers, n, cfg.peers[n]);
    TwoServers(cfg, n, from);
    assert reply.granted && from in s.votesReceived ==> s.votesReceived + {from} == s.votesReceived;
    assert s.votesReceived + {} == s.votesReceived;
  }

  lemma ActionCounts(cfg: Config, s: System, a: Action)
    requires CountsOk(cfg, s) && Enabled(cfg, s, a)
    ensures CountOk(cfg, Actor(a), NextNode(cfg, s, a))
  {
    var n := Actor(a);
    var st, t := s.nodes[n], NextNode(cfg, s, a);
    assert CountOk(cfg, n, st);
    match a {
      case DeliverVoteReply(m) =>
        assert BetweenServers(cfg, m) && PeersOk(cfg, n);
        if st.role == Candidate && st.currentTerm == m.vote.term && m.voteReply.term <= st.currentTerm {
          VoteCounted(cfg, n, st, m.src, m.voteReply);
        }
      case _ =>
    }
  }

  lemma SentBetweenServers(cfg: Config, s: System, a: Action, m: Message)
    requires CountsOk(cfg, s) && Enabled(cfg, s, a) && m in Sent(cfg, s, a)
    ensures BetweenServers(cfg, m)
  {
    assert PeersOk(cfg, Actor(a));
    match a {
      case ElectionTimeout(n) => assert m.dst in Elements(cfg.peers[n]);
      case DeliverVoteRequest(r) => assert BetweenServers(cfg, r);
      case _ =>
    }
  }

  lemma StepCounts(cfg: Config, s: System, step: Step)
    requires CountsOk(cfg, s) && CanHappen(cfg, s, step)
    ensures CountsOk(cfg, Next(cfg, s, step))
  {
    var s' := Next(cfg, s, step);
    forall n | n in cfg.servers ensures CountOk(cfg, n, s'.nodes[n]) {
      assert CountOk(cfg, n, s.nodes[n]);
      if n == Actor(step.a) && step.Complete? { ActionCounts(cfg, s, step.a); }
    }
    forall m | m in s'.net ensures BetweenServers(cfg, m) {
      if m in s.net { assert BetweenServers(cfg, m); } else { SentBetweenServers(cfg, s, step.a, m); }
    }
  }

  lemma {:induction false} RunCounts(cfg: Config, run: Run, k: nat)
    requires IsAnyRun(cfg, run) && k < |run.states|
    ensures CountsOk(cfg, run.states[k])
  {
    if k > 0 {
      RunCounts(cfg, run, k - 1);
      assert Linked(cfg, run, k - 1);
      StepCounts(cfg, run.states[k - 1], run.steps[k - 1]);
    }
  }

  /** In every run, a candidate leads after an answer in its term if and only if a majority has voted for it. */
  lemma WinsIff(cfg: Config, run: Run, k: nat, m: Message)
    requires IsAnyRun(cfg, run) && k < |run.states| && Enabled(cfg, run.states[k], DeliverVoteReply(m))
    requires var s := run.states[k].nodes[m.dst];
             s.role == Candidate && s.currentTerm == m.vote.term && m.voteReply.term <= s.currentTerm
    ensures var s, t := run.states[k].nodes[m.dst], NextNode(cfg, run.states[k], DeliverVoteReply(m));
            && OnlyCounts(s, t) && t.votesReceived == s.votesReceived + (if m.voteReply.granted then {m.src} else {})
            && (t.role == Leader <==> IsQuorum(cfg.servers, t.votesReceived))
            && (t.role == Leader ==> StartsLeading(cfg.peers[m.dst], t))
            && (t.role != Leader ==> t.role == Candidate)
  {
    RunCounts(cfg, run, k);
    assert CountOk(cfg, m.dst, run.states[k].nodes[m.dst]) && BetweenServers(cfg, m) && PeersOk(cfg, m.dst);
    VoteCounted(cfg, m.dst, run.states[k].nodes[m.dst], m.src, m.voteReply);
  }

  /** There is no other way to the lead. */
  lemma OnlyVotesElect(cfg: Config, run: Run, k: nat)
    requires IsAnyRun(cfg, run) && k < |run.steps| && Linked(cfg, run, k)
    requires var n := Actor(run.steps[k].a);
             run.states[k].nodes[n].role != Leader && run.states[k + 1].nodes[n].role == Leader
    ensures run.steps[k].Complete? && run.steps[k].a.DeliverVoteReply? && run.steps[k].a.m.voteReply.granted
    ensures IsQuorum(cfg.servers, run.states[k + 1].nodes[Actor(run.steps[k].a)].votesReceived)
  {
    var a := run.steps[k].a;
    assert a.DeliverVoteReply?;
    WinsIff(cfg, run, k, a.m);
  }
}
