/** How a reachable cluster relates to its history, and what a step of one node leaves alone. */
module ClusterInv {
  import opened Types
  import opened Logs
  import opened Recovery
  import opened NodeSpec
  import opened Durability
  import opened Cluster
  import opened History
  import opened HistoryGrowth
  import opened HistoryLeaders

  // ----- nodes -----

  /** A vote cast in the current term is remembered, in memory and in the records. */
  ghost predicate VoteOk(h: History, n: NodeId, s: NodeState) {
    (n, s.currentTerm) in h.ballots ==>
      s.votedFor == h.ballots[(n, s.currentTerm)] && Fold(s.wal).votedFor == h.ballots[(n, s.currentTerm)]
  }

  ghost predicate CandidateOk(h: History, n: NodeId, s: NodeState) {
    s.role == Candidate ==>
      && (n, s.currentTerm) in h.candidacies && h.candidacies[(n, s.currentTerm)] == s.log
      && n in s.votesReceived && s.votesReceived <= h.servers && s.votes == |s.votesReceived|
      && (forall v | v in s.votesReceived ::
            (v, s.currentTerm) in h.ballots && h.ballots[(v, s.currentTerm)] == n)
      && !LedBy(h, s.currentTerm, n)
  }

  ghost predicate PeerOk(h: History, s: NodeState, p: NodeId) {
    && p in s.nextIndex && 1 <= s.nextIndex[p] <= |s.log| + 1
    && p in s.matchIndex && s.matchIndex[p] <= |s.log|
    && (s.matchIndex[p] == 0 || Acked(h, p, s.currentTerm, s.matchIndex[p]))
  }

  ghost predicate LeaderOk(cfg: Config, h: History, n: NodeId, s: NodeState) {
    s.role == Leader ==>
      && s.currentTerm in h.ledger && LedBy(h, s.currentTerm, n) && h.ledger[s.currentTerm] == s.log
      && n in cfg.peers
      && forall p {:trigger PeerOk(h, s, p)} | p in cfg.peers[n] :: PeerOk(h, s, p)
  }

  ghost predicate TicketOk(cfg: Config, h: History, n: NodeId, s: NodeState, t: Ticket) {
    && t.term in h.ledger && LedBy(h, t.term, n) && t.term <= s.currentTerm
    && (t.term == s.currentTerm ==> s.role == Leader)
    && Announced(h, t.term, t.commit)
    && n in cfg.peers
    && forall p | p in cfg.peers[n] :: Lookup(s.nextIndex, p) >= 1
  }

  ghost predicate SubmissionOk(h: History, n: NodeId, sub: Submission) {
    && sub.term in h.ledger && LedBy(h, sub.term, n)
    && 1 <= sub.index <= |h.ledger[sub.term]|
    && h.ledger[sub.term][sub.index - 1] == Entry(sub.term, sub.index, sub.command)
  }

  /** Delivery is the committed log from its start, without gap or repetition. */
  ghost predicate ApplyOk(s: NodeState) {
    && s.commitIndex <= |s.log| && s.lastApplied <= |s.delivered| && s.lastApplied <= s.commitIndex
    && match s.phase
       case Idle => s.delivered == s.log[..s.lastApplied]
       case Delivering(rest, last) =>
         s.lastApplied <= last <= s.commitIndex && s.delivered + rest == s.log[..last]
  }

  ghost predicate NodeOk(cfg: Config, h: History, n: NodeId, s: NodeState) {
    && n in h.servers && n in h.term && n in h.log && n in h.commit
    && h.term[n] == s.currentTerm && h.log[n] == s.log && s.commitIndex <= h.commit[n]
    && VoteOk(h, n, s) && CandidateOk(h, n, s) && LeaderOk(cfg, h, n, s)
    && (forall t {:trigger TicketOk(cfg, h, n, s, t)} | t in s.tickets :: TicketOk(cfg, h, n, s, t))
    && (forall sub {:trigger SubmissionOk(h, n, sub)} | sub in s.submissions :: SubmissionOk(h, n, sub))
    && ApplyOk(s) && Durable(s)
  }

  // ----- messages -----

  /** `args` is what `o.leader` sends of `o.log` from some point on. */
  ghost predicate Carries(h: History, o: Offer, src: NodeId, args: AppendArgs) {
    && o.leader == src && args.leader == src && o.term == args.term && o.commit == args.leaderCommit
    && if args.prevLogIndex <= |o.log|
       then args.entries == o.log[args.prevLogIndex..] && args.prevLogTerm == TermAt(o.log, args.prevLogIndex)
       else args.entries == [] && args.prevLogTerm == 0 && src in h.term && h.term[src] > args.term
  }

  ghost predicate Sends(h: History, src: NodeId, args: AppendArgs) {
    exists o {:trigger Carries(h, o, src, args)} | o in h.offers :: Carries(h, o, src, args)
  }

  /** The follower holds what it was sent, if the sender may still count it. */
  ghost predicate Holds(h: History, o: Offer, src: NodeId, dst: NodeId, args: AppendArgs) {
    && Carries(h, o, dst, args)
    && (Ack(src, o.term, |o.log|) in h.acks || (dst in h.term && h.term[dst] > o.term))
  }

  ghost predicate MessageOk(h: History, m: Message) {
    m.src in h.servers && m.dst in h.servers && m.src != m.dst
    && match m
       case RequestVote(src, dst, args) =>
         && args.candidate == src && (src, args.term) in h.candidacies
         && args.lastLogIndex == |h.candidacies[(src, args.term)]|
         && args.lastLogTerm == LastTerm(h.candidacies[(src, args.term)])
       case VoteResponse(src, dst, args, reply) =>
         reply.granted ==> (src, args.term) in h.ballots && h.ballots[(src, args.term)] == dst
       case AppendEntries(src, dst, args) => Sends(h, src, args)
       case AppendResponse(src, dst, args, reply) =>
         && Sends(h, dst, args) && reply.term >= args.term
         && (reply.success ==> exists o {:trigger Holds(h, o, src, dst, args)} | o in h.offers ::
           Holds(h, o, src, dst, args))
         && (!reply.success && reply.term == args.term ==> 1 <= reply.conflictIndex <= args.prevLogIndex)
  }

  ghost predicate NodesOk(cfg: Config, s: System, h: History) {
    s.nodes.Keys == cfg.servers
    && forall n {:trigger NodeOk(cfg, h, n, s.nodes[n])} | n in cfg.servers :: NodeOk(cfg, h, n, s.nodes[n])
  }

  ghost predicate NetOk(s: System, h: History) {
    forall m {:trigger MessageOk(h, m)} | m in s.net :: MessageOk(h, m)
  }

  ghost predicate Reflects(cfg: Config, s: System, h: History) {
    ValidConfig(cfg) && h.servers == cfg.servers && Inv(h) && NodesOk(cfg, s, h) && NetOk(s, h)
  }

  // ----- frames -----

  ghost predicate SameServer(h: History, h': History, v: NodeId) {
    && v in h.term && v in h'.term && h'.term[v] == h.term[v]
    && v in h.log && v in h'.log && h'.log[v] == h.log[v]
    && v in h.commit && v in h'.commit && h'.commit[v] == h.commit[v]
  }

  ghost predicate OwnBallot(h: History, b: (NodeId, nat), x: NodeId) {
    b in h.ballots || b.0 == x
  }

  ghost predicate OwnElection(h: History, h': History, t: nat, x: NodeId) {
    t in h.electedAt || LedBy(h', t, x)
  }

  ghost predicate OwnLedger(h: History, h': History, t: nat, x: NodeId) {
    t in h.ledger && t in h'.ledger && (h'.ledger[t] == h.ledger[t] || LedBy(h, t, x))
  }

  /** From `h` to `h'`, only what concerns server `x` has changed. */
  ghost predicate Frame(h: History, h': History, x: NodeId) {
    && Grows(h, h')
    && (forall v {:trigger SameServer(h, h', v)} | v in h.servers && v != x :: SameServer(h, h', v))
    && (forall b {:trigger OwnBallot(h, b, x)} | b in h'.ballots :: OwnBallot(h, b, x))
    && (forall t {:trigger OwnElection(h, h', t, x)} | t in h'.electedAt :: OwnElection(h, h', t, x))
    && (forall t {:trigger OwnLedger(h, h', t, x)} | t in h.ledger :: OwnLedger(h, h', t, x))
  }

  lemma FrameRefl(h: History, x: NodeId)
    requires ServersOk(h)
    ensures Frame(h, h, x)
  {
  }

  lemma FrameTrans(h0: History, h1: History, h2: History, x: NodeId)
    requires Frame(h0, h1, x) && Frame(h1, h2, x) && ElectionsOk(h0) && ElectionsOk(h1)
    ensures Frame(h0, h2, x)
  {
    GrowsTrans(h0, h1, h2);
    forall v | v in h0.servers && v != x ensures SameServer(h0, h2, v) {
      assert SameServer(h0, h1, v) && SameServer(h1, h2, v);
    }
    forall b | b in h2.ballots ensures OwnBallot(h0, b, x) {
      assert OwnBallot(h1, b, x);
      if b in h1.ballots { assert OwnBallot(h0, b, x); }
    }
    forall t | t in h2.electedAt ensures OwnElection(h0, h2, t, x) {
      assert OwnElection(h1, h2, t, x);
      if t in h1.electedAt {
        assert OwnElection(h0, h1, t, x);
        LedByStays(h1, h2, t);
      }
    }
    forall t | t in h0.ledger ensures OwnLedger(h0, h2, t, x) {
      assert OwnLedger(h0, h1, t, x) && OwnLedger(h1, h2, t, x);
      LedByStays(h0, h1, t);
    }
  }

  lemma GrowsTrans(h0: History, h1: History, h2: History)
    requires Grows(h0, h1) && Grows(h1, h2)
    ensures Grows(h0, h2)
  {
  }

  lemma LedByStays(h: History, h': History, t: nat)
    requires ElectionsOk(h) && Grows(h, h')
    ensures t in h.electedAt ==> forall n :: LedBy(h, t, n) <==> LedBy(h', t, n)
  {
    assert t in h.electedAt ==> ElectedAt(h, t);
  }

  lemma AckedStays(h: History, h': History, v: NodeId, term: nat, length: nat)
    requires Grows(h, h') && Acked(h, v, term, length)
    ensures Acked(h', v, term, length)
  {
  }

  lemma AnnouncedStays(h: History, h': History, t: nat, commit: nat)
    requires Grows(h, h') && Announced(h, t, commit)
    ensures Announced(h', t, commit)
  {
    if commit != 0 {
      var m :| m in h.tallies && TallyOk(h, m) && m.term <= t && commit <= m.length;
      TallyStays(h, h', m);
    }
  }

  lemma CandidateFrame(h: History, h': History, x: NodeId, n: NodeId, s: NodeState)
    requires ElectionsOk(h) && Frame(h, h', x) && n != x && CandidateOk(h, n, s)
    ensures CandidateOk(h', n, s)
  {
    LedByStays(h, h', s.currentTerm);
    if s.currentTerm in h'.electedAt { assert OwnElection(h, h', s.currentTerm, x); }
  }

  lemma LeaderFrame(cfg: Config, h: History, h': History, x: NodeId, n: NodeId, s: NodeState)
    requires ElectionsOk(h) && Frame(h, h', x) && n != x && LeaderOk(cfg, h, n, s)
    ensures LeaderOk(cfg, h', n, s)
  {
    if s.role == Leader {
      LedByStays(h, h', s.currentTerm);
      assert OwnLedger(h, h', s.currentTerm, x);
      forall p | p in cfg.peers[n] ensures PeerOk(h', s, p) {
        assert PeerOk(h, s, p);
        if s.matchIndex[p] != 0 { AckedStays(h, h', p, s.currentTerm, s.matchIndex[p]); }
      }
    }
  }

  lemma TicketStays(cfg: Config, h: History, h': History, n: NodeId, s: NodeState, t: Ticket)
    requires ElectionsOk(h) && Grows(h, h') && TicketOk(cfg, h, n, s, t)
    ensures TicketOk(cfg, h', n, s, t)
  {
    LedByStays(h, h', t.term);
    AnnouncedStays(h, h', t.term, t.commit);
  }

  lemma SubmissionStays(h: History, h': History, n: NodeId, sub: Submission)
    requires ElectionsOk(h) && Grows(h, h') && SubmissionOk(h, n, sub)
    ensures SubmissionOk(h', n, sub)
  {
    LedByStays(h, h', sub.term);
  }

  /** A node that did not act is as it was. */
  lemma NodeFrame(cfg: Config, h: History, h': History, x: NodeId, n: NodeId, s: NodeState)
    requires ElectionsOk(h) && Frame(h, h', x) && n != x && NodeOk(cfg, h, n, s)
    ensures NodeOk(cfg, h', n, s)
  {
    CandidateFrame(h, h', x, n, s);
    LeaderFrame(cfg, h, h', x, n, s);
    forall t | t in s.tickets ensures TicketOk(cfg, h', n, s, t) {
      assert TicketOk(cfg, h, n, s, t);
      TicketStays(cfg, h, h', n, s, t);
    }
    forall sub | sub in s.submissions ensures SubmissionOk(h', n, sub) {
      assert SubmissionOk(h, n, sub);
      SubmissionStays(h, h', n, sub);
    }
    assert SameServer(h, h', n);
    if (n, s.currentTerm) in h'.ballots { assert OwnBallot(h, (n, s.currentTerm), x); }
  }

  lemma MessageStays(h: History, h': History, m: Message)
    requires Grows(h, h') && MessageOk(h, m)
    ensures MessageOk(h', m)
  {
    match m {
      case RequestVote(src, dst, args) =>
      case VoteResponse(src, dst, args, reply) =>
      case AppendEntries(src, dst, args) => SendsStays(h, h', src, args);
      case AppendResponse(src, dst, args, reply) =>
        SendsStays(h, h', dst, args);
        if reply.success {
          var o :| o in h.offers && Holds(h, o, src, dst, args);
          assert Holds(h', o, src, dst, args);
        }
    }
  }

  lemma SendsStays(h: History, h': History, src: NodeId, args: AppendArgs)
    requires Grows(h, h') && Sends(h, src, args)
    ensures Sends(h', src, args)
  {
    var o :| o in h.offers && Carries(h, o, src, args);
    assert Carries(h', o, src, args);
  }

  /** It suffices to look at the acting node and at the messages it sends. */
  lemma AfterStep(cfg: Config, s: System, s': System, x: NodeId, st': NodeState, sent: set<Message>, h: History,
          h': History)
    requires Reflects(cfg, s, h) && x in cfg.servers && s' == System(s.nodes[x := st'], s.net + sent)
    requires Inv(h') && Frame(h, h', x) && NodeOk(cfg, h', x, st')
    requires forall m {:trigger MessageOk(h', m)} | m in sent :: MessageOk(h', m)
    ensures Reflects(cfg, s', h') && Grows(h, h')
  {
    OtherNodes(cfg, s, s', x, st', h, h');
    forall m | m in s'.net ensures MessageOk(h', m) {
      if m in s.net {
        assert MessageOk(h, m);
        MessageStays(h, h', m);
      }
    }
  }

  lemma OtherNodes(cfg: Config, s: System, s': System, x: NodeId, st': NodeState, h: History, h': History)
    requires NodesOk(cfg, s, h) && ElectionsOk(h) && x in cfg.servers && s'.nodes == s.nodes[x := st']
    requires Frame(h, h', x) && NodeOk(cfg, h', x, st')
    ensures NodesOk(cfg, s', h')
  {
    forall n | n in cfg.servers ensures NodeOk(cfg, h', n, s'.nodes[n]) {
      if n != x {
        assert NodeOk(cfg, h, n, s.nodes[n]);
        NodeFrame(cfg, h, h', x, n, s.nodes[n]);
      }
    }
  }

  /** Tickets and submissions outlast a step that keeps the role or moves to a later term. */
  lemma GoroutinesCarry(cfg: Config, h: History, h': History, n: NodeId, s: NodeState, s': NodeState)
    requires ElectionsOk(h) && Grows(h, h') && NodeOk(cfg, h, n, s)
    requires s'.tickets == s.tickets && s'.submissions == s.submissions
    requires forall p | p in s.nextIndex :: p in s'.nextIndex && s'.nextIndex[p] >= Min(1, s.nextIndex[p])
    requires s'.currentTerm > s.currentTerm
             || (s'.currentTerm == s.currentTerm && (s.role == Leader ==> s'.role == Leader))
    ensures forall t {:trigger TicketOk(cfg, h', n, s', t)} | t in s'.tickets :: TicketOk(cfg, h', n, s', t)
    ensures forall sub {:trigger SubmissionOk(h', n, sub)} | sub in s'.submissions :: SubmissionOk(h', n, sub)
  {
    forall t | t in s'.tickets ensures TicketOk(cfg, h', n, s', t) {
      assert TicketOk(cfg, h, n, s, t);
      TicketStays(cfg, h, h', n, s, t);
    }
    forall sub | sub in s'.submissions ensures SubmissionOk(h', n, sub) {
      assert SubmissionOk(h, n, sub);
      SubmissionStays(h, h', n, sub);
    }
  }
}

/** Election steps of a cluster preserve its invariant. */
module ClusterElections {
  import opened Types
  import opened Logs
  import opened Quorums
  import opened NodeSpec
  import opened Durability
  import opened CommitRule
  import opened Cluster
  import opened History
  import opened HistoryGrowth
  import opened HistorySteps
  import opened HistoryLeaders
  import opened ClusterInv

  lemma AdvanceFrame(h: History, v: NodeId, t: nat)
    requires ServersOk(h) && ElectionsOk(h) && v in h.servers && t >= h.term[v]
    ensures Frame(h, Advance(h, v, t), v)
  {
  }

  lemma StandFrame(h: History, v: NodeId)
    requires ServersOk(h) && CandidaciesOk(h) && BallotsOk(h) && ElectionsOk(h) && v in h.servers
    ensures Frame(h, Stand(h, v), v)
  {
    FreshTerm(h, v, h.term[v] + 1);
  }

  lemma CastVoteFrame(h: History, v: NodeId, c: NodeId)
    requires ServersOk(h) && v in h.servers && MayVote(h, v, c)
    ensures Frame(h, CastVote(h, v, c), v)
  {
  }

  lemma StepDownNode(cfg: Config, h: History, h': History, n: NodeId, s: NodeState, term: nat)
    requires ElectionsOk(h) && NodeOk(cfg, h, n, s) && term > s.currentTerm
    requires h' == Advance(h, n, term) && Grows(h, h') && (n, term) !in h.ballots
    ensures NodeOk(cfg, h', n, BecomeFollower(s, term))
  {
    BecomeFollowerDurable(s, term);
    GoroutinesCarry(cfg, h, h', n, s, BecomeFollower(s, term));
  }

  /** A node moves to a later term as a follower. */
  lemma StepDownOk(cfg: Config, h: History, n: NodeId, s: NodeState, term: nat)
    requires Inv(h) && NodeOk(cfg, h, n, s) && term > s.currentTerm
    ensures var h' := Advance(h, n, term);
            Inv(h') && Frame(h, h', n) && NodeOk(cfg, h', n, BecomeFollower(s, term))
  {
    AdvanceKeeps(h, n, term);
    AdvanceFrame(h, n, term);
    FreshTerm(h, n, term);
    StepDownNode(cfg, h, Advance(h, n, term), n, s, term);
  }

  // ----- election timeout -----

  lemma StandNode(cfg: Config, h: History, h': History, n: NodeId, s: NodeState)
    requires ElectionsOk(h) && NodeOk(cfg, h, n, s) && n != NO_NODE
    requires h' == Stand(h, n) && Grows(h, h') && !LedBy(h, s.currentTerm + 1, n)
    ensures NodeOk(cfg, h', n, StartElection(s, n))
  {
    var s' := StartElection(s, n);
    StartElectionDurable(s, n);
    GoroutinesCarry(cfg, h, h', n, s, s');
    assert CandidateOk(h', n, s');
  }

  lemma StartElectionOk(cfg: Config, h: History, n: NodeId, s: NodeState)
    requires Inv(h) && NodeOk(cfg, h, n, s) && n != NO_NODE
    ensures Inv(Stand(h, n)) && Frame(h, Stand(h, n), n) && NodeOk(cfg, Stand(h, n), n, StartElection(s, n))
  {
    StandKeeps(h, n);
    StandFrame(h, n);
    FreshTerm(h, n, h.term[n] + 1);
    StandNode(cfg, h, Stand(h, n), n, s);
  }

  lemma ElectionTimeoutStep(cfg: Config, s: System, n: NodeId, h: History) returns (h': History)
    requires Reflects(cfg, s, h) && Enabled(cfg, s, ElectionTimeout(n))
    ensures Reflects(cfg, Next(cfg, s, Complete(ElectionTimeout(n))), h') && Grows(h, h')
  {
    var st := s.nodes[n];
    var st', sent := StartElection(st, n), Sent(cfg, s, ElectionTimeout(n));
    h' := Stand(h, n);
    assert NodeOk(cfg, h, n, st) && PeersOk(cfg, n);
    StartElectionOk(cfg, h, n, st);
    forall m | m in sent ensures MessageOk(h', m) {
      assert m.dst in Elements(cfg.peers[n]);
    }
    AfterStep(cfg, s, Next(cfg, s, Complete(ElectionTimeout(n))), n, st', sent, h, h');
  }

  // ----- vote request -----

  lemma GrantNode(cfg: Config, h: History, h': History, n: NodeId, s: NodeState, c: NodeId)
    requires ElectionsOk(h) && NodeOk(cfg, h, n, s) && c != NO_NODE && s.currentTerm >= 1
    requires h' == CastVote(h, n, c) && Grows(h, h')
    ensures NodeOk(cfg, h', n, s.(votedFor := c, wal := s.wal + [VoteRecord(c, s.currentTerm)]))
  {
    var s' := s.(votedFor := c, wal := s.wal + [VoteRecord(c, s.currentTerm)]);
    VoteDurable(s, c);
    GoroutinesCarry(cfg, h, h', n, s, s');
    LeaderCarry(cfg, h, h', n, s, s');
  }

  lemma GrantOk(cfg: Config, h: History, n: NodeId, s: NodeState, c: NodeId)
    requires Inv(h) && NodeOk(cfg, h, n, s) && c != NO_NODE && MayVote(h, n, c)
    ensures var h' := CastVote(h, n, c);
            && Inv(h') && Frame(h, h', n)
            && NodeOk(cfg, h', n, s.(votedFor := c, wal := s.wal + [VoteRecord(c, s.currentTerm)]))
  {
    CastVoteKeeps(h, n, c);
    CastVoteFrame(h, n, c);
    GrantNode(cfg, h, CastVote(h, n, c), n, s, c);
  }

  /** Leadership facts survive when log, indices and term stay and the ledger is untouched. */
  lemma LeaderCarry(cfg: Config, h: History, h': History, n: NodeId, s: NodeState, s': NodeState)
    requires ElectionsOk(h) && Grows(h, h') && LeaderOk(cfg, h, n, s)
    requires h'.ledger == h.ledger && s'.role == s.role && s'.currentTerm == s.currentTerm && s'.log == s.log
    requires s'.nextIndex == s.nextIndex && s'.matchIndex == s.matchIndex
    ensures LeaderOk(cfg, h', n, s')
  {
    if s.role == Leader {
      LedByStays(h, h', s.currentTerm);
      forall p | p in cfg.peers[n] ensures PeerOk(h', s', p) {
        assert PeerOk(h, s, p);
        if s.matchIndex[p] != 0 { AckedStays(h, h', p, s.currentTerm, s.matchIndex[p]); }
      }
    }
  }

  /** The vote cast in this term, if any, is the one the node remembers. */
  lemma MayGrant(cfg: Config, h: History, n: NodeId, s: NodeState, args: VoteArgs)
    requires Inv(h) && NO_NODE !in h.servers && NodeOk(cfg, h, n, s) && s.currentTerm == args.term
    requires s.votedFor == NO_NODE || s.votedFor == args.candidate
    requires UpToDate(args.lastLogTerm, args.lastLogIndex, s.log)
    requires (args.candidate, args.term) in h.candidacies
    requires args.lastLogIndex == |h.candidacies[(args.candidate, args.term)]|
    requires args.lastLogTerm == LastTerm(h.candidacies[(args.candidate, args.term)])
    ensures args.candidate != NO_NODE && MayVote(h, n, args.candidate)
  {
    assert CandidacyOk(h, (args.candidate, args.term));
    if (n, s.currentTerm) in h.ballots {
      var c := h.ballots[(n, s.currentTerm)];
      assert BallotOk(h, (n, s.currentTerm));
      assert CandidacyOk(h, (c, s.currentTerm));
    }
  }

  lemma HandleVoteOk(cfg: Config, h: History, n: NodeId, s: NodeState, src: NodeId, args: VoteArgs)
      returns (h': History, s': NodeState, reply: VoteReply)
    requires Inv(h) && NO_NODE !in h.servers && NodeOk(cfg, h, n, s)
    requires MessageOk(h, RequestVote(src, n, args))
    ensures Inv(h') && Frame(h, h', n) && NodeOk(cfg, h', n, s') && MessageOk(h', VoteResponse(n, src, args, reply))
    ensures (s', reply) == HandleVote(s, args)
  {
    s' := s;
    h' := h;
    if args.term > s.currentTerm {
      StepDownOk(cfg, h, n, s, args.term);
      h', s' := Advance(h, n, args.term), BecomeFollower(s, args.term);
    } else {
      FrameRefl(h, n);
    }
    if GrantsVote(s, args) {
      var h1 := h';
      MayGrant(cfg, h1, n, s', args);
      GrantOk(cfg, h1, n, s', args.candidate);
      h' := CastVote(h1, n, args.candidate);
      FrameTrans(h, h1, h', n);
    }
    s', reply := HandleVote(s, args).0, HandleVote(s, args).1;
  }

  lemma DeliverVoteRequestOutcome(cfg: Config, s: System, m: Message)
    requires Enabled(cfg, s, DeliverVoteRequest(m))
    ensures var (st', reply) := HandleVote(s.nodes[m.dst], m.vote);
            Next(cfg, s, Complete(DeliverVoteRequest(m)))
            == System(s.nodes[m.dst := st'], s.net + {VoteResponse(m.dst, m.src, m.vote, reply)})
  {
  }

  lemma ReceiveVoteRequestStep(cfg: Config, s: System, m: Message, h: History) returns (h': History)
    requires Reflects(cfg, s, h) && m in s.net && m.RequestVote? && m.dst in cfg.servers
    ensures var (st', reply) := HandleVote(s.nodes[m.dst], m.vote);
            Reflects(cfg, System(s.nodes[m.dst := st'], s.net + {VoteResponse(m.dst, m.src, m.vote, reply)}), h')
    ensures Grows(h, h')
  {
    var n := m.dst;
    assert NodeOk(cfg, h, n, s.nodes[n]) && MessageOk(h, m);
    var st', reply;
    h', st', reply := HandleVoteOk(cfg, h, n, s.nodes[n], m.src, m.vote);
    var sent := {VoteResponse(n, m.src, m.vote, reply)};
    AfterStep(cfg, s, System(s.nodes[n := st'], s.net + sent), n, st', sent, h, h');
  }

  lemma DeliverVoteRequestStep(cfg: Config, s: System, m: Message, h: History) returns (h': History)
    requires Reflects(cfg, s, h) && Enabled(cfg, s, DeliverVoteRequest(m))
    ensures Reflects(cfg, Next(cfg, s, Complete(DeliverVoteRequest(m))), h') && Grows(h, h')
  {
    DeliverVoteRequestOutcome(cfg, s, m);
    h' := ReceiveVoteRequestStep(cfg, s, m, h);
  }

  // ----- vote reply -----

  lemma ElectFrame(h: History, c: NodeId, q: set<NodeId>)
    requires ServersOk(h) && ElectionsOk(h) && MayWin(h, c, q) && Grows(h, Elect(h, c, q))
    ensures Frame(h, Elect(h, c, q), c)
  {
    var h' := Elect(h, c, q);
    assert LedBy(h', h.term[c], c);
  }

  /** Votes of a majority in one term: nobody else can have won it. */
  lemma MayBecomeLeader(cfg: Config, h: History, n: NodeId, s: NodeState)
    requires Inv(h) && NodeOk(cfg, h, n, s) && s.role == Candidate && IsQuorum(h.servers, s.votesReceived)
    ensures MayWin(h, n, s.votesReceived)
  {
    var u := s.currentTerm;
    if u in h.ledger {
      var k := h.electedAt[u];
      assert ElectedAt(h, u) && ElectionOk(h, k);
      var v := QuorumsMeet(h.servers, s.votesReceived, h.elections[k].voters);
      assert LedBy(h, u, n);
      assert false;
    }
  }

  lemma WinHistory(cfg: Config, h: History, n: NodeId, s: NodeState)
    requires Inv(h) && NodeOk(cfg, h, n, s) && s.role == Candidate && IsQuorum(h.servers, s.votesReceived)
    ensures Inv(Elect(h, n, s.votesReceived)) && Frame(h, Elect(h, n, s.votesReceived), n)
  {
    MayBecomeLeader(cfg, h, n, s);
    ElectKeeps(h, n, s.votesReceived);
    ElectFrame(h, n, s.votesReceived);
  }

  lemma WinNode(cfg: Config, h: History, h': History, n: NodeId, s: NodeState)
    requires ElectionsOk(h) && NodeOk(cfg, h, n, s) && s.role == Candidate && n in cfg.peers
    requires h' == Elect(h, n, s.votesReceived) && Grows(h, h')
    ensures NodeOk(cfg, h', n, BecomeLeader(s, cfg.peers[n]))
  {
    NewLeaderOk(cfg, h, n, s);
    GoroutinesCarry(cfg, h, h', n, s, BecomeLeader(s, cfg.peers[n]));
  }

  lemma NewLeaderOk(cfg: Config, h: History, n: NodeId, s: NodeState)
    requires NodeOk(cfg, h, n, s) && n in cfg.peers
    ensures LeaderOk(cfg, Elect(h, n, s.votesReceived), n, BecomeLeader(s, cfg.peers[n]))
  {
    var h', s' := Elect(h, n, s.votesReceived), BecomeLeader(s, cfg.peers[n]);
    forall p | p in cfg.peers[n] ensures PeerOk(h', s', p) {}
  }

  lemma WinOk(cfg: Config, h: History, n: NodeId, s: NodeState)
    requires Inv(h) && NodeOk(cfg, h, n, s) && s.role == Candidate && n in cfg.peers
    requires IsQuorum(h.servers, s.votesReceived)
    ensures var h' := Elect(h, n, s.votesReceived);
            Inv(h') && Frame(h, h', n) && NodeOk(cfg, h', n, BecomeLeader(s, cfg.peers[n]))
  {
    WinHistory(cfg, h, n, s);
    WinNode(cfg, h, Elect(h, n, s.votesReceived), n, s);
  }

  lemma CountVoteOk(cfg: Config, h: History, n: NodeId, s: NodeState, from: NodeId)
    requires Inv(h) && NodeOk(cfg, h, n, s) && s.role == Candidate && from !in s.votesReceived && from in h.servers
    requires (from, s.currentTerm) in h.ballots && h.ballots[(from, s.currentTerm)] == n
    ensures NodeOk(cfg, h, n, s.(votesReceived := s.votesReceived + {from}, votes := s.votes + 1))
  {
    var s' := s.(votesReceived := s.votesReceived + {from}, votes := s.votes + 1);
    assert CandidateOk(h, n, s');
    GoroutinesCarry(cfg, h, h, n, s, s');
  }

  /** A vote is counted, and the election won if it was the last one missing. */
  lemma GrantedReplyOk(cfg: Config, h: History, n: NodeId, s: NodeState, from: NodeId) returns (h': History)
    requires Inv(h) && NodeOk(cfg, h, n, s) && PeersOk(cfg, n) && h.servers == cfg.servers
    requires s.role == Candidate && from !in s.votesReceived && from in h.servers
    requires (from, s.currentTerm) in h.ballots && h.ballots[(from, s.currentTerm)] == n
    ensures Inv(h') && Frame(h, h', n)
    ensures var t := s.(votesReceived := s.votesReceived + {from}, votes := s.votes + 1);
            NodeOk(cfg, h', n, if t.votes >= Majority(cfg.peers[n]) then BecomeLeader(t, cfg.peers[n]) else t)
  {
    var t := s.(votesReceived := s.votesReceived + {from}, votes := s.votes + 1);
    CountVoteOk(cfg, h, n, s, from);
    if t.votes >= Majority(cfg.peers[n]) {
      AllServers(cfg.servers, n, cfg.peers[n]);
      WinOk(cfg, h, n, t);
      h' := Elect(h, n, t.votesReceived);
    } else {
      h' := h;
      FrameRefl(h, n);
    }
  }

  lemma HandleVoteReplyOk(cfg: Config, h: History, n: NodeId, s: NodeState, from: NodeId, args: VoteArgs,
          reply: VoteReply)
      returns (h': History)
    requires Inv(h) && NodeOk(cfg, h, n, s) && PeersOk(cfg, n) && h.servers == cfg.servers
    requires MessageOk(h, VoteResponse(from, n, args, reply))
    ensures Inv(h') && Frame(h, h', n)
    ensures NodeOk(cfg, h', n, HandleVoteReply(s, cfg.peers[n], from, args.term, reply))
  {
    h' := h;
    FrameRefl(h, n);
    if s.currentTerm == args.term && s.role == Candidate {
      if reply.term > s.currentTerm {
        StepDownOk(cfg, h, n, s, reply.term);
        h' := Advance(h, n, reply.term);
      } else if reply.granted && from !in s.votesReceived {
        h' := GrantedReplyOk(cfg, h, n, s, from);
      }
    }
  }

  lemma DeliverVoteReplyStep(cfg: Config, s: System, m: Message, h: History) returns (h': History)
    requires Reflects(cfg, s, h) && Enabled(cfg, s, DeliverVoteReply(m))
    ensures Reflects(cfg, Next(cfg, s, Complete(DeliverVoteReply(m))), h') && Grows(h, h')
  {
    var n := m.dst;
    var st := s.nodes[n];
    assert NodeOk(cfg, h, n, st) && MessageOk(h, m) && PeersOk(cfg, n);
    h' := HandleVoteReplyOk(cfg, h, n, st, m.src, m.vote, m.voteReply);
    AfterStep(cfg, s, Next(cfg, s, Complete(DeliverVoteReply(m))), n,
              HandleVoteReply(st, cfg.peers[n], m.src, m.vote.term, m.voteReply), {}, h, h');
  }
}

/** Replication steps of a cluster preserve its invariant. */
module ClusterReplication {
  import opened Types
  import opened Logs
  import opened Quorums
  import opened NodeSpec
  import opened Durability
  import opened Merging
  import opened CommitRule
  import opened Cluster
  import opened History
  import opened HistoryGrowth
  import opened HistorySteps
  import opened HistoryLeaders
  import opened HistoryFollowers
  import opened ClusterInv
  import opened ClusterElections

  // ----- sending -----

  lemma OfferFrame(h: History, n: NodeId, t: nat, commit: nat)
    requires ServersOk(h) && n in h.servers
    ensures Frame(h, MakeOffer(h, n, t, commit), n)
  {
  }

  /** Offers concern no node's own state. */
  lemma OfferNode(cfg: Config, h: History, h': History, n: NodeId, s: NodeState)
    requires ElectionsOk(h) && NodeOk(cfg, h, n, s) && Grows(h, h')
    requires h'.term == h.term && h'.log == h.log && h'.commit == h.commit
    requires h'.ledger == h.ledger && h'.elections == h.elections && h'.electedAt == h.electedAt
    requires h'.ballots == h.ballots && h'.candidacies == h.candidacies
    ensures NodeOk(cfg, h', n, s)
  {
    GoroutinesCarry(cfg, h, h', n, s, s);
    LeaderCarry(cfg, h, h', n, s, s);
  }

  lemma RequestCarries(cfg: Config, h: History, n: NodeId, s: NodeState, p: NodeId, t: Ticket)
    requires NodeOk(cfg, h, n, s) && TicketOk(cfg, h, n, s, t) && p in cfg.peers[n]
    ensures Carries(h, Offer(n, t.term, s.log, t.commit), n, AppendRequest(s, n, p, t))
  {
    var next := Lookup(s.nextIndex, p);
    if s.role == Leader { assert PeerOk(h, s, p); }
    if next - 1 <= |s.log| {
      assert EntriesFrom(s.log, next) == s.log[next - 1..];
    }
  }

  lemma SendOk(cfg: Config, h: History, n: NodeId, s: NodeState, p: NodeId, t: Ticket)
    requires Inv(h) && NodeOk(cfg, h, n, s) && TicketOk(cfg, h, n, s, t) && PeersOk(cfg, n) && h.servers == cfg.servers
    requires p in cfg.peers[n]
    ensures var h' := MakeOffer(h, n, t.term, t.commit);
            && Inv(h') && Frame(h, h', n) && NodeOk(cfg, h', n, s)
            && MessageOk(h', AppendEntries(n, p, AppendRequest(s, n, p, t)))
  {
    var h' := MakeOffer(h, n, t.term, t.commit);
    MakeOfferKeeps(h, n, t.term, t.commit);
    OfferFrame(h, n, t.term, t.commit);
    OfferNode(cfg, h, h', n, s);
    RequestCarries(cfg, h, n, s, p, t);
    assert p in Elements(cfg.peers[n]);
    assert Carries(h', Offer(n, t.term, s.log, t.commit), n, AppendRequest(s, n, p, t));
  }

  /** What a leader captures now is as good as a ticket. */
  lemma FreshTicket(cfg: Config, h: History, n: NodeId, s: NodeState)
    requires ServersOk(h) && CommitsOk(h) && NodeOk(cfg, h, n, s) && s.role == Leader
    ensures TicketOk(cfg, h, n, s, Ticket(s.currentTerm, s.commitIndex))
  {
    assert CommitOk(h, n);
    if h.commit[n] != 0 {
      var m :| m in h.tallies && Covers(h, m, h.term[n], h.log[n], h.commit[n]);
      assert TallyOk(h, m);
    }
    forall p | p in cfg.peers[n] ensures Lookup(s.nextIndex, p) >= 1 {
      assert PeerOk(h, s, p);
    }
  }

  lemma BeginHeartbeatOk(cfg: Config, h: History, n: NodeId, s: NodeState)
    requires Inv(h) && NodeOk(cfg, h, n, s) && s.role == Leader
    ensures NodeOk(cfg, h, n, s.(tickets := s.tickets + {Ticket(s.currentTerm, s.commitIndex)}))
  {
    var s' := s.(tickets := s.tickets + {Ticket(s.currentTerm, s.commitIndex)});
    FreshTicket(cfg, h, n, s);
    forall t | t in s'.tickets ensures TicketOk(cfg, h, n, s', t) {
      assert TicketOk(cfg, h, n, s, t);
    }
    LeaderCarry(cfg, h, h, n, s, s');
  }

  // ----- receiving -----

  /** Nobody sends to the leader of its own term: a leader never hears from itself. */
  lemma ListenOk(cfg: Config, h: History, n: NodeId, s: NodeState, src: NodeId, args: AppendArgs) returns (h': History)
    requires Inv(h) && NodeOk(cfg, h, n, s) && args.term >= s.currentTerm
    requires MessageOk(h, AppendEntries(src, n, args))
    ensures Inv(h') && Frame(h, h', n) && NodeOk(cfg, h', n, Listen(s, args))
  {
    if args.term > s.currentTerm {
      StepDownOk(cfg, h, n, s, args.term);
      h' := Advance(h, n, args.term);
    } else {
      h' := h;
      FrameRefl(h, n);
      var o :| o in h.offers && Carries(h, o, src, args);
      assert OfferOk(h, o);
      GoroutinesCarry(cfg, h, h, n, s, Listen(s, args));
    }
  }

  lemma ListenReady(cfg: Config, h: History, n: NodeId, s: NodeState, src: NodeId, args: AppendArgs)
      returns (h': History, t: NodeState)
    requires Inv(h) && NodeOk(cfg, h, n, s) && args.term >= s.currentTerm
    requires MessageOk(h, AppendEntries(src, n, args))
    ensures Inv(h') && Frame(h, h', n) && NodeOk(cfg, h', n, t)
    ensures MessageOk(h', AppendEntries(src, n, args))
    ensures t == Listen(s, args) && t.role == Follower && t.currentTerm == args.term
  {
    t := Listen(s, args);
    h' := ListenOk(cfg, h, n, s, src, args);
    MessageStays(h, h', AppendEntries(src, n, args));
  }

  lemma RefusalOk(h: History, s: NodeState, src: NodeId, dst: NodeId, args: AppendArgs)
    requires MessageOk(h, AppendEntries(src, dst, args)) && s.currentTerm >= args.term && !Matches(s.log, args)
    ensures MessageOk(h, AppendResponse(dst, src, args, Refusal(s, args)))
  {
    if Contains(s.log, args.prevLogIndex) {
      assert s.log[args.prevLogIndex - 1].term == TermAt(s.log, args.prevLogIndex);
    }
  }

  lemma AcceptFrame(h: History, v: NodeId, o: Offer)
    requires ServersOk(h) && MayAccept(h, v, o)
    ensures Frame(h, Accept(h, v, o), v)
  {
  }

  /** A matching message carries a log whose prefix up to prevLogIndex the follower holds. */
  lemma MatchedInside(h: History, s: NodeState, o: Offer, src: NodeId, args: AppendArgs)
    requires LedgerOk(h.ledger) && Rooted(h.ledger, s.log)
    requires Carries(h, o, src, args) && Matches(s.log, args)
    ensures args.prevLogIndex <= |o.log| && args.prevLogIndex <= |s.log|
    ensures TermAt(s.log, args.prevLogIndex) == TermAt(o.log, args.prevLogIndex)
    ensures args.entries == o.log[args.prevLogIndex..]
  {
    RootedOrdered(h.ledger, s.log);
  }

  /** Storing the sent entries is adopting the sender's log, and the commit clamp never bites. */
  lemma StoreIsAccept(h: History, n: NodeId, s: NodeState, o: Offer, src: NodeId, args: AppendArgs)
    requires Inv(h) && o in h.offers && Carries(h, o, src, args) && Matches(s.log, args)
    requires n in h.servers && h.log[n] == s.log
    ensures args.prevLogIndex <= |s.log|
    ensures StoreEntries(s, args).log == Adopt(s.log, o.log)
    ensures StoreEntries(s, args).commitIndex == Max(s.commitIndex, args.leaderCommit)
    ensures args.leaderCommit <= args.prevLogIndex + |args.entries| <= |StoreEntries(s, args).log|
  {
    MatchedInside(h, s, o, src, args);
    MergeIsAdopt(h.ledger, s.log, o.log, args.prevLogIndex);
    OfferCommitInside(h, o);
  }

  lemma ApplyCarries(s: NodeState, s': NodeState)
    requires ApplyOk(s) && s.log[..s.commitIndex] <= s'.log && s.commitIndex <= s'.commitIndex <= |s'.log|
    requires s'.lastApplied == s.lastApplied && s'.delivered == s.delivered && s'.phase == s.phase
    ensures ApplyOk(s')
  {
    forall k | 0 <= k <= s.commitIndex ensures s'.log[..k] == s.log[..k] {
      assert s.log[..k] == s.log[..s.commitIndex][..k];
    }
  }

  lemma AcceptNode(cfg: Config, h: History, h': History, n: NodeId, s: NodeState, args: AppendArgs)
    requires ElectionsOk(h) && NodeOk(cfg, h, n, s) && s.role == Follower && Grows(h, h')
    requires args.prevLogIndex <= |s.log|
    requires h'.term == h.term && h'.ballots == h.ballots
    requires n in h'.log && n in h'.commit && h'.log[n] == StoreEntries(s, args).log
    requires h'.commit[n] >= StoreEntries(s, args).commitIndex
    requires s.commitIndex <= |s.log| && s.log[..s.commitIndex] <= StoreEntries(s, args).log
    requires StoreEntries(s, args).commitIndex <= |StoreEntries(s, args).log|
    ensures NodeOk(cfg, h', n, StoreEntries(s, args))
  {
    var s' := StoreEntries(s, args);
    StoreEntriesDurable(s, args);
    GoroutinesCarry(cfg, h, h', n, s, s');
    ApplyCarries(s, s');
  }

  lemma StoreNode(cfg: Config, h: History, h': History, n: NodeId, s: NodeState, o: Offer, src: NodeId,
          args: AppendArgs)
    requires Inv(h) && NodeOk(cfg, h, n, s) && s.role == Follower && args.prevLogIndex <= |s.log|
    requires o in h.offers && Carries(h, o, src, args) && Matches(s.log, args)
    requires n in h.servers && MayAccept(h, n, o) && h' == Accept(h, n, o) && Grows(h, h')
    ensures NodeOk(cfg, h', n, StoreEntries(s, args))
  {
    StoreIsAccept(h, n, s, o, src, args);
    AcceptKeepsCommitted(h, n, o);
    assert s.log[..s.commitIndex] <= s.log[..h.commit[n]];
    AcceptNode(cfg, h, h', n, s, args);
  }

  lemma StoreOk(cfg: Config, h: History, n: NodeId, s: NodeState, src: NodeId, args: AppendArgs) returns (h': History)
    requires Inv(h) && NodeOk(cfg, h, n, s) && s.role == Follower && s.currentTerm == args.term
    requires MessageOk(h, AppendEntries(src, n, args)) && Matches(s.log, args) && args.prevLogIndex <= |s.log|
    ensures Inv(h') && Frame(h, h', n) && NodeOk(cfg, h', n, StoreEntries(s, args))
    ensures MessageOk(h', AppendResponse(n, src, args, AppendReply(s.currentTerm, true, 0, 0)))
  {
    var o :| o in h.offers && Carries(h, o, src, args);
    h' := Accept(h, n, o);
    AcceptKeeps(h, n, o);
    AcceptFrame(h, n, o);
    StoreNode(cfg, h, h', n, s, o, src, args);
    SuccessOk(h, h', n, src, o, args);
  }

  lemma SuccessOk(h: History, h': History, n: NodeId, src: NodeId, o: Offer, args: AppendArgs)
    requires ServersOk(h) && OffersOk(h) && MayAccept(h, n, o) && h' == Accept(h, n, o) && Grows(h, h')
    requires Carries(h, o, src, args) && MessageOk(h, AppendEntries(src, n, args))
    ensures MessageOk(h', AppendResponse(n, src, args, AppendReply(args.term, true, 0, 0)))
  {
    assert OfferOk(h, o);
    SendsStays(h, h', src, args);
    assert Holds(h', o, n, src, args);
  }

  /** A node that listens to the sender stores the entries or refuses them. */
  lemma AnswerOk(cfg: Config, h: History, n: NodeId, s: NodeState, src: NodeId, args: AppendArgs)
      returns (h': History, s': NodeState, reply: AppendReply)
    requires Inv(h) && NodeOk(cfg, h, n, s) && s.role == Follower && s.currentTerm == args.term
    requires MessageOk(h, AppendEntries(src, n, args))
    ensures Inv(h') && Frame(h, h', n) && NodeOk(cfg, h', n, s') && MessageOk(h', AppendResponse(n, src, args, reply))
    ensures if Matches(s.log, args)
            then args.prevLogIndex <= |s.log| && s' == StoreEntries(s, args)
                 && reply == AppendReply(s.currentTerm, true, 0, 0)
            else s' == s && reply == Refusal(s, args)
  {
    if Matches(s.log, args) {
      h' := StoreOk(cfg, h, n, s, src, args);
      s', reply := StoreEntries(s, args), AppendReply(s.currentTerm, true, 0, 0);
    } else {
      h', s', reply := h, s, Refusal(s, args);
      FrameRefl(h, n);
      RefusalOk(h, s, src, n, args);
    }
  }

  lemma ListenAndAnswer(cfg: Config, h: History, n: NodeId, s: NodeState, src: NodeId, args: AppendArgs)
      returns (h': History, t: NodeState, s': NodeState, reply: AppendReply)
    requires Inv(h) && NodeOk(cfg, h, n, s) && MessageOk(h, AppendEntries(src, n, args)) && args.term >= s.currentTerm
    ensures Inv(h') && Frame(h, h', n) && NodeOk(cfg, h', n, s') && MessageOk(h', AppendResponse(n, src, args, reply))
    ensures t == Listen(s, args)
    ensures if Matches(t.log, args)
            then args.prevLogIndex <= |t.log| && s' == StoreEntries(t, args)
                 && reply == AppendReply(t.currentTerm, true, 0, 0)
            else s' == t && reply == Refusal(t, args)
  {
    var h1;
    h1, t := ListenReady(cfg, h, n, s, src, args);
    h', s', reply := AnswerOk(cfg, h1, n, t, src, args);
    FrameTrans(h, h1, h', n);
  }

  lemma HandleAppendOk(cfg: Config, h: History, n: NodeId, s: NodeState, src: NodeId, args: AppendArgs)
      returns (h': History, s': NodeState, reply: AppendReply)
    requires Inv(h) && NodeOk(cfg, h, n, s) && MessageOk(h, AppendEntries(src, n, args))
    ensures Inv(h') && Frame(h, h', n) && NodeOk(cfg, h', n, s') && MessageOk(h', AppendResponse(n, src, args, reply))
    ensures (s', reply) == HandleAppend(s, args)
  {
    if args.term < s.currentTerm {
      h', s', reply := h, s, AppendReply(s.currentTerm, false, 0, 0);
      FrameRefl(h, n);
    } else {
      var t;
      h', t, s', reply := ListenAndAnswer(cfg, h, n, s, src, args);
    }
  }

  // ----- replies -----

  lemma CountFrame(h: History, n: NodeId, length: nat, q: set<NodeId>)
    requires ServersOk(h) && n in h.servers
    ensures Frame(h, Count(h, n, length, q), n)
  {
  }

  lemma MayAdvance(cfg: Config, h: History, n: NodeId, s: NodeState) returns (q: set<NodeId>)
    requires ServersOk(h) && ElectionsOk(h) && NodeOk(cfg, h, n, s) && PeersOk(cfg, n) && h.servers == cfg.servers
    requires s.role == Leader && AdvanceCommit(s, cfg.peers[n]) != s
    ensures MayCount(h, n, AdvanceCommit(s, cfg.peers[n]).commitIndex, q)
  {
    var c := MiddleMatch(MatchIndices(s, cfg.peers[n]));
    q := MiddleHeldByQuorum(cfg.servers, n, cfg.peers[n], s);
    assert ElectedAt(h, s.currentTerm) && ElectionOk(h, h.electedAt[s.currentTerm]);
    forall v | v in q ensures Acked(h, v, s.currentTerm, c) {
      if v == n {
        assert Ack(n, s.currentTerm, |s.log|) in h.acks;
      } else {
        assert PeerOk(h, s, v);
        var a :| a in h.acks && a.voter == v && a.term == s.currentTerm && a.length >= s.matchIndex[v];
      }
    }
  }

  lemma CountNode(cfg: Config, h: History, h': History, n: NodeId, s: NodeState, length: nat, q: set<NodeId>)
    requires ElectionsOk(h) && NodeOk(cfg, h, n, s) && s.role == Leader && Grows(h, h')
    requires s.commitIndex <= length <= |s.log| && h' == Count(h, n, length, q)
    ensures NodeOk(cfg, h', n, s.(commitIndex := length))
  {
    var s' := s.(commitIndex := length);
    GoroutinesCarry(cfg, h, h', n, s, s');
    LeaderCarry(cfg, h, h', n, s, s');
    ApplyCarries(s, s');
  }

  lemma AdvanceCommitOk(cfg: Config, h: History, n: NodeId, s: NodeState) returns (h': History, s': NodeState)
    requires Inv(h) && NodeOk(cfg, h, n, s) && s.role == Leader && PeersOk(cfg, n) && h.servers == cfg.servers
    ensures Inv(h') && Frame(h, h', n) && NodeOk(cfg, h', n, s')
    ensures s' == AdvanceCommit(s, cfg.peers[n])
  {
    s' := AdvanceCommit(s, cfg.peers[n]);
    if s' == s {
      h' := h;
      FrameRefl(h, n);
    } else {
      var q := MayAdvance(cfg, h, n, s);
      h' := Count(h, n, s'.commitIndex, q);
      CountKeeps(h, n, s'.commitIndex, q);
      CountFrame(h, n, s'.commitIndex, q);
      CountNode(cfg, h, h', n, s, s'.commitIndex, q);
    }
  }

  /** While the sender leads the term it sent in, what it sent is a prefix of its log. */
  lemma SentByLeader(cfg: Config, h: History, n: NodeId, s: NodeState, o: Offer, args: AppendArgs)
    requires ServersOk(h) && LogsOk(h) && OffersOk(h) && NodeOk(cfg, h, n, s) && s.role == Leader
    requires o in h.offers && Carries(h, o, n, args) && args.term == s.currentTerm
    ensures o.log <= s.log && args.prevLogIndex <= |o.log|
    ensures args.entries != [] ==> args.entries[|args.entries| - 1].index == |o.log|
  {
    assert OfferOk(h, o);
    RootedOrdered(h.ledger, o.log);
    if args.entries != [] {
      assert args.entries[|args.entries| - 1] == o.log[|o.log| - 1];
    }
  }

  /** New values for one peer's indices that respect their bounds. */
  lemma PeerUpdateOk(cfg: Config, h: History, n: NodeId, s: NodeState, p: NodeId, next: nat, matched: nat)
    requires ElectionsOk(h) && NodeOk(cfg, h, n, s) && s.role == Leader
    requires 1 <= next <= |s.log| + 1 && matched <= |s.log|
    requires matched == 0 || Acked(h, p, s.currentTerm, matched)
    ensures NodeOk(cfg, h, n, s.(nextIndex := s.nextIndex[p := next], matchIndex := s.matchIndex[p := matched]))
  {
    var s' := s.(nextIndex := s.nextIndex[p := next], matchIndex := s.matchIndex[p := matched]);
    GoroutinesCarry(cfg, h, h, n, s, s');
    forall r | r in cfg.peers[n] ensures PeerOk(h, s', r) {
      assert PeerOk(h, s, r);
    }
  }

  lemma NextUpdateOk(cfg: Config, h: History, n: NodeId, s: NodeState, p: NodeId, next: nat)
    requires ElectionsOk(h) && NodeOk(cfg, h, n, s) && s.role == Leader
    requires 1 <= next <= |s.log| + 1
    ensures NodeOk(cfg, h, n, s.(nextIndex := s.nextIndex[p := next]))
  {
    var s' := s.(nextIndex := s.nextIndex[p := next]);
    GoroutinesCarry(cfg, h, h, n, s, s');
    forall r | r in cfg.peers[n] ensures PeerOk(h, s', r) {
      assert PeerOk(h, s, r);
    }
  }

  /** The peer has acknowledged `length` entries: its indices are raised. */
  lemma RaisedOk(cfg: Config, h: History, n: NodeId, s: NodeState, from: NodeId, length: nat)
    requires ElectionsOk(h) && NodeOk(cfg, h, n, s) && s.role == Leader && PeerOk(h, s, from)
    requires length <= |s.log| && Acked(h, from, s.currentTerm, length)
    ensures NodeOk(cfg, h, n, s.(nextIndex := Raise(s.nextIndex, from, length + 1),
                                 matchIndex := Raise(s.matchIndex, from, length)))
  {
    RaiseIsMax(s.nextIndex, from, length + 1);
    RaiseIsMax(s.matchIndex, from, length);
    PeerUpdateOk(cfg, h, n, s, from, Max(length + 1, s.nextIndex[from]), Max(length, s.matchIndex[from]));
  }

  /** How long a prefix of the leader's log the sender of a success has acknowledged. */
  lemma AcknowledgedLength(cfg: Config, h: History, n: NodeId, s: NodeState, from: NodeId, args: AppendArgs)
    requires ServersOk(h) && LogsOk(h) && OffersOk(h) && NodeOk(cfg, h, n, s) && s.role == Leader
    requires args.term == s.currentTerm && args.entries != []
    requires exists o {:trigger Holds(h, o, from, n, args)} | o in h.offers :: Holds(h, o, from, n, args)
    ensures var length := args.entries[|args.entries| - 1].index;
            length <= |s.log| && Acked(h, from, s.currentTerm, length)
  {
    var o :| o in h.offers && Holds(h, o, from, n, args);
    SentByLeader(cfg, h, n, s, o, args);
  }

  lemma SuccessReplyOk(cfg: Config, h: History, n: NodeId, s: NodeState, from: NodeId, args: AppendArgs)
      returns (raised: NodeState)
    requires Inv(h) && NodeOk(cfg, h, n, s) && s.role == Leader && n in cfg.peers
    requires from in cfg.peers[n] && args.term == s.currentTerm && args.entries != []
    requires exists o {:trigger Holds(h, o, from, n, args)} | o in h.offers :: Holds(h, o, from, n, args)
    ensures NodeOk(cfg, h, n, raised)
    ensures var length := args.entries[|args.entries| - 1].index;
            raised == s.(nextIndex := Raise(s.nextIndex, from, length + 1),
              matchIndex := Raise(s.matchIndex, from, length))
  {
    var length := args.entries[|args.entries| - 1].index;
    assert PeerOk(h, s, from);
    AcknowledgedLength(cfg, h, n, s, from, args);
    RaisedOk(cfg, h, n, s, from, length);
    raised := s.(nextIndex := Raise(s.nextIndex, from, length + 1), matchIndex := Raise(s.matchIndex, from, length));
  }

  /** Hints of a refusal keep nextIndex in its bounds; the hintless branch is never taken. */
  lemma RollBackBounds(cfg: Config, h: History, n: NodeId, s: NodeState, from: NodeId, args: AppendArgs,
          reply: AppendReply)
    requires Inv(h) && NodeOk(cfg, h, n, s) && s.role == Leader && args.term == s.currentTerm
    requires MessageOk(h, AppendResponse(from, n, args, reply)) && !reply.success && reply.term <= s.currentTerm
    ensures reply.conflictIndex >= 1
    ensures 1 <= RollBack(s.log, Lookup(s.nextIndex, from), reply) <= |s.log| + 1
  {
    var o :| o in h.offers && Carries(h, o, n, args);
    SentByLeader(cfg, h, n, s, o, args);
  }

  lemma RefusedReplyOk(cfg: Config, h: History, n: NodeId, s: NodeState, from: NodeId, args: AppendArgs,
          reply: AppendReply)
    requires Inv(h) && NodeOk(cfg, h, n, s) && s.role == Leader && args.term == s.currentTerm
    requires MessageOk(h, AppendResponse(from, n, args, reply)) && !reply.success && reply.term <= s.currentTerm
    ensures NodeOk(cfg, h, n, s.(nextIndex := RolledBack(s.nextIndex, s.log, from, reply)))
  {
    RollBackBounds(cfg, h, n, s, from, args, reply);
    NextUpdateOk(cfg, h, n, s, from, RollBack(s.log, Lookup(s.nextIndex, from), reply));
  }

  /** What a reply does, case by case. */
  lemma ReplyOutcome(s: NodeState, peers: seq<NodeId>, from: NodeId, args: AppendArgs, reply: AppendReply)
    requires s.role == Leader && s.currentTerm == args.term && reply.term <= s.currentTerm
    ensures var s' := HandleAppendReply(s, peers, from, args, reply);
            && (reply.success && args.entries == [] ==> s' == s)
            && (reply.success && args.entries != [] ==>
                  var length := args.entries[|args.entries| - 1].index;
                  s' == AdvanceCommit(s.(nextIndex := Raise(s.nextIndex, from, length + 1),
                                         matchIndex := Raise(s.matchIndex, from, length)), peers))
            && (!reply.success ==> s' == s.(nextIndex := RolledBack(s.nextIndex, s.log, from, reply)))
  {
  }

  /** A reply that the leader may act on. */
  lemma CurrentReplyOk(cfg: Config, h: History, n: NodeId, s: NodeState, from: NodeId, args: AppendArgs,
          reply: AppendReply)
      returns (h': History, s': NodeState)
    requires Inv(h) && NodeOk(cfg, h, n, s) && PeersOk(cfg, n) && h.servers == cfg.servers
    requires MessageOk(h, AppendResponse(from, n, args, reply))
    requires s.role == Leader && s.currentTerm == args.term && reply.term <= s.currentTerm
    ensures Inv(h') && Frame(h, h', n) && NodeOk(cfg, h', n, s')
    ensures s' == HandleAppendReply(s, cfg.peers[n], from, args, reply)
  {
    h', s' := h, s;
    FrameRefl(h, n);
    ReplyOutcome(s, cfg.peers[n], from, args, reply);
    if !reply.success {
      RefusedReplyOk(cfg, h, n, s, from, args, reply);
      s' := s.(nextIndex := RolledBack(s.nextIndex, s.log, from, reply));
    } else if args.entries != [] {
      assert from in Elements(cfg.peers[n]);
      var raised := SuccessReplyOk(cfg, h, n, s, from, args);
      h', s' := AdvanceCommitOk(cfg, h, n, raised);
    }
  }

  lemma HandleAppendReplyOk(cfg: Config, h: History, n: NodeId, s: NodeState, from: NodeId, args: AppendArgs,
          reply: AppendReply)
      returns (h': History, s': NodeState)
    requires Inv(h) && NodeOk(cfg, h, n, s) && PeersOk(cfg, n) && h.servers == cfg.servers
    requires MessageOk(h, AppendResponse(from, n, args, reply))
    ensures Inv(h') && Frame(h, h', n) && NodeOk(cfg, h', n, s')
    ensures s' == HandleAppendReply(s, cfg.peers[n], from, args, reply)
  {
    if s.role != Leader || s.currentTerm != args.term {
      h', s' := h, s;
      FrameRefl(h, n);
    } else if reply.term > s.currentTerm {
      StepDownOk(cfg, h, n, s, reply.term);
      h', s' := Advance(h, n, reply.term), BecomeFollower(s, reply.term);
    } else {
      h', s' := CurrentReplyOk(cfg, h, n, s, from, args, reply);
    }
  }

  // ----- clients -----

  lemma ExtendFrame(h: History, n: NodeId, e: Entry)
    requires ServersOk(h) && ElectionsOk(h) && MayExtend(h, n, e) && Grows(h, Extend(h, n, e))
    ensures Frame(h, Extend(h, n, e), n)
  {
  }

  lemma SubmitNode(cfg: Config, h: History, h': History, n: NodeId, s: NodeState, command: Command)
    requires ElectionsOk(h) && NodeOk(cfg, h, n, s) && s.role == Leader && Grows(h, h')
    requires h' == Extend(h, n, Entry(s.currentTerm, |s.log| + 1, command))
    ensures NodeOk(cfg, h', n, Submit(s, command))
  {
    var s' := Submit(s, command);
    var plain := s'.(submissions := s.submissions);
    SubmitDurable(s, command);
    GoroutinesCarry(cfg, h, h', n, s, plain);
    forall t | t in s'.tickets ensures TicketOk(cfg, h', n, s', t) {
      assert TicketOk(cfg, h', n, plain, t);
    }
    forall p | p in cfg.peers[n] ensures PeerOk(h', s', p) {
      assert PeerOk(h, s, p);
      if s.matchIndex[p] != 0 { AckedStays(h, h', p, s.currentTerm, s.matchIndex[p]); }
    }
    LedByStays(h, h', s.currentTerm);
    ApplyCarries(s, s');
  }

  lemma SubmitOk(cfg: Config, h: History, n: NodeId, s: NodeState, command: Command)
    requires Inv(h) && NodeOk(cfg, h, n, s) && s.role == Leader
    ensures var h' := Extend(h, n, Entry(s.currentTerm, |s.log| + 1, command));
            Inv(h') && Frame(h, h', n) && NodeOk(cfg, h', n, Submit(s, command))
  {
    var e := Entry(s.currentTerm, |s.log| + 1, command);
    ExtendKeeps(h, n, e);
    ExtendFrame(h, n, e);
    SubmitNode(cfg, h, Extend(h, n, e), n, s, command);
  }

  // ----- the apply loop -----

  /** Steps of the apply loop and returning submissions touch nothing that others rely on. */
  lemma LocalNode(cfg: Config, h: History, n: NodeId, s: NodeState, s': NodeState)
    requires ElectionsOk(h) && NodeOk(cfg, h, n, s) && ApplyOk(s') && s'.submissions <= s.submissions
    requires s' == s.(lastApplied := s'.lastApplied, phase := s'.phase, delivered := s'.delivered,
        submissions := s'.submissions)
    ensures NodeOk(cfg, h, n, s')
  {
    GoroutinesCarry(cfg, h, h, n, s, s'.(submissions := s.submissions));
    forall t | t in s'.tickets ensures TicketOk(cfg, h, n, s', t) {
      assert TicketOk(cfg, h, n, s, t);
    }
    LeaderCarry(cfg, h, h, n, s, s');
  }

  /** A batch is delivered gap-free and in order although the lock is released in between. */
  lemma ApplySteps(s: NodeState)
    requires ApplyOk(s)
    ensures ApplyOk(BeginApply(s)) && ApplyOk(DeliverOne(s)) && ApplyOk(EndApply(s))
    ensures s.delivered <= DeliverOne(s).delivered <= s.log[..s.commitIndex]
  {
    if s.phase == Idle && s.lastApplied < s.commitIndex {
      assert s.log[..s.lastApplied] + s.log[s.lastApplied..s.commitIndex] == s.log[..s.commitIndex];
    }
    if s.phase.Delivering? && s.phase.rest != [] {
      assert s.phase.rest == [s.phase.rest[0]] + s.phase.rest[1..];
      assert (s.delivered + [s.phase.rest[0]]) + s.phase.rest[1..] == s.delivered + s.phase.rest;
    }
    if s.phase.Delivering? && s.phase.rest == [] {
      assert s.delivered + s.phase.rest == s.delivered;
    }
  }
}

/** Crashes at any byte of a write preserve the invariant of a cluster, if what replay finds tells the node's state. */
module ClusterCrash {
  import opened Types
  import opened Logs
  import opened Recovery
  import opened NodeSpec
  import opened Durability
  import opened Cluster
  import opened History
  import opened HistoryGrowth
  import opened HistorySteps
  import opened HistoryLeaders
  import opened ClusterInv
  import opened ClusterElections
  import opened ClusterReplication

  /** The records give back exactly the server's term, log and vote of that term. */
  ghost predicate Stored(h: History, n: NodeId, wal: seq<Record>) {
    && n in h.servers && n in h.term && n in h.log
    && Orderly(wal) && Fold(wal).term == h.term[n] && Fold(wal).entries == h.log[n]
    && ((n, h.term[n]) in h.ballots ==> Fold(wal).votedFor == h.ballots[(n, h.term[n])])
  }

  lemma NodeStored(cfg: Config, h: History, n: NodeId, s: NodeState)
    requires NodeOk(cfg, h, n, s) && s.discarded == 0
    ensures Stored(h, n, s.wal)
  {
  }

  lemma BootNode(cfg: Config, h: History, n: NodeId, wal: seq<Record>, stray: nat)
    requires ServersOk(h) && Stored(h, n, wal)
    ensures NodeOk(cfg, h, n, Boot(wal, stray))
  {
  }

  /** A node restarts on records that match history `h'`, and what it was sending is lost. */
  lemma Reboot(cfg: Config, s: System, n: NodeId, wal: seq<Record>, stray: nat, h: History, h': History)
    requires Reflects(cfg, s, h) && n in cfg.servers
    requires Inv(h') && Frame(h, h', n) && Stored(h', n, wal)
    ensures Reflects(cfg, System(s.nodes[n := Boot(wal, stray)], s.net), h') && Grows(h, h')
  {
    BootNode(cfg, h', n, wal, stray);
    AfterStep(cfg, s, System(s.nodes[n := Boot(wal, stray)], s.net), n, Boot(wal, stray), {}, h, h');
  }

  /** Before anything was written. */
  lemma CrashBefore(cfg: Config, s: System, n: NodeId, stray: nat, h: History)
    requires Reflects(cfg, s, h) && n in cfg.servers && s.nodes[n].discarded == 0
    ensures Reflects(cfg, System(s.nodes[n := Boot(s.nodes[n].wal, stray)], s.net), h)
  {
    FrameRefl(h, n);
    assert NodeOk(cfg, h, n, s.nodes[n]);
    NodeStored(cfg, h, n, s.nodes[n]);
    Reboot(cfg, s, n, s.nodes[n].wal, stray, h, h);
  }

  lemma MessagesLost(cfg: Config, s: System, net: set<Message>, h: History)
    requires Reflects(cfg, s, h) && net <= s.net
    ensures Reflects(cfg, System(s.nodes, net), h)
  {
  }

  /** After everything was written: the action completes, its messages are lost, the node restarts. */
  lemma CrashAfter(cfg: Config, s1: System, n: NodeId, stray: nat, net: set<Message>, h: History)
    requires Reflects(cfg, s1, h) && n in cfg.servers && s1.nodes[n].discarded == 0 && net <= s1.net
    ensures Reflects(cfg, System(s1.nodes[n := Boot(s1.nodes[n].wal, stray)], net), h)
  {
    CrashBefore(cfg, s1, n, stray, h);
    MessagesLost(cfg, System(s1.nodes[n := Boot(s1.nodes[n].wal, stray)], s1.net), net, h);
  }

  // ----- a server comes back with part of an offered log -----

  ghost function GrowLog(h: History, v: NodeId, log: Log): History {
    h.(log := h.log[v := log])
  }

  lemma GrowLogKeeps(h: History, v: NodeId, log: Log)
    requires Inv(h) && v in h.servers && h.log[v] <= log && Rooted(h.ledger, log)
    ensures Inv(GrowLog(h, v, log)) && Grows(h, GrowLog(h, v, log))
  {
    var h' := GrowLog(h, v, log);
    forall t | t in h.ledger ensures LedgerStep(h, h', t) {}
    OldRecordsStay(h, h');
    GrowLogRest(h, h', v, log);
  }

  lemma GrowLogFrame(h: History, v: NodeId, log: Log)
    requires ServersOk(h) && ElectionsOk(h) && v in h.servers && Grows(h, GrowLog(h, v, log))
    ensures Frame(h, GrowLog(h, v, log), v)
  {
  }

  lemma GrowLogRest(h: History, h': History, v: NodeId, log: Log)
    requires Inv(h) && v in h.servers && h.log[v] <= log && h' == GrowLog(h, v, log) && Careful(h, h')
    ensures LogsKeep(h') && BallotsKeep(h') && WinnersKeep(h') && CommitsOk(h')
    ensures forall t {:trigger ElectedAt(h', t)} | t in h'.electedAt :: ElectedAt(h', t)
  {
    OldKeepsStay(h, h');
    ElectedStay(h, h');
    SameCommits(h, h');
    forall a | a in h'.acks ensures LogKeeps(h', a) {
      assert LogKeeps(h, a);
      LogKeepStays(h, h', a);
    }
  }

  // ----- crashes in the middle -----

  lemma TermWritten(h: History, n: NodeId, wal: seq<Record>, term: nat)
    requires Inv(h) && Stored(h, n, wal) && term > h.term[n]
    ensures var h' := Advance(h, n, term); Inv(h') && Frame(h, h', n) && Stored(h', n, wal + [TermRecord(term)])
  {
    AdvanceKeeps(h, n, term);
    AdvanceFrame(h, n, term);
    FreshTerm(h, n, term);
    FoldAppend(wal, TermRecord(term));
    OrderlyAppend(wal, TermRecord(term));
  }

  /** The first `j` of the new entries were written: the log is a prefix of the sender's. */
  lemma EntriesWritten(cfg: Config, h: History, n: NodeId, s: NodeState, src: NodeId, args: AppendArgs, j: nat)
      returns (h': History)
    requires Inv(h) && NodeOk(cfg, h, n, s) && MessageOk(h, AppendEntries(src, n, args)) && Matches(s.log, args)
    requires args.prevLogIndex <= |s.log| && s.discarded == 0 && (j > 0 ==> StoreEntries(s, args).discarded == 0)
    requires s.currentTerm == args.term
    requires j <= |StoreEntries(s, args).wal| - |s.wal|
    ensures Inv(h') && Frame(h, h', n) && Stored(h', n, StoreEntries(s, args).wal[..|s.wal| + j])
  {
    var d := Divergence(s.log, args.prevLogIndex, args.entries);
    var fresh' := args.entries[d..][..j];
    var wal := StoreEntries(s, args).wal[..|s.wal| + j];
    assert wal == s.wal + EntryRecords(fresh');
    FoldEntryRecords(s.wal, fresh');
    h' := GrowLog(h, n, s.log + fresh');
    assert Rooted(h.ledger, s.log + fresh') by {
      PartOfSender(h, n, s, src, args, j);
    }
    GrowLogKeeps(h, n, s.log + fresh');
    GrowLogFrame(h, n, s.log + fresh');
    assert fresh' == [] ==> s.log + fresh' == s.log;
  }

  lemma PartOfSender(h: History, n: NodeId, s: NodeState, src: NodeId, args: AppendArgs, j: nat)
    requires Inv(h) && n in h.servers && h.log[n] == s.log && h.term[n] == args.term
    requires MessageOk(h, AppendEntries(src, n, args)) && Matches(s.log, args) && args.prevLogIndex <= |s.log|
    requires s.discarded == 0 && (j > 0 ==> StoreEntries(s, args).discarded == 0)
    requires j <= |args.entries| - Divergence(s.log, args.prevLogIndex, args.entries)
    ensures Rooted(h.ledger, s.log + args.entries[Divergence(s.log, args.prevLogIndex, args.entries)..][..j])
  {
    var d := Divergence(s.log, args.prevLogIndex, args.entries);
    var log := s.log + args.entries[d..][..j];
    if j == 0 {
      assert log == s.log;
    } else {
      var o :| o in h.offers && Carries(h, o, src, args);
      StoreIsAccept(h, n, s, o, src, args);
      assert s.log[..args.prevLogIndex + d] == s.log;
      assert log <= Adopt(s.log, o.log);
      RootedPrefix(h.ledger, Adopt(s.log, o.log), log);
    }
  }

  lemma EntriesWrittenAfter(cfg: Config, h: History, h1: History, n: NodeId, s1: NodeState, src: NodeId,
          args: AppendArgs, j: nat)
      returns (h': History)
    requires ElectionsOk(h) && Inv(h1) && Frame(h, h1, n) && NodeOk(cfg, h1, n, s1)
    requires MessageOk(h1, AppendEntries(src, n, args)) && Matches(s1.log, args)
    requires args.prevLogIndex <= |s1.log| && s1.discarded == 0 && StoreEntries(s1, args).discarded == 0
    requires s1.currentTerm == args.term && j <= |StoreEntries(s1, args).wal| - |s1.wal|
    ensures Inv(h') && Frame(h, h', n) && Stored(h', n, StoreEntries(s1, args).wal[..|s1.wal| + j])
  {
    h' := EntriesWritten(cfg, h1, n, s1, src, args, j);
    FrameTrans(h, h1, h', n);
  }

  lemma ListenFacts(s: NodeState, args: AppendArgs)
    requires args.term >= s.currentTerm && Matches(s.log, args)
    ensures var s1 := Listen(s, args);
            && s1.log == s.log && s1.currentTerm == args.term && s1.discarded == s.discarded
            && |s.wal| <= |s1.wal| <= |s.wal| + 1
            && HandleAppend(s, args).0 == StoreEntries(s1, args)
  {
  }

  /** An append that wrote its term, if that was new, and then the first `j` new entries. */
  lemma AppendPart(cfg: Config, h: History, n: NodeId, s: NodeState, src: NodeId, args: AppendArgs, s1: NodeState,
          j: nat)
      returns (h': History)
    requires Inv(h) && NodeOk(cfg, h, n, s) && MessageOk(h, AppendEntries(src, n, args))
    requires args.term >= s.currentTerm && s1 == Listen(s, args)
    requires s1.currentTerm == args.term && s1.discarded == 0 && Matches(s1.log, args) && args.prevLogIndex <= |s1.log|
    requires StoreEntries(s1, args).discarded == 0 && j <= |StoreEntries(s1, args).wal| - |s1.wal|
    ensures Inv(h') && Frame(h, h', n) && Stored(h', n, StoreEntries(s1, args).wal[..|s1.wal| + j])
  {
    var h1, _ := ListenReady(cfg, h, n, s, src, args);
    h' := EntriesWrittenAfter(cfg, h, h1, n, s1, src, args, j);
  }
}

/** Every step of a cluster preserves its invariant, so every run has a history. */
module ClusterProof {
  import opened Types
  import opened Recovery
  import opened NodeSpec
  import opened Durability
  import opened Cluster
  import opened History
  import opened HistoryGrowth
  import opened HistorySteps
  import opened HistoryLeaders
  import opened ClusterInv
  import opened ClusterElections
  import opened ClusterReplication
  import opened ClusterCrash

  // ----- completed actions -----

  lemma HeartbeatStep(cfg: Config, s: System, n: NodeId, h: History)
    requires Reflects(cfg, s, h) && Enabled(cfg, s, BeginHeartbeat(n))
    ensures Reflects(cfg, Next(cfg, s, Complete(BeginHeartbeat(n))), h)
  {
    var st := s.nodes[n];
    assert NodeOk(cfg, h, n, st);
    BeginHeartbeatOk(cfg, h, n, st);
    FrameRefl(h, n);
    AfterStep(cfg, s, Next(cfg, s, Complete(BeginHeartbeat(n))), n,
              st.(tickets := st.tickets + {Ticket(st.currentTerm, st.commitIndex)}), {}, h, h);
  }

  lemma SendStep(cfg: Config, s: System, n: NodeId, p: NodeId, t: Ticket, h: History) returns (h': History)
    requires Reflects(cfg, s, h) && n in cfg.servers && PeersOk(cfg, n) && p in cfg.peers[n]
    requires TicketOk(cfg, h, n, s.nodes[n], t)
    ensures Reflects(cfg, System(s.nodes, s.net + {AppendEntries(n, p, AppendRequest(s.nodes[n], n, p, t))}), h')
    ensures Grows(h, h')
  {
    var st := s.nodes[n];
    assert NodeOk(cfg, h, n, st);
    SendOk(cfg, h, n, st, p, t);
    h' := MakeOffer(h, n, t.term, t.commit);
    var m := AppendEntries(n, p, AppendRequest(st, n, p, t));
    assert s.nodes[n := st] == s.nodes;
    AfterStep(cfg, s, System(s.nodes, s.net + {m}), n, st, {m}, h, h');
  }

  /** Both ways of sending have the same effect. */
  lemma SendOutcome(cfg: Config, s: System, n: NodeId, p: NodeId, t: Ticket)
    ensures Enabled(cfg, s, SendHeartbeat(n, p, t)) ==>
              Next(cfg, s, Complete(SendHeartbeat(n, p, t)))
              == System(s.nodes, s.net + {AppendEntries(n, p, AppendRequest(s.nodes[n], n, p, t))})
    ensures Enabled(cfg, s, Replicate(n, p)) && t == Ticket(s.nodes[n].currentTerm, s.nodes[n].commitIndex) ==>
              Next(cfg, s, Complete(Replicate(n, p)))
              == System(s.nodes, s.net + {AppendEntries(n, p, AppendRequest(s.nodes[n], n, p, t))})
  {
    if n in s.nodes { assert s.nodes[n := s.nodes[n]] == s.nodes; }
  }

  lemma SendHeartbeatStep(cfg: Config, s: System, n: NodeId, p: NodeId, t: Ticket, h: History) returns (h': History)
    requires Reflects(cfg, s, h) && Enabled(cfg, s, SendHeartbeat(n, p, t))
    ensures Reflects(cfg, Next(cfg, s, Complete(SendHeartbeat(n, p, t))), h') && Grows(h, h')
  {
    assert NodeOk(cfg, h, n, s.nodes[n]) && PeersOk(cfg, n);
    assert TicketOk(cfg, h, n, s.nodes[n], t);
    h' := SendStep(cfg, s, n, p, t, h);
    SendOutcome(cfg, s, n, p, t);
  }

  lemma ReplicateStep(cfg: Config, s: System, n: NodeId, p: NodeId, h: History) returns (h': History)
    requires Reflects(cfg, s, h) && Enabled(cfg, s, Replicate(n, p))
    ensures Reflects(cfg, Next(cfg, s, Complete(Replicate(n, p))), h') && Grows(h, h')
  {
    var st := s.nodes[n];
    assert NodeOk(cfg, h, n, st) && PeersOk(cfg, n);
    FreshTicket(cfg, h, n, st);
    h' := SendStep(cfg, s, n, p, Ticket(st.currentTerm, st.commitIndex), h);
    SendOutcome(cfg, s, n, p, Ticket(st.currentTerm, st.commitIndex));
  }

  lemma DeliverAppendOutcome(cfg: Config, s: System, m: Message)
    requires Enabled(cfg, s, DeliverAppend(m))
    ensures var (st', reply) := HandleAppend(s.nodes[m.dst], m.append);
            Next(cfg, s, Complete(DeliverAppend(m)))
            == System(s.nodes[m.dst := st'], s.net + {AppendResponse(m.dst, m.src, m.append, reply)})
  {
  }

  lemma DeliverAppendStep(cfg: Config, s: System, m: Message, h: History) returns (h': History)
    requires Reflects(cfg, s, h) && Enabled(cfg, s, DeliverAppend(m))
    ensures Reflects(cfg, Next(cfg, s, Complete(DeliverAppend(m))), h') && Grows(h, h')
  {
    DeliverAppendOutcome(cfg, s, m);
    h' := ReceiveAppendStep(cfg, s, m, h);
  }

  lemma ReceiveAppendStep(cfg: Config, s: System, m: Message, h: History) returns (h': History)
    requires Reflects(cfg, s, h) && m in s.net && m.AppendEntries? && m.dst in cfg.servers
    ensures var (st', reply) := HandleAppend(s.nodes[m.dst], m.append);
            Reflects(cfg, System(s.nodes[m.dst := st'], s.net + {AppendResponse(m.dst, m.src, m.append, reply)}), h')
    ensures Grows(h, h')
  {
    var n := m.dst;
    assert NodeOk(cfg, h, n, s.nodes[n]) && MessageOk(h, m);
    var st', reply;
    h', st', reply := HandleAppendOk(cfg, h, n, s.nodes[n], m.src, m.append);
    var sent := {AppendResponse(n, m.src, m.append, reply)};
    AfterStep(cfg, s, System(s.nodes[n := st'], s.net + sent), n, st', sent, h, h');
  }

  lemma DeliverAppendReplyStep(cfg: Config, s: System, m: Message, h: History) returns (h': History)
    requires Reflects(cfg, s, h) && Enabled(cfg, s, DeliverAppendReply(m))
    ensures Reflects(cfg, Next(cfg, s, Complete(DeliverAppendReply(m))), h') && Grows(h, h')
  {
    var n := m.dst;
    var st := s.nodes[n];
    assert NodeOk(cfg, h, n, st) && MessageOk(h, m) && PeersOk(cfg, n);
    var st';
    h', st' := HandleAppendReplyOk(cfg, h, n, st, m.src, m.append, m.appendReply);
    AfterStep(cfg, s, Next(cfg, s, Complete(DeliverAppendReply(m))), n, st', {}, h, h');
  }

  lemma ClientSubmitStep(cfg: Config, s: System, n: NodeId, command: Command, h: History) returns (h': History)
    requires Reflects(cfg, s, h) && Enabled(cfg, s, ClientSubmit(n, command))
    ensures Reflects(cfg, Next(cfg, s, Complete(ClientSubmit(n, command))), h') && Grows(h, h')
  {
    var st := s.nodes[n];
    assert NodeOk(cfg, h, n, st);
    SubmitOk(cfg, h, n, st, command);
    h' := Extend(h, n, Entry(st.currentTerm, |st.log| + 1, command));
    AfterStep(cfg, s, Next(cfg, s, Complete(ClientSubmit(n, command))), n, Submit(st, command), {}, h, h');
  }

  /** Actions that change only one node's own bookkeeping. */
  lemma LocalStep(cfg: Config, s: System, n: NodeId, st': NodeState, h: History)
    requires Reflects(cfg, s, h) && n in cfg.servers && ApplyOk(st') && st'.submissions <= s.nodes[n].submissions
    requires st' == s.nodes[n].(lastApplied := st'.lastApplied, phase := st'.phase,
                                delivered := st'.delivered, submissions := st'.submissions)
    ensures Reflects(cfg, System(s.nodes[n := st'], s.net), h)
  {
    assert NodeOk(cfg, h, n, s.nodes[n]);
    LocalNode(cfg, h, n, s.nodes[n], st');
    FrameRefl(h, n);
    AfterStep(cfg, s, System(s.nodes[n := st'], s.net), n, st', {}, h, h);
  }

  lemma ApplyOutcome(cfg: Config, s: System, a: Action)
    requires Enabled(cfg, s, a) && (a.ApplyBegin? || a.ApplyDeliver? || a.ApplyEnd?) && ApplyOk(s.nodes[a.n])
    ensures var st, st' := s.nodes[a.n], NextNode(cfg, s, a);
            && ApplyOk(st')
            && st' == st.(lastApplied := st'.lastApplied, phase := st'.phase, delivered := st'.delivered)
            && Next(cfg, s, Complete(a)) == System(s.nodes[a.n := st'], s.net)
  {
    ApplySteps(s.nodes[a.n]);
    assert s.net + {} == s.net;
  }

  lemma ApplyStep(cfg: Config, s: System, a: Action, h: History)
    requires Reflects(cfg, s, h) && Enabled(cfg, s, a) && (a.ApplyBegin? || a.ApplyDeliver? || a.ApplyEnd?)
    ensures Reflects(cfg, Next(cfg, s, Complete(a)), h)
  {
    assert NodeOk(cfg, h, a.n, s.nodes[a.n]);
    ApplyOutcome(cfg, s, a);
    LocalStep(cfg, s, a.n, NextNode(cfg, s, a), h);
  }

  lemma ClientReturnStep(cfg: Config, s: System, n: NodeId, sub: Submission, h: History)
    requires Reflects(cfg, s, h) && Enabled(cfg, s, ClientReturn(n, sub))
    ensures Reflects(cfg, Next(cfg, s, Complete(ClientReturn(n, sub))), h)
  {
    var st := s.nodes[n];
    assert NodeOk(cfg, h, n, st);
    LocalStep(cfg, s, n, st.(submissions := st.submissions - {sub}), h);
    assert s.net + {} == s.net;
  }

  lemma ElectionStep(cfg: Config, s: System, a: Action, h: History) returns (h': History)
    requires Reflects(cfg, s, h) && Enabled(cfg, s, a)
    requires a.ElectionTimeout? || a.DeliverVoteRequest? || a.DeliverVoteReply?
    ensures Reflects(cfg, Next(cfg, s, Complete(a)), h') && Grows(h, h')
  {
    match a {
      case ElectionTimeout(n) => h' := ElectionTimeoutStep(cfg, s, n, h);
      case DeliverVoteRequest(m) => h' := DeliverVoteRequestStep(cfg, s, m, h);
      case DeliverVoteReply(m) => h' := DeliverVoteReplyStep(cfg, s, m, h);
    }
  }

  lemma SendingStep(cfg: Config, s: System, a: Action, h: History) returns (h': History)
    requires Reflects(cfg, s, h) && Enabled(cfg, s, a)
    requires a.BeginHeartbeat? || a.SendHeartbeat? || a.Replicate?
    ensures Reflects(cfg, Next(cfg, s, Complete(a)), h') && Grows(h, h')
  {
    match a {
      case BeginHeartbeat(n) => HeartbeatStep(cfg, s, n, h); h' := h;
      case SendHeartbeat(n, p, t) => h' := SendHeartbeatStep(cfg, s, n, p, t, h);
      case Replicate(n, p) => h' := ReplicateStep(cfg, s, n, p, h);
    }
  }

  lemma ReceivingStep(cfg: Config, s: System, a: Action, h: History) returns (h': History)
    requires Reflects(cfg, s, h) && Enabled(cfg, s, a)
    requires a.DeliverAppend? || a.DeliverAppendReply? || a.ClientSubmit?
    ensures Reflects(cfg, Next(cfg, s, Complete(a)), h') && Grows(h, h')
  {
    match a {
      case DeliverAppend(m) => h' := DeliverAppendStep(cfg, s, m, h);
      case DeliverAppendReply(m) => h' := DeliverAppendReplyStep(cfg, s, m, h);
      case ClientSubmit(n, command) => h' := ClientSubmitStep(cfg, s, n, command, h);
    }
  }

  lemma ActionStep(cfg: Config, s: System, a: Action, h: History) returns (h': History)
    requires Reflects(cfg, s, h) && Enabled(cfg, s, a)
    ensures Reflects(cfg, Next(cfg, s, Complete(a)), h') && Grows(h, h')
  {
    if a.ElectionTimeout? || a.DeliverVoteRequest? || a.DeliverVoteReply? {
      h' := ElectionStep(cfg, s, a, h);
    } else if a.BeginHeartbeat? || a.SendHeartbeat? || a.Replicate? {
      h' := SendingStep(cfg, s, a, h);
    } else if a.DeliverAppend? || a.DeliverAppendReply? || a.ClientSubmit? {
      h' := ReceivingStep(cfg, s, a, h);
    } else if a.ClientReturn? {
      ClientReturnStep(cfg, s, a.n, a.sub, h);
      h' := h;
    } else {
      ApplyStep(cfg, s, a, h);
      h' := h;
    }
  }

  // ----- crashes -----

  /** The action truncates nothing, or has written nothing yet. */
  ghost predicate MayStop(cfg: Config, s: System, a: Action, written: nat) {
    && CanHappen(cfg, s, Crash(a, written, 0))
    && s.nodes[Actor(a)].discarded == 0 && (written > 0 ==> NextNode(cfg, s, a).discarded == 0)
  }

  /** The records on which the node restarts. */
  ghost function Surviving(cfg: Config, s: System, a: Action, written: nat): seq<Record>
    requires CanHappen(cfg, s, Crash(a, written, 0))
  {
    NextNode(cfg, s, a).wal[..|s.nodes[Actor(a)].wal| + written]
  }

  lemma CrashOutcome(cfg: Config, s: System, a: Action, written: nat, left: nat) returns (stray: nat)
    requires Possible(cfg, s, Crash(a, written, left))
    ensures CanHappen(cfg, s, Crash(a, written, 0))
    ensures Next(cfg, s, Crash(a, written, left))
            == System(s.nodes[Actor(a) := Boot(Found(cfg, s, a, written), stray)], s.net)
    ensures Intact(Crashed(cfg, s, a, written)) ==> Found(cfg, s, a, written) == Surviving(cfg, s, a, written)
  {
    stray := Restart(Crashed(cfg, s, a, written), left).stray;
  }

  lemma NothingWritten(cfg: Config, s: System, a: Action)
    requires MayStop(cfg, s, a, 0)
    ensures Surviving(cfg, s, a, 0) == s.nodes[Actor(a)].wal
  {
    WalGrows(cfg, s, a);
  }

  lemma WrittenOutcome(cfg: Config, s: System, a: Action, written: nat, stray: nat)
    requires MayStop(cfg, s, a, written) && written > 0
    requires |s.nodes[Actor(a)].wal| + written == |NextNode(cfg, s, a).wal|
    ensures var n, s1, wal := Actor(a), Next(cfg, s, Complete(a)), Surviving(cfg, s, a, written);
            && n in s1.nodes && s1.nodes[n].wal == wal && s1.nodes[n].discarded == 0 && s.net <= s1.net
            && s1.nodes[n := Boot(wal, stray)] == s.nodes[n := Boot(wal, stray)]
  {
  }

  lemma CrashWritten(cfg: Config, s: System, a: Action, written: nat, stray: nat, h: History) returns (h': History)
    requires Reflects(cfg, s, h) && MayStop(cfg, s, a, written) && written > 0
    requires |s.nodes[Actor(a)].wal| + written == |NextNode(cfg, s, a).wal|
    ensures Reflects(cfg, System(s.nodes[Actor(a) := Boot(Surviving(cfg, s, a, written), stray)], s.net), h')
    ensures Grows(h, h')
  {
    var n := Actor(a);
    WrittenOutcome(cfg, s, a, written, stray);
    h' := ActionStep(cfg, s, a, h);
    CrashAfter(cfg, Next(cfg, s, Complete(a)), n, stray, s.net, h');
  }

  // Only three actions write more than one record.

  ghost predicate HalfWritten(cfg: Config, s: System, a: Action, written: nat) {
    && MayStop(cfg, s, a, written)
    && 0 < written && |s.nodes[Actor(a)].wal| + written < |NextNode(cfg, s, a).wal|
  }

  lemma HalfWrittenActions(cfg: Config, s: System, a: Action, written: nat)
    requires HalfWritten(cfg, s, a, written)
    ensures a.ElectionTimeout? || a.DeliverVoteRequest? || a.DeliverAppend?
  {
  }

  /** What survives of a half-written vote or candidacy is the new term. */
  lemma SurvivingTerm(cfg: Config, s: System, a: Action, written: nat) returns (term: nat)
    requires HalfWritten(cfg, s, a, written) && (a.ElectionTimeout? || a.DeliverVoteRequest?)
    ensures var st := s.nodes[Actor(a)];
            term > st.currentTerm && st.discarded == 0 && Surviving(cfg, s, a, written) == st.wal + [TermRecord(term)]
  {
    term := NextNode(cfg, s, a).currentTerm;
  }

  /** What survives of a half-written append is the term and some of the entries. */
  lemma SurvivingAppend(cfg: Config, s: System, m: Message, written: nat) returns (j: nat)
    requires HalfWritten(cfg, s, DeliverAppend(m), written)
    ensures var st := s.nodes[m.dst];
            var s1 := Listen(st, m.append);
            && m in s.net && m.AppendEntries? && m.append.term >= st.currentTerm
            && s1.currentTerm == m.append.term && s1.discarded == 0
            && Matches(s1.log, m.append) && m.append.prevLogIndex <= |s1.log|
            && StoreEntries(s1, m.append).discarded == 0 && j <= |StoreEntries(s1, m.append).wal| - |s1.wal|
            && Surviving(cfg, s, DeliverAppend(m), written) == StoreEntries(s1, m.append).wal[..|s1.wal| + j]
  {
    var st := s.nodes[m.dst];
    ListenFacts(st, m.append);
    j := |st.wal| + written - |Listen(st, m.append).wal|;
  }

  lemma TermPart(cfg: Config, s: System, n: NodeId, term: nat, h: History) returns (h1: History)
    requires Reflects(cfg, s, h) && n in cfg.servers && s.nodes[n].discarded == 0 && term > s.nodes[n].currentTerm
    ensures Inv(h1) && Frame(h, h1, n) && Stored(h1, n, s.nodes[n].wal + [TermRecord(term)])
  {
    assert NodeOk(cfg, h, n, s.nodes[n]);
    NodeStored(cfg, h, n, s.nodes[n]);
    TermWritten(h, n, s.nodes[n].wal, term);
    h1 := Advance(h, n, term);
  }

  lemma EntriesPart(cfg: Config, s: System, m: Message, j: nat, s1: NodeState, h: History) returns (h1: History)
    requires Reflects(cfg, s, h) && m.AppendEntries? && m.dst in cfg.servers && m in s.net
    requires m.append.term >= s.nodes[m.dst].currentTerm && s1 == Listen(s.nodes[m.dst], m.append)
    requires s1.currentTerm == m.append.term && s1.discarded == 0
    requires Matches(s1.log, m.append) && m.append.prevLogIndex <= |s1.log|
    requires StoreEntries(s1, m.append).discarded == 0 && j <= |StoreEntries(s1, m.append).wal| - |s1.wal|
    ensures Inv(h1) && Frame(h, h1, m.dst) && Stored(h1, m.dst, StoreEntries(s1, m.append).wal[..|s1.wal| + j])
  {
    assert NodeOk(cfg, h, m.dst, s.nodes[m.dst]) && MessageOk(h, m);
    h1 := AppendPart(cfg, h, m.dst, s.nodes[m.dst], m.src, m.append, s1, j);
  }

  lemma HalfHistory(cfg: Config, s: System, a: Action, written: nat, h: History) returns (h': History)
    requires Reflects(cfg, s, h) && HalfWritten(cfg, s, a, written)
    ensures Inv(h') && Frame(h, h', Actor(a)) && Stored(h', Actor(a), Surviving(cfg, s, a, written))
  {
    HalfWrittenActions(cfg, s, a, written);
    if a.DeliverAppend? {
      var j := SurvivingAppend(cfg, s, a.m, written);
      h' := EntriesPart(cfg, s, a.m, j, Listen(s.nodes[a.m.dst], a.m.append), h);
    } else {
      var term := SurvivingTerm(cfg, s, a, written);
      h' := TermPart(cfg, s, Actor(a), term, h);
    }
  }

  lemma CrashHalf(cfg: Config, s: System, a: Action, written: nat, stray: nat, h: History) returns (h': History)
    requires Reflects(cfg, s, h) && HalfWritten(cfg, s, a, written)
    ensures Reflects(cfg, System(s.nodes[Actor(a) := Boot(Surviving(cfg, s, a, written), stray)], s.net), h')
    ensures Grows(h, h')
  {
    h' := HalfHistory(cfg, s, a, written, h);
    Reboot(cfg, s, Actor(a), Surviving(cfg, s, a, written), stray, h, h');
  }

  /** Of an append that truncates, only the new term may have been written. */
  lemma SurvivingTruncation(cfg: Config, s: System, a: Action, written: nat) returns (term: nat)
    requires TellsLog(cfg, s, Crash(a, written, 0)) && written > 0 && NextNode(cfg, s, a).discarded > 0
    requires Intact(Crashed(cfg, s, a, written))
    ensures var st := s.nodes[Actor(a)];
            term > st.currentTerm && st.discarded == 0 && Surviving(cfg, s, a, written) == st.wal + [TermRecord(term)]
  {
    OnlyAppendsDrop(cfg, s, a);
    term := a.m.append.term;
    TruncationWrites(s.nodes[a.m.dst], a.m.append, NextNode(cfg, s, a).wal, written);
  }

  lemma TruncationWrites(s: NodeState, args: AppendArgs, wal: seq<Record>, written: nat)
    requires s.discarded == 0 && HandleAppend(s, args).0.discarded > 0 && wal == HandleAppend(s, args).0.wal
    requires 0 < written && |s.wal| + written <= |wal|
    requires forall i | |s.wal| <= i < |s.wal| + written :: !wal[i].EntryRecord?
    ensures args.term > s.currentTerm && wal[..|s.wal| + written] == s.wal + [TermRecord(args.term)]
  {
    var t := Listen(s, args);
    var d := Divergence(t.log, args.prevLogIndex, args.entries);
    assert wal == t.wal + EntryRecords(args.entries[d..]);
    assert wal[|t.wal|].EntryRecord?;
  }

  lemma CrashTruncating(cfg: Config, s: System, a: Action, written: nat, stray: nat, h: History) returns (h': History)
    requires Reflects(cfg, s, h) && TellsLog(cfg, s, Crash(a, written, 0)) && written > 0
    requires NextNode(cfg, s, a).discarded > 0 && Intact(Crashed(cfg, s, a, written))
    ensures Reflects(cfg, System(s.nodes[Actor(a) := Boot(Surviving(cfg, s, a, written), stray)], s.net), h')
    ensures Grows(h, h')
  {
    var term := SurvivingTruncation(cfg, s, a, written);
    h' := TermPart(cfg, s, Actor(a), term, h);
    Reboot(cfg, s, Actor(a), Surviving(cfg, s, a, written), stray, h, h');
  }

  // Records are lost, but they tell nothing new.

  /** The last vote is found if it is of no later term than the last one found. */
  lemma VoteFound(wal: seq<Record>, p: seq<Record>, c: NodeId)
    requires Orderly(wal) && p <= wal && Fold(p).term == Fold(wal).term && Fold(wal).votedFor == c != NO_NODE
    requires forall rec | rec in wal && rec.VoteRecord? ::
               KeepsTo(Fold(p).term, Fold(p).votedFor, rec.votedFor, rec.term)
    ensures Fold(p).votedFor == c
  {
    FoldVoteIsLast(wal);
    var i :| 0 <= i < |wal| && wal[i].VoteRecord? && wal[i].votedFor == c && forall j | i < j < |wal| ::
      !wal[j].VoteRecord?;
    assert wal[i] in wal;
    if wal[i].term < Fold(p).term {
      if i >= |p| {
        LostVoteIsLater(wal, p, i);
        assert false;
      }
      LastVoteCounts(p, i);
    }
  }

  lemma LostStored(cfg: Config, h: History, n: NodeId, s: NodeState, p: seq<Record>)
    requires NodeOk(cfg, h, n, s) && s.discarded == 0 && NO_NODE !in h.servers && BallotsReal(h, n) && p <= s.wal
    requires forall rec | rec in s.wal && rec.VoteRecord? ::
               KeepsTo(Fold(p).term, Fold(p).votedFor, rec.votedFor, rec.term)
    requires forall i | |p| <= i < |s.wal| :: TermOf(s.wal[i]) <= Fold(p).term && !s.wal[i].EntryRecord?
    ensures Stored(h, n, p)
  {
    assert s.wal == p + s.wal[|p|..];
    OrderlyPrefix(p, s.wal[|p|..]);
    SameTerm(s.wal, p);
    EntriesExtend(p, s.wal);
    if (n, h.term[n]) in h.ballots { VoteFound(s.wal, p, h.ballots[(n, h.term[n])]); }
  }

  ghost predicate BallotsReal(h: History, n: NodeId) {
    forall t: nat | (n, t) in h.ballots :: h.ballots[(n, t)] != NO_NODE
  }

  lemma RealBallots(cfg: Config, s: System, h: History, n: NodeId)
    requires Reflects(cfg, s, h) && n in cfg.servers
    ensures NO_NODE !in h.servers && BallotsReal(h, n)
  {
    forall t: nat | (n, t) in h.ballots ensures h.ballots[(n, t)] != NO_NODE {
      assert BallotOk(h, (n, t)) && CandidacyOk(h, (h.ballots[(n, t)], t));
    }
  }

  lemma LostIsPart(cfg: Config, s: System, a: Action, written: nat)
    requires CanHappen(cfg, s, Crash(a, written, 0)) && !Intact(Crashed(cfg, s, a, written))
    requires s.nodes[Actor(a)].found <= |s.nodes[Actor(a)].wal|
    ensures Found(cfg, s, a, written) <= s.nodes[Actor(a)].wal
  {
    WalGrows(cfg, s, a);
  }

  lemma CrashLosing(cfg: Config, s: System, a: Action, written: nat, left: nat, stray: nat, h: History)
    requires Reflects(cfg, s, h) && Possible(cfg, s, Crash(a, written, left)) && CanHappen(cfg, s, Crash(a, written, 0))
    requires !Intact(Crashed(cfg, s, a, written))
    ensures Reflects(cfg, System(s.nodes[Actor(a) := Boot(Found(cfg, s, a, written), stray)], s.net), h)
  {
    var n := Actor(a);
    assert NodeOk(cfg, h, n, s.nodes[n]);
    RealBallots(cfg, s, h, n);
    LostIsPart(cfg, s, a, written);
    LostStored(cfg, h, n, s.nodes[n], Found(cfg, s, a, written));
    FrameRefl(h, n);
    Reboot(cfg, s, n, Found(cfg, s, a, written), stray, h, h);
  }

  lemma CrashFinding(cfg: Config, s: System, a: Action, written: nat, stray: nat, h: History) returns (h': History)
    requires Reflects(cfg, s, h) && TellsLog(cfg, s, Crash(a, written, 0)) && Intact(Crashed(cfg, s, a, written))
    ensures Reflects(cfg, System(s.nodes[Actor(a) := Boot(Surviving(cfg, s, a, written), stray)], s.net), h')
    ensures Grows(h, h')
  {
    if written == 0 {
      NothingWritten(cfg, s, a);
      CrashBefore(cfg, s, Actor(a), stray, h);
      h' := h;
    } else if NextNode(cfg, s, a).discarded > 0 {
      h' := CrashTruncating(cfg, s, a, written, stray, h);
    } else if |s.nodes[Actor(a)].wal| + written == |NextNode(cfg, s, a).wal| {
      h' := CrashWritten(cfg, s, a, written, stray, h);
    } else {
      h' := CrashHalf(cfg, s, a, written, stray, h);
    }
  }

  lemma CrashStep(cfg: Config, s: System, a: Action, written: nat, left: nat, h: History) returns (h': History)
    requires Reflects(cfg, s, h) && Possible(cfg, s, Crash(a, written, left))
    ensures Reflects(cfg, Next(cfg, s, Crash(a, written, left)), h') && Grows(h, h')
  {
    var stray := CrashOutcome(cfg, s, a, written, left);
    if Intact(Crashed(cfg, s, a, written)) {
      h' := CrashFinding(cfg, s, a, written, stray, h);
    } else {
      CrashLosing(cfg, s, a, written, left, stray, h);
      h' := h;
    }
  }

  lemma StepKeeps(cfg: Config, s: System, step: Step, h: History) returns (h': History)
    requires Reflects(cfg, s, h) && Possible(cfg, s, step)
    ensures Reflects(cfg, Next(cfg, s, step), h') && Grows(h, h')
  {
    match step {
      case Complete(a) => h' := ActionStep(cfg, s, a, h);
      case Crash(a, written, left) => h' := CrashStep(cfg, s, a, written, left, h);
    }
  }

  // ----- runs -----

  ghost function InitialHistory(cfg: Config): History {
    History(cfg.servers, map n | n in cfg.servers :: 0, map n | n in cfg.servers :: [], map n | n in cfg.servers :: 0,
            [], map[], map[], map[], map[], {}, {}, {})
  }

  lemma InitialOk(cfg: Config, s: System)
    requires ValidConfig(cfg) && Init(cfg, s)
    ensures Reflects(cfg, s, InitialHistory(cfg))
  {
    var h := InitialHistory(cfg);
    assert Inv(h);
    forall n | n in cfg.servers ensures NodeOk(cfg, h, n, s.nodes[n]) {
      assert s.nodes[n] == NewNode();
    }
  }

  /** One history per state of the run, each growing out of the one before. */
  ghost predicate Chronicle(cfg: Config, run: Run, hs: seq<History>) {
    && |hs| == |run.states|
    && (forall i {:trigger Reflects(cfg, run.states[i], hs[i])} | 0 <= i < |hs| :: Reflects(cfg, run.states[i], hs[i]))
    && (forall i, j {:trigger Grows(hs[i], hs[j])} | 0 <= i <= j < |hs| :: Grows(hs[i], hs[j]))
  }

  /** A run without its last step. */
  lemma Shortened(cfg: Config, run: Run) returns (before: Run)
    requires IsRun(cfg, run) && run.steps != []
    ensures IsRun(cfg, before) && |before.steps| == |run.steps| - 1 && before.states == run.states[..|run.steps|]
    ensures IsStep(cfg, run, |run.steps| - 1)
  {
    var k := |run.steps| - 1;
    before := Run(run.states[..k + 1], run.steps[..k]);
    assert IsStep(cfg, run, k);
    forall i | 0 <= i < k ensures IsStep(cfg, before, i) {
      assert IsStep(cfg, run, i);
    }
  }

  /** Every run has a chronicle. */
  lemma {:induction false} RunHasChronicle(cfg: Config, run: Run) returns (hs: seq<History>)
    requires IsRun(cfg, run)
    ensures Chronicle(cfg, run, hs)
    decreases |run.steps|
  {
    if run.steps == [] {
      InitialOk(cfg, run.states[0]);
      hs := [InitialHistory(cfg)];
    } else {
      var before := Shortened(cfg, run);
      var past := RunHasChronicle(cfg, before);
      hs := OneMore(cfg, run, before, past);
    }
  }

  lemma OneMore(cfg: Config, run: Run, before: Run, past: seq<History>) returns (hs: seq<History>)
    requires |run.states| == |run.steps| + 1 && run.steps != [] && IsStep(cfg, run, |run.steps| - 1)
    requires before.states == run.states[..|run.steps|] && Chronicle(cfg, before, past)
    ensures Chronicle(cfg, run, hs)
  {
    var k := |run.steps| - 1;
    assert Reflects(cfg, before.states[k], past[k]);
    var h := StepKeeps(cfg, run.states[k], run.steps[k], past[k]);
    hs := past + [h];
    ChronicleExtends(cfg, run, before, past, h);
  }

  lemma ChronicleExtends(cfg: Config, run: Run, before: Run, past: seq<History>, h: History)
    requires Chronicle(cfg, before, past) && |past| >= 1
    requires |run.states| == |past| + 1 && run.states[..|past|] == before.states
    requires Reflects(cfg, run.states[|past|], h) && Grows(past[|past| - 1], h)
    ensures Chronicle(cfg, run, past + [h])
  {
    var hs := past + [h];
    forall i | 0 <= i < |hs| ensures Reflects(cfg, run.states[i], hs[i]) {
      if i < |past| { assert Reflects(cfg, before.states[i], past[i]); }
    }
    forall i, j | 0 <= i <= j < |hs| ensures Grows(hs[i], hs[j]) {
      if j < |past| {
        assert Grows(past[i], past[j]);
      } else if i < |past| {
        assert Grows(past[i], past[|past| - 1]);
        GrowsTrans(past[i], past[|past| - 1], h);
      }
    }
  }
}
