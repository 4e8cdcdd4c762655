/**
 * Elections in runs in which any node may crash and restart at any byte of a write, as long as no restart
 * makes a server forget a vote. Then nobody votes twice in a term, and a term has at most one leader.
 */
module VoteSafety {
  import opened Types
  import opened Quorums
  import opened Recovery
  import opened NodeSpec
  import opened Durability
  import opened CommitRule
  import opened Cluster
  import opened VoteRecords

  /** Whom each voter chose in each term. */
  type Ballots = map<(NodeId, nat), NodeId>

  ghost predicate Extends(b: Ballots, b': Ballots) {
    forall k | k in b :: k in b' && b'[k] == b[k]
  }

  /** All of `q` voted for `n`. */
  ghost predicate AllFor(b: Ballots, q: set<NodeId>, term: nat, n: NodeId) {
    forall v | v in q :: (v, term) in b && b[(v, term)] == n
  }

  ghost predicate ElectedBy(cfg: Config, b: Ballots, n: NodeId, term: nat) {
    exists q :: IsQuorum(cfg.servers, q) && AllFor(b, q, term, n)
  }

  /** The server keeps to all its votes. */
  ghost predicate Honours(b: Ballots, n: NodeId, s: NodeState) {
    forall t: nat | (n, t) in b ::
      && b[(n, t)] != NO_NODE && KeepsTo(s.currentTerm, s.votedFor, b[(n, t)], t) && Anchored(s, b[(n, t)], t)
  }

  ghost predicate Stands(cfg: Config, b: Ballots, n: NodeId, s: NodeState) {
    && (s.role == Candidate ==>
          && s.votesReceived <= cfg.servers && s.votes == |s.votesReceived|
          && AllFor(b, s.votesReceived, s.currentTerm, n))
    && (s.role == Leader ==> ElectedBy(cfg, b, n, s.currentTerm))
  }

  ghost predicate VoterOk(cfg: Config, b: Ballots, n: NodeId, s: NodeState) {
    Honours(b, n, s) && Stands(cfg, b, n, s)
  }

  ghost predicate BallotOk(cfg: Config, b: Ballots, m: Message) {
    m.VoteResponse? && m.voteReply.granted ==>
      m.src in cfg.servers && (m.src, m.vote.term) in b && b[(m.src, m.vote.term)] == m.dst
  }

  ghost predicate VotesOk(cfg: Config, s: System, b: Ballots) {
    && RecordsOk(cfg, s)
    && (forall n {:trigger VoterOk(cfg, b, n, s.nodes[n])} | n in cfg.servers :: VoterOk(cfg, b, n, s.nodes[n]))
    && (forall m {:trigger BallotOk(cfg, b, m)} | m in s.net :: BallotOk(cfg, b, m))
  }

  // ----- what one node's step does -----

  /** More votes by others change nothing for a node. */
  lemma OthersVote(cfg: Config, b: Ballots, b': Ballots, n: NodeId, s: NodeState)
    requires VoterOk(cfg, b, n, s) && Extends(b, b') && forall t: nat | (n, t) in b' :: (n, t) in b
    ensures VoterOk(cfg, b', n, s)
  {
    StandsStays(cfg, b, b', n, s);
  }

  lemma StandsStays(cfg: Config, b: Ballots, b': Ballots, n: NodeId, s: NodeState)
    requires Stands(cfg, b, n, s) && Extends(b, b')
    ensures Stands(cfg, b', n, s)
  {
    if s.role == Leader {
      var q :| IsQuorum(cfg.servers, q) && AllFor(b, q, s.currentTerm, n);
      assert AllFor(b', q, s.currentTerm, n);
    }
  }

  lemma HonoursOn(b: Ballots, n: NodeId, s: NodeState, s': NodeState)
    requires Honours(b, n, s) && s.wal <= s'.wal && s'.found == s.found
    requires s'.currentTerm > s.currentTerm || (s'.currentTerm == s.currentTerm && s'.votedFor == s.votedFor)
    ensures Honours(b, n, s')
  {
    forall t: nat | (n, t) in b ensures Anchored(s', b[(n, t)], t) {
      AnchorHolds(s, s', b[(n, t)], t);
    }
  }

  lemma StandVoter(cfg: Config, b: Ballots, n: NodeId, s: NodeState)
    requires VoterOk(cfg, b, n, s) && n in cfg.servers && n != NO_NODE && s.found <= |s.wal|
    ensures var b' := b[(n, s.currentTerm + 1) := n]; Extends(b, b') && VoterOk(cfg, b', n, StartElection(s, n))
  {
    var s' := StartElection(s, n);
    HonoursOn(b, n, s, s');
    assert s'.wal[|s'.wal| - 1] == VoteRecord(n, s'.currentTerm);
  }

  lemma StepDownVoter(cfg: Config, b: Ballots, n: NodeId, s: NodeState, term: nat)
    requires VoterOk(cfg, b, n, s)
    ensures VoterOk(cfg, b, n, BecomeFollower(s, term))
  {
    HonoursOn(b, n, s, BecomeFollower(s, term));
  }

  /** A vote is only given to a candidate that no other vote of the same term speaks against. */
  lemma GrantVoter(cfg: Config, b: Ballots, n: NodeId, s: NodeState, c: NodeId)
    requires VoterOk(cfg, b, n, s) && c != NO_NODE && s.found <= |s.wal|
    requires s.votedFor == NO_NODE || s.votedFor == c
    ensures var b' := b[(n, s.currentTerm) := c];
            && Extends(b, b')
            && VoterOk(cfg, b', n, s.(votedFor := c, wal := s.wal + [VoteRecord(c, s.currentTerm)]))
  {
    var b', s' := b[(n, s.currentTerm) := c], s.(votedFor := c, wal := s.wal + [VoteRecord(c, s.currentTerm)]);
    assert s'.wal[|s.wal|] == VoteRecord(c, s.currentTerm);
    forall t: nat | (n, t) in b && t != s.currentTerm ensures Anchored(s', b[(n, t)], t) {
      AnchorHolds(s, s', b[(n, t)], t);
    }
    StandsStays(cfg, b, b', n, s);
    assert Stands(cfg, b', n, s');
  }

  lemma HandleVoteVoter(cfg: Config, b: Ballots, n: NodeId, s: NodeState, args: VoteArgs) returns (b': Ballots)
    requires VoterOk(cfg, b, n, s) && args.candidate != NO_NODE && s.found <= |s.wal|
    ensures Extends(b, b') && VoterOk(cfg, b', n, HandleVote(s, args).0)
    ensures forall k | k in b' :: k in b || k.0 == n
    ensures HandleVote(s, args).1.granted ==> (n, args.term) in b' && b'[(n, args.term)] == args.candidate
  {
    var t := if args.term > s.currentTerm then BecomeFollower(s, args.term) else s;
    StepDownVoter(cfg, b, n, s, args.term);
    if GrantsVote(s, args) {
      GrantVoter(cfg, b, n, t, args.candidate);
      b' := b[(n, t.currentTerm) := args.candidate];
    } else {
      b' := b;
    }
  }

  lemma CountVoter(cfg: Config, b: Ballots, n: NodeId, s: NodeState, from: NodeId)
    requires VoterOk(cfg, b, n, s) && PeersOk(cfg, n) && n in cfg.servers && s.role == Candidate
    requires from in cfg.servers && from !in s.votesReceived
    requires (from, s.currentTerm) in b && b[(from, s.currentTerm)] == n
    ensures var t := s.(votesReceived := s.votesReceived + {from}, votes := s.votes + 1);
            VoterOk(cfg, b, n, if t.votes >= Majority(cfg.peers[n]) then BecomeLeader(t, cfg.peers[n]) else t)
  {
    var t := s.(votesReceived := s.votesReceived + {from}, votes := s.votes + 1);
    AllServers(cfg.servers, n, cfg.peers[n]);
    assert AllFor(b, t.votesReceived, t.currentTerm, n);
    assert t.votes >= Majority(cfg.peers[n]) ==> IsQuorum(cfg.servers, t.votesReceived);
  }

  lemma HandleVoteReplyVoter(cfg: Config, b: Ballots, n: NodeId, s: NodeState, m: Message)
    requires VoterOk(cfg, b, n, s) && PeersOk(cfg, n) && n in cfg.servers
    requires m.VoteResponse? && m.dst == n && BallotOk(cfg, b, m)
    ensures VoterOk(cfg, b, n, HandleVoteReply(s, cfg.peers[n], m.src, m.vote.term, m.voteReply))
  {
    if s.currentTerm == m.vote.term && s.role == Candidate {
      if m.voteReply.term > s.currentTerm {
        StepDownVoter(cfg, b, n, s, m.voteReply.term);
      } else if m.voteReply.granted && m.src !in s.votesReceived {
        CountVoter(cfg, b, n, s, m.src);
      }
    }
  }

  lemma HandleAppendVoter(cfg: Config, b: Ballots, n: NodeId, s: NodeState, args: AppendArgs)
    requires VoterOk(cfg, b, n, s)
    ensures VoterOk(cfg, b, n, HandleAppend(s, args).0)
  {
    HonoursOn(b, n, s, HandleAppend(s, args).0);
  }

  lemma HandleAppendReplyVoter(cfg: Config, b: Ballots, n: NodeId, s: NodeState, peers: seq<NodeId>, from: NodeId,
                               args: AppendArgs, reply: AppendReply)
    requires VoterOk(cfg, b, n, s)
    ensures VoterOk(cfg, b, n, HandleAppendReply(s, peers, from, args, reply))
  {
    HonoursOn(b, n, s, HandleAppendReply(s, peers, from, args, reply));
  }

  lemma SubmitVoter(cfg: Config, b: Ballots, n: NodeId, s: NodeState, command: Command)
    requires VoterOk(cfg, b, n, s) && s.role == Leader
    ensures VoterOk(cfg, b, n, Submit(s, command))
  {
    HonoursOn(b, n, s, Submit(s, command));
  }

  // ----- restarts -----

  lemma RestartHonours(b: Ballots, n: NodeId, s: NodeState, t: NodeState, p: seq<Record>, stray: nat)
    requires Honours(b, n, s)
    requires s.wal <= t.wal && t.found == s.found && Sincere(t) && s.found <= |p| && p <= t.wal
    requires forall rec | rec in s.wal && rec.VoteRecord? ::
        KeepsTo(Fold(p).term, Fold(p).votedFor, rec.votedFor, rec.term)
    ensures Honours(b, n, Boot(p, stray))
  {
    var r := Boot(p, stray);
    assert r.wal[..r.found] == p;
    forall u: nat | (n, u) in b ensures KeepsTo(Fold(p).term, Fold(p).votedFor, b[(n, u)], u) {
      AnchorBinds(s, t, p, b[(n, u)], u);
    }
  }

  lemma CrashVoter(cfg: Config, s: System, a: Action, written: nat, left: nat, b: Ballots) returns (st': NodeState)
    requires VotesOk(cfg, s, b) && KeepsVotes(cfg, s, Crash(a, written, left))
    ensures VoterOk(cfg, b, Actor(a), st')
    ensures Next(cfg, s, Crash(a, written, left)) == System(s.nodes[Actor(a) := st'], s.net)
  {
    var n := Actor(a);
    assert VoterOk(cfg, b, n, s.nodes[n]);
    st' := CrashBoots(cfg, s, a, written, left);
    var stray :| st' == Boot(Found(cfg, s, a, written), stray);
    FoundIsPart(cfg, s, a, written);
    ActionSincere(cfg, s, a);
    WalGrows(cfg, s, a);
    StraysStay(cfg, s, a);
    RestartHonours(b, n, s.nodes[n], NextNode(cfg, s, a), Found(cfg, s, a, written), stray);
  }

  // ----- steps of the cluster -----

  /** The acting node changes to `st'` and sends `sent`; the others stay as they are. */
  lemma AfterVotes(cfg: Config, s: System, n: NodeId, st': NodeState, sent: set<Message>, b: Ballots, b': Ballots)
    requires VotesOk(cfg, s, b) && n in cfg.servers && Extends(b, b') && forall k | k in b' :: k in b || k.0 == n
    requires VoterOk(cfg, b', n, st') && forall m | m in sent :: BallotOk(cfg, b', m)
    requires RecordsOk(cfg, System(s.nodes[n := st'], s.net + sent))
    ensures VotesOk(cfg, System(s.nodes[n := st'], s.net + sent), b')
  {
    var s' := System(s.nodes[n := st'], s.net + sent);
    forall v | v in cfg.servers ensures VoterOk(cfg, b', v, s'.nodes[v]) {
      assert VoterOk(cfg, b, v, s.nodes[v]);
      if v != n { OthersVote(cfg, b, b', v, s.nodes[v]); }
    }
    forall m | m in s'.net ensures BallotOk(cfg, b', m) {
      if m in s.net { assert BallotOk(cfg, b, m); }
    }
  }

  /** The acting node after a completed action, and what it sends. */
  lemma ActionVoter(cfg: Config, s: System, a: Action, b: Ballots) returns (b': Ballots)
    requires VotesOk(cfg, s, b) && Enabled(cfg, s, a)
    ensures Extends(b, b') && forall k | k in b' :: k in b || k.0 == Actor(a)
    ensures VoterOk(cfg, b', Actor(a), NextNode(cfg, s, a))
    ensures forall m | m in Sent(cfg, s, a) :: BallotOk(cfg, b', m)
  {
    var n := Actor(a);
    var st := s.nodes[n];
    assert VoterOk(cfg, b, n, st) && PeersOk(cfg, n) && Sincere(st);
    b' := b;
    match a {
      case ElectionTimeout(_) =>
        StandVoter(cfg, b, n, st);
        b' := b[(n, st.currentTerm + 1) := n];
      case DeliverVoteRequest(m) =>
        assert RequestOk(cfg, m);
        b' := HandleVoteVoter(cfg, b, n, st, m.vote);
      case DeliverVoteReply(m) =>
        assert BallotOk(cfg, b, m);
        HandleVoteReplyVoter(cfg, b, n, st, m);
      case DeliverAppend(m) =>
        HandleAppendVoter(cfg, b, n, st, m.append);
      case DeliverAppendReply(m) =>
        HandleAppendReplyVoter(cfg, b, n, st, cfg.peers[n], m.src, m.append, m.appendReply);
      case ClientSubmit(_, command) =>
        SubmitVoter(cfg, b, n, st, command);
      case _ =>
    }
  }

  /** Every completed step, and every crash whose restart keeps to the recorded votes, keeps all votes cast. */
  lemma StepVotes(cfg: Config, s: System, step: Step, b: Ballots) returns (b': Ballots)
    requires VotesOk(cfg, s, b) && KeepsVotes(cfg, s, step)
    ensures VotesOk(cfg, Next(cfg, s, step), b') && Extends(b, b')
  {
    var n := Actor(step.a);
    StepRecords(cfg, s, step);
    match step {
      case Complete(a) =>
        b' := ActionVoter(cfg, s, a, b);
        AfterVotes(cfg, s, n, NextNode(cfg, s, a), Sent(cfg, s, a), b, b');
      case Crash(a, written, left) =>
        b' := b;
        var st' := CrashVoter(cfg, s, a, written, left, b);
        assert s.net + {} == s.net;
        AfterVotes(cfg, s, n, st', {}, b, b);
    }
  }

  // ----- runs -----

  ghost predicate Recount(cfg: Config, run: Run, bs: seq<Ballots>) {
    && |bs| == |run.states|
    && (forall i {:trigger VotesOk(cfg, run.states[i], bs[i])} | 0 <= i < |bs| :: VotesOk(cfg, run.states[i], bs[i]))
    && (forall i, j {:trigger Extends(bs[i], bs[j])} | 0 <= i <= j < |bs| :: Extends(bs[i], bs[j]))
  }

  /** A run without its last step. */
  lemma VoteRunBefore(cfg: Config, run: Run) returns (before: Run)
    requires IsVoteRun(cfg, run) && run.steps != []
    ensures IsVoteRun(cfg, before) && |before.steps| == |run.steps| - 1 && before.states == run.states[..|run.steps|]
    ensures var k := |run.steps| - 1;
            KeepsVotes(cfg, run.states[k], run.steps[k]) && run.states[k + 1] == Next(cfg, run.states[k], run.steps[k])
  {
    var k := |run.steps| - 1;
    before := Run(run.states[..k + 1], run.steps[..k]);
    forall i | 0 <= i < k ensures Linked(cfg, before, i) && KeepsVotes(cfg, before.states[i], before.steps[i]) {
      assert Linked(cfg, run, i);
    }
    assert Linked(cfg, run, k);
  }

  lemma {:induction false} RunHasRecount(cfg: Config, run: Run) returns (bs: seq<Ballots>)
    requires IsVoteRun(cfg, run)
    ensures Recount(cfg, run, bs)
    decreases |run.steps|
  {
    if run.steps == [] {
      bs := [map[]];
      RunRecords(cfg, run, 0);
      assert VotesOk(cfg, run.states[0], map[]);
    } else {
      var k := |run.steps| - 1;
      var before := VoteRunBefore(cfg, run);
      var past := RunHasRecount(cfg, before);
      assert VotesOk(cfg, before.states[k], past[k]);
      var b := StepVotes(cfg, run.states[k], run.steps[k], past[k]);
      bs := past + [b];
      RecountExtends(cfg, run, before, past, b);
    }
  }

  lemma RecountExtends(cfg: Config, run: Run, before: Run, past: seq<Ballots>, b: Ballots)
    requires Recount(cfg, before, past) && |past| >= 1
    requires |run.states| == |past| + 1 && run.states[..|past|] == before.states
    requires VotesOk(cfg, run.states[|past|], b) && Extends(past[|past| - 1], b)
    ensures Recount(cfg, run, past + [b])
  {
    var bs := past + [b];
    forall i | 0 <= i < |bs| ensures VotesOk(cfg, run.states[i], bs[i]) {
      if i < |past| { assert VotesOk(cfg, before.states[i], past[i]); }
    }
    forall i, j | 0 <= i <= j < |bs| ensures Extends(bs[i], bs[j]) {
      if j < |past| {
        assert Extends(past[i], past[j]);
      } else if i < |past| {
        assert Extends(past[i], past[|past| - 1]);
      }
    }
  }

  /** Two moments of a run, seen from the later one. */
  lemma Compare(cfg: Config, run: Run, i: nat, j: nat) returns (b1: Ballots, b2: Ballots, b: Ballots)
    requires IsVoteRun(cfg, run) && i < |run.states| && j < |run.states|
    ensures VotesOk(cfg, run.states[i], b1) && VotesOk(cfg, run.states[j], b2) && Extends(b1, b) && Extends(b2, b)
  {
    var bs := RunHasRecount(cfg, run);
    var k := Max(i, j);
    b1, b2, b := bs[i], bs[j], bs[k];
    assert VotesOk(cfg, run.states[i], bs[i]) && VotesOk(cfg, run.states[j], bs[j]);
    assert Extends(bs[i], bs[k]) && Extends(bs[j], bs[k]);
  }

  ghost predicate LeadsTerm(s: System, n: NodeId, term: nat) {
    n in s.nodes && s.nodes[n].role == Leader && s.nodes[n].currentTerm == term
  }

  /** At most one leader per term, over the whole run and across crashes. */
  lemma ElectionSafety(cfg: Config, run: Run, i: nat, j: nat, a: NodeId, c: NodeId, term: nat)
    requires IsVoteRun(cfg, run) && i < |run.states| && j < |run.states|
    requires LeadsTerm(run.states[i], a, term) && LeadsTerm(run.states[j], c, term)
    ensures a == c
  {
    var b1, b2, b := Compare(cfg, run, i, j);
    assert VoterOk(cfg, b1, a, run.states[i].nodes[a]) && VoterOk(cfg, b2, c, run.states[j].nodes[c]);
    var p :| IsQuorum(cfg.servers, p) && AllFor(b1, p, term, a);
    var q :| IsQuorum(cfg.servers, q) && AllFor(b2, q, term, c);
    var v := QuorumsMeet(cfg.servers, p, q);
    assert b[(v, term)] == a && b[(v, term)] == c;
  }

  /** A vote was granted in this term, and the reply sent. */
  ghost predicate Granted(s: System, v: NodeId, c: NodeId, term: nat) {
    exists m | m in s.net :: m.VoteResponse? && m.src == v && m.dst == c && m.vote.term == term && m.voteReply.granted
  }

  lemma GrantedIsCast(cfg: Config, s: System, b: Ballots, v: NodeId, c: NodeId, term: nat)
    requires VotesOk(cfg, s, b) && Granted(s, v, c, term)
    ensures v in cfg.servers && (v, term) in b && b[(v, term)] == c
  {
    var m :| m in s.net && m.VoteResponse? && m.src == v && m.dst == c && m.vote.term == term && m.voteReply.granted;
    assert BallotOk(cfg, b, m);
  }

  /** Nobody votes for two candidates in one term, crashes included. */
  lemma OneVotePerTerm(cfg: Config, run: Run, i: nat, j: nat, v: NodeId, a: NodeId, c: NodeId, term: nat)
    requires IsVoteRun(cfg, run) && i < |run.states| && j < |run.states|
    requires Granted(run.states[i], v, a, term) && Granted(run.states[j], v, c, term)
    ensures a == c
  {
    var b1, b2, b := Compare(cfg, run, i, j);
    GrantedIsCast(cfg, run.states[i], b1, v, a, term);
    GrantedIsCast(cfg, run.states[j], b2, v, c, term);
    assert b[(v, term)] == a;
  }

  /** At every later moment, the voter is bound by the vote. */
  lemma VotesAreKept(cfg: Config, run: Run, i: nat, j: nat, v: NodeId, c: NodeId, term: nat)
    requires IsVoteRun(cfg, run) && i <= j < |run.states| && Granted(run.states[i], v, c, term)
    ensures v in run.states[j].nodes
    ensures KeepsTo(run.states[j].nodes[v].currentTerm, run.states[j].nodes[v].votedFor, c, term)
  {
    var bs := RunHasRecount(cfg, run);
    assert VotesOk(cfg, run.states[i], bs[i]) && VotesOk(cfg, run.states[j], bs[j]) && Extends(bs[i], bs[j]);
    GrantedIsCast(cfg, run.states[i], bs[i], v, c, term);
    assert VoterOk(cfg, bs[j], v, run.states[j].nodes[v]);
  }

  /**
   * At any moment, a restart that finds all records gives back the exact term and never forgets a vote
   * granted in that term; the log comes back exactly if and only if conflict truncation has dropped no
   * entry since the process started.
   */
  lemma RecoveryAgrees(cfg: Config, run: Run, i: nat, n: NodeId, c: NodeId, left: nat)
    requires IsVoteRun(cfg, run) && i < |run.states| && n in run.states[i].nodes
    ensures var s := run.states[i].nodes[n];
            var r := Restart(s, left);
            && (r.wal == s.wal <==> Intact(s)) && Orderly(s.wal)
            && (Intact(s) ==>
                  && r.currentTerm == s.currentTerm
                  && (Granted(run.states[i], n, c, s.currentTerm) ==> r.votedFor == c)
                  && (r.log == s.log <==> s.discarded == 0))
  {
    var s := run.states[i].nodes[n];
    var b, _, _ := Compare(cfg, run, i, i);
    assert VoterOk(cfg, b, n, s) && Sincere(s);
    if Intact(s) {
      ReplayExactIff(s, left);
      if Granted(run.states[i], n, c, s.currentTerm) {
        GrantedIsCast(cfg, run.states[i], b, n, c, s.currentTerm);
        GrantedComesBack(s, c);
      }
    }
  }

  lemma GrantedComesBack(s: NodeState, c: NodeId)
    requires Sincere(s) && Anchored(s, c, s.currentTerm) && c != NO_NODE
    ensures Fold(s.wal).votedFor == c
  {
    if VoteRecord(c, s.currentTerm) in s.wal {
      var i :| 0 <= i < |s.wal| && s.wal[i] == VoteRecord(c, s.currentTerm);
      RecordBinds(s.wal, i);
    } else {
      ResumedBinds(s.currentTerm, s.votedFor, s.wal, s.found, s.wal);
    }
  }
}
