/** Conflict-hint rollback: how a leader finds the point where a follower's log departs from its own. */
module Rollback {
  import opened Types
  import opened Logs
  import opened Quorums
  import opened NodeSpec
  import opened Cluster
  import opened Merging
  import opened Safety

  /** The length of the longest common prefix. */
  ghost function Common(a: Log, b: Log): nat {
    if a != [] && b != [] && a[0] == b[0] then 1 + Common(a[1..], b[1..]) else 0
  }

  /** Exactly the lengths up to `Common` are common. */
  lemma {:induction false} CommonIff(a: Log, b: Log, k: nat)
    requires k <= |a| && k <= |b|
    ensures Common(a, b) <= |a| && Common(a, b) <= |b|
    ensures a[..k] == b[..k] <==> k <= Common(a, b)
  {
    if a != [] && b != [] && a[0] == b[0] {
      CommonIff(a[1..], b[1..], if k == 0 then 0 else k - 1);
      if k > 0 {
        assert a[..k] == [a[0]] + a[1..][..k - 1] && b[..k] == [b[0]] + b[1..][..k - 1];
        assert a[..k] == b[..k] ==> a[1..][..k - 1] == a[..k][1..] == b[..k][1..] == b[1..][..k - 1];
      }
    } else if k > 0 {
      assert a[..k][0] == a[0] && b[..k][0] == b[0];
    }
  }

  /** What the leader asks the follower, as far as the check of the previous entry sees it. */
  function Probe(leader: Log, next: nat): AppendArgs
    requires next >= 1
  {
    AppendArgs(0, NO_NODE, next - 1, TermAt(leader, next - 1), EntriesFrom(leader, next), 0)
  }

  /** The follower and the leader agree about where `next` points. */
  predicate Agreed(leader: Log, f: NodeState, next: nat)
    requires next >= 1
  {
    Matches(f.log, Probe(leader, next))
  }

  /** nextIndex after a refused probe. */
  function AfterRefusal(leader: Log, f: NodeState, next: nat): nat
    requires next >= 1
  {
    RollBack(leader, next, Refusal(f, Probe(leader, next)))
  }

  /** The leader `id` and the follower `p` of one exchange. */
  datatype Pair = Pair(leader: NodeState, follower: NodeState)

  /** One round: the leader sends, the follower handles it, and the leader handles the reply. */
  function Round(id: NodeId, peers: seq<NodeId>, p: NodeId, commit: nat): Pair -> (Pair, bool) {
    (x: Pair) =>
      var args := AppendRequest(x.leader, id, p, Ticket(x.leader.currentTerm, commit));
      var (f, reply) := HandleAppend(x.follower, args);
      (Pair(HandleAppendReply(x.leader, peers, p, args, reply), f), reply.success)
  }

  /**
   * Between a leader and a follower that is in no later term, the follower accepts exactly if they
   * agree, and otherwise keeps its log while the leader rolls back.
   */
  lemma RoundIsProbe(x: Pair, id: NodeId, peers: seq<NodeId>, p: NodeId, commit: nat) returns (y: Pair)
    requires x.leader.role == Leader && x.follower.currentTerm <= x.leader.currentTerm
    requires Lookup(x.leader.nextIndex, p) >= 1
    ensures y == Round(id, peers, p, commit)(x).0
    ensures Round(id, peers, p, commit)(x).1 <==> Agreed(x.leader.log, x.follower, Lookup(x.leader.nextIndex, p))
    ensures !Round(id, peers, p, commit)(x).1 ==>
              && y.follower.log == x.follower.log && y.follower.currentTerm <= x.leader.currentTerm
              && y.leader == x.leader.(nextIndex := x.leader.nextIndex
                   [p := AfterRefusal(x.leader.log, x.follower, Lookup(x.leader.nextIndex, p))])
  {
    var s, f := x.leader, x.follower;
    var next := Lookup(s.nextIndex, p);
    y := Round(id, peers, p, commit)(x).0;
    if !Agreed(s.log, f, next) && Contains(f.log, next - 1) {
      assert f.log[next - 2].term == TermAt(f.log, next - 1);
      assert FirstIndexOfTerm(f.log, TermAt(f.log, next - 1)) > 0;
    }
  }

  /** Two logs of one cluster, and a nextIndex within the leader's. */
  ghost predicate Probing(ledger: map<nat, Log>, leader: Log, f: NodeState, next: nat) {
    LedgerOk(ledger) && Rooted(ledger, leader) && Rooted(ledger, f.log) && 1 <= next <= |leader| + 1
  }

  /** A probe is accepted exactly at the common prefixes. */
  lemma AgreedIff(ledger: map<nat, Log>, leader: Log, f: NodeState, next: nat)
    requires Probing(ledger, leader, f, next)
    ensures Agreed(leader, f, next) <==> next - 1 <= Common(leader, f.log)
  {
    var prev := next - 1;
    if prev <= |f.log| {
      CommonIff(leader, f.log, prev);
      if prev > 0 && leader[prev - 1].term == f.log[prev - 1].term {
        RootedMatch(ledger, leader, f.log, prev - 1);
      } else if prev > 0 {
        assert leader[..prev][prev - 1] != f.log[..prev][prev - 1];
      }
    } else {
      CommonIff(leader, f.log, 0);
    }
  }

  /** If the leader knows the conflicting term, its last entry of it is the end of the common prefix. */
  lemma KnownTerm(ledger: map<nat, Log>, leader: Log, f: NodeState, next: nat)
    requires Probing(ledger, leader, f, next) && !Agreed(leader, f, next) && next - 1 <= |f.log|
    requires LastIndexOfTerm(leader, f.log[next - 2].term) > 0
    ensures AfterRefusal(leader, f, next) - 1 == Common(leader, f.log) < next - 1
  {
    var prev, t := next - 1, f.log[next - 2].term;
    var l := LastIndexOfTerm(leader, t);
    RootedOrdered(ledger, f.log);
    RootedOrdered(ledger, leader);
    assert RootedAt(ledger, leader, l - 1) && RootedAt(ledger, f.log, prev - 1);
    var q := Min(l, prev);
    assert leader[..q] == ledger[t][..q] == f.log[..q];
    CommonIff(leader, f.log, q);
    AgreedIff(ledger, leader, f, next);
    assert q == l < prev;
    CommonIff(leader, f.log, l + 1);
    assert l < |leader| ==> leader[..l + 1][l] == leader[l] && f.log[..l + 1][l] == f.log[l];
    assert l < |leader| ==> leader[l].term > t >= f.log[l].term;
  }

  /** If it does not, the whole term is skipped. */
  lemma UnknownTerm(ledger: map<nat, Log>, leader: Log, f: NodeState, next: nat)
    requires Probing(ledger, leader, f, next) && !Agreed(leader, f, next) && next - 1 <= |f.log|
    requires LastIndexOfTerm(leader, f.log[next - 2].term) == 0
    ensures 1 <= AfterRefusal(leader, f, next) <= next - 1
    ensures Common(leader, f.log) <= AfterRefusal(leader, f, next) - 1
    ensures forall i | 0 <= i < AfterRefusal(leader, f, next) - 1 :: f.log[i].term != f.log[next - 2].term
  {
    var t := f.log[next - 2].term;
    var first := FirstIndexOfTerm(f.log, t);
    RootedOrdered(ledger, f.log);
    assert 1 <= first <= next - 1;
    var c := Common(leader, f.log);
    CommonIff(leader, f.log, 0);
    CommonIff(leader, f.log, c);
    var d := Min(c, first);
    assert d > 0 ==> leader[..c][d - 1] == f.log[..c][d - 1];
    assert d > 0 ==> leader[d - 1] == f.log[d - 1] && leader[d - 1].term != t;
  }

  /** A refused probe strictly lowers nextIndex, and never below the common prefix. */
  lemma RefusalLowers(ledger: map<nat, Log>, leader: Log, f: NodeState, next: nat)
    requires Probing(ledger, leader, f, next) && !Agreed(leader, f, next)
    ensures 1 <= AfterRefusal(leader, f, next) < next
    ensures Common(leader, f.log) <= AfterRefusal(leader, f, next) - 1
  {
    CommonIff(leader, f.log, 0);
    if next - 1 <= |f.log| {
      if LastIndexOfTerm(leader, f.log[next - 2].term) > 0 {
        KnownTerm(ledger, leader, f, next);
      } else {
        UnknownTerm(ledger, leader, f, next);
      }
    }
  }

  /** How many probes are refused before one is accepted. */
  ghost function Refusals(ledger: map<nat, Log>, leader: Log, f: NodeState, next: nat): nat
    requires Probing(ledger, leader, f, next)
    decreases next
  {
    if Agreed(leader, f, next) then 0
    else
      RefusalLowers(ledger, leader, f, next);
      1 + Refusals(ledger, leader, f, AfterRefusal(leader, f, next))
  }

  lemma RefusedOnce(ledger: map<nat, Log>, leader: Log, f: NodeState, next: nat) returns (after: nat)
    requires Probing(ledger, leader, f, next) && !Agreed(leader, f, next)
    ensures after == AfterRefusal(leader, f, next) && Common(leader, f.log) <= after - 1 < next - 1
    ensures Probing(ledger, leader, f, after) && Refusals(ledger, leader, f, next)
        == 1 + Refusals(ledger, leader, f, after)
  {
    after := AfterRefusal(leader, f, next);
    RefusalLowers(ledger, leader, f, next);
  }

  /** The distinct terms among the first `k` entries. */
  ghost function Terms(log: Log, k: nat): set<nat>
    requires k <= |log|
  {
    set i | 0 <= i < k :: log[i].term
  }

  lemma FewerTerms(log: Log, k: nat, l: nat)
    requires k < l <= |log| && forall i | 0 <= i < k :: log[i].term != log[l - 1].term
    ensures |Terms(log, k)| + 1 <= |Terms(log, l)|
  {
    var t := log[l - 1].term;
    assert t in Terms(log, l) && t !in Terms(log, k);
    SubsetSize(Terms(log, k) + {t}, Terms(log, l));
  }

  lemma KnownTermOnce(ledger: map<nat, Log>, leader: Log, f: NodeState, next: nat)
    requires Probing(ledger, leader, f, next) && !Agreed(leader, f, next) && next - 1 <= |f.log|
    requires LastIndexOfTerm(leader, f.log[next - 2].term) > 0
    ensures Refusals(ledger, leader, f, next) == 1
  {
    RefusalLowers(ledger, leader, f, next);
    KnownTerm(ledger, leader, f, next);
    AgreedIff(ledger, leader, f, AfterRefusal(leader, f, next));
  }

  lemma UnknownTermGone(ledger: map<nat, Log>, leader: Log, f: NodeState, next: nat) returns (after: nat)
    requires Probing(ledger, leader, f, next) && !Agreed(leader, f, next) && next - 1 <= |f.log|
    requires LastIndexOfTerm(leader, f.log[next - 2].term) == 0
    ensures Probing(ledger, leader, f, after) && after < next
    ensures Refusals(ledger, leader, f, next) == 1 + Refusals(ledger, leader, f, after)
    ensures |Terms(f.log, after - 1)| + 1 <= |Terms(f.log, next - 1)|
  {
    after := RefusedOnce(ledger, leader, f, next);
    UnknownTerm(ledger, leader, f, next);
    FewerTerms(f.log, after - 1, next - 1);
  }

  /** Each refusal but the first uses up one of the follower's terms. */
  lemma {:induction false} RefusalsInside(ledger: map<nat, Log>, leader: Log, f: NodeState, next: nat)
    requires Probing(ledger, leader, f, next) && next - 1 <= |f.log|
    ensures Refusals(ledger, leader, f, next) <= |Terms(f.log, next - 1)|
    decreases next
  {
    if !Agreed(leader, f, next) {
      if LastIndexOfTerm(leader, f.log[next - 2].term) > 0 {
        KnownTermOnce(ledger, leader, f, next);
        assert f.log[next - 2].term in Terms(f.log, next - 1);
      } else {
        var after := UnknownTermGone(ledger, leader, f, next);
        RefusalsInside(ledger, leader, f, after);
      }
    }
  }

  /** The number of refused probes is at most the number of the follower's distinct terms plus one. */
  lemma RefusalsBounded(ledger: map<nat, Log>, leader: Log, f: NodeState, next: nat)
    requires Probing(ledger, leader, f, next)
    ensures Refusals(ledger, leader, f, next) <= |Terms(f.log, |f.log|)| + 1
  {
    if next - 1 <= |f.log| {
      RefusalsInside(ledger, leader, f, next);
      SubsetSize(Terms(f.log, next - 1), Terms(f.log, |f.log|));
    } else if !Agreed(leader, f, next) {
      assert AfterRefusal(leader, f, next) == |f.log| + 1;
      RefusalLowers(ledger, leader, f, next);
      RefusalsInside(ledger, leader, f, |f.log| + 1);
    }
  }

  /** nextIndex after `k` probes of an unchanged follower, where an accepted probe settles it. */
  function Rounds(leader: Log, f: NodeState, next: nat, k: nat): nat
    decreases k
  {
    if k == 0 || next == 0 || Agreed(leader, f, next) then next
    else Rounds(leader, f, AfterRefusal(leader, f, next), k - 1)
  }

  /** The first accepted probe points where it started or, after a refusal, exactly behind the common prefix. */
  lemma {:induction false} RoundsSettle(ledger: map<nat, Log>, leader: Log, f: NodeState, next: nat, k: nat)
    requires Probing(ledger, leader, f, next) && k >= Refusals(ledger, leader, f, next)
    ensures var settled := Rounds(leader, f, next, k);
            settled >= 1 && Agreed(leader, f, settled) && settled - 1 == Min(next - 1, Common(leader, f.log))
    decreases next
  {
    AgreedIff(ledger, leader, f, next);
    if !Agreed(leader, f, next) {
      var after := RefusedOnce(ledger, leader, f, next);
      RoundsSettle(ledger, leader, f, after, k - 1);
    }
  }

  /**
   * In every run, with the two logs as they are at some moment: a refused probe strictly lowers
   * nextIndex, but not below the common prefix.
   */
  lemma RefusedProbeLowers(cfg: Config, run: Run, i: nat, n: NodeId, p: NodeId, next: nat)
    requires Leads(cfg, run, i, n) && At(cfg, run, i, p) && 1 <= next <= |NodeAt(cfg, run, i, n).log| + 1
    ensures var leader, f := NodeAt(cfg, run, i, n).log, NodeAt(cfg, run, i, p);
            && (Agreed(leader, f, next) <==> next - 1 <= Common(leader, f.log))
            && (!Agreed(leader, f, next) ==> Common(leader, f.log) < AfterRefusal(leader, f, next) < next)
  {
    var leader, f := NodeAt(cfg, run, i, n).log, NodeAt(cfg, run, i, p);
    var ledger := SharedLedger(cfg, run, i, n, p);
    AgreedIff(ledger, leader, f, next);
    if !Agreed(leader, f, next) { RefusalLowers(ledger, leader, f, next); }
  }

  // ----- real rounds -----

  lemma {:induction false} OnlyLogsMatter(leader: Log, f: NodeState, g: NodeState, next: nat, k: nat)
    requires f.log == g.log
    ensures Rounds(leader, f, next, k) == Rounds(leader, g, next, k)
    decreases k
  {
    if k > 0 && next > 0 && !Agreed(leader, f, next) {
      OnlyLogsMatter(leader, f, g, AfterRefusal(leader, f, next), k - 1);
    }
  }

  /** A refused probe, continued against the same log. */
  lemma ProbeAgain(ledger: map<nat, Log>, leader: Log, f: NodeState, g: NodeState, next: nat, k: nat)
    requires Probing(ledger, leader, f, next) && !Agreed(leader, f, next) && f.log == g.log && k > 0
    ensures Probing(ledger, leader, g, AfterRefusal(leader, f, next))
    ensures Rounds(leader, f, next, k) == Rounds(leader, g, AfterRefusal(leader, f, next), k - 1)
  {
    RefusalLowers(ledger, leader, f, next);
    OnlyLogsMatter(leader, f, g, AfterRefusal(leader, f, next), k - 1);
  }

  /** Up to `k` rounds, as long as they are refused. */
  function RefusedRounds(round: Pair -> (Pair, bool), x: Pair, k: nat): Pair
    decreases k
  {
    if k == 0 || round(x).1 then x else RefusedRounds(round, round(x).0, k - 1)
  }

  /** Rounds between a leader and a follower that is in no later term are probes. */
  ghost predicate Probes(round: Pair -> (Pair, bool), p: NodeId, x: Pair) {
    var next := Lookup(x.leader.nextIndex, p);
    x.leader.role == Leader && x.follower.currentTerm <= x.leader.currentTerm && next >= 1 ==>
      if Agreed(x.leader.log, x.follower, next) then round(x).1
      else
        var y := round(x).0;
        && !round(x).1 && y.follower.log == x.follower.log && y.follower.currentTerm <= x.leader.currentTerm
        && y.leader == x.leader.(nextIndex := x.leader.nextIndex[p := AfterRefusal(x.leader.log, x.follower, next)])
  }

  lemma RoundProbes(id: NodeId, peers: seq<NodeId>, p: NodeId, commit: nat, x: Pair)
    ensures Probes(Round(id, peers, p, commit), p, x)
  {
    var s, f := x.leader, x.follower;
    if s.role == Leader && f.currentTerm <= s.currentTerm && Lookup(s.nextIndex, p) >= 1 {
      var _ := RoundIsProbe(x, id, peers, p, commit);
    }
  }

  lemma {:induction false} RoundsAreReal(
    ledger: map<nat, Log>, round: Pair -> (Pair, bool), x: Pair, p: NodeId, k: nat) returns (y: Pair)
    requires forall z :: Probes(round, p, z)
    requires x.leader.role == Leader && x.follower.currentTerm <= x.leader.currentTerm
    requires Probing(ledger, x.leader.log, x.follower, Lookup(x.leader.nextIndex, p))
    ensures y == RefusedRounds(round, x, k)
    ensures y.leader == x.leader.(nextIndex := y.leader.nextIndex) && y.follower.log == x.follower.log
    ensures y.follower.currentTerm <= x.leader.currentTerm
    ensures Lookup(y.leader.nextIndex, p) == Rounds(x.leader.log, x.follower, Lookup(x.leader.nextIndex, p), k)
    decreases k
  {
    var next := Lookup(x.leader.nextIndex, p);
    assert Probes(round, p, x);
    if k == 0 || Agreed(x.leader.log, x.follower, next) {
      y := x;
    } else {
      ProbeAgain(ledger, x.leader.log, x.follower, round(x).0.follower, next, k);
      y := RoundsAreReal(ledger, round, round(x).0, p, k - 1);
    }
  }

  lemma AcceptedAppend(ledger: map<nat, Log>, leader: Log, f: NodeState, args: AppendArgs)
    requires Rooted(ledger, leader) && Rooted(ledger, f.log) && args.prevLogIndex <= |leader|
    requires args.prevLogTerm == TermAt(leader, args.prevLogIndex) && args.entries == leader[args.prevLogIndex..]
    requires HandleAppend(f, args).1.success
    ensures leader <= HandleAppend(f, args).0.log
  {
    MergeIsAdopt(ledger, f.log, leader, args.prevLogIndex);
  }

  /** An accepted round leaves the follower with all of the leader's log. */
  lemma AcceptedRound(ledger: map<nat, Log>, x: Pair, id: NodeId, peers: seq<NodeId>, p: NodeId, commit: nat)
    requires Probing(ledger, x.leader.log, x.follower, Lookup(x.leader.nextIndex, p))
    requires Round(id, peers, p, commit)(x).1
    ensures x.leader.log <= Round(id, peers, p, commit)(x).0.follower.log
  {
    AcceptedAppend(ledger, x.leader.log, x.follower,
      AppendRequest(x.leader, id, p, Ticket(x.leader.currentTerm, commit)));
  }

  /**
   * From any legal nextIndex, one refused round more than the follower has distinct terms is never
   * needed: then nextIndex has settled, exactly behind the common prefix if it started above it, the
   * logs are as they were, and the next round is accepted and gives the follower all of the leader's log.
   */
  lemma RollbackConverges(cfg: Config, run: Run, i: nat, n: NodeId, p: NodeId, x: Pair, commit: nat, k: nat)
    requires Leads(cfg, run, i, n) && At(cfg, run, i, p) && n in cfg.peers
    requires x.leader == NodeAt(cfg, run, i, n).(nextIndex := x.leader.nextIndex)
        && x.follower == NodeAt(cfg, run, i, p)
    requires 1 <= Lookup(x.leader.nextIndex, p) <= |x.leader.log| + 1 && x.follower.currentTerm <= x.leader.currentTerm
    requires k > |Terms(x.follower.log, |x.follower.log|)|
    ensures var y := RefusedRounds(Round(n, cfg.peers[n], p, commit), x, k);
            && y.leader.log == x.leader.log && y.follower.log == x.follower.log
            && Lookup(y.leader.nextIndex, p) - 1
               == Min(Lookup(x.leader.nextIndex, p) - 1, Common(x.leader.log, x.follower.log))
            && Round(n, cfg.peers[n], p, commit)(y).1
            && x.leader.log <= Round(n, cfg.peers[n], p, commit)(y).0.follower.log
  {
    var ledger := SharedLedger(cfg, run, i, n, p);
    var round := Round(n, cfg.peers[n], p, commit);
    forall z ensures Probes(round, p, z) { RoundProbes(n, cfg.peers[n], p, commit, z); }
    var y := RoundsAreReal(ledger, round, x, p, k);
    RefusalsBounded(ledger, x.leader.log, x.follower, Lookup(x.leader.nextIndex, p));
    RoundsSettle(ledger, x.leader.log, x.follower, Lookup(x.leader.nextIndex, p), k);
    var _ := RoundIsProbe(y, n, cfg.peers[n], p, commit);
    AcceptedRound(ledger, y, n, cfg.peers[n], p, commit);
  }

  lemma SharedLedger(cfg: Config, run: Run, i: nat, n: NodeId, p: NodeId) returns (ledger: map<nat, Log>)
    requires At(cfg, run, i, n) && At(cfg, run, i, p)
    ensures LedgerOk(ledger) && Rooted(ledger, NodeAt(cfg, run, i, n).log) && Rooted(ledger, NodeAt(cfg, run, i, p).log)
  {
    var h1, h2, h := Consult(cfg, run, i, i, n, p);
    RootedGrows(h1.ledger, h.ledger, NodeAt(cfg, run, i, n).log);
    RootedGrows(h2.ledger, h.ledger, NodeAt(cfg, run, i, p).log);
    ledger := h.ledger;
  }
}
