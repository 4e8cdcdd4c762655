/**
 * Safety of every run of every cluster: elections, message loss, delay and redelivery, and crashes at any
 * byte of a write, as long as no restart forgets a vote, a term or an entry or brings back a truncated log
 * (module Guards shows that each of these is needed). Times `i` and `j` are arbitrary moments of the run, in
 * either order.
 */
module Safety {
  import opened Types
  import opened Logs
  import opened Quorums
  import opened NodeSpec
  import opened Cluster
  import opened History
  import opened HistoryGrowth
  import opened ClusterInv
  import opened ClusterProof

  /** `n` is a node of the cluster at moment `i` of the run. */
  ghost predicate At(cfg: Config, run: Run, i: nat, n: NodeId) {
    IsRun(cfg, run) && i < |run.states| && n in run.states[i].nodes
  }

  ghost function NodeAt(cfg: Config, run: Run, i: nat, n: NodeId): NodeState
    requires At(cfg, run, i, n)
  {
    run.states[i].nodes[n]
  }

  ghost predicate Leads(cfg: Config, run: Run, i: nat, n: NodeId) {
    At(cfg, run, i, n) && NodeAt(cfg, run, i, n).role == Leader
  }

  // ----- from moments of a run to one history -----

  /** What history `h` says of the node in state `s`. */
  lemma Consult(cfg: Config, run: Run, i: nat, j: nat, a: NodeId, b: NodeId)
      returns (h1: History, h2: History, h: History)
    requires At(cfg, run, i, a) && At(cfg, run, j, b)
    ensures Inv(h1) && Inv(h2) && Inv(h) && Grows(h1, h) && Grows(h2, h)
    ensures NodeOk(cfg, h1, a, NodeAt(cfg, run, i, a)) && NodeOk(cfg, h2, b, NodeAt(cfg, run, j, b))
    ensures i <= j ==> h == h2
  {
    var hs := RunHasChronicle(cfg, run);
    var k := Max(i, j);
    h1, h2, h := hs[i], hs[j], hs[k];
    assert Reflects(cfg, run.states[i], hs[i]) && Reflects(cfg, run.states[j], hs[j]);
    assert Reflects(cfg, run.states[k], hs[k]) && Grows(hs[i], hs[k]) && Grows(hs[j], hs[k]);
    assert NodeOk(cfg, h1, a, run.states[i].nodes[a]) && NodeOk(cfg, h2, b, run.states[j].nodes[b]);
  }

  lemma ConsultOne(cfg: Config, run: Run, i: nat, n: NodeId) returns (h: History)
    requires At(cfg, run, i, n)
    ensures Reflects(cfg, run.states[i], h) && NodeOk(cfg, h, n, NodeAt(cfg, run, i, n))
  {
    var hs := RunHasChronicle(cfg, run);
    h := hs[i];
    assert Reflects(cfg, run.states[i], hs[i]);
    assert NodeOk(cfg, h, n, run.states[i].nodes[n]);
  }

  // ----- logs -----

  /** Two logs, at any moments, that agree on one entry's index and term agree on everything before. */
  lemma LogMatching(cfg: Config, run: Run, i: nat, j: nat, a: NodeId, b: NodeId, k: nat)
    requires At(cfg, run, i, a) && At(cfg, run, j, b)
    requires k < |NodeAt(cfg, run, i, a).log| && k < |NodeAt(cfg, run, j, b).log|
    requires NodeAt(cfg, run, i, a).log[k].term == NodeAt(cfg, run, j, b).log[k].term
    ensures NodeAt(cfg, run, i, a).log[..k + 1] == NodeAt(cfg, run, j, b).log[..k + 1]
  {
    var h1, h2, h := Consult(cfg, run, i, j, a, b);
    var l1, l2 := NodeAt(cfg, run, i, a).log, NodeAt(cfg, run, j, b).log;
    RootedGrows(h1.ledger, h.ledger, l1);
    RootedGrows(h2.ledger, h.ledger, l2);
    RootedMatch(h.ledger, l1, l2, k);
  }

  /** Terms along a log are positive and never decrease, and every stored index is a position. */
  lemma LogsOrdered(cfg: Config, run: Run, i: nat, n: NodeId)
    requires At(cfg, run, i, n)
    ensures var log := NodeAt(cfg, run, i, n).log;
            && (forall x, y | 0 <= x <= y < |log| :: log[x].term <= log[y].term)
            && (forall x | 0 <= x < |log| :: log[x].term >= 1 && log[x].index == x + 1)
    ensures Leads(cfg, run, i, n) ==>
              forall x | 0 <= x < |NodeAt(cfg, run, i, n).log| ::
                NodeAt(cfg, run, i, n).log[x].term <= NodeAt(cfg, run, i, n).currentTerm
  {
    var h := ConsultOne(cfg, run, i, n);
    var s := NodeAt(cfg, run, i, n);
    RootedOrdered(h.ledger, s.log);
    if s.role == Leader { assert Bounded(h.ledger[s.currentTerm], s.currentTerm); }
  }

  /** A leader only appends to its log for as long as it leads a term. */
  lemma LeaderAppendOnly(cfg: Config, run: Run, i: nat, j: nat, n: NodeId)
    requires Leads(cfg, run, i, n) && Leads(cfg, run, j, n) && i <= j
    requires NodeAt(cfg, run, i, n).currentTerm == NodeAt(cfg, run, j, n).currentTerm
    ensures NodeAt(cfg, run, i, n).log <= NodeAt(cfg, run, j, n).log
  {
    var h1, h2, h := Consult(cfg, run, i, j, n, n);
  }

  // ----- committed entries -----

  /** Logs covered by two tallies agree as far as both are covered. */
  lemma CoveredAgree(h: History, t1: nat, t2: nat, l1: Log, l2: Log, c1: nat, c2: nat)
    requires Inv(h) && Covered(h, t1, l1, c1) && Covered(h, t2, l2, c2) && c1 <= |l1| && c2 <= |l2|
    ensures l1[..Min(c1, c2)] == l2[..Min(c1, c2)]
  {
    if c1 != 0 && c2 != 0 {
      var m1 :| m1 in h.tallies && Covers(h, m1, t1, l1, c1);
      var m2 :| m2 in h.tallies && Covers(h, m2, t2, l2, c2);
      var top := Max(m1.term, m2.term);
      LedgersHoldCommitted(h, m1, top);
      LedgersHoldCommitted(h, m2, top);
      var c := Min(c1, c2);
      assert l1[..c] == l1[..c1][..c] == h.ledger[top][..c];
      assert l2[..c] == l2[..c2][..c] == h.ledger[top][..c];
    }
  }

  /** The node's log as far as history `h` covers it, seen from a later history. */
  lemma CoveredLater(cfg: Config, h1: History, h: History, n: NodeId, s: NodeState)
    requires Inv(h1) && Grows(h1, h) && NodeOk(cfg, h1, n, s)
    ensures s.commitIndex <= h1.commit[n] <= |s.log| && Covered(h, s.currentTerm, s.log, h1.commit[n])
  {
    assert CommitOk(h1, n);
    CoverStays(h1, h, s.currentTerm, s.currentTerm, s.log, s.log, h1.commit[n]);
  }

  /** One history covers what two nodes know to be committed. */
  lemma Known(cfg: Config, run: Run, i: nat, j: nat, a: NodeId, b: NodeId) returns (h: History, c: nat, d: nat)
    requires At(cfg, run, i, a) && At(cfg, run, j, b)
    ensures var s, t := NodeAt(cfg, run, i, a), NodeAt(cfg, run, j, b);
            && Inv(h) && s.commitIndex <= c <= |s.log| && t.commitIndex <= d <= |t.log|
            && Covered(h, s.currentTerm, s.log, c) && Covered(h, t.currentTerm, t.log, d)
            && (i <= j && a == b ==> c <= d)
  {
    var h1, h2, h' := Consult(cfg, run, i, j, a, b);
    CoveredLater(cfg, h1, h', a, NodeAt(cfg, run, i, a));
    CoveredLater(cfg, h2, h', b, NodeAt(cfg, run, j, b));
    h, c, d := h', h1.commit[a], h2.commit[b];
  }

  lemma PrefixesAgree(l1: Log, l2: Log, d: nat, c: nat)
    requires c <= d <= |l1| && d <= |l2| && l1[..d] == l2[..d]
    ensures l1[..c] == l2[..c]
  {
    assert l1[..c] == l1[..d][..c] && l2[..c] == l2[..d][..c];
  }

  lemma PrefixInside(l1: Log, l2: Log, p: Log, c: nat, k: nat)
    requires k <= c <= |l1| && c <= |p| && l1[..c] == p[..c] && p <= l2
    ensures l1[..k] <= l2
  {
    assert l1[..k] == l1[..c][..k];
  }

  /** State Machine Safety: wherever two commit indices reach, at any moments, the logs agree. */
  lemma StateMachineSafety(cfg: Config, run: Run, i: nat, j: nat, a: NodeId, b: NodeId)
    requires At(cfg, run, i, a) && At(cfg, run, j, b)
    ensures var s, t := NodeAt(cfg, run, i, a), NodeAt(cfg, run, j, b);
            && s.commitIndex <= |s.log| && t.commitIndex <= |t.log|
            && s.log[..Min(s.commitIndex, t.commitIndex)] == t.log[..Min(s.commitIndex, t.commitIndex)]
  {
    var s, t := NodeAt(cfg, run, i, a), NodeAt(cfg, run, j, b);
    var h, c, d := Known(cfg, run, i, j, a, b);
    CoveredAgree(h, s.currentTerm, t.currentTerm, s.log, t.log, c, d);
    PrefixesAgree(s.log, t.log, Min(c, d), Min(s.commitIndex, t.commitIndex));
  }

  /**
   * Leader Completeness: what any node knows to be committed in some term is in the log of every
   * leader of every later term, also if that leader was elected before the node learned it.
   */
  lemma LeaderCompleteness(cfg: Config, run: Run, i: nat, j: nat, a: NodeId, b: NodeId)
    requires At(cfg, run, i, a) && Leads(cfg, run, j, b)
    requires NodeAt(cfg, run, i, a).currentTerm < NodeAt(cfg, run, j, b).currentTerm
    ensures var s, t := NodeAt(cfg, run, i, a), NodeAt(cfg, run, j, b);
            s.commitIndex <= |s.log| && s.log[..s.commitIndex] <= t.log
  {
    var s, t := NodeAt(cfg, run, i, a), NodeAt(cfg, run, j, b);
    var h1, h2, h := Consult(cfg, run, i, j, a, b);
    CoveredLater(cfg, h1, h, a, s);
    LeaderHolds(cfg, h2, h, b, s, t, h1.commit[a]);
  }

  lemma LeaderHolds(cfg: Config, h2: History, h: History, b: NodeId, s: NodeState, t: NodeState, c: nat)
    requires ElectionsOk(h2) && Grows(h2, h) && LeaderOk(cfg, h2, b, t) && t.role == Leader
    requires ServersOk(h) && ElectionsOk(h) && AcksOk(h) && WinnersKeep(h)
    requires s.commitIndex <= c <= |s.log| && Covered(h, s.currentTerm, s.log, c) && s.currentTerm < t.currentTerm
    ensures s.log[..s.commitIndex] <= t.log
  {
    if c != 0 {
      var m :| m in h.tallies && Covers(h, m, s.currentTerm, s.log, c);
      LeaderHoldsTally(cfg, h2, h, b, t, m);
      PrefixInside(s.log, t.log, Committed(h, m), c, s.commitIndex);
    }
  }

  lemma LeaderHoldsTally(cfg: Config, h2: History, h: History, b: NodeId, t: NodeState, m: Tally)
    requires ElectionsOk(h2) && Grows(h2, h) && LeaderOk(cfg, h2, b, t) && t.role == Leader
    requires ServersOk(h) && ElectionsOk(h) && AcksOk(h) && WinnersKeep(h)
    requires TallyOk(h, m) && m.term < t.currentTerm
    ensures Committed(h, m) <= t.log
  {
    var k := h2.electedAt[t.currentTerm];
    assert ElectedAt(h2, t.currentTerm) && ElectionOk(h2, k);
    assert h.elections[k] == h2.elections[k];
    WinnersHoldCommitted(h, m, k);
  }

  /**
   * What a node once knew to be committed stays in its log for ever: no later append truncates it,
   * and no crash loses it.
   */
  lemma CommittedStays(cfg: Config, run: Run, i: nat, j: nat, n: NodeId)
    requires At(cfg, run, i, n) && At(cfg, run, j, n) && i <= j
    ensures var s, t := NodeAt(cfg, run, i, n), NodeAt(cfg, run, j, n);
            s.commitIndex <= |s.log| && s.log[..s.commitIndex] <= t.log
  {
    var s, t := NodeAt(cfg, run, i, n), NodeAt(cfg, run, j, n);
    var h, c, d := Known(cfg, run, i, j, n, n);
    CoveredAgree(h, s.currentTerm, t.currentTerm, s.log, t.log, c, d);
    PrefixesAgree(s.log, t.log, c, s.commitIndex);
  }

  lemma TallyHeld(h: History, m: Tally, v: NodeId)
    requires Inv(h) && TallyOk(h, m) && v in m.quorum
    ensures v in h.servers && Committed(h, m) <= h.log[v]
  {
    assert Acked(h, v, m.term, m.length);
    var a :| a in h.acks && a.voter == v && a.term == m.term && a.length >= m.length;
    assert LogKeeps(h, a);
    CommittedNotSuperseded(h, m);
    assert Kept(h.elections, h.log[v], h.ledger[a.term][..m.length]);
  }

  lemma HeldNow(cfg: Config, s: System, h: History, m: Tally, term: nat, log: Log, c: nat)
    requires Reflects(cfg, s, h) && Covers(h, m, term, log, c)
    ensures IsQuorum(cfg.servers, m.quorum) && m.quorum <= s.nodes.Keys && c <= |log|
    ensures forall v | v in m.quorum :: log[..c] <= s.nodes[v].log
  {
    forall v | v in m.quorum ensures log[..c] <= s.nodes[v].log {
      TallyHeld(h, m, v);
      assert NodeOk(cfg, h, v, s.nodes[v]);
    }
  }

  /** The tally that covers what a node knew to be committed, seen from a later moment. */
  lemma CoveredFrom(cfg: Config, run: Run, i: nat, j: nat, n: NodeId) returns (h: History, m: Tally, c: nat)
    requires At(cfg, run, i, n) && i <= j < |run.states| && NodeAt(cfg, run, i, n).commitIndex > 0
    ensures Reflects(cfg, run.states[j], h)
    ensures var s := NodeAt(cfg, run, i, n); s.commitIndex <= c && Covers(h, m, s.currentTerm, s.log, c)
  {
    var s := NodeAt(cfg, run, i, n);
    var hs := RunHasChronicle(cfg, run);
    assert Reflects(cfg, run.states[i], hs[i]) && Reflects(cfg, run.states[j], hs[j]) && Grows(hs[i], hs[j]);
    assert NodeOk(cfg, hs[i], n, s);
    CoveredLater(cfg, hs[i], hs[j], n, s);
    h, c := hs[j], hs[i].commit[n];
    m :| m in h.tallies && Covers(h, m, s.currentTerm, s.log, c);
  }

  /** What a node once knew to be committed is, at every later moment, in the logs of a majority. */
  lemma CommittedIsHeld(cfg: Config, run: Run, i: nat, j: nat, n: NodeId) returns (q: set<NodeId>)
    requires At(cfg, run, i, n) && i <= j < |run.states| && NodeAt(cfg, run, i, n).commitIndex > 0
    ensures IsQuorum(cfg.servers, q) && q <= run.states[j].nodes.Keys
    ensures var s := NodeAt(cfg, run, i, n);
            s.commitIndex <= |s.log| && forall v | v in q :: s.log[..s.commitIndex] <= run.states[j].nodes[v].log
  {
    var s := NodeAt(cfg, run, i, n);
    var h, m, c := CoveredFrom(cfg, run, i, j, n);
    q := m.quorum;
    HeldNow(cfg, run.states[j], h, m, s.currentTerm, s.log, c);
    assert s.log[..s.commitIndex] <= s.log[..c];
  }

  lemma ActionCommit(cfg: Config, s: System, a: Action)
    requires Enabled(cfg, s, a)
    ensures NextNode(cfg, s, a).commitIndex >= Min(s.nodes[Actor(a)].commitIndex, |NextNode(cfg, s, a).log|)
  {
  }

  /** Without a crash a commit index never decreases. */
  lemma CommitNeverDecreases(cfg: Config, run: Run, i: nat, n: NodeId)
    requires At(cfg, run, i, n) && At(cfg, run, i + 1, n) && run.steps[i].Complete?
    ensures NodeAt(cfg, run, i, n).commitIndex <= NodeAt(cfg, run, i + 1, n).commitIndex
  {
    assert IsStep(cfg, run, i);
    CommittedStays(cfg, run, i, i + 1, n);
    ActionCommit(cfg, run.states[i], run.steps[i].a);
  }
}
