/**
 * Exactly which restarts do harm, and to what: for every run, however its nodes crash, and every crash
 * that may come next.
 */
module Restarts {
  import opened Types
  import opened Logs
  import opened Recovery
  import opened NodeSpec
  import opened Durability
  import opened Cluster
  import opened VoteRecords

  /** A crash of the node that performs `a`, at some moment of any run. */
  ghost predicate CrashesAt(cfg: Config, run: Run, i: nat, a: Action, written: nat, left: nat) {
    IsAnyRun(cfg, run) && i < |run.states| && CanHappen(cfg, run.states[i], Crash(a, written, left))
  }

  /** The node before the crash and after the restart. */
  ghost function Before(cfg: Config, run: Run, i: nat, a: Action): NodeState
    requires IsAnyRun(cfg, run) && i < |run.states| && Enabled(cfg, run.states[i], a)
  {
    run.states[i].nodes[Actor(a)]
  }

  ghost function Restarted(cfg: Config, run: Run, i: nat, a: Action, written: nat, left: nat): NodeState
    requires CrashesAt(cfg, run, i, a, written, left)
  {
    Next(cfg, run.states[i], Crash(a, written, left)).nodes[Actor(a)]
  }

  ghost predicate Recovers(st: NodeState, st': NodeState, r: NodeState, p: seq<Record>) {
    && Sincere(st) && Sincere(st') && st.wal <= st'.wal && p <= st'.wal
    && exists stray :: r == Boot(p, stray)
  }

  lemma CrashRecovers(cfg: Config, run: Run, i: nat, a: Action, written: nat, left: nat)
      returns (st: NodeState, st': NodeState, r: NodeState, p: seq<Record>)
    requires CrashesAt(cfg, run, i, a, written, left)
    ensures st == Before(cfg, run, i, a) && r == Restarted(cfg, run, i, a, written, left)
    ensures p == Found(cfg, run.states[i], a, written) && Recovers(st, st', r, p)
  {
    var s := run.states[i];
    RunRecords(cfg, run, i);
    st, st', p := s.nodes[Actor(a)], NextNode(cfg, s, a), Found(cfg, s, a, written);
    r := CrashBoots(cfg, s, a, written, left);
    ActionSincere(cfg, s, a);
    FoundIsPart(cfg, s, a, written);
    WalGrows(cfg, s, a);
    assert Sincere(st);
  }

  // ----- votes -----

  /** The server would vote for another candidate than `c` in `term`. */
  ghost predicate Betrays(s: NodeState, c: NodeId, term: nat) {
    exists args: VoteArgs | args.term == term && args.candidate != c && args.candidate != NO_NODE :: GrantsVote(s, args)
  }

  lemma BetraysIff(s: NodeState, c: NodeId, term: nat)
    requires c != NO_NODE
    ensures Betrays(s, c, term) <==> !KeepsTo(s.currentTerm, s.votedFor, c, term)
  {
    if !KeepsTo(s.currentTerm, s.votedFor, c, term) {
      var other := if s.votedFor != NO_NODE && s.votedFor != c then s.votedFor else c + 1;
      assert GrantsVote(s, VoteArgs(term, other, 0, LastTerm(s.log) + 1));
    }
  }

  lemma FoundVoteBinds(wal: seq<Record>, p: seq<Record>, c: NodeId, term: nat)
    requires Orderly(wal) && VotesAgree(wal) && p <= wal && VoteRecord(c, term) in p
    ensures KeepsTo(Fold(p).term, Fold(p).votedFor, c, term)
  {
    var k :| 0 <= k < |p| && p[k] == VoteRecord(c, term);
    BootSincere(wal, p, 0);
    RecordBinds(p, k);
  }

  lemma LostVoteBindsIff(wal: seq<Record>, p: seq<Record>, c: NodeId, term: nat)
    requires Orderly(wal) && p <= wal && VoteRecord(c, term) in wal && VoteRecord(c, term) !in p
    ensures KeepsTo(Fold(p).term, Fold(p).votedFor, c, term) <==> Fold(p).term == term && Fold(p).votedFor == c
  {
    var k :| 0 <= k < |wal| && wal[k] == VoteRecord(c, term);
    assert forall j | 0 <= j < |p| :: p[j] == wal[j];
    LostVoteIsLater(wal, p, k);
  }

  lemma VoteBindsIff(st: NodeState, st': NodeState, r: NodeState, p: seq<Record>, c: NodeId, term: nat)
    requires Recovers(st, st', r, p) && VoteRecord(c, term) in st.wal
    ensures KeepsTo(r.currentTerm, r.votedFor, c, term)
            <==> VoteRecord(c, term) in p || (Fold(p).term == term && Fold(p).votedFor == c)
  {
    if VoteRecord(c, term) in p {
      FoundVoteBinds(st'.wal, p, c, term);
    } else {
      var k :| 0 <= k < |st.wal| && st.wal[k] == VoteRecord(c, term);
      assert st'.wal[k] == st.wal[k];
      LostVoteBindsIff(st'.wal, p, c, term);
    }
  }

  /**
   * A restart makes a server betray a vote that it has recorded if and only if the record lies behind stray
   * bytes, unless the records in front of them tell the same vote and the same term anyway.
   */
  lemma VoteForgottenIff(cfg: Config, run: Run, i: nat, a: Action, written: nat, left: nat, c: NodeId, term: nat)
    requires CrashesAt(cfg, run, i, a, written, left) && VoteRecord(c, term) in Before(cfg, run, i, a).wal
    ensures var found := Found(cfg, run.states[i], a, written);
            Betrays(Restarted(cfg, run, i, a, written, left), c, term)
            <==> VoteRecord(c, term) !in found && !(Fold(found).term == term && Fold(found).votedFor == c)
  {
    var st, st', r, p := CrashRecovers(cfg, run, i, a, written, left);
    var k :| 0 <= k < |st.wal| && st.wal[k] == VoteRecord(c, term);
    BetraysIff(r, c, term);
    VoteBindsIff(st, st', r, p, c, term);
  }

  /** The guard of the election theorems says exactly that the restarted server betrays no recorded vote. */
  lemma KeepsVotesIff(cfg: Config, run: Run, i: nat, a: Action, written: nat, left: nat)
    requires CrashesAt(cfg, run, i, a, written, left)
    ensures var st, r := Before(cfg, run, i, a), Restarted(cfg, run, i, a, written, left);
            KeepsVotes(cfg, run.states[i], Crash(a, written, left))
            <==> forall rec | rec in st.wal && rec.VoteRecord? :: !Betrays(r, rec.votedFor, rec.term)
  {
    var st, st', r, p := CrashRecovers(cfg, run, i, a, written, left);
    forall rec | rec in st.wal && rec.VoteRecord?
      ensures Betrays(r, rec.votedFor, rec.term) <==> !KeepsTo(Fold(p).term, Fold(p).votedFor, rec.votedFor, rec.term)
    {
      var k :| 0 <= k < |st.wal| && st.wal[k] == rec;
      BetraysIff(r, rec.votedFor, rec.term);
    }
  }

  /** No vote is forgotten if none lies behind stray bytes. */
  lemma NoVoteBehind(cfg: Config, run: Run, i: nat, a: Action, written: nat, left: nat)
    requires CrashesAt(cfg, run, i, a, written, left)
    requires forall rec | rec in Before(cfg, run, i, a).wal && rec.VoteRecord? ::
        rec in Found(cfg, run.states[i], a, written)
    ensures KeepsVotes(cfg, run.states[i], Crash(a, written, left))
  {
    var st, st', r, p := CrashRecovers(cfg, run, i, a, written, left);
    forall rec | rec in st.wal && rec.VoteRecord?
      ensures KeepsTo(Fold(p).term, Fold(p).votedFor, rec.votedFor, rec.term)
    {
      VoteBindsIff(st, st', r, p, rec.votedFor, rec.term);
    }
  }

  /** A vote once cast in a term is not changed within it. */
  lemma VotePersists(cfg: Config, s: System, a: Action)
    requires Enabled(cfg, s, a)
    ensures var st, st' := s.nodes[Actor(a)], NextNode(cfg, s, a);
            || st'.currentTerm > st.currentTerm
            || (st'.currentTerm == st.currentTerm && (st.votedFor == NO_NODE || st'.votedFor == st.votedFor))
  {
  }

  /** The server is bound by the vote, and will be after each restart that keeps to the recorded votes. */
  ghost predicate Holds(s: NodeState, c: NodeId, term: nat) {
    KeepsTo(s.currentTerm, s.votedFor, c, term) && Anchored(s, c, term)
  }

  lemma StepHolds(cfg: Config, s: System, step: Step, n: NodeId, c: NodeId, term: nat)
    requires RecordsOk(cfg, s) && KeepsVotes(cfg, s, step) && n in s.nodes && c != NO_NODE && Holds(s.nodes[n], c, term)
    ensures n in Next(cfg, s, step).nodes && Holds(Next(cfg, s, step).nodes[n], c, term)
  {
    if Actor(step.a) == n {
      WalGrows(cfg, s, step.a);
      StraysStay(cfg, s, step.a);
      var st, st' := s.nodes[n], NextNode(cfg, s, step.a);
      if step.Complete? {
        VotePersists(cfg, s, step.a);
        AnchorHolds(st, st', c, term);
      } else {
        var r := CrashBoots(cfg, s, step.a, step.written, step.left);
        var p := Found(cfg, s, step.a, step.written);
        ActionSincere(cfg, s, step.a);
        FoundIsPart(cfg, s, step.a, step.written);
        AnchorBinds(st, st', p, c, term);
        assert r.wal[..r.found] == p;
      }
    }
  }

  lemma {:induction false} HoldsOn(cfg: Config, run: Run, i: nat, j: nat, n: NodeId, c: NodeId, term: nat)
    requires IsVoteRun(cfg, run) && i <= j < |run.states| && n in run.states[i].nodes
    requires VoteRecord(c, term) in run.states[i].nodes[n].wal
    ensures n in run.states[j].nodes && c != NO_NODE && Holds(run.states[j].nodes[n], c, term)
    decreases j
  {
    if i < j {
      HoldsOn(cfg, run, i, j - 1, n, c, term);
      assert Linked(cfg, run, j - 1);
      RunRecords(cfg, run, j - 1);
      StepHolds(cfg, run.states[j - 1], run.steps[j - 1], n, c, term);
    } else {
      var s := run.states[i].nodes[n];
      RunRecords(cfg, run, i);
      assert Sincere(s);
      var k :| 0 <= k < |s.wal| && s.wal[k] == VoteRecord(c, term);
    }
  }

  /** Between two moments, a server keeps to the votes that it has recorded. */
  ghost predicate VotesStay(s: System, s': System) {
    forall n, c, term | n in s.nodes && VoteRecord(c, term) in s.nodes[n].wal ::
      n in s'.nodes && KeepsTo(s'.nodes[n].currentTerm, s'.nodes[n].votedFor, c, term)
  }

  /**
   * Over a whole run, every server keeps to all votes that it has recorded if and only if no restart makes
   * one betray such a vote.
   */
  lemma VotesStayIff(cfg: Config, run: Run)
    requires IsAnyRun(cfg, run)
    ensures (forall i, j | 0 <= i <= j < |run.states| :: VotesStay(run.states[i], run.states[j]))
        <==> IsVoteRun(cfg, run)
  {
    if IsVoteRun(cfg, run) {
      forall i, j | 0 <= i <= j < |run.states| ensures VotesStay(run.states[i], run.states[j]) {
        forall n, c, term | n in run.states[i].nodes && VoteRecord(c, term) in run.states[i].nodes[n].wal
          ensures n in run.states[j].nodes
          ensures KeepsTo(run.states[j].nodes[n].currentTerm, run.states[j].nodes[n].votedFor, c, term)
        {
          HoldsOn(cfg, run, i, j, n, c, term);
        }
      }
    } else {
      var k :| 0 <= k < |run.steps| && !KeepsVotes(cfg, run.states[k], run.steps[k]);
      assert Linked(cfg, run, k);
      VotesLeave(cfg, run, k);
    }
  }

  lemma VotesLeave(cfg: Config, run: Run, k: nat)
    requires IsAnyRun(cfg, run) && k < |run.steps| && Linked(cfg, run, k)
    requires !KeepsVotes(cfg, run.states[k], run.steps[k])
    ensures !VotesStay(run.states[k], run.states[k + 1])
  {
    var s, step := run.states[k], run.steps[k];
    var r := CrashBoots(cfg, s, step.a, step.written, step.left);
    var p := Found(cfg, s, step.a, step.written);
    var rec :| rec in s.nodes[Actor(step.a)].wal && rec.VoteRecord?
               && !KeepsTo(Fold(p).term, Fold(p).votedFor, rec.votedFor, rec.term);
    assert VoteRecord(rec.votedFor, rec.term) == rec;
  }

  // ----- terms -----

  lemma LostTermsIff(st: NodeState, st': NodeState, r: NodeState, p: seq<Record>)
    requires Recovers(st, st', r, p)
    ensures r.currentTerm >= st.currentTerm <==> forall i | |p| <= i < |st.wal| :: TermOf(st.wal[i]) <= Fold(p).term
  {
    assert st'.wal == p + st'.wal[|p|..];
    OrderlyPrefix(p, st'.wal[|p|..]);
    FoldTermIsMax(p);
    FoldTermIsMax(st.wal);
    if st.currentTerm > 0 {
      var k :| 0 <= k < |st.wal| && TermOf(st.wal[k]) == Fold(st.wal).term;
      if k < |p| { assert p[k] == st'.wal[k] == st.wal[k]; }
    }
  }

  lemma TermsGrow(cfg: Config, s: System, a: Action)
    requires Enabled(cfg, s, a)
    ensures NextNode(cfg, s, a).currentTerm >= s.nodes[Actor(a)].currentTerm
  {
  }

  /** A step lowers no term if and only if it loses no record of a later term than those it finds. */
  lemma TermKeptIff(cfg: Config, run: Run, i: nat, step: Step)
    requires IsAnyRun(cfg, run) && i < |run.states| && CanHappen(cfg, run.states[i], step)
    ensures KeepsTerms(cfg, run.states[i], step)
            <==> Next(cfg, run.states[i], step).nodes[Actor(step.a)].currentTerm
                 >= run.states[i].nodes[Actor(step.a)].currentTerm
  {
    match step {
      case Complete(a) => TermsGrow(cfg, run.states[i], a);
      case Crash(a, written, left) =>
        var st, st', r, p := CrashRecovers(cfg, run, i, a, written, left);
        LostTermsIff(st, st', r, p);
    }
  }

  ghost predicate TermsRise(s: System, s': System) {
    s.nodes.Keys == s'.nodes.Keys && forall n | n in s.nodes :: s.nodes[n].currentTerm <= s'.nodes[n].currentTerm
  }

  lemma {:induction false} TermsRiseTo(cfg: Config, run: Run, i: nat, j: nat)
    requires IsAnyRun(cfg, run) && i <= j < |run.states|
    requires forall k | 0 <= k < |run.steps| :: KeepsTerms(cfg, run.states[k], run.steps[k])
    ensures TermsRise(run.states[i], run.states[j])
    decreases j
  {
    if i < j {
      TermsRiseTo(cfg, run, i, j - 1);
      assert Linked(cfg, run, j - 1);
      TermKeptIff(cfg, run, j - 1, run.steps[j - 1]);
    }
  }

  /** Over a whole run, no node's term ever decreases if and only if no restart loses a record of a later term. */
  lemma TermsNeverDecreaseIff(cfg: Config, run: Run)
    requires IsAnyRun(cfg, run)
    ensures (forall i, j | 0 <= i <= j < |run.states| :: TermsRise(run.states[i], run.states[j]))
            <==> forall k | 0 <= k < |run.steps| :: KeepsTerms(cfg, run.states[k], run.steps[k])
  {
    if forall k | 0 <= k < |run.steps| :: KeepsTerms(cfg, run.states[k], run.steps[k]) {
      forall i, j | 0 <= i <= j < |run.states| ensures TermsRise(run.states[i], run.states[j]) {
        TermsRiseTo(cfg, run, i, j);
      }
    } else {
      var k :| 0 <= k < |run.steps| && !KeepsTerms(cfg, run.states[k], run.steps[k]);
      assert Linked(cfg, run, k);
      TermKeptIff(cfg, run, k, run.steps[k]);
      assert !TermsRise(run.states[k], run.states[k + 1]);
    }
  }

  // ----- logs -----

  lemma LostEntriesIff(st: NodeState, st': NodeState, r: NodeState, p: seq<Record>)
    requires Recovers(st, st', r, p) && st.discarded == 0
    ensures st.log <= r.log <==> forall i | |p| <= i < |st.wal| :: !st.wal[i].EntryRecord?
  {
    if |p| >= |st.wal| {
      assert st.wal <= p;
      EntriesExtend(st.wal, p);
    } else {
      assert p <= st.wal;
      EntriesExtend(p, st.wal);
    }
  }

  /** A node that has dropped nothing comes back with all of its log if and only if no entry lies behind stray bytes. */
  lemma EntriesKeptIff(cfg: Config, run: Run, i: nat, a: Action, written: nat, left: nat)
    requires CrashesAt(cfg, run, i, a, written, left) && Before(cfg, run, i, a).discarded == 0
    ensures Before(cfg, run, i, a).log <= Restarted(cfg, run, i, a, written, left).log
            <==> KeepsEntries(cfg, run.states[i], Crash(a, written, left))
  {
    var st, st', r, p := CrashRecovers(cfg, run, i, a, written, left);
    LostEntriesIff(st, st', r, p);
  }

  // ----- runs -----

  /** Where nothing is lost, neither are votes, terms or entries. */
  lemma IntactKeepsAll(cfg: Config, run: Run, i: nat, step: Step)
    requires IsAnyRun(cfg, run) && i < |run.states| && LosesNothing(cfg, run.states[i], step)
    ensures KeepsVotes(cfg, run.states[i], step) && KeepsTerms(cfg, run.states[i], step)
    ensures KeepsEntries(cfg, run.states[i], step)
  {
    if step.Crash? {
      var st, st', r, p := CrashRecovers(cfg, run, i, step.a, step.written, step.left);
      assert st.wal <= p;
      forall rec | rec in st.wal && rec.VoteRecord? ensures rec in p {
        var k :| 0 <= k < |st.wal| && st.wal[k] == rec;
        assert p[k] == rec;
      }
      NoVoteBehind(cfg, run, i, step.a, step.written, step.left);
    }
  }

  /** Where nothing is lost, no vote is betrayed, even if truncated nodes restart. */
  lemma IntactRunsKeepVotes(cfg: Config, run: Run)
    requires IsIntactRun(cfg, run)
    ensures IsVoteRun(cfg, run)
  {
    forall i | 0 <= i < |run.steps| ensures KeepsVotes(cfg, run.states[i], run.steps[i]) {
      assert Linked(cfg, run, i);
      IntactKeepsAll(cfg, run, i, run.steps[i]);
    }
  }

  /** The runs of the theorems on logs are among those of the election theorems. */
  lemma GuardedRunsCount(cfg: Config, run: Run)
    requires IsRun(cfg, run)
    ensures IsVoteRun(cfg, run)
  {
    forall i | 0 <= i < |run.steps| ensures Linked(cfg, run, i) && KeepsVotes(cfg, run.states[i], run.steps[i]) {
      assert IsStep(cfg, run, i);
    }
  }

  /** All runs without losses and without restarts of truncated nodes are among them. */
  lemma IntactRunsCount(cfg: Config, run: Run)
    requires IsIntactRun(cfg, run) && forall i | 0 <= i < |run.steps| :: TellsLog(cfg, run.states[i], run.steps[i])
    ensures IsRun(cfg, run)
  {
    forall i | 0 <= i < |run.steps| ensures IsStep(cfg, run, i) {
      assert Linked(cfg, run, i);
      IntactKeepsAll(cfg, run, i, run.steps[i]);
    }
  }

  /** A crash leaves nothing of the record that was being written, or at least its whole header. */
  ghost predicate CutsClean(step: Step) {
    step.Crash? ==> step.left == 0 || step.left >= 8
  }

  lemma NoStrays(cfg: Config, s: System, step: Step)
    requires CanHappen(cfg, s, step) && CutsClean(step) && forall n | n in s.nodes :: s.nodes[n].stray == 0
    ensures LosesNothing(cfg, s, step)
    ensures forall n | n in Next(cfg, s, step).nodes :: Next(cfg, s, step).nodes[n].stray == 0
  {
    StraysStay(cfg, s, step.a);
  }

  lemma {:induction false} StrayFree(cfg: Config, run: Run, k: nat)
    requires IsAnyRun(cfg, run) && k < |run.states| && forall i | 0 <= i < |run.steps| :: CutsClean(run.steps[i])
    ensures forall n | n in run.states[k].nodes :: run.states[k].nodes[n].stray == 0
  {
    if k > 0 {
      StrayFree(cfg, run, k - 1);
      assert Linked(cfg, run, k - 1);
      NoStrays(cfg, run.states[k - 1], run.steps[k - 1]);
    }
  }

  /** If no crash leaves one to seven bytes, no restart loses a record. */
  lemma CleanCutsAreIntact(cfg: Config, run: Run)
    requires IsAnyRun(cfg, run) && forall i | 0 <= i < |run.steps| :: CutsClean(run.steps[i])
    ensures IsIntactRun(cfg, run)
  {
    forall i | 0 <= i < |run.steps| ensures LosesNothing(cfg, run.states[i], run.steps[i]) {
      assert Linked(cfg, run, i);
      StrayFree(cfg, run, i);
      NoStrays(cfg, run.states[i], run.steps[i]);
    }
  }
}
