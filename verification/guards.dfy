/**
 * What each condition on restarts is needed for. Restarts may forget votes, terms or entries that were
 * recorded behind stray bytes, or bring back a log that was truncated. Elections are safe in all runs of all
 * clusters exactly if no vote may be forgotten; commits are, exactly if nothing of all this may happen.
 */
module Guards {
  import opened Types
  import opened Cluster
  import opened NodeSpec
  import opened Restarts
  import opened VoteSafety
  import opened Safety
  import opened Scenarios
  import TornVotes
  import LostTerms
  import LostEntries
  import Forgotten

  const NO_FLAWS := Flaws(false, false, false, false)

  ghost predicate Admits(f: Flaws, cfg: Config, run: Run) {
    IsAnyRun(cfg, run) && AllAdmitted(cfg, f, run)
  }

  /** More flaws admit more runs. */
  lemma AdmitsMore(f: Flaws, g: Flaws, p: Play)
    requires p.flaws == f && |p.run.states| == |p.run.steps| + 1 && Reached(p, Last(p.run))
    requires (f.votes ==> g.votes) && (f.terms ==> g.terms) && (f.entries ==> g.entries)
        && (f.truncates ==> g.truncates)
    ensures Admits(g, p.cfg, p.run)
  {
    forall i | 0 <= i < |p.run.steps| ensures Admitted(p.cfg, g, p.run.states[i], p.run.steps[i]) {
      assert Linked(p.cfg, p.run, i);
    }
  }

  // ----- elections -----

  ghost predicate OneLeaderPerTerm(run: Run) {
    forall i, j, a, c, term | 0 <= i < |run.states| && 0 <= j < |run.states| ::
      LeadsTerm(run.states[i], a, term) && LeadsTerm(run.states[j], c, term) ==> a == c
  }

  lemma LeadersAgree(f: Flaws, cfg: Config, run: Run)
    requires Admits(f, cfg, run) && !f.votes
    ensures OneLeaderPerTerm(run)
  {
    assert IsVoteRun(cfg, run) by {
      forall i | 0 <= i < |run.steps| ensures KeepsVotes(cfg, run.states[i], run.steps[i]) {
        assert Linked(cfg, run, i);
      }
    }
    forall i, j, a, c, term | 0 <= i < |run.states| && 0 <= j < |run.states|
                              && LeadsTerm(run.states[i], a, term) && LeadsTerm(run.states[j], c, term)
      ensures a == c
    {
      ElectionSafety(cfg, run, i, j, a, c, term);
    }
  }

  /** Every run of every cluster has at most one leader per term, if and only if no restart may forget a vote. */
  lemma ElectionSafetyIff(f: Flaws)
    ensures (forall cfg, run | Admits(f, cfg, run) :: OneLeaderPerTerm(run)) <==> !f.votes
  {
    if f.votes {
      var p := TornVotes.TwoLeaders();
      AdmitsMore(p.flaws, f, p);
      var k := |p.run.steps|;
      assert LeadsTerm(p.run.states[k], 1, 1) && LeadsTerm(p.run.states[k], 2, 1);
      assert !OneLeaderPerTerm(p.run);
    } else {
      forall cfg, run | Admits(f, cfg, run) ensures OneLeaderPerTerm(run) {
        LeadersAgree(f, cfg, run);
      }
    }
  }

  // ----- commits -----

  ghost predicate CommittedAt(s: System, n: NodeId, i: nat, e: Entry) {
    n in s.nodes && i < s.nodes[n].commitIndex && i < |s.nodes[n].log| && s.nodes[n].log[i] == e
  }

  /** At one position, nobody ever commits two different entries. */
  ghost predicate CommitsAgree(run: Run) {
    forall x, y, a, b, i, e, f | 0 <= x < |run.states| && 0 <= y < |run.states| ::
      CommittedAt(run.states[x], a, i, e) && CommittedAt(run.states[y], b, i, f) ==> e == f
  }

  lemma NoFlawsIsRun(cfg: Config, run: Run)
    requires Admits(NO_FLAWS, cfg, run)
    ensures IsRun(cfg, run)
  {
    forall i | 0 <= i < |run.steps| ensures IsStep(cfg, run, i) { assert Linked(cfg, run, i); }
  }

  lemma SameCommitted(cfg: Config, run: Run, x: nat, y: nat, a: NodeId, b: NodeId, i: nat)
    requires At(cfg, run, x, a) && At(cfg, run, y, b)
    requires i < NodeAt(cfg, run, x, a).commitIndex && i < NodeAt(cfg, run, y, b).commitIndex
    ensures i < |NodeAt(cfg, run, x, a).log| && i < |NodeAt(cfg, run, y, b).log|
    ensures NodeAt(cfg, run, x, a).log[i] == NodeAt(cfg, run, y, b).log[i]
  {
    StateMachineSafety(cfg, run, x, y, a, b);
    var s, t := NodeAt(cfg, run, x, a), NodeAt(cfg, run, y, b);
    var c := Min(s.commitIndex, t.commitIndex);
    assert s.log[i] == s.log[..c][i] && t.log[i] == t.log[..c][i];
  }

  lemma Agree(cfg: Config, run: Run)
    requires IsRun(cfg, run)
    ensures CommitsAgree(run)
  {
    forall x, y, a, b, i, e, f | 0 <= x < |run.states| && 0 <= y < |run.states|
                                 && CommittedAt(run.states[x], a, i, e) && CommittedAt(run.states[y], b, i, f)
      ensures e == f
    {
      SameCommitted(cfg, run, x, y, a, b, i);
    }
  }

  lemma Disagree(run: Run, e: Entry, f: Entry)
    requires |run.states| == |run.steps| + 1 && e != f
    requires CommittedAt(Last(run), 1, 0, e) && CommittedAt(Last(run), 2, 0, f)
    ensures !CommitsAgree(run)
  {
    var last := |run.steps|;
    assert CommittedAt(run.states[last], 1, 0, e) && CommittedAt(run.states[last], 2, 0, f);
  }

  /** Each flaw alone makes commits disagree in some run. */
  lemma FlawsBreak(f: Flaws) returns (cfg: Config, run: Run)
    requires f != NO_FLAWS
    ensures Admits(f, cfg, run) && !CommitsAgree(run)
  {
    if f.votes {
      cfg, run := VotesBreak(f);
    } else if f.terms {
      cfg, run := TermsBreak(f);
    } else if f.entries {
      cfg, run := EntriesBreak(f);
    } else {
      cfg, run := TruncationsBreak(f);
    }
  }

  lemma VotesBreak(f: Flaws) returns (cfg: Config, run: Run)
    requires f.votes
    ensures Admits(f, cfg, run) && !CommitsAgree(run)
  {
    var p, k := TornVotes.CommitsForgotten();
    AdmitsMore(p.flaws, f, p);
    Disagree(p.run, TornVotes.A, TornVotes.B);
    cfg, run := p.cfg, p.run;
  }

  lemma TermsBreak(f: Flaws) returns (cfg: Config, run: Run)
    requires f.terms
    ensures Admits(f, cfg, run) && !CommitsAgree(run)
  {
    var p := LostTerms.CommitsForgotten();
    AdmitsMore(p.flaws, f, p);
    Disagree(p.run, LostTerms.H, LostTerms.G);
    cfg, run := p.cfg, p.run;
  }

  lemma EntriesBreak(f: Flaws) returns (cfg: Config, run: Run)
    requires f.entries
    ensures Admits(f, cfg, run) && !CommitsAgree(run)
  {
    var p, k := LostEntries.CommitsLost();
    AdmitsMore(p.flaws, f, p);
    Disagree(p.run, LostEntries.A, LostEntries.B);
    cfg, run := p.cfg, p.run;
  }

  lemma TruncationsBreak(f: Flaws) returns (cfg: Config, run: Run)
    requires f.truncates
    ensures Admits(f, cfg, run) && !CommitsAgree(run)
  {
    var p, k := Forgotten.CommitsBroken();
    AdmitsMore(p.flaws, f, p);
    Disagree(p.run, Forgotten.A, Forgotten.B);
    cfg, run := p.cfg, p.run;
  }

  /**
   * Commits agree in every run of every cluster if and only if no restart may forget a vote, a term or an
   * entry, or bring back a truncated log: all four conditions are needed, and together they suffice.
   */
  lemma CommitSafetyIff(f: Flaws)
    ensures (forall cfg, run | Admits(f, cfg, run) :: CommitsAgree(run)) <==> f == NO_FLAWS
  {
    if f != NO_FLAWS {
      var cfg, run := FlawsBreak(f);
    } else {
      forall cfg, run | Admits(f, cfg, run) ensures CommitsAgree(run) {
        NoFlawsIsRun(cfg, run);
        Agree(cfg, run);
      }
    }
  }

  // ----- terms -----

  ghost predicate TermsStay(run: Run) {
    forall i, j | 0 <= i <= j < |run.states| :: TermsRise(run.states[i], run.states[j])
  }

  /** Terms never decrease in any run if and only if no restart may forget a term. */
  lemma TermSafetyIff(f: Flaws)
    ensures (forall cfg, run | Admits(f, cfg, run) :: TermsStay(run)) <==> !f.terms
  {
    if f.terms {
      var p := LostTerms.CommitsForgotten();
      AdmitsMore(p.flaws, f, p);
      if TermsStay(p.run) {
        TermsNeverDecreaseIff(p.cfg, p.run);
        forall i | 0 <= i < |p.run.steps| ensures Admitted(p.cfg, NO_FLAWS, p.run.states[i], p.run.steps[i]) {
          assert Linked(p.cfg, p.run, i);
        }
        NoFlawsIsRun(p.cfg, p.run);
        Agree(p.cfg, p.run);
        Disagree(p.run, LostTerms.H, LostTerms.G);
        assert false;
      }
    } else {
      forall cfg, run | Admits(f, cfg, run) ensures TermsStay(run) {
        forall k | 0 <= k < |run.steps| ensures KeepsTerms(cfg, run.states[k], run.steps[k]) {
          assert Linked(cfg, run, k);
        }
        TermsNeverDecreaseIff(cfg, run);
      }
    }
  }
}
