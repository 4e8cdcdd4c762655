/**
 * Where terms come from and where they go, in every run, however its nodes crash: every term was begun by a
 * candidacy, nobody speaks in a term that it has not been in, and a server that a later term has deposed does
 * not come back in the earlier one.
 */
module Terms {
  import opened Types
  import opened Recovery
  import opened NodeSpec
  import opened Cluster
  import opened VoteRecords
  import opened Restarts
  import opened Conduct

  // ----- what is said -----

  /** By moment `k`, `n` has been in `term`. */
  ghost predicate WasIn(run: Run, k: nat, n: NodeId, term: nat) {
    exists i | 0 <= i <= k && i < |run.states| :: n in run.states[i].nodes && run.states[i].nodes[n].currentTerm == term
  }

  lemma WasInLater(run: Run, k: nat, n: NodeId, term: nat)
    requires WasIn(run, k, n, term)
    ensures WasIn(run, k + 1, n, term)
  {
    var i :| 0 <= i <= k && i < |run.states| && n in run.states[i].nodes && run.states[i].nodes[n].currentTerm == term;
    assert i <= k + 1;
  }

  /** What a node sends speaks in the term it is in afterwards, or in that of a heartbeat it has begun. */
  lemma SpeaksInTerm(cfg: Config, s: System, a: Action, m: Message)
    requires Enabled(cfg, s, a) && m in Sent(cfg, s, a)
    ensures m.src == Actor(a)
    ensures TermOfMessage(m) == NextNode(cfg, s, a).currentTerm
            || exists t | t in s.nodes[Actor(a)].tickets :: t.term == TermOfMessage(m)
  {
    match a {
      case DeliverVoteRequest(r) => AnswersInTerm(s.nodes[r.dst], r.vote, AppendArgs(0, 0, 0, 0, [], 0));
      case DeliverAppend(r) => AnswersInTerm(s.nodes[r.dst], VoteArgs(0, 0, 0, 0), r.append);
      case _ =>
    }
  }

  lemma TicketsInTerm(cfg: Config, s: System, a: Action, t: Ticket)
    requires Enabled(cfg, s, a) && t in NextNode(cfg, s, a).tickets
    ensures t in s.nodes[Actor(a)].tickets || t.term == s.nodes[Actor(a)].currentTerm
  {
    GoroutinesConfined(cfg, s, a);
  }

  ghost predicate Spoken(run: Run, k: nat)
    requires k < |run.states|
  {
    && (forall m | m in run.states[k].net :: WasIn(run, k, m.src, TermOfMessage(m)))
    && (forall n, t | n in run.states[k].nodes && t in run.states[k].nodes[n].tickets :: WasIn(run, k, n, t.term))
  }

  lemma SpokenNext(cfg: Config, run: Run, k: nat)
    requires IsAnyRun(cfg, run) && k < |run.steps| && Spoken(run, k) && Linked(cfg, run, k)
    ensures Spoken(run, k + 1)
  {
    var s, s', step := run.states[k], run.states[k + 1], run.steps[k];
    forall m | m in s'.net ensures WasIn(run, k + 1, m.src, TermOfMessage(m)) {
      if m in s.net {
        WasInLater(run, k, m.src, TermOfMessage(m));
      } else {
        SpeaksInTerm(cfg, s, step.a, m);
        if TermOfMessage(m) != NextNode(cfg, s, step.a).currentTerm { WasInLater(run, k, m.src, TermOfMessage(m)); }
      }
    }
    forall n, t | n in s'.nodes && t in s'.nodes[n].tickets ensures WasIn(run, k + 1, n, t.term) {
      if n == Actor(step.a) {
        TicketsInTerm(cfg, s, step.a, t);
        assert t.term == s.nodes[n].currentTerm ==> WasIn(run, k, n, t.term);
      }
      WasInLater(run, k, n, t.term);
    }
  }

  /** Nobody has sent a message of a term that it has not been in. */
  lemma {:induction false} TermsAreSpoken(cfg: Config, run: Run, k: nat)
    requires IsAnyRun(cfg, run) && k < |run.states|
    ensures Spoken(run, k)
  {
    if k > 0 {
      TermsAreSpoken(cfg, run, k - 1);
      assert Linked(cfg, run, k - 1);
      SpokenNext(cfg, run, k - 1);
    }
  }

  /** In step `i` the sender of response `m` handled the request that it answers, and was then in the term it names. */
  ghost predicate AnsweredAt(cfg: Config, run: Run, i: nat, m: Message) {
    && i < |run.steps| && i + 1 < |run.states| && run.steps[i].Complete?
    && Enabled(cfg, run.states[i], run.steps[i].a) && m.src in run.states[i + 1].nodes
    && run.states[i + 1].nodes[m.src].currentTerm == TermOfMessage(m)
    && (m.VoteResponse? ==>
          && run.steps[i].a == DeliverVoteRequest(RequestVote(m.dst, m.src, m.vote))
          && m.voteReply == HandleVote(run.states[i].nodes[m.src], m.vote).1 && m.vote.term <= m.voteReply.term)
    && (m.AppendResponse? ==>
          && run.steps[i].a == DeliverAppend(AppendEntries(m.dst, m.src, m.append))
          && m.appendReply == HandleAppend(run.states[i].nodes[m.src], m.append).1
          && m.append.term <= m.appendReply.term)
  }

  lemma AnsweredNow(cfg: Config, run: Run, k: nat, m: Message)
    requires IsAnyRun(cfg, run) && k < |run.steps| && Linked(cfg, run, k) && (m.VoteResponse? || m.AppendResponse?)
    requires m in run.states[k + 1].net && m !in run.states[k].net
    ensures AnsweredAt(cfg, run, k, m)
  {
    var s, a := run.states[k], run.steps[k].a;
    if m.VoteResponse? {
      AnswersInTerm(s.nodes[m.src], m.vote, AppendArgs(0, 0, 0, 0, [], 0));
    } else {
      AnswersInTerm(s.nodes[m.src], VoteArgs(0, 0, 0, 0), m.append);
    }
  }

  /** Every response in the network answers a request that its sender handled, in the term it was then in. */
  lemma {:induction false} ResponsesAnswer(cfg: Config, run: Run, k: nat, m: Message) returns (i: nat)
    requires IsAnyRun(cfg, run) && k < |run.states| && m in run.states[k].net && (m.VoteResponse? || m.AppendResponse?)
    ensures i < k && AnsweredAt(cfg, run, i, m)
    decreases k
  {
    assert k > 0;
    assert Linked(cfg, run, k - 1);
    if m in run.states[k - 1].net {
      i := ResponsesAnswer(cfg, run, k - 1, m);
    } else {
      i := k - 1;
      AnsweredNow(cfg, run, i, m);
    }
  }

  /** Every request that is handled is answered. */
  lemma RequestsAreAnswered(cfg: Config, run: Run, k: nat, m: Message)
    requires IsAnyRun(cfg, run) && k < |run.steps| && Linked(cfg, run, k)
    requires run.steps[k] in {Complete(DeliverVoteRequest(m)), Complete(DeliverAppend(m))}
    ensures exists r | r in run.states[k + 1].net && (r.VoteResponse? || r.AppendResponse?) ::
              AnsweredAt(cfg, run, k, r)
  {
    var s := run.states[k].nodes[m.dst];
    if m.RequestVote? {
      AnswersInTerm(s, m.vote, AppendArgs(0, 0, 0, 0, [], 0));
      var r := VoteResponse(m.dst, m.src, m.vote, HandleVote(s, m.vote).1);
      assert r in run.states[k + 1].net && AnsweredAt(cfg, run, k, r);
    } else {
      AnswersInTerm(s, VoteArgs(0, 0, 0, 0), m.append);
      var r := AppendResponse(m.dst, m.src, m.append, HandleAppend(s, m.append).1);
      assert r in run.states[k + 1].net && AnsweredAt(cfg, run, k, r);
    }
  }

  // ----- where terms come from -----

  /** Before moment `k`, some server stood for election in `term`. */
  ghost predicate Begun(run: Run, k: nat, term: nat) {
    exists i | 0 <= i < k && i < |run.steps| && i < |run.states| :: StandsIn(run.states[i], run.steps[i].a, term)
  }

  ghost predicate StandsIn(s: System, a: Action, term: nat) {
    a.ElectionTimeout? && a.n in s.nodes && s.nodes[a.n].currentTerm + 1 == term
  }

  ghost predicate Known(run: Run, k: nat, term: nat) {
    term == 0 || Begun(run, k, term)
  }

  lemma KnownLater(run: Run, k: nat, term: nat)
    requires Known(run, k, term)
    ensures Known(run, k + 1, term)
  {
    if term != 0 {
      var i :| 0 <= i < k && i < |run.steps| && i < |run.states| && StandsIn(run.states[i], run.steps[i].a, term);
      assert i < k + 1;
    }
  }

  ghost predicate NodeKnown(run: Run, k: nat, s: NodeState) {
    && Known(run, k, s.currentTerm)
    && (forall i | 0 <= i < |s.wal| :: Known(run, k, TermOf(s.wal[i])))
    && (forall t | t in s.tickets :: Known(run, k, t.term))
  }

  ghost predicate AllKnown(run: Run, k: nat)
    requires k < |run.states|
  {
    && (forall n {:trigger run.states[k].nodes[n]} | n in run.states[k].nodes ::
      NodeKnown(run, k, run.states[k].nodes[n]))
    && (forall m | m in run.states[k].net :: Known(run, k, TermOfMessage(m)))
  }

  lemma NodeKnownLater(run: Run, k: nat, s: NodeState)
    requires NodeKnown(run, k, s)
    ensures NodeKnown(run, k + 1, s)
  {
    KnownLater(run, k, s.currentTerm);
    forall i | 0 <= i < |s.wal| ensures Known(run, k + 1, TermOf(s.wal[i])) { KnownLater(run, k, TermOf(s.wal[i])); }
    forall t | t in s.tickets ensures Known(run, k + 1, t.term) { KnownLater(run, k, t.term); }
  }

  /** The term after an action is the node's own, that of a message, or one that it begins. */
  lemma TermKnown(cfg: Config, run: Run, k: nat)
    requires IsAnyRun(cfg, run) && k < |run.steps| && AllKnown(run, k) && Linked(cfg, run, k)
    ensures Known(run, k + 1, NextNode(cfg, run.states[k], run.steps[k].a).currentTerm)
  {
    var s, a := run.states[k], run.steps[k].a;
    var st := s.nodes[Actor(a)];
    TermAfter(cfg, s, a);
    assert NodeKnown(run, k, st);
    KnownLater(run, k, st.currentTerm);
    if a.ElectionTimeout? {
      assert StandsIn(s, a, st.currentTerm + 1);
    } else if IsDelivery(a) {
      KnownLater(run, k, TermOfMessage(a.m));
    }
  }

  lemma DueTerms(s: NodeState, t: NodeState, votes: bool, i: nat)
    requires i < |Due(s, t, votes)|
    ensures TermOf(Due(s, t, votes)[i]) in {0, t.currentTerm}
  {
  }

  lemma RecordsKnown(cfg: Config, run: Run, k: nat, i: nat)
    requires IsAnyRun(cfg, run) && k < |run.steps| && AllKnown(run, k) && Linked(cfg, run, k)
    requires i < |NextNode(cfg, run.states[k], run.steps[k].a).wal|
    ensures Known(run, k + 1, TermOf(NextNode(cfg, run.states[k], run.steps[k].a).wal[i]))
  {
    var s, a := run.states[k], run.steps[k].a;
    var st, t := s.nodes[Actor(a)], NextNode(cfg, s, a);
    TermKnown(cfg, run, k);
    RecordsTellStep(cfg, s, a);
    assert NodeKnown(run, k, st);
    if i < |st.wal| {
      assert t.wal[i] == st.wal[i];
      KnownLater(run, k, TermOf(st.wal[i]));
    } else {
      DueTerms(st, t, Votes(st, a), i - |st.wal|);
    }
  }

  lemma ActionKnown(cfg: Config, run: Run, k: nat)
    requires IsAnyRun(cfg, run) && k < |run.steps| && AllKnown(run, k) && Linked(cfg, run, k)
    ensures NodeKnown(run, k + 1, NextNode(cfg, run.states[k], run.steps[k].a))
  {
    var s, a := run.states[k], run.steps[k].a;
    var t := NextNode(cfg, s, a);
    TermKnown(cfg, run, k);
    forall i | 0 <= i < |t.wal| ensures Known(run, k + 1, TermOf(t.wal[i])) { RecordsKnown(cfg, run, k, i); }
    forall x | x in t.tickets ensures Known(run, k + 1, x.term) {
      TicketsInTerm(cfg, s, a, x);
      KnownLater(run, k, x.term);
    }
  }

  /** A restarted node tells the latest term it finds. */
  lemma RestartKnown(run: Run, k: nat, wal: seq<Record>, p: seq<Record>, stray: nat)
    requires Orderly(wal) && p <= wal && forall i | 0 <= i < |wal| :: Known(run, k, TermOf(wal[i]))
    ensures NodeKnown(run, k, Boot(p, stray))
  {
    assert wal == p + wal[|p|..];
    OrderlyPrefix(p, wal[|p|..]);
    FoldTermIsMax(p);
    assert forall i | 0 <= i < |p| :: p[i] == wal[i];
  }

  lemma CrashKnown(cfg: Config, run: Run, k: nat, s: System, a: Action, written: nat, left: nat)
    requires RecordsOk(cfg, s) && CanHappen(cfg, s, Crash(a, written, left))
    requires NodeKnown(run, k, NextNode(cfg, s, a))
    ensures NodeKnown(run, k, Next(cfg, s, Crash(a, written, left)).nodes[Actor(a)])
  {
    var r := CrashBoots(cfg, s, a, written, left);
    var p := Found(cfg, s, a, written);
    var stray :| r == Boot(p, stray);
    FoundIsPart(cfg, s, a, written);
    ActionSincere(cfg, s, a);
    RestartKnown(run, k, NextNode(cfg, s, a).wal, p, stray);
  }

  lemma StepKnown(cfg: Config, run: Run, k: nat)
    requires IsAnyRun(cfg, run) && k < |run.steps| && AllKnown(run, k) && Linked(cfg, run, k)
    ensures NodeKnown(run, k + 1, run.states[k + 1].nodes[Actor(run.steps[k].a)])
  {
    ActionKnown(cfg, run, k);
    RunRecords(cfg, run, k);
    if run.steps[k].Crash? {
      CrashKnown(cfg, run, k + 1, run.states[k], run.steps[k].a, run.steps[k].written, run.steps[k].left);
    }
  }

  lemma KnownNext(cfg: Config, run: Run, k: nat)
    requires IsAnyRun(cfg, run) && k < |run.steps| && AllKnown(run, k) && Linked(cfg, run, k)
    ensures AllKnown(run, k + 1)
  {
    var s, s', a := run.states[k], run.states[k + 1], run.steps[k].a;
    forall n | n in s'.nodes ensures NodeKnown(run, k + 1, s'.nodes[n]) {
      if n == Actor(a) { StepKnown(cfg, run, k); } else { NodeKnownLater(run, k, s.nodes[n]); }
    }
    forall m | m in s'.net ensures Known(run, k + 1, TermOfMessage(m)) {
      if m in s.net {
        KnownLater(run, k, TermOfMessage(m));
      } else {
        SpeaksInTerm(cfg, s, a, m);
        TermKnown(cfg, run, k);
        if TermOfMessage(m) != NextNode(cfg, s, a).currentTerm {
          assert NodeKnown(run, k, s.nodes[Actor(a)]);
          KnownLater(run, k, TermOfMessage(m));
        }
      }
    }
  }

  /** Every term of a node, a record, a heartbeat or a message was begun by somebody's candidacy. */
  lemma {:induction false} TermsAreBegun(cfg: Config, run: Run, k: nat)
    requires IsAnyRun(cfg, run) && k < |run.states|
    ensures AllKnown(run, k)
  {
    if k > 0 {
      TermsAreBegun(cfg, run, k - 1);
      assert Linked(cfg, run, k - 1);
      KnownNext(cfg, run, k - 1);
    }
  }

  // ----- deposed for ever -----

  /** Whoever stands for election or leads has recorded its vote for itself. */
  ghost predicate SelfRecorded(n: NodeId, s: NodeState) {
    s.role != Follower ==> VoteRecord(n, s.currentTerm) in s.wal
  }

  lemma ActionRecorded(cfg: Config, s: System, a: Action)
    requires Enabled(cfg, s, a) && SelfRecorded(Actor(a), s.nodes[Actor(a)])
    ensures SelfRecorded(Actor(a), NextNode(cfg, s, a))
  {
    var st, t := s.nodes[Actor(a)], NextNode(cfg, s, a);
    WalGrows(cfg, s, a);
    if a.ElectionTimeout? {
      assert t.wal[|t.wal| - 1] == VoteRecord(a.n, t.currentTerm);
    } else if t.role != Follower {
      var v := VoteRecord(Actor(a), st.currentTerm);
      assert st.role != Follower && t.currentTerm == st.currentTerm;
      var i :| 0 <= i < |st.wal| && st.wal[i] == v;
      assert t.wal[i] == v;
    }
  }

  lemma {:induction false} CandidaciesAreRecorded(cfg: Config, run: Run, k: nat, n: NodeId)
    requires IsAnyRun(cfg, run) && k < |run.states| && n in run.states[k].nodes
    ensures SelfRecorded(n, run.states[k].nodes[n])
  {
    if k > 0 {
      assert Linked(cfg, run, k - 1);
      CandidaciesAreRecorded(cfg, run, k - 1, n);
      if Actor(run.steps[k - 1].a) == n && run.steps[k - 1].Complete? {
        ActionRecorded(cfg, run.states[k - 1], run.steps[k - 1].a);
      }
    }
  }

  /** The node takes part in `term` as a candidate or leader. */
  ghost predicate Campaigns(s: System, n: NodeId, term: nat) {
    n in s.nodes && s.nodes[n].currentTerm == term && s.nodes[n].role != Follower
  }

  ghost predicate Retired(s: NodeState, term: nat) {
    s.currentTerm > term || (s.currentTerm == term && s.role == Follower)
  }

  lemma ActionRetired(cfg: Config, s: System, a: Action, term: nat)
    requires Enabled(cfg, s, a) && Retired(s.nodes[Actor(a)], term)
    ensures Retired(NextNode(cfg, s, a), term)
  {
  }

  lemma StepRetired(cfg: Config, run: Run, k: nat, n: NodeId, term: nat)
    requires IsVoteRun(cfg, run) && k < |run.steps| && Linked(cfg, run, k)
    requires n in run.states[k].nodes && n in run.states[k + 1].nodes
    requires Retired(run.states[k].nodes[n], term) && run.states[k + 1].nodes[n].currentTerm >= term
    ensures Retired(run.states[k + 1].nodes[n], term)
  {
    var step := run.steps[k];
    if Actor(step.a) == n && step.Complete? { ActionRetired(cfg, run.states[k], step.a, term); }
  }

  /**
   * A campaign that has ended never resumes: a server that stood in a term and has left it, or fallen back to
   * following in it, is never again a candidate or leader of that term, restarts included.
   */
  lemma {:induction false} CampaignsEnd(cfg: Config, run: Run, h: nat, i: nat, j: nat, n: NodeId, term: nat)
    requires IsVoteRun(cfg, run) && h <= i <= j < |run.states|
    requires Campaigns(run.states[h], n, term) && n in run.states[i].nodes && !Campaigns(run.states[i], n, term)
    ensures n in run.states[j].nodes && Retired(run.states[j].nodes[n], term) && !Campaigns(run.states[j], n, term)
    decreases j
  {
    CandidaciesAreRecorded(cfg, run, h, n);
    HoldsOn(cfg, run, h, j, n, n, term);
    if i < j {
      CampaignsEnd(cfg, run, h, i, j - 1, n, term);
      assert Linked(cfg, run, j - 1);
      StepRetired(cfg, run, j - 1, n, term);
    }
  }

  /** A leader or candidate that heeds a reply of a later term never leads or stands in its old term again. */
  lemma DeposedForEver(cfg: Config, run: Run, i: nat, j: nat, m: Message)
    requires IsVoteRun(cfg, run) && i < j < |run.states| && Linked(cfg, run, i)
    requires run.steps[i].Complete? && IsDelivery(run.steps[i].a) && run.steps[i].a.m == m
    requires var s := run.states[i].nodes[m.dst];
             s.role != Follower && Heeded(s, m) && TermOfMessage(m) > s.currentTerm
    ensures var old' := run.states[i].nodes[m.dst].currentTerm; !Campaigns(run.states[j], m.dst, old')
    ensures run.states[i + 1].nodes[m.dst].currentTerm == TermOfMessage(m)
    ensures run.states[i + 1].nodes[m.dst].role == Follower
  {
    var s := run.states[i];
    CatchesUpIff(cfg, s, run.steps[i].a);
    assert Campaigns(s, m.dst, s.nodes[m.dst].currentTerm);
    CampaignsEnd(cfg, run, i, i + 1, j, m.dst, s.nodes[m.dst].currentTerm);
  }
}
