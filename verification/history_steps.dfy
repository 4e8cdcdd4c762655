/** What stays true of a history when it grows. Each lemma carries one recorded fact over. */
module HistoryGrowth {
  import opened Types
  import opened Logs
  import opened History

  ghost predicate MapGrows<K, V>(before: map<K, V>, after: map<K, V>) {
    forall x {:trigger x in before} {:trigger before[x]} | x in before :: x in after && before[x] == after[x]
  }

  /** Only a leader still in its term may grow its ledger, and then it acknowledges the new length. */
  ghost predicate LedgerStep(h: History, h': History, t: nat)
    requires t in h.ledger && t in h'.ledger
  {
    h'.ledger[t] == h.ledger[t]
    || exists n | n in h.servers && n in h.term ::
         LedBy(h, t, n) && h.term[n] == t && Ack(n, t, |h'.ledger[t]|) in h'.acks
  }

  /** Records are only added, and new acknowledgements are in the voter's present term. */
  ghost predicate Grows(h: History, h': History) {
    && h'.servers == h.servers
    && (forall v {:trigger h.term[v]} | v in h.term :: v in h'.term && h.term[v] <= h'.term[v])
    && (forall v {:trigger h.commit[v]} | v in h.commit :: v in h'.commit && h.commit[v] <= h'.commit[v])
    && h.elections <= h'.elections
    && MapGrows(h.electedAt, h'.electedAt)
    && LedgerGrows(h.ledger, h'.ledger)
    && MapGrows(h.candidacies, h'.candidacies)
    && MapGrows(h.ballots, h'.ballots)
    && h.acks <= h'.acks && h.tallies <= h'.tallies && h.offers <= h'.offers
  }

  ghost predicate Careful(h: History, h': History) {
    && Grows(h, h')
    && (forall a | a in h'.acks && a !in h.acks :: a.voter in h.term && a.term >= h.term[a.voter])
    && (forall t {:trigger LedgerStep(h, h', t)} | t in h.ledger :: LedgerStep(h, h', t))
  }

  lemma KeptGrows(els: seq<Election>, els': seq<Election>, log: Log, log': Log, p: Log)
    requires Kept(els, log, p) && els <= els' && log <= log'
    ensures Kept(els', log', p)
  {
    if !(p <= log) {
      var j :| 0 <= j < |els| && els[j].term > LastTerm(p) && !(p <= els[j].log);
      assert els'[j] == els[j];
    }
  }

  lemma AckKeptGrows(h: History, h': History, a: Ack, log: Log, log': Log)
    requires h.elections <= h'.elections && LedgerGrows(h.ledger, h'.ledger)
    requires a.term in h.ledger && a.length <= |h.ledger[a.term]|
    requires AckKept(h.elections, h.ledger, a, log) && log <= log'
    ensures AckKept(h'.elections, h'.ledger, a, log')
  {
    forall k | 1 <= k <= a.length ensures Kept(h'.elections, log', h'.ledger[a.term][..k]) {
      assert h'.ledger[a.term][..k] == h.ledger[a.term][..k];
      KeptGrows(h.elections, h'.elections, log, log', h.ledger[a.term][..k]);
    }
  }

  lemma TallyStays(h: History, h': History, m: Tally)
    requires Grows(h, h') && TallyOk(h, m)
    ensures TallyOk(h', m) && Committed(h', m) == Committed(h, m)
  {
    forall v | v in m.quorum ensures Acked(h', v, m.term, m.length) {
      assert Acked(h, v, m.term, m.length);
    }
  }

  lemma CoverStays(h: History, h': History, term: nat, term': nat, log: Log, log': Log, commit: nat)
    requires Grows(h, h') && Covered(h, term, log, commit) && term <= term' && log <= log'
    ensures Covered(h', term', log', commit)
  {
    if commit != 0 {
      var m :| m in h.tallies && Covers(h, m, term, log, commit);
      TallyStays(h, h', m);
      assert Covers(h', m, term', log', commit);
    }
  }

  lemma ElectionStays(h: History, h': History, k: nat)
    requires Careful(h, h') && k < |h.elections| && ElectionOk(h, k)
    ensures ElectionOk(h', k)
  {
    var e := h.elections[k];
    assert LedgerStep(h, h', e.term);
  }

  lemma CandidacyStays(h: History, h': History, x: (NodeId, nat))
    requires ServersOk(h) && ServersOk(h') && Grows(h, h') && x in h.candidacies && CandidacyOk(h, x)
    requires h.electedAt.Keys == h.ledger.Keys && Rooted(h.ledger, h.candidacies[x])
    requires x.1 in h.electedAt ==> ElectedAt(h, x.1)
    ensures CandidacyOk(h', x)
  {
    var c := h.candidacies[x];
    if LedBy(h', x.1, x.0) {
      forall i | 0 <= i < |c| ensures c[i].term != x.1 {
        assert RootedAt(h.ledger, c, i);
      }
    }
  }

  lemma BallotStays(h: History, h': History, b: (NodeId, nat))
    requires ServersOk(h) && ServersOk(h') && ElectionsOk(h) && Grows(h, h') && b in h.ballots && BallotOk(h, b)
    requires Rooted(h.ledger, h.candidacies[(h.ballots[b], b.1)])
    ensures BallotOk(h', b)
  {
    var c := h.candidacies[(h.ballots[b], b.1)];
    forall i | 0 <= i < |c| && c[i].term >= b.1 && c[i].term in h'.electedAt
               && h'.electedAt[c[i].term] < |h'.elections|
      ensures b.0 !in h'.elections[h'.electedAt[c[i].term]].voters
    {
      assert RootedAt(h.ledger, c, i);
      assert ElectedAt(h, c[i].term);
    }
  }

  lemma AckStays(h: History, h': History, a: Ack)
    requires ServersOk(h) && ServersOk(h') && Grows(h, h') && AckOk(h, a)
    ensures AckOk(h', a)
  {
  }

  lemma LogKeepStays(h: History, h': History, a: Ack)
    requires ServersOk(h) && ServersOk(h') && Grows(h, h') && LogKeeps(h, a)
    requires h.log[a.voter] <= h'.log[a.voter]
    ensures LogKeeps(h', a)
  {
    AckKeptGrows(h, h', a, h.log[a.voter], h'.log[a.voter]);
    if LeaderGone(h, a.term) { GoneStays(h, h', a.term); }
  }

  lemma GoneStays(h: History, h': History, term: nat)
    requires Grows(h, h') && LeaderGone(h, term)
    ensures LeaderGone(h', term)
  {
  }

  /** An old ballot meets old acknowledgements as before, and new ones only in later terms. */
  lemma BallotKeepStays(h: History, h': History, b: (NodeId, nat), a: Ack)
    requires ServersOk(h) && ServersOk(h') && Careful(h, h')
    requires b in h.ballots && BallotOk(h, b) && a in h'.acks
    requires a in h.acks ==> BallotKeeps(h, b, a)
    ensures BallotKeeps(h', b, a)
  {
    if a in h.acks && a.voter == b.0 && a.term < b.1 {
      AckStays(h, h', a);
      var c := h.candidacies[(h.ballots[b], b.1)];
      AckKeptGrows(h, h', a, c, c);
    }
  }

  lemma WinnerKeepStays(h: History, h': History, k: nat, a: Ack)
    requires ServersOk(h) && ServersOk(h') && Careful(h, h')
    requires k < |h.elections| && ElectionOk(h, k) && a in h'.acks
    requires forall v | v in h.elections[k].voters :: v in h.term && h.elections[k].term <= h.term[v]
    requires a in h.acks ==> WinnerKeeps(h, k, a)
    ensures WinnerKeeps(h', k, a)
  {
    if a in h.acks && a.voter in h.elections[k].voters && a.term < h.elections[k].term {
      AckStays(h, h', a);
      assert h'.elections[..k] == h.elections[..k];
      var e := h.elections[k].log;
      var past := h.(elections := h.elections[..k]);
      AckKeptGrows(past, h'.(elections := h.elections[..k]), a, e, e);
    }
  }

  lemma OfferStays(h: History, h': History, o: Offer)
    requires ServersOk(h) && ServersOk(h') && Careful(h, h') && OfferOk(h, o)
    ensures OfferOk(h', o)
  {
    if !(o.log <= h.ledger[o.term]) {
      assert LedgerStep(h, h', o.term);
      AckKeptGrows(h, h', Ack(o.leader, o.term, |h.ledger[o.term]|), o.log, o.log);
    }
    if o.commit != 0 {
      var m :| m in h.tallies && Announces(h, m, o);
      TallyStays(h, h', m);
      assert Announces(h', m, o);
    }
  }

  /** Voters of an election have reached its term. */
  lemma VotersInTerm(h: History, k: nat)
    requires ServersOk(h) && BallotsOk(h) && k < |h.elections| && ElectionOk(h, k)
    ensures forall v | v in h.elections[k].voters :: v in h.term && h.elections[k].term <= h.term[v]
  {
    var e := h.elections[k];
    forall v | v in e.voters ensures v in h.term && e.term <= h.term[v] {
      assert BallotOk(h, (v, e.term));
    }
  }

  /** Everything recorded before a careful step is still in order after it. */
  lemma OldRecordsStay(h: History, h': History)
    requires Inv(h) && ServersOk(h') && Careful(h, h')
    ensures forall k | 0 <= k < |h.elections| :: ElectionOk(h', k)
    ensures forall x {:trigger CandidacyOk(h', x)} | x in h.candidacies :: x in h'.candidacies && CandidacyOk(h', x)
    ensures forall b {:trigger BallotOk(h', b)} | b in h.ballots :: b in h'.ballots && BallotOk(h', b)
    ensures forall a {:trigger AckOk(h', a)} | a in h.acks :: AckOk(h', a)
    ensures forall m {:trigger TallyOk(h', m)} | m in h.tallies :: TallyOk(h', m)
    ensures forall o {:trigger OfferOk(h', o)} | o in h.offers :: OfferOk(h', o)
  {
    forall k | 0 <= k < |h.elections| ensures ElectionOk(h', k) {
      assert ElectionOk(h, k);
      ElectionStays(h, h', k);
    }
    forall x | x in h.candidacies ensures x in h'.candidacies && CandidacyOk(h', x) {
      assert CandidacyOk(h, x);
      if x.1 in h.electedAt { assert ElectedAt(h, x.1); }
      CandidacyStays(h, h', x);
    }
    forall b | b in h.ballots ensures b in h'.ballots && BallotOk(h', b) {
      assert BallotOk(h, b);
      BallotStays(h, h', b);
    }
    forall a | a in h.acks ensures AckOk(h', a) {
      assert AckOk(h, a);
      AckStays(h, h', a);
    }
    forall m | m in h.tallies ensures TallyOk(h', m) {
      assert TallyOk(h, m);
      TallyStays(h, h', m);
    }
    forall o | o in h.offers ensures OfferOk(h', o) {
      assert OfferOk(h, o);
      OfferStays(h, h', o);
    }
  }

  lemma OldKeepsStay(h: History, h': History)
    requires Inv(h) && ServersOk(h') && Careful(h, h')
    ensures forall b, a {:trigger BallotKeeps(h', b, a)} | b in h.ballots && a in h'.acks :: BallotKeeps(h', b, a)
    ensures forall k, a {:trigger WinnerKeeps(h', k, a)} | 0 <= k < |h.elections| && a in h'.acks ::
              k < |h'.elections| && WinnerKeeps(h', k, a)
  {
    forall b, a | b in h.ballots && a in h'.acks ensures BallotKeeps(h', b, a) {
      assert BallotOk(h, b);
      if a in h.acks { assert BallotKeeps(h, b, a); }
      BallotKeepStays(h, h', b, a);
    }
    forall k: nat, a | k < |h.elections| && a in h'.acks ensures WinnerKeeps(h', k, a) {
      assert ElectionOk(h, k);
      VotersInTerm(h, k);
      if a in h.acks { assert WinnerKeeps(h, k, a); }
      WinnerKeepStays(h, h', k, a);
    }
  }
}

/** The nine ways a history grows, each with the proof that it preserves the invariant. */
module HistorySteps {
  import opened Types
  import opened Logs
  import opened History
  import opened HistoryGrowth

  // ----- a server reaches a later term -----

  ghost function Advance(h: History, v: NodeId, t: nat): History {
    h.(term := h.term[v := t])
  }

  lemma AdvanceRest(h: History, h': History, v: NodeId, t: nat)
    requires Inv(h) && v in h.servers && h' == Advance(h, v, t) && Careful(h, h')
    ensures LogsKeep(h') && BallotsKeep(h') && WinnersKeep(h') && CommitsOk(h')
    ensures forall t {:trigger ElectedAt(h', t)} | t in h'.electedAt :: ElectedAt(h', t)
  {
    OldKeepsStay(h, h');
    ElectedStay(h, h');
    SameLogs(h, h');
  }

  lemma AdvanceKeeps(h: History, v: NodeId, t: nat)
    requires Inv(h) && v in h.servers && t >= h.term[v]
    ensures Inv(Advance(h, v, t)) && Careful(h, Advance(h, v, t))
  {
    var h' := Advance(h, v, t);
    forall t | t in h.ledger ensures LedgerStep(h, h', t) {}
    OldRecordsStay(h, h');
    AdvanceRest(h, h', v, t);
  }

  lemma ElectedStay(h: History, h': History)
    requires ElectionsOk(h) && Grows(h, h')
    ensures forall t {:trigger ElectedAt(h', t)} | t in h.electedAt :: t in h'.electedAt && ElectedAt(h', t)
  {
    forall t | t in h.electedAt ensures t in h'.electedAt && ElectedAt(h', t) {
      assert ElectedAt(h, t);
    }
  }

  // ----- a server votes -----

  /** The log of a candidate that is up to date keeps what the voter kept. */
  lemma UpToDateKeeps(h: History, p: Log, own: Log, other: Log)
    requires ElectionsOk(h) && LedgerOk(h.ledger)
    requires p != [] && Rooted(h.ledger, own) && Rooted(h.ledger, other)
    requires p <= own && UpToDate(LastTerm(other), |other|, own)
    ensures Kept(h.elections, other, p)
  {
    RootedOrdered(h.ledger, own);
    assert p[|p| - 1] == own[|p| - 1];
    assert LastTerm(other) >= LastTerm(own) >= LastTerm(p) >= 1;
    RootedLast(h.ledger, other);
    RootedLast(h.ledger, own);
    var w := LastTerm(other);
    if w > LastTerm(p) {
      var k := h.electedAt[w];
      assert ElectedAt(h, w) && ElectionOk(h, k);
      if p <= h.elections[k].log {
        ShorterOrHolds(h.ledger, p, own, other);
      }
    }
  }

  lemma ShorterOrHolds(ledger: map<nat, Log>, p: Log, own: Log, other: Log)
    requires LedgerOk(ledger) && p != [] && other != [] && Rooted(ledger, own) && p <= own
    requires LastTerm(other) in ledger && other <= ledger[LastTerm(other)] && p <= ledger[LastTerm(other)]
    requires LastTerm(other) > LastTerm(p)
    ensures p <= other
  {
    RootedOrdered(ledger, own);
    var q := Min(|other|, |p|) - 1;
    assert other[q] == ledger[LastTerm(other)][q] == p[q] == own[q];
    assert own[q].term <= own[|p| - 1].term == LastTerm(p);
  }

  ghost function CastVote(h: History, v: NodeId, c: NodeId): History
    requires v in h.term
  {
    h.(ballots := h.ballots[(v, h.term[v]) := c])
  }

  ghost predicate MayVote(h: History, v: NodeId, c: NodeId) {
    && v in h.servers && v in h.term && v in h.log && h.term[v] >= 1
    && ((v, h.term[v]) in h.ballots ==> h.ballots[(v, h.term[v])] == c)
    && (c, h.term[v]) in h.candidacies
    && var log := h.candidacies[(c, h.term[v])];
    UpToDate(LastTerm(log), |log|, h.log[v])
  }

  lemma CastVoteRest(h: History, h': History, v: NodeId, c: NodeId)
    requires Inv(h) && MayVote(h, v, c) && h' == CastVote(h, v, c) && Careful(h, h') && (v, h.term[v]) !in h.ballots
    ensures LogsKeep(h') && BallotsKeep(h') && WinnersKeep(h') && CommitsOk(h')
    ensures forall t {:trigger ElectedAt(h', t)} | t in h'.electedAt :: ElectedAt(h', t)
  {
    OldKeepsStay(h, h');
    ElectedStay(h, h');
    SameLogs(h, h');
    forall a | a in h'.acks ensures BallotKeeps(h', (v, h.term[v]), a) {
      NewBallotKeeps(h, h', v, c, a);
    }
  }

  lemma CastVoteCareful(h: History, v: NodeId, c: NodeId)
    requires MayVote(h, v, c)
    ensures Careful(h, CastVote(h, v, c))
  {
    forall t | t in h.ledger ensures LedgerStep(h, CastVote(h, v, c), t) {}
  }

  lemma CastVoteKeeps(h: History, v: NodeId, c: NodeId)
    requires Inv(h) && MayVote(h, v, c)
    ensures Inv(CastVote(h, v, c)) && Careful(h, CastVote(h, v, c))
  {
    var h' := CastVote(h, v, c);
    CastVoteCareful(h, v, c);
    if (v, h.term[v]) in h.ballots {
      assert h' == h;
    } else {
      OldRecordsStay(h, h');
      NewBallotOk(h, h', v, c);
      CastVoteRest(h, h', v, c);
    }
  }

  /** Logs, acknowledgements, elections and commits are as before. */
  lemma SameLogs(h: History, h': History)
    requires Inv(h) && Careful(h, h') && ServersOk(h')
    requires h'.log == h.log && h'.commit == h.commit && h'.acks == h.acks
    ensures LogsKeep(h') && CommitsOk(h')
  {
    forall a | a in h'.acks ensures LogKeeps(h', a) {
      assert LogKeeps(h, a);
      LogKeepStays(h, h', a);
    }
    forall v | v in h'.servers ensures CommitOk(h', v) {
      assert CommitOk(h, v);
      CoverStays(h, h', h.term[v], h'.term[v], h.log[v], h'.log[v], h.commit[v]);
    }
  }

  /** A voter of an election in a candidate's log cannot vote for that candidate. */
  lemma NewBallotOk(h: History, h': History, v: NodeId, c: NodeId)
    requires Inv(h) && MayVote(h, v, c) && h' == CastVote(h, v, c) && (v, h.term[v]) !in h.ballots
    ensures BallotOk(h', (v, h.term[v]))
  {
    var u := h.term[v];
    var log := h.candidacies[(c, u)];
    forall i | 0 <= i < |log| && log[i].term >= u && log[i].term in h.electedAt
               && h.electedAt[log[i].term] < |h.elections|
      ensures v !in h.elections[h.electedAt[log[i].term]].voters
    {
      var t := log[i].term;
      var k := h.electedAt[t];
      assert ElectedAt(h, t) && ElectionOk(h, k);
      VotersInTerm(h, k);
    }
  }

  lemma NewBallotKeeps(h: History, h': History, v: NodeId, c: NodeId, a: Ack)
    requires Inv(h) && MayVote(h, v, c) && h' == CastVote(h, v, c) && a in h.acks
    ensures BallotKeeps(h', (v, h.term[v]), a)
  {
    var log := h.candidacies[(c, h.term[v])];
    assert LogKeeps(h, a);
    if a.voter == v {
      forall k | 1 <= k <= a.length ensures Kept(h.elections, log, h.ledger[a.term][..k]) {
        assert Kept(h.elections, h.log[v], h.ledger[a.term][..k]);
        if h.ledger[a.term][..k] <= h.log[v] {
          UpToDateKeeps(h, h.ledger[a.term][..k], h.log[v], log);
        }
      }
    }
  }

  // ----- a server stands for election in the next term, with its own vote -----

  ghost function Stand(h: History, v: NodeId): History
    requires v in h.term && v in h.log
  {
    CastVote(Nominate(h, v), v, v)
  }

  ghost function Nominate(h: History, v: NodeId): History
    requires v in h.term && v in h.log
  {
    h.(term := h.term[v := h.term[v] + 1], candidacies := h.candidacies[(v, h.term[v] + 1) := h.log[v]])
  }

  /** Nobody has stood, voted or won in a term later than its own. */
  lemma FreshTerm(h: History, v: NodeId, t: nat)
    requires ServersOk(h) && CandidaciesOk(h) && BallotsOk(h) && ElectionsOk(h) && v in h.servers && t > h.term[v]
    ensures (v, t) !in h.ballots && (v, t) !in h.candidacies && !LedBy(h, t, v)
  {
    assert (v, t) in h.ballots ==> BallotOk(h, (v, t));
    assert (v, t) in h.candidacies ==> CandidacyOk(h, (v, t));
    assert t in h.electedAt ==> ElectedAt(h, t) && ElectionOk(h, h.electedAt[t]);
  }

  lemma NominateCareful(h: History, v: NodeId)
    requires v in h.term && v in h.log && (v, h.term[v] + 1) !in h.candidacies
    ensures Careful(h, Nominate(h, v))
  {
    forall t | t in h.ledger ensures LedgerStep(h, Nominate(h, v), t) {}
  }

  lemma NominateKeeps(h: History, v: NodeId)
    requires Inv(h) && v in h.servers
    ensures Inv(Nominate(h, v)) && Careful(h, Nominate(h, v))
  {
    var h', x := Nominate(h, v), (v, h.term[v] + 1);
    FreshTerm(h, v, h.term[v] + 1);
    NominateCareful(h, v);
    OldRecordsStay(h, h');
    assert CandidacyOk(h', x);
    NominateRest(h, h', v);
  }

  lemma NominateRest(h: History, h': History, v: NodeId)
    requires Inv(h) && v in h.servers && h' == Nominate(h, v) && Careful(h, h')
    ensures LogsOk(h') && LogsKeep(h') && BallotsKeep(h') && WinnersKeep(h') && CommitsOk(h')
    ensures forall t {:trigger ElectedAt(h', t)} | t in h'.electedAt :: ElectedAt(h', t)
  {
    OldKeepsStay(h, h');
    ElectedStay(h, h');
    SameLogs(h, h');
  }

  lemma StandKeeps(h: History, v: NodeId)
    requires Inv(h) && v in h.servers
    ensures Inv(Stand(h, v)) && Grows(h, Stand(h, v))
  {
    FreshTerm(h, v, h.term[v] + 1);
    NominateKeeps(h, v);
    CastVoteKeeps(Nominate(h, v), v, v);
  }
}

/** The steps of a history in which leaders take part: elections, appends, offers and commits. */
module HistoryLeaders {
  import opened Types
  import opened Logs
  import opened Quorums
  import opened History
  import opened HistoryGrowth
  import opened HistorySteps

  // ----- a candidate wins -----

  ghost predicate MayWin(h: History, c: NodeId, q: set<NodeId>) {
    && c in h.servers && c in h.term && c in h.log && h.term[c] !in h.ledger
    && IsQuorum(h.servers, q) && c in q
    && (c, h.term[c]) in h.candidacies && h.candidacies[(c, h.term[c])] == h.log[c]
    && forall v | v in q :: (v, h.term[c]) in h.ballots && h.ballots[(v, h.term[c])] == c
  }

  ghost function Elect(h: History, c: NodeId, q: set<NodeId>): History
    requires c in h.term && c in h.log
  {
    var u := h.term[c];
    h.(elections := h.elections + [Election(u, c, q, h.log[c])],
       electedAt := h.electedAt[u := |h.elections|],
       ledger := h.ledger[u := h.log[c]],
       acks := h.acks + {Ack(c, u, |h.log[c]|)})
  }

  /**
   * A winner's log only holds entries of earlier terms, although a server's log may run ahead of
   * its term: a majority that elected a later leader would not have voted for this candidate.
   */
  lemma WinnerTermsBelow(h: History, c: NodeId, q: set<NodeId>, i: nat)
    requires Inv(h) && MayWin(h, c, q) && i < |h.log[c]|
    ensures h.log[c][i].term < h.term[c]
  {
    var u, t := h.term[c], h.log[c][i].term;
    assert RootedAt(h.ledger, h.log[c], i);
    var k := h.electedAt[t];
    assert ElectedAt(h, t) && ElectionOk(h, k);
    var x := QuorumsMeet(h.servers, q, h.elections[k].voters);
    assert BallotOk(h, (x, u));
  }

  lemma ElectLogs(h: History, c: NodeId, q: set<NodeId>)
    requires Inv(h) && MayWin(h, c, q)
    ensures LogsOk(Elect(h, c, q)) && LedgerGrows(h.ledger, Elect(h, c, q).ledger)
  {
    var g, g' := h.ledger, Elect(h, c, q).ledger;
    var u := h.term[c];
    forall t | t in g' ensures t >= 1 && Rooted(g', g'[t]) && Bounded(g'[t], t) {
      RootedGrows(g, g', g'[t]);
      if t == u {
        RootedOrdered(g, h.log[c]);
        assert CandidacyOk(h, (c, u));
        forall i | 0 <= i < |h.log[c]| ensures h.log[c][i].term <= u {
          WinnerTermsBelow(h, c, q, i);
        }
      }
    }
    AllRootedGrow(h, g');
  }

  lemma AllRootedGrow(h: History, g': map<nat, Log>)
    requires ServersOk(h) && LogsOk(h) && LedgerGrows(h.ledger, g')
    ensures forall v | v in h.servers :: Rooted(g', h.log[v])
    ensures forall x | x in h.candidacies :: Rooted(g', h.candidacies[x])
    ensures forall o | o in h.offers :: Rooted(g', o.log)
  {
    forall v | v in h.servers ensures Rooted(g', h.log[v]) {
      RootedGrows(h.ledger, g', h.log[v]);
    }
    forall x | x in h.candidacies ensures Rooted(g', h.candidacies[x]) {
      RootedGrows(h.ledger, g', h.candidacies[x]);
    }
    forall o | o in h.offers ensures Rooted(g', o.log) {
      RootedGrows(h.ledger, g', o.log);
    }
  }

  lemma ElectCareful(h: History, c: NodeId, q: set<NodeId>)
    requires Inv(h) && MayWin(h, c, q)
    ensures Careful(h, Elect(h, c, q))
  {
    var h' := Elect(h, c, q);
    assert h.elections <= h'.elections;
    forall t | t in h.ledger ensures LedgerStep(h, h', t) {}
  }

  lemma NewWinnerKeeps(h: History, c: NodeId, q: set<NodeId>, a: Ack)
    requires Inv(h) && MayWin(h, c, q) && a in Elect(h, c, q).acks
    ensures WinnerKeeps(Elect(h, c, q), |h.elections|, a)
  {
    var h', u := Elect(h, c, q), h.term[c];
    var k := |h.elections|;
    assert h'.elections[..k] == h.elections;
    if a.voter in q && a.term < u {
      assert BallotKeeps(h, (a.voter, u), a);
    }
  }

  lemma ElectRecords(h: History, c: NodeId, q: set<NodeId>)
    requires Inv(h) && MayWin(h, c, q) && Careful(h, Elect(h, c, q))
    ensures var h' := Elect(h, c, q);
            ElectionsOk(h') && CandidaciesOk(h') && BallotsOk(h') && AcksOk(h') && TalliesOk(h') && OffersOk(h')
  {
    var h' := Elect(h, c, q);
    OldRecordsStay(h, h');
    ElectedStay(h, h');
    assert ElectionOk(h', |h.elections|);
    assert ElectedAt(h', h.term[c]);
    assert AckOk(h', Ack(c, h.term[c], |h.log[c]|));
  }

  lemma ElectKeeps(h: History, c: NodeId, q: set<NodeId>)
    requires Inv(h) && MayWin(h, c, q)
    ensures Inv(Elect(h, c, q)) && Careful(h, Elect(h, c, q))
  {
    var h' := Elect(h, c, q);
    ElectLogs(h, c, q);
    ElectCareful(h, c, q);
    ElectRecords(h, c, q);
    ElectLogsKeep(h, c, q);
    OldKeepsStay(h, h');
    forall a | a in h'.acks ensures WinnerKeeps(h', |h.elections|, a) {
      NewWinnerKeeps(h, c, q, a);
    }
  }

  lemma ElectLogsKeep(h: History, c: NodeId, q: set<NodeId>)
    requires Inv(h) && MayWin(h, c, q) && Careful(h, Elect(h, c, q))
    ensures LogsKeep(Elect(h, c, q)) && CommitsOk(Elect(h, c, q))
  {
    var h' := Elect(h, c, q);
    forall a | a in h'.acks ensures LogKeeps(h', a) {
      if a in h.acks {
        assert LogKeeps(h, a);
        LogKeepStays(h, h', a);
      }
    }
    SameCommits(h, h');
  }

  lemma SameCommits(h: History, h': History)
    requires ServersOk(h) && ServersOk(h') && CommitsOk(h) && Grows(h, h') && h'.commit == h.commit
    requires forall v | v in h.servers :: h.log[v] <= h'.log[v]
    ensures CommitsOk(h')
  {
    forall v | v in h'.servers ensures CommitOk(h', v) {
      assert CommitOk(h, v);
      CoverStays(h, h', h.term[v], h'.term[v], h.log[v], h'.log[v], h.commit[v]);
    }
  }

  // ----- a leader appends an entry of its own term -----

  ghost predicate MayExtend(h: History, n: NodeId, e: Entry) {
    && n in h.servers && n in h.term && n in h.log
    && h.term[n] in h.ledger && LedBy(h, h.term[n], n) && h.ledger[h.term[n]] == h.log[n]
    && e.term == h.term[n] && e.index == |h.log[n]| + 1
  }

  ghost function Extend(h: History, n: NodeId, e: Entry): History
    requires n in h.term && n in h.log
  {
    var log := h.log[n] + [e];
    h.(log := h.log[n := log],
       ledger := h.ledger[h.term[n] := log],
       acks := h.acks + {Ack(n, h.term[n], |log|)})
  }

  lemma ExtendLogs(h: History, n: NodeId, e: Entry)
    requires Inv(h) && MayExtend(h, n, e)
    ensures LogsOk(Extend(h, n, e)) && LedgerGrows(h.ledger, Extend(h, n, e).ledger)
  {
    var g, g' := h.ledger, Extend(h, n, e).ledger;
    var u, log := h.term[n], h.log[n] + [e];
    assert LedgerGrows(g, g');
    AllRootedGrow(h, g');
    assert Rooted(g', log) by {
      RootedGrows(g, g', h.log[n]);
      forall i | 0 <= i < |log| ensures RootedAt(g', log, i) {
        if i < |h.log[n]| {
          assert RootedAt(g', h.log[n], i);
          assert log[..i + 1] == h.log[n][..i + 1];
        }
      }
    }
    forall t | t in g' ensures t >= 1 && Rooted(g', g'[t]) && Bounded(g'[t], t) {
      assert Bounded(g[t], t);
      if t != u { RootedGrows(g, g', g[t]); }
    }
  }

  lemma ExtendCareful(h: History, n: NodeId, e: Entry)
    requires Inv(h) && MayExtend(h, n, e)
    ensures Careful(h, Extend(h, n, e))
  {
    var h' := Extend(h, n, e);
    forall t | t in h.ledger ensures LedgerStep(h, h', t) {}
  }

  lemma ExtendKeeps(h: History, n: NodeId, e: Entry)
    requires Inv(h) && MayExtend(h, n, e)
    ensures Inv(Extend(h, n, e)) && Careful(h, Extend(h, n, e))
  {
    var h' := Extend(h, n, e);
    ExtendLogs(h, n, e);
    ExtendCareful(h, n, e);
    ExtendRecords(h, n, e);
    OldKeepsStay(h, h');
    ExtendLogsKeep(h, n, e);
  }

  lemma ExtendRecords(h: History, n: NodeId, e: Entry)
    requires Inv(h) && MayExtend(h, n, e) && Careful(h, Extend(h, n, e))
    ensures var h' := Extend(h, n, e);
            ElectionsOk(h') && CandidaciesOk(h') && BallotsOk(h') && AcksOk(h') && TalliesOk(h') && OffersOk(h')
  {
    var h' := Extend(h, n, e);
    OldRecordsStay(h, h');
    ElectedStay(h, h');
    assert AckOk(h', Ack(n, h.term[n], |h.log[n]| + 1));
  }

  lemma ExtendLogsKeep(h: History, n: NodeId, e: Entry)
    requires Inv(h) && MayExtend(h, n, e) && Careful(h, Extend(h, n, e))
    ensures LogsKeep(Extend(h, n, e)) && CommitsOk(Extend(h, n, e))
  {
    var h' := Extend(h, n, e);
    forall a | a in h'.acks ensures LogKeeps(h', a) {
      if a in h.acks {
        assert LogKeeps(h, a);
        LogKeepStays(h, h', a);
      }
    }
    SameCommits(h, h');
  }

  // ----- a leader, or a server that once led, sends its log -----

  ghost predicate MayOffer(h: History, n: NodeId, t: nat, commit: nat) {
    && n in h.servers && n in h.term && n in h.log
    && t in h.ledger && LedBy(h, t, n)
    && (h.ledger[t] == h.log[n] || h.term[n] > t)
    && Announced(h, t, commit)
  }

  /** Some tally of a term up to `t` reaches `commit`. */
  ghost predicate Announced(h: History, t: nat, commit: nat) {
    || commit == 0
    || exists m {:trigger TallyOk(h, m)} | m in h.tallies :: TallyOk(h, m) && m.term <= t && commit <= m.length
  }

  ghost function MakeOffer(h: History, n: NodeId, t: nat, commit: nat): History
    requires n in h.log
  {
    h.(offers := h.offers + {Offer(n, t, h.log[n], commit)})
  }

  /** A server that led `t` still holds every entry committed up to that term. */
  lemma FormerLeaderHolds(h: History, n: NodeId, t: nat, m: Tally)
    requires Inv(h) && n in h.servers && t in h.ledger && LedBy(h, t, n)
    requires TallyOk(h, m) && m.term <= t
    ensures Committed(h, m) <= h.log[n]
  {
    var k, p := h.electedAt[t], Committed(h, m);
    assert ElectedAt(h, t) && ElectionOk(h, k);
    LedgersHoldCommitted(h, m, t);
    CommittedNotSuperseded(h, m);
    var a := Ack(n, t, |h.ledger[t]|);
    assert LogKeeps(h, a);
    assert p == h.ledger[t][..m.length];
    assert Kept(h.elections, h.log[n], h.ledger[t][..m.length]);
  }

  lemma NewOfferOk(h: History, n: NodeId, t: nat, commit: nat)
    requires Inv(h) && MayOffer(h, n, t, commit)
    ensures OfferOk(h, Offer(n, t, h.log[n], commit))
  {
    var o := Offer(n, t, h.log[n], commit);
    assert ElectedAt(h, t) && ElectionOk(h, h.electedAt[t]);
    assert LogKeeps(h, Ack(n, t, |h.ledger[t]|));
    if commit != 0 {
      var m :| m in h.tallies && TallyOk(h, m) && m.term <= t && commit <= m.length;
      FormerLeaderHolds(h, n, t, m);
      assert Announces(h, m, o);
    }
  }

  lemma OfferCareful(h: History, n: NodeId, t: nat, commit: nat)
    requires Inv(h) && MayOffer(h, n, t, commit)
    ensures Careful(h, MakeOffer(h, n, t, commit))
  {
    var h' := MakeOffer(h, n, t, commit);
    forall t | t in h.ledger ensures LedgerStep(h, h', t) {}
  }

  lemma MakeOfferKeeps(h: History, n: NodeId, t: nat, commit: nat)
    requires Inv(h) && MayOffer(h, n, t, commit)
    ensures Inv(MakeOffer(h, n, t, commit)) && Careful(h, MakeOffer(h, n, t, commit))
  {
    var h', o := MakeOffer(h, n, t, commit), Offer(n, t, h.log[n], commit);
    OfferCareful(h, n, t, commit);
    OldRecordsStay(h, h');
    assert OfferOk(h', o) by {
      NewOfferOk(h, n, t, commit);
      OfferStays(h, h', o);
    }
    OfferRest(h, h');
  }

  lemma OfferRest(h: History, h': History)
    requires Inv(h) && Careful(h, h') && h' == h.(offers := h'.offers)
    ensures LogsKeep(h') && BallotsKeep(h') && WinnersKeep(h') && CommitsOk(h')
    ensures forall t {:trigger ElectedAt(h', t)} | t in h'.electedAt :: ElectedAt(h', t)
  {
    OldKeepsStay(h, h');
    ElectedStay(h, h');
    SameLogs(h, h');
  }

  // ----- a leader counts a majority -----

  ghost predicate MayCount(h: History, n: NodeId, length: nat, q: set<NodeId>) {
    && n in h.servers && n in h.term && n in h.log && n in h.commit
    && h.term[n] in h.ledger && h.ledger[h.term[n]] == h.log[n]
    && TallyOk(h, Tally(h.term[n], length, q))
  }

  ghost function Count(h: History, n: NodeId, length: nat, q: set<NodeId>): History
    requires n in h.term && n in h.commit
  {
    h.(tallies := h.tallies + {Tally(h.term[n], length, q)}, commit := h.commit[n := Max(h.commit[n], length)])
  }

  lemma CountCareful(h: History, n: NodeId, length: nat, q: set<NodeId>)
    requires Inv(h) && MayCount(h, n, length, q)
    ensures Careful(h, Count(h, n, length, q))
  {
    var h' := Count(h, n, length, q);
    forall t | t in h.ledger ensures LedgerStep(h, h', t) {}
  }

  lemma CountKeeps(h: History, n: NodeId, length: nat, q: set<NodeId>)
    requires Inv(h) && MayCount(h, n, length, q)
    ensures Inv(Count(h, n, length, q)) && Careful(h, Count(h, n, length, q))
  {
    var h', m := Count(h, n, length, q), Tally(h.term[n], length, q);
    CountCareful(h, n, length, q);
    OldRecordsStay(h, h');
    TallyStays(h, h', m);
    CountRest(h, n, length, q);
  }

  lemma CountRest(h: History, n: NodeId, length: nat, q: set<NodeId>)
    requires Inv(h) && MayCount(h, n, length, q) && Careful(h, Count(h, n, length, q))
    ensures var h' := Count(h, n, length, q);
            && LogsKeep(h') && BallotsKeep(h') && WinnersKeep(h') && CommitsOk(h')
            && forall t {:trigger ElectedAt(h', t)} | t in h'.electedAt :: ElectedAt(h', t)
  {
    var h', m := Count(h, n, length, q), Tally(h.term[n], length, q);
    OldKeepsStay(h, h');
    ElectedStay(h, h');
    forall a | a in h'.acks ensures LogKeeps(h', a) {
      assert LogKeeps(h, a);
      LogKeepStays(h, h', a);
    }
    forall v | v in h'.servers ensures CommitOk(h', v) {
      if v == n && length >= h.commit[n] {
        TallyStays(h, h', m);
        assert Covers(h', m, h'.term[n], h'.log[n], length);
      } else {
        assert CommitOk(h, v);
        CoverStays(h, h', h.term[v], h'.term[v], h.log[v], h'.log[v], h.commit[v]);
      }
    }
  }
}

/** The step of a history in which a server accepts an offered log. */
module HistoryFollowers {
  import opened Types
  import opened Logs
  import opened History
  import opened HistoryGrowth
  import opened HistorySteps

  ghost predicate MayAccept(h: History, v: NodeId, o: Offer) {
    v in h.servers && v in h.term && v in h.log && v in h.commit && o in h.offers && h.term[v] == o.term
  }

  ghost function Accept(h: History, v: NodeId, o: Offer): History
    requires MayAccept(h, v, o)
  {
    var current := o.term in h.ledger && o.log <= h.ledger[o.term];
    h.(log := h.log[v := Adopt(h.log[v], o.log)],
       commit := h.commit[v := Max(h.commit[v], o.commit)],
       acks := h.acks + if current then {Ack(v, o.term, |o.log|)} else {})
  }

  /** Two prefixes of one log are comparable, so adopting one of them keeps the other. */
  lemma AdoptComparable(own: Log, offered: Log, p: Log, whole: Log)
    requires p <= own && p <= whole && offered <= whole
    ensures p <= Adopt(own, offered)
  {
    if |offered| <= |p| {
      assert offered <= p;
    }
  }

  /** What `v` held of an earlier leader survives unless a later winner superseded it. */
  lemma AdoptKeeps(h: History, v: NodeId, o: Offer, p: Log)
    requires Inv(h) && MayAccept(h, v, o)
    requires p != [] && p <= h.log[v] && o.term in h.ledger && p <= h.ledger[o.term]
    ensures Kept(h.elections, Adopt(h.log[v], o.log), p)
  {
    assert OfferOk(h, o);
    if o.log <= h.ledger[o.term] {
      AdoptComparable(h.log[v], o.log, p, h.ledger[o.term]);
    } else {
      assert p == h.ledger[o.term][..|p|];
      assert Kept(h.elections, o.log, h.ledger[o.term][..|p|]);
    }
  }

  lemma AcceptKeepsAck(h: History, v: NodeId, o: Offer, a: Ack)
    requires Inv(h) && MayAccept(h, v, o) && a in h.acks && a.voter == v && AckOk(h, a)
    ensures AckKept(h.elections, h.ledger, a, Adopt(h.log[v], o.log))
  {
    assert LogKeeps(h, a) && OfferOk(h, o);
    var e := h.elections[h.electedAt[o.term]];
    assert ElectedAt(h, o.term) && ElectionOk(h, h.electedAt[o.term]);
    forall k | 1 <= k <= a.length ensures Kept(h.elections, Adopt(h.log[v], o.log), h.ledger[a.term][..k]) {
      var p := h.ledger[a.term][..k];
      assert Kept(h.elections, h.log[v], p);
      assert Bounded(h.ledger[a.term], a.term) && LastTerm(p) <= a.term;
      if p <= h.log[v] && (a.term == o.term || p <= e.log) {
        AdoptKeeps(h, v, o, p);
      }
    }
  }

  /** While the leader of the term is still there, every offer of that term is comparable. */
  lemma AcceptKeepsMatch(h: History, v: NodeId, o: Offer, a: Ack)
    requires Inv(h) && MayAccept(h, v, o) && a in h.acks && a.voter == v && AckOk(h, a)
    ensures h.term[v] > a.term || LeaderGone(h, a.term) || h.ledger[a.term][..a.length] <= Adopt(h.log[v], o.log)
  {
    assert LogKeeps(h, a) && OfferOk(h, o);
    if h.term[v] == a.term && !LeaderGone(h, a.term) {
      AdoptComparable(h.log[v], o.log, h.ledger[a.term][..a.length], h.ledger[a.term]);
    }
  }

  /** Accepting an offer never drops a committed entry. */
  lemma AcceptKeepsCommitted(h: History, v: NodeId, o: Offer)
    requires Inv(h) && MayAccept(h, v, o)
    ensures h.commit[v] <= |h.log[v]| && h.log[v][..h.commit[v]] <= Adopt(h.log[v], o.log)
  {
    assert CommitOk(h, v) && OfferOk(h, o);
    if h.commit[v] != 0 {
      var m :| m in h.tallies && Covers(h, m, h.term[v], h.log[v], h.commit[v]);
      var c, p := Committed(h, m), h.log[v][..h.commit[v]];
      LedgersHoldCommitted(h, m, o.term);
      if o.log <= h.ledger[o.term] {
        AdoptComparable(h.log[v], o.log, p, h.ledger[o.term]);
      } else {
        CommittedNotSuperseded(h, m);
        assert c == h.ledger[o.term][..m.length];
        assert Kept(h.elections, o.log, h.ledger[o.term][..m.length]);
      }
    }
  }

  /** The announced commit index lies within the offered log. */
  lemma OfferCommitInside(h: History, o: Offer)
    requires Inv(h) && o in h.offers
    ensures o.commit <= |o.log|
  {
    assert OfferOk(h, o);
  }

  lemma AcceptCareful(h: History, v: NodeId, o: Offer)
    requires Inv(h) && MayAccept(h, v, o)
    ensures Careful(h, Accept(h, v, o))
  {
    var h' := Accept(h, v, o);
    forall t | t in h.ledger ensures LedgerStep(h, h', t) {}
  }

  lemma AcceptLogsKeep(h: History, v: NodeId, o: Offer)
    requires Inv(h) && MayAccept(h, v, o) && Careful(h, Accept(h, v, o))
    ensures LogsKeep(Accept(h, v, o))
  {
    var h' := Accept(h, v, o);
    forall a | a in h'.acks ensures LogKeeps(h', a) {
      if a in h.acks {
        assert LogKeeps(h, a);
        if a.voter == v {
          AcceptKeepsAck(h, v, o, a);
          AcceptKeepsMatch(h, v, o, a);
        } else {
          LogKeepStays(h, h', a);
        }
      } else {
        assert AckKept(h'.elections, h'.ledger, a, h'.log[v]);
      }
    }
  }

  lemma AcceptCommit(h: History, v: NodeId, o: Offer)
    requires Inv(h) && MayAccept(h, v, o) && Grows(h, Accept(h, v, o))
    ensures CommitOk(Accept(h, v, o), v)
  {
    var h' := Accept(h, v, o);
    if o.commit > h.commit[v] {
      assert OfferOk(h, o);
      var m :| m in h.tallies && Announces(h, m, o);
      TallyStays(h, h', m);
      assert Covers(h', m, h'.term[v], h'.log[v], h'.commit[v]);
    } else if h.commit[v] != 0 {
      assert CommitOk(h, v);
      var m :| m in h.tallies && Covers(h, m, h.term[v], h.log[v], h.commit[v]);
      TallyStays(h, h', m);
      AcceptKeepsCommitted(h, v, o);
      assert Covers(h', m, h'.term[v], h'.log[v], h'.commit[v]);
    }
  }

  lemma AcceptCommits(h: History, v: NodeId, o: Offer)
    requires Inv(h) && MayAccept(h, v, o) && Grows(h, Accept(h, v, o))
    ensures CommitsOk(Accept(h, v, o))
  {
    var h' := Accept(h, v, o);
    forall w | w in h'.servers ensures CommitOk(h', w) {
      if w == v {
        AcceptCommit(h, v, o);
      } else {
        assert CommitOk(h, w);
        CoverStays(h, h', h.term[w], h'.term[w], h.log[w], h'.log[w], h.commit[w]);
      }
    }
  }

  lemma AcceptRecords(h: History, v: NodeId, o: Offer)
    requires Inv(h) && MayAccept(h, v, o) && Careful(h, Accept(h, v, o))
    ensures var h' := Accept(h, v, o);
            ElectionsOk(h') && CandidaciesOk(h') && BallotsOk(h') && AcksOk(h') && TalliesOk(h') && OffersOk(h')
  {
    var h' := Accept(h, v, o);
    OldRecordsStay(h, h');
    ElectedStay(h, h');
    assert OfferOk(h, o);
    forall a | a in h'.acks ensures AckOk(h', a) {}
  }

  lemma AcceptKeeps(h: History, v: NodeId, o: Offer)
    requires Inv(h) && MayAccept(h, v, o)
    ensures Inv(Accept(h, v, o)) && Careful(h, Accept(h, v, o))
  {
    var h' := Accept(h, v, o);
    AcceptCareful(h, v, o);
    AcceptRecords(h, v, o);
    AcceptLogsKeep(h, v, o);
    AcceptCommits(h, v, o);
    OldKeepsStay(h, h');
  }
}
