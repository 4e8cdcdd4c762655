/**
 * The history of a run, as its safety proof remembers it: who was elected with which votes, what
 * each leader's log was, what each server acknowledged, what was offered to followers and which
 * majorities were counted. Nothing in the cluster reads a history; the proof builds one beside
 * every run (module ClusterProof).
 */
module History {
  import opened Types
  import opened Logs
  import opened Quorums

  /** `log` is the winner's log when it won. */
  datatype Election = Election(term: nat, leader: NodeId, voters: set<NodeId>, log: Log)

  /** In `term`, `voter` held the first `length` entries of that term's leader log. */
  datatype Ack = Ack(voter: NodeId, term: nat, length: nat)

  /** The leader of `term` saw `quorum` hold its first `length` entries and committed them. */
  datatype Tally = Tally(term: nat, length: nat, quorum: set<NodeId>)

  /** The leader of `term` sent (part of) `log`, announcing that `commit` entries are committed. */
  datatype Offer = Offer(leader: NodeId, term: nat, log: Log, commit: nat)

  datatype History = History(
    servers: set<NodeId>,
    term: map<NodeId, nat>,
    log: map<NodeId, Log>,
    commit: map<NodeId, nat>,            // the most each server ever knew to be committed
    elections: seq<Election>,            // in the order in which they were won
    electedAt: map<nat, nat>,            // term -> position in elections
    ledger: map<nat, Log>,               // term -> log of its leader, as long as it grew
    candidacies: map<(NodeId, nat), Log>,// (candidate, term) -> its log when it stood
    ballots: map<(NodeId, nat), NodeId>, // (voter, term) -> candidate
    acks: set<Ack>,
    tallies: set<Tally>,
    offers: set<Offer>)

  /** A leader of a later term than `p`'s was elected without `p`: `p` can never reach a majority. */
  ghost predicate Superseded(elections: seq<Election>, p: Log) {
    exists j | 0 <= j < |elections| :: elections[j].term > LastTerm(p) && !(p <= elections[j].log)
  }

  ghost predicate Kept(elections: seq<Election>, log: Log, p: Log) {
    p <= log || Superseded(elections, p)
  }

  /** Everything `a` acknowledged is still in `log`, except what has been superseded. */
  ghost predicate AckKept(elections: seq<Election>, ledger: map<nat, Log>, a: Ack, log: Log)
    requires a.term in ledger && a.length <= |ledger[a.term]|
  {
    forall k | 1 <= k <= a.length :: Kept(elections, log, ledger[a.term][..k])
  }

  ghost predicate Acked(h: History, v: NodeId, term: nat, length: nat) {
    exists a | a in h.acks :: a.voter == v && a.term == term && a.length >= length
  }

  ghost predicate LedBy(h: History, term: nat, n: NodeId) {
    term in h.electedAt && h.electedAt[term] < |h.elections| && h.elections[h.electedAt[term]].leader == n
  }

  // ----- the invariant, one aspect at a time -----

  ghost predicate ServersOk(h: History) {
    h.term.Keys == h.servers && h.log.Keys == h.servers && h.commit.Keys == h.servers
  }

  ghost predicate ElectionOk(h: History, k: nat)
    requires k < |h.elections|
  {
    var e := h.elections[k];
    && e.term in h.electedAt && h.electedAt[e.term] == k
    && e.term in h.ledger && e.log <= h.ledger[e.term]
    && IsQuorum(h.servers, e.voters) && e.leader in e.voters
    && (e.leader, e.term) in h.candidacies && h.candidacies[(e.leader, e.term)] == e.log
    && (forall v | v in e.voters :: (v, e.term) in h.ballots && h.ballots[(v, e.term)] == e.leader)
    && Ack(e.leader, e.term, |h.ledger[e.term]|) in h.acks
  }

  ghost predicate ElectedAt(h: History, t: nat)
    requires t in h.electedAt
  {
    h.electedAt[t] < |h.elections| && h.elections[h.electedAt[t]].term == t
  }

  ghost predicate ElectionsOk(h: History) {
    && h.electedAt.Keys == h.ledger.Keys
    && (forall t {:trigger ElectedAt(h, t)} | t in h.electedAt :: ElectedAt(h, t))
    && (forall k | 0 <= k < |h.elections| :: ElectionOk(h, k))
  }

  ghost predicate LogsOk(h: History)
    requires ServersOk(h)
  {
    && LedgerOk(h.ledger)
    && (forall v | v in h.servers :: Rooted(h.ledger, h.log[v]))
    && (forall x | x in h.candidacies :: Rooted(h.ledger, h.candidacies[x]))
    && (forall o | o in h.offers :: Rooted(h.ledger, o.log))
  }

  /** A candidate stood in a term at most its own, and before it could lead that term. */
  ghost predicate CandidacyOk(h: History, x: (NodeId, nat))
    requires ServersOk(h) && x in h.candidacies
  {
    && x.0 in h.servers && 1 <= x.1 <= h.term[x.0]
    && (LedBy(h, x.1, x.0) ==> forall i | 0 <= i < |h.candidacies[x]| :: h.candidacies[x][i].term != x.1)
  }

  ghost predicate CandidaciesOk(h: History)
    requires ServersOk(h)
  {
    forall x {:trigger CandidacyOk(h, x)} | x in h.candidacies :: CandidacyOk(h, x)
  }

  /** The candidate's log as the voter judged it. */
  ghost predicate BallotOk(h: History, b: (NodeId, nat))
    requires ServersOk(h) && b in h.ballots
  {
    && b.0 in h.servers && 1 <= b.1 <= h.term[b.0]
    && (h.ballots[b], b.1) in h.candidacies
    && var c := h.candidacies[(h.ballots[b], b.1)];
    forall i | 0 <= i < |c| ::
      c[i].term >= b.1 && c[i].term in h.electedAt && h.electedAt[c[i].term] < |h.elections|
      ==> b.0 !in h.elections[h.electedAt[c[i].term]].voters
  }

  ghost predicate BallotsOk(h: History)
    requires ServersOk(h)
  {
    forall b {:trigger BallotOk(h, b)} | b in h.ballots :: BallotOk(h, b)
  }

  ghost predicate AckOk(h: History, a: Ack)
    requires ServersOk(h)
  {
    && a.voter in h.servers && a.term <= h.term[a.voter]
    && a.term in h.ledger && a.length <= |h.ledger[a.term]|
  }

  ghost predicate AcksOk(h: History)
    requires ServersOk(h)
  {
    forall a {:trigger AckOk(h, a)} | a in h.acks :: AckOk(h, a)
  }

  /** The leader of `term` has moved to a later term. */
  ghost predicate LeaderGone(h: History, term: nat) {
    && term in h.electedAt && h.electedAt[term] < |h.elections|
    && var n := h.elections[h.electedAt[term]].leader;
    n in h.term && h.term[n] > term
  }

  /**
   * The server that cast `a` keeps what it acknowledged, and holds all of it as long as neither it
   * nor the leader has moved on.
   */
  ghost predicate LogKeeps(h: History, a: Ack)
    requires ServersOk(h)
  {
    && AckOk(h, a) && AckKept(h.elections, h.ledger, a, h.log[a.voter])
    && (h.term[a.voter] > a.term || LeaderGone(h, a.term) || h.ledger[a.term][..a.length] <= h.log[a.voter])
  }

  ghost predicate LogsKeep(h: History)
    requires ServersOk(h)
  {
    forall a {:trigger LogKeeps(h, a)} | a in h.acks :: LogKeeps(h, a)
  }

  /** A candidate keeps what its voter had acknowledged in earlier terms. */
  ghost predicate BallotKeeps(h: History, b: (NodeId, nat), a: Ack)
    requires ServersOk(h)
  {
    a.voter == b.0 && a.term < b.1 && b in h.ballots ==>
      && AckOk(h, a)
      && (h.ballots[b], b.1) in h.candidacies
      && AckKept(h.elections, h.ledger, a, h.candidacies[(h.ballots[b], b.1)])
  }

  ghost predicate BallotsKeep(h: History)
    requires ServersOk(h)
  {
    forall b, a {:trigger BallotKeeps(h, b, a)} | b in h.ballots && a in h.acks :: BallotKeeps(h, b, a)
  }

  /** So does every winner, where only elections won before its own may supersede. */
  ghost predicate WinnerKeeps(h: History, k: nat, a: Ack)
    requires ServersOk(h) && k < |h.elections|
  {
    a.voter in h.elections[k].voters && a.term < h.elections[k].term ==>
      AckOk(h, a) && AckKept(h.elections[..k], h.ledger, a, h.elections[k].log)
  }

  ghost predicate WinnersKeep(h: History)
    requires ServersOk(h)
  {
    forall k, a {:trigger WinnerKeeps(h, k, a)} | 0 <= k < |h.elections| && a in h.acks :: WinnerKeeps(h, k, a)
  }

  ghost predicate TallyOk(h: History, m: Tally) {
    && m.term in h.ledger && 1 <= m.length <= |h.ledger[m.term]|
    && h.ledger[m.term][m.length - 1].term == m.term
    && IsQuorum(h.servers, m.quorum)
    && forall v {:trigger Acked(h, v, m.term, m.length)} | v in m.quorum :: Acked(h, v, m.term, m.length)
  }

  ghost predicate TalliesOk(h: History) {
    forall m {:trigger TallyOk(h, m)} | m in h.tallies :: TallyOk(h, m)
  }

  /** The committed entries that tally `m` stands for. */
  ghost function Committed(h: History, m: Tally): Log
    requires m.term in h.ledger && m.length <= |h.ledger[m.term]|
  {
    h.ledger[m.term][..m.length]
  }

  /** Tally `m` of a term up to `term` covers the first `commit` entries of `log`. */
  ghost predicate Covers(h: History, m: Tally, term: nat, log: Log, commit: nat) {
    && TallyOk(h, m) && m.term <= term
    && commit <= m.length && commit <= |log| && log[..commit] == Committed(h, m)[..commit]
  }

  ghost predicate Covered(h: History, term: nat, log: Log, commit: nat) {
    commit == 0 || exists m {:trigger Covers(h, m, term, log, commit)} | m in h.tallies ::
      Covers(h, m, term, log, commit)
  }

  ghost predicate CommitOk(h: History, v: NodeId)
    requires ServersOk(h) && v in h.servers
  {
    Covered(h, h.term[v], h.log[v], h.commit[v])
  }

  ghost predicate CommitsOk(h: History)
    requires ServersOk(h)
  {
    forall v {:trigger CommitOk(h, v)} | v in h.servers :: CommitOk(h, v)
  }

  /** Either the sender still led `o.term` when it sent, or it keeps all it ever held as leader. */
  ghost predicate OfferOk(h: History, o: Offer)
    requires ServersOk(h)
  {
    && o.leader in h.servers && o.term in h.ledger && LedBy(h, o.term, o.leader)
    && (o.log <= h.ledger[o.term]
        || (h.term[o.leader] > o.term
            && AckKept(h.elections, h.ledger, Ack(o.leader, o.term, |h.ledger[o.term]|), o.log)))
    && (o.commit == 0 || exists m {:trigger Announces(h, m, o)} | m in h.tallies :: Announces(h, m, o))
  }

  ghost predicate Announces(h: History, m: Tally, o: Offer) {
    TallyOk(h, m) && m.term <= o.term && o.commit <= m.length && Committed(h, m) <= o.log
  }

  ghost predicate OffersOk(h: History)
    requires ServersOk(h)
  {
    forall o {:trigger OfferOk(h, o)} | o in h.offers :: OfferOk(h, o)
  }

  ghost predicate Inv(h: History) {
    && ServersOk(h) && ElectionsOk(h) && LogsOk(h)
    && CandidaciesOk(h) && BallotsOk(h) && AcksOk(h)
    && LogsKeep(h) && BallotsKeep(h) && WinnersKeep(h)
    && TalliesOk(h) && CommitsOk(h) && OffersOk(h)
  }

  // ----- consequences -----

  /** A majority that acknowledged `m` shares a voter with the majority that elected winner `k`. */
  lemma WinnerKeepsTally(h: History, m: Tally, k: nat)
    requires ServersOk(h) && AcksOk(h) && WinnersKeep(h)
    requires TallyOk(h, m) && k < |h.elections| && h.elections[k].term > m.term
    requires IsQuorum(h.servers, h.elections[k].voters)
    ensures Kept(h.elections[..k], h.elections[k].log, Committed(h, m))
  {
    var v := QuorumsMeet(h.servers, m.quorum, h.elections[k].voters);
    assert Acked(h, v, m.term, m.length);
    var a :| a in h.acks && a.voter == v && a.term == m.term && a.length >= m.length;
    assert WinnerKeeps(h, k, a);
  }

  /**
   * If every winner of a later term keeps `p` unless an earlier winner superseded it, then nobody
   * superseded it. By induction over the order in which elections were won.
   */
  lemma {:induction false} NobodySupersedes(elections: seq<Election>, p: Log, k: nat)
    requires k < |elections| && elections[k].term > LastTerm(p)
    requires forall i | 0 <= i < |elections| && elections[i].term > LastTerm(p) ::
               Kept(elections[..i], elections[i].log, p)
    ensures p <= elections[k].log
    decreases k
  {
    var before := elections[..k];
    if !(p <= elections[k].log) {
      var j :| 0 <= j < |before| && before[j].term > LastTerm(p) && !(p <= before[j].log);
      NobodySupersedes(elections, p, j);
    }
  }

  /** What a majority acknowledged and a leader committed is in every later term's winner's log. */
  lemma WinnersHoldCommitted(h: History, m: Tally, k: nat)
    requires ServersOk(h) && ElectionsOk(h) && AcksOk(h) && WinnersKeep(h)
    requires TallyOk(h, m) && k < |h.elections| && h.elections[k].term > m.term
    ensures Committed(h, m) <= h.elections[k].log
  {
    forall i | 0 <= i < |h.elections| && h.elections[i].term > m.term
      ensures Kept(h.elections[..i], h.elections[i].log, Committed(h, m))
    {
      assert ElectionOk(h, i);
      WinnerKeepsTally(h, m, i);
    }
    NobodySupersedes(h.elections, Committed(h, m), k);
  }

  /** Committed entries are in the ledger of their own and every later term. */
  lemma LedgersHoldCommitted(h: History, m: Tally, t: nat)
    requires ServersOk(h) && ElectionsOk(h) && AcksOk(h) && WinnersKeep(h)
    requires TallyOk(h, m) && t in h.ledger && t >= m.term
    ensures Committed(h, m) <= h.ledger[t]
  {
    if t > m.term {
      var k := h.electedAt[t];
      assert ElectedAt(h, t) && ElectionOk(h, k);
      WinnersHoldCommitted(h, m, k);
    }
  }

  /** Committed entries are never superseded. */
  lemma CommittedNotSuperseded(h: History, m: Tally)
    requires ServersOk(h) && ElectionsOk(h) && AcksOk(h) && WinnersKeep(h)
    requires TallyOk(h, m)
    ensures !Superseded(h.elections, Committed(h, m))
  {
    var p := Committed(h, m);
    if Superseded(h.elections, p) {
      var j :| 0 <= j < |h.elections| && h.elections[j].term > LastTerm(p) && !(p <= h.elections[j].log);
      WinnersHoldCommitted(h, m, j);
      assert false;
    }
  }
}
