/**
 * What a node does with each message it gets, in any state whatever: which term it is in afterwards, what it
 * answers, what it records, and what it leaves alone.
 */
module Conduct {
  import opened Types
  import opened Logs
  import opened Recovery
  import opened NodeSpec
  import opened CommitRule
  import opened Cluster

  // ----- comparing logs -----

  /** The term of the last entry; a log without entries ends in term 0. */
  ghost function EndTerm(log: Log): nat {
    if |log| == 0 then 0 else log[|log| - 1].term
  }

  /** The log ends no later than with an entry of this term and index: terms count first, then indices. */
  ghost predicate EndsBy(log: Log, term: nat, index: nat) {
    EndTerm(log) < term || (EndTerm(log) == term && |log| <= index)
  }

  /** Any two logs compare, longer logs of the same last term compare better, and comparing is transitive. */
  lemma UpToDateIsOrder(a: Log, b: Log, c: Log, term: nat, index: nat, index': nat)
    ensures UpToDate(LastTerm(a), |a|, b) || UpToDate(LastTerm(b), |b|, a)
    ensures UpToDate(term, index, a) && index <= index' ==> UpToDate(term, index', a)
    ensures UpToDate(LastTerm(a), |a|, b) && UpToDate(LastTerm(b), |b|, c) ==> UpToDate(LastTerm(a), |a|, c)
    ensures UpToDate(LastTerm(a), |a|, b) && UpToDate(LastTerm(b), |b|, a) <==>
        LastTerm(a) == LastTerm(b) && |a| == |b|
  {
  }

  // ----- terms -----

  predicate IsDelivery(a: Action) {
    a.DeliverVoteRequest? || a.DeliverVoteReply? || a.DeliverAppend? || a.DeliverAppendReply?
  }

  /** The term that the sender of a message speaks in. */
  function TermOfMessage(m: Message): nat {
    match m
    case RequestVote(_, _, args) => args.term
    case VoteResponse(_, _, _, reply) => reply.term
    case AppendEntries(_, _, args) => args.term
    case AppendResponse(_, _, _, reply) => reply.term
  }

  /** A response is heeded only if it answers a request of the current term, in the role that sent it. */
  predicate Heeded(s: NodeState, m: Message) {
    match m
    case RequestVote(_, _, _) => true
    case AppendEntries(_, _, _) => true
    case VoteResponse(_, _, args, _) => s.role == Candidate && s.currentTerm == args.term
    case AppendResponse(_, _, args, _) => s.role == Leader && s.currentTerm == args.term
  }

  /** A follower in `t`'s term that has voted for nobody, whatever it did before. */
  predicate StartsAfresh(t: NodeState) {
    t.role == Follower && t.votedFor == NO_NODE && t.votes == 0 && t.votesReceived == {}
  }

  /** Everything but term, vote, role and records is as it was. */
  predicate OnlyStepsDown(s: NodeState, t: NodeState) {
    t == s.(currentTerm := t.currentTerm, votedFor := t.votedFor, role := t.role, votes := t.votes,
            votesReceived := t.votesReceived, wal := t.wal)
  }

  /** A candidate that hears of a later term becomes a follower in exactly that term, and records it. */
  lemma CandidacyEnds(s: NodeState, peers: seq<NodeId>, from: NodeId, reply: VoteReply)
    requires s.role == Candidate && reply.term > s.currentTerm
    ensures var t := HandleVoteReply(s, peers, from, s.currentTerm, reply);
            && t.currentTerm == reply.term && StartsAfresh(t) && OnlyStepsDown(s, t)
            && t.wal == s.wal + [TermRecord(reply.term)]
  {
  }

  /** So does a leader. */
  lemma LeadershipEnds(s: NodeState, peers: seq<NodeId>, from: NodeId, args: AppendArgs, reply: AppendReply)
    requires s.role == Leader && args.term == s.currentTerm && reply.term > s.currentTerm
    ensures var t := HandleAppendReply(s, peers, from, args, reply);
            && t.currentTerm == reply.term && StartsAfresh(t) && OnlyStepsDown(s, t)
            && t.wal == s.wal + [TermRecord(reply.term)]
  {
  }

  /**
   * A node is in the term of every message it heeds, if that is later than its own; other messages leave
   * everything as it was. No other message or action moves its term, but its own candidacies do, by one.
   */
  lemma TermAfter(cfg: Config, s: System, a: Action)
    requires Enabled(cfg, s, a)
    ensures var st, t := s.nodes[Actor(a)], NextNode(cfg, s, a);
            && (IsDelivery(a) ==>
                  t.currentTerm == if Heeded(st, a.m) then Max(st.currentTerm, TermOfMessage(a.m)) else st.currentTerm)
            && (IsDelivery(a) && !Heeded(st, a.m) ==> t == st)
            && (!IsDelivery(a) ==> t.currentTerm == st.currentTerm + if a.ElectionTimeout? then 1 else 0)
  {
  }

  /** A later term is taken over if and only if the message is heeded. */
  lemma CatchesUpIff(cfg: Config, s: System, a: Action)
    requires Enabled(cfg, s, a) && IsDelivery(a) && TermOfMessage(a.m) > s.nodes[Actor(a)].currentTerm
    ensures var st, t := s.nodes[Actor(a)], NextNode(cfg, s, a);
            && (t.currentTerm == TermOfMessage(a.m) <==> Heeded(st, a.m))
            && (Heeded(st, a.m) ==>
                  && t.role == Follower && t.votes == 0 && t.votesReceived == {}
                  && |st.wal| < |t.wal| && t.wal[|st.wal|] == TermRecord(TermOfMessage(a.m)))
  {
  }

  /** What a node answers, it answers in the term that it is in afterwards, which is no earlier than the request's. */
  lemma AnswersInTerm(s: NodeState, vote: VoteArgs, append: AppendArgs)
    ensures var (t, reply) := HandleVote(s, vote); reply.term == t.currentTerm == Max(s.currentTerm, vote.term)
    ensures var (t, reply) := HandleAppend(s, append); reply.term == t.currentTerm == Max(s.currentTerm, append.term)
  {
  }

  // ----- votes -----

  /**
   * A vote is granted if and only if the term is not stale, no other vote of that term binds the voter, and
   * the candidate's log ends at least as late as the voter's.
   */
  lemma GrantedIff(s: NodeState, args: VoteArgs)
    ensures HandleVote(s, args).1.granted <==>
              && args.term >= s.currentTerm
              && (args.term == s.currentTerm ==> s.votedFor in {NO_NODE, args.candidate})
              && EndsBy(s.log, args.lastLogTerm, args.lastLogIndex)
  {
  }

  /** A granted vote binds the voter and is the last thing recorded; a refusal leaves the vote of the term alone. */
  lemma VoteCast(s: NodeState, args: VoteArgs)
    ensures var (t, reply) := HandleVote(s, args);
            && OnlyStepsDown(s, t)
            && t.role == (if args.term > s.currentTerm then Follower else s.role)
            && (reply.granted ==>
                  && t.votedFor == args.candidate
                  && t.wal != [] && t.wal[|t.wal| - 1] == VoteRecord(args.candidate, args.term))
            && (!reply.granted ==>
                  if args.term > s.currentTerm
                  then StartsAfresh(t) && t.wal == s.wal + [TermRecord(args.term)]
                  else t == s)
  {
  }

  /** Asked again by the same candidate, a voter that has granted its vote grants it again; to others it refuses. */
  lemma AskedAgain(s: NodeState, args: VoteArgs, other: VoteArgs)
    requires HandleVote(s, args).1.granted && args.candidate != NO_NODE
    ensures HandleVote(HandleVote(s, args).0, args).1.granted
    ensures other.term <= args.term && other.candidate != args.candidate ==>
              !HandleVote(HandleVote(s, args).0, other).1.granted
  {
  }

  /** A node that has moved to a later term without voting in it grants the first request of a good enough log. */
  lemma FreeToVote(cfg: Config, s: System, a: Action, args: VoteArgs)
    requires Enabled(cfg, s, a) && !a.ElectionTimeout?
    requires a.DeliverVoteRequest? ==> !HandleVote(s.nodes[Actor(a)], a.m.vote).1.granted
    requires NextNode(cfg, s, a).currentTerm > s.nodes[Actor(a)].currentTerm
    requires args.term >= NextNode(cfg, s, a).currentTerm
    ensures NextNode(cfg, s, a).votedFor == NO_NODE
    ensures HandleVote(NextNode(cfg, s, a), args).1.granted <==>
              EndsBy(NextNode(cfg, s, a).log, args.lastLogTerm, args.lastLogIndex)
  {
  }

  /** What a candidacy consists of. */
  lemma Candidacy(s: NodeState, id: NodeId)
    ensures var t := StartElection(s, id);
            && OnlyStepsDown(s, t) && t.currentTerm == s.currentTerm + 1 && t.role == Candidate && t.votedFor == id
            && t.votesReceived == {id} && t.votes == 1
            && |t.wal| == |s.wal| + 2 && Fold(t.wal) == Fold(s.wal).(term := t.currentTerm, votedFor := id)
    ensures var args := VoteRequest(StartElection(s, id), id);
            && args.term == s.currentTerm + 1 && args.candidate == id
            && args.lastLogIndex == |s.log| && args.lastLogTerm == EndTerm(s.log)
  {
    var a, b := TermRecord(s.currentTerm + 1), VoteRecord(id, s.currentTerm + 1);
    FoldAppend(s.wal, a);
    FoldAppend(s.wal + [a], b);
  }

  // ----- appends -----

  /** The follower has the entry that the sent ones follow. */
  ghost predicate HasPrevious(log: Log, args: AppendArgs) {
    var prev := args.prevLogIndex;
    prev == 0 || (prev <= |log| && log[prev - 1].term == args.prevLogTerm)
  }

  /** A stale append changes nothing; any other makes the node a follower, and succeeds exactly if the logs match. */
  lemma AppendAnswered(s: NodeState, args: AppendArgs)
    ensures var (t, reply) := HandleAppend(s, args);
            && (args.term < s.currentTerm ==> t == s && reply == AppendReply(s.currentTerm, false, 0, 0))
            && (args.term >= s.currentTerm ==> t.role == Follower && t.currentTerm == args.term)
            && (reply.success <==> args.term >= s.currentTerm && HasPrevious(s.log, args))
            && (!reply.success ==> t.log == s.log && t.commitIndex == s.commitIndex)
            && (reply.success ==> reply.conflictTerm == 0 && reply.conflictIndex == 0)
            && (if args.term > s.currentTerm then StartsAfresh(t)
                else t.votedFor == s.votedFor && t.votes == s.votes && t.votesReceived == s.votesReceived)
  {
  }

  /** A refusal names the end of a log that is too short, or the first entry of the term that conflicts. */
  lemma RefusalHints(s: NodeState, args: AppendArgs)
    requires args.term >= s.currentTerm && !HandleAppend(s, args).1.success
    ensures var reply := HandleAppend(s, args).1;
            if args.prevLogIndex > |s.log| then reply.conflictTerm == 0 && reply.conflictIndex == |s.log| + 1
            else
              && reply.conflictTerm == s.log[args.prevLogIndex - 1].term
              && 1 <= reply.conflictIndex <= args.prevLogIndex
              && s.log[reply.conflictIndex - 1].term == reply.conflictTerm
              && forall i | 0 <= i < reply.conflictIndex - 1 :: s.log[i].term != reply.conflictTerm
  {
    assert Matches(s.log, args) <==> HasPrevious(s.log, args);
  }

  /** An accepted append raises the commit index to what was announced, as far as the log goes. */
  lemma CommitLearned(s: NodeState, args: AppendArgs)
    requires HandleAppend(s, args).1.success
    ensures var t := HandleAppend(s, args).0;
            && (s.commitIndex <= |t.log| ==> t.commitIndex == Max(s.commitIndex, Min(args.leaderCommit, |t.log|)))
            && (args.leaderCommit <= s.commitIndex ==> t.commitIndex == s.commitIndex)
            && (args.leaderCommit > s.commitIndex ==> t.commitIndex <= |t.log|)
  {
  }

  // ----- clients and restarts -----

  /** A command becomes one entry of the leader's term at the end of its log. */
  lemma CommandAppended(s: NodeState, command: Command)
    requires s.role == Leader
    ensures var t, e := Submit(s, command), Entry(s.currentTerm, |s.log| + 1, command);
            && t == s.(log := t.log, wal := t.wal, submissions := t.submissions)
            && |t.log| == |s.log| + 1 && s.log <= t.log && t.log[|s.log|] == e
            && t.submissions == s.submissions + {Submission(e.index, e.term, e.command)}
  {
  }

  /** A client that has its answer gets no other, and all others go on waiting. */
  lemma AnsweredOnce(cfg: Config, s: System, n: NodeId, sub: Submission)
    requires Enabled(cfg, s, ClientReturn(n, sub))
    ensures var st, t := s.nodes[n], NextNode(cfg, s, ClientReturn(n, sub));
            && t == st.(submissions := t.submissions)
            && forall x :: x in t.submissions <==> x in st.submissions && x != sub
  {
  }

  /** A restarted node follows, knows of no commit, and has delivered nothing. */
  lemma RestartForgets(s: NodeState, left: nat)
    ensures var t := Restart(s, left);
            && t.role == Follower && t.votes == 0 && t.votesReceived == {} && t.discarded == 0
            && t.commitIndex == 0 && t.lastApplied == 0 && t.delivered == [] && t.phase == Idle
            && t.nextIndex == map[] && t.matchIndex == map[] && t.tickets == {} && t.submissions == {}
  {
  }

  // ----- replies to appends -----

  /** A leader's bookkeeping about one peer. */
  ghost predicate Counts(s: NodeState, t: NodeState, p: NodeId, next: nat, match': nat) {
    && Lookup(t.nextIndex, p) == next && Lookup(t.matchIndex, p) == match'
    && forall q | q != p ::
         Lookup(t.nextIndex, q) == Lookup(s.nextIndex, q) && Lookup(t.matchIndex, q) == Lookup(s.matchIndex, q)
  }

  /**
   * A success raises both indices of the sender to the last entry it was sent, never lowers them, and then
   * moves the commit index to the highest entry of the term that a majority now holds, if there is a new one.
   */
  lemma SuccessCounted(s: NodeState, peers: seq<NodeId>, from: NodeId, args: AppendArgs, reply: AppendReply)
    requires s.role == Leader && s.currentTerm == args.term && reply.term <= s.currentTerm
    requires reply.success && args.entries != []
    requires forall i, j | 0 <= i <= j < |s.log| :: s.log[i].term <= s.log[j].term <= s.currentTerm
    requires args.entries[|args.entries| - 1].index <= |s.log|
    requires forall i | 0 <= i < |peers| :: Lookup(s.matchIndex, peers[i]) <= |s.log|
    ensures var t, last := HandleAppendReply(s, peers, from, args, reply), args.entries[|args.entries| - 1].index;
            && Counts(s, t, from, Max(Lookup(s.nextIndex, from), last + 1), Max(Lookup(s.matchIndex, from), last))
            && t == s.(nextIndex := t.nextIndex, matchIndex := t.matchIndex, commitIndex := t.commitIndex)
            && var u := s.(matchIndex := t.matchIndex);
               if exists x: nat :: Committable(u, peers, x)
               then Committable(u, peers, t.commitIndex)
                    && forall x: nat | Committable(u, peers, x) :: x <= t.commitIndex
               else t.commitIndex == s.commitIndex
  {
    var last := args.entries[|args.entries| - 1].index;
    var v := s.(nextIndex := Raise(s.nextIndex, from, last + 1), matchIndex := Raise(s.matchIndex, from, last));
    AdvanceCommitFindsHighest(v, peers);
    var u := s.(matchIndex := v.matchIndex);
    assert MatchIndices(u, peers) == MatchIndices(v, peers);
    assert forall x: nat :: Committable(u, peers, x) <==> Committable(v, peers, x);
  }

  /** A success without entries counts nothing. */
  lemma EmptySuccess(s: NodeState, peers: seq<NodeId>, from: NodeId, args: AppendArgs, reply: AppendReply)
    requires reply.term <= s.currentTerm && reply.success && args.entries == []
    ensures HandleAppendReply(s, peers, from, args, reply) == s
  {
  }

  /**
   * A refusal moves only the sender's nextIndex: behind the leader's last entry of the conflicting term, or
   * else to the hint, or, without a hint, down by one.
   */
  lemma RefusalCounted(s: NodeState, peers: seq<NodeId>, from: NodeId, args: AppendArgs, reply: AppendReply)
    requires s.role == Leader && s.currentTerm == args.term && reply.term <= s.currentTerm && !reply.success
    ensures var t := HandleAppendReply(s, peers, from, args, reply);
            var next := Lookup(t.nextIndex, from);
            && t == s.(nextIndex := t.nextIndex) && Counts(s, t, from, next, Lookup(s.matchIndex, from))
            && (reply.conflictTerm > 0 && (exists i | 0 <= i < |s.log| :: s.log[i].term == reply.conflictTerm) ==>
                  && 2 <= next <= |s.log| + 1 && s.log[next - 2].term == reply.conflictTerm
                  && forall i | next - 1 <= i < |s.log| :: s.log[i].term != reply.conflictTerm)
            && (reply.conflictTerm > 0 && (forall i | 0 <= i < |s.log| :: s.log[i].term != reply.conflictTerm) ==>
                  next == reply.conflictIndex)
            && (reply.conflictTerm == 0 && reply.conflictIndex > 0 ==> next == reply.conflictIndex)
            && (reply.conflictTerm == 0 && reply.conflictIndex == 0 && Lookup(s.nextIndex, from) > 1 ==>
                  next == Lookup(s.nextIndex, from) - 1)
            && (reply.conflictTerm == 0 && reply.conflictIndex == 0 && Lookup(s.nextIndex, from) <= 1 ==> t == s)
  {
    var last := LastIndexOfTerm(s.log, reply.conflictTerm);
  }

  // ----- records -----

  /** How many entries at the front of two logs have the same terms. */
  ghost function Kept(a: Log, b: Log): (k: nat)
    ensures k <= |a| && k <= |b|
    ensures forall i | 0 <= i < k :: a[i].term == b[i].term
    ensures k < |a| && k < |b| ==> a[k].term != b[k].term
  {
    if a != [] && b != [] && a[0].term == b[0].term then 1 + Kept(a[1..], b[1..]) else 0
  }

  lemma KeptIs(a: Log, b: Log, k: nat)
    requires k <= |a| && k <= |b| && a[..k] == b[..k] && (k < |a| && k < |b| ==> a[k].term != b[k].term)
    ensures Kept(a, b) == k
  {
    assert forall i | 0 <= i < k :: a[..k][i] == a[i] && b[..k][i] == b[i];
  }

  /** The node votes: for itself, or for the candidate that it grants its vote. */
  predicate Votes(s: NodeState, a: Action) {
    a.ElectionTimeout? || (a.DeliverVoteRequest? && a.m.RequestVote? && HandleVote(s, a.m.vote).1.granted)
  }

  /** What a step from `s` to `t` must record: the term if it is new, a vote if one is cast, and new entries. */
  ghost function Due(s: NodeState, t: NodeState, votes: bool): seq<Record> {
    (if t.currentTerm != s.currentTerm then [TermRecord(t.currentTerm)] else [])
    + (if votes then [VoteRecord(t.votedFor, t.currentTerm)] else [])
    + EntryRecords(t.log[Kept(s.log, t.log)..])
  }

  lemma Spliced(log: Log, k: nat, more: seq<Entry>, r: Log)
    requires k <= |log| && more != [] && (k < |log| ==> log[k].term != more[0].term) && r == log[..k] + more
    ensures r[Kept(log, r)..] == more
  {
    assert r[..k] == log[..k] && r[k] == more[0];
    KeptIs(log, r, k);
    assert r[k..] == more;
  }

  lemma NothingNew(log: Log)
    ensures log[Kept(log, log)..] == []
  {
    KeptIs(log, log, |log|);
  }

  /** `r` is `log` with `entries` from `d` on behind `prev + d`, if any are left. */
  ghost predicate Merged(log: Log, prev: nat, entries: seq<Entry>, d: nat, r: Log) {
    && d <= |entries| && (d == |entries| ==> r == log)
    && (d < |entries| ==>
          && prev + d <= |log| && r == log[..prev + d] + entries[d..]
          && (prev + d < |log| ==> log[prev + d].term != entries[d].term))
  }

  lemma MergeCases(log: Log, prev: nat, entries: seq<Entry>) returns (d: nat, r: Log)
    requires prev <= |log|
    ensures d == Divergence(log, prev, entries) && r == MergeEntries(log, prev, entries)
    ensures Merged(log, prev, entries, d, r)
  {
    d, r := Divergence(log, prev, entries), MergeEntries(log, prev, entries);
  }

  lemma MergedKept(log: Log, prev: nat, entries: seq<Entry>, d: nat, r: Log)
    requires Merged(log, prev, entries, d, r)
    ensures r[Kept(log, r)..] == entries[d..]
  {
    if d == |entries| {
      NothingNew(log);
    } else {
      Spliced(log, prev + d, entries[d..], r);
    }
  }

  /** The term record that a node writes when it starts to listen. */
  lemma ListenDue(s: NodeState, args: AppendArgs)
    requires args.term >= s.currentTerm
    ensures var t := Listen(s, args);
            t.log == s.log && t.currentTerm == args.term
            && t.wal == s.wal + if args.term != s.currentTerm then [TermRecord(args.term)] else []
  {
  }

  lemma StoreDue(s: NodeState, args: AppendArgs)
    requires args.prevLogIndex <= |s.log|
    ensures var t := StoreEntries(s, args);
            t.currentTerm == s.currentTerm && t.wal == s.wal + EntryRecords(t.log[Kept(s.log, t.log)..])
  {
    var d, r := MergeCases(s.log, args.prevLogIndex, args.entries);
    MergedKept(s.log, args.prevLogIndex, args.entries, d, r);
  }

  lemma DueInParts(s: NodeState, u: NodeState, t: NodeState)
    requires u.log == s.log && t.currentTerm == u.currentTerm
    requires u.wal == s.wal + if u.currentTerm != s.currentTerm then [TermRecord(u.currentTerm)] else []
    requires t.wal == u.wal + EntryRecords(t.log[Kept(s.log, t.log)..])
    ensures t.wal == s.wal + Due(s, t, false)
  {
  }

  lemma AppendInParts(s: NodeState, args: AppendArgs) returns (u: NodeState, t: NodeState)
    requires args.term >= s.currentTerm
    ensures u == Listen(s, args) && t == HandleAppend(s, args).0
    ensures if Matches(u.log, args) then args.prevLogIndex <= |u.log| && t == StoreEntries(u, args) else t == u
  {
    u, t := Listen(s, args), HandleAppend(s, args).0;
  }

  lemma AppendDue(s: NodeState, args: AppendArgs)
    ensures var t := HandleAppend(s, args).0; t.wal == s.wal + Due(s, t, false)
  {
    NothingNew(s.log);
    if args.term >= s.currentTerm {
      var u, t := AppendInParts(s, args);
      ListenDue(s, args);
      if Matches(u.log, args) { StoreDue(u, args); }
      DueInParts(s, u, t);
    }
  }

  lemma OthersDue(cfg: Config, s: System, a: Action)
    requires Enabled(cfg, s, a) && !a.DeliverAppend? && !a.ClientSubmit?
    ensures var st, t := s.nodes[Actor(a)], NextNode(cfg, s, a); t.wal == st.wal + Due(st, t, Votes(st, a))
  {
    LogsConfined(cfg, s, a);
    NothingNew(s.nodes[Actor(a)].log);
  }

  /** Each step records exactly what it changes, once, in this order, before anything is sent. */
  lemma RecordsTellStep(cfg: Config, s: System, a: Action)
    requires Enabled(cfg, s, a)
    ensures var st, t := s.nodes[Actor(a)], NextNode(cfg, s, a); t.wal == st.wal + Due(st, t, Votes(st, a))
  {
    var st, t := s.nodes[Actor(a)], NextNode(cfg, s, a);
    match a {
      case DeliverAppend(m) => AppendDue(st, m.append);
      case ClientSubmit(_, command) =>
        KeptIs(st.log, t.log, |st.log|);
        assert t.log[|st.log|..] == [Entry(st.currentTerm, |st.log| + 1, command)];
      case _ => OthersDue(cfg, s, a);
    }
  }

  // ----- the apply loop -----

  function DeliverMany(s: NodeState, k: nat): NodeState {
    if k == 0 then s else DeliverOne(DeliverMany(s, k - 1))
  }

  lemma {:induction false} DeliveredSoFar(s: NodeState, k: nat)
    requires s.phase.Delivering? && k <= |s.phase.rest|
    ensures DeliverMany(s, k) == s.(delivered := s.delivered + s.phase.rest[..k],
                                    phase := s.phase.(rest := s.phase.rest[k..]))
  {
    if k == 0 {
      assert s.delivered + s.phase.rest[..0] == s.delivered;
    } else {
      DeliveredSoFar(s, k - 1);
      var rest := s.phase.rest;
      assert rest[k - 1..][0] == rest[k - 1] && rest[k - 1..][1..] == rest[k..];
      assert s.delivered + rest[..k - 1] + [rest[k - 1]] == s.delivered + rest[..k];
    }
  }

  /** A batch delivers everything that was committed and not yet applied, in order and once, and then ends. */
  lemma BatchDelivers(s: NodeState, k: nat)
    requires s.phase == Idle && s.lastApplied <= s.commitIndex <= |s.log| && k <= s.commitIndex - s.lastApplied
    ensures var t := EndApply(DeliverMany(BeginApply(s), k));
            if k == s.commitIndex - s.lastApplied
            then t == s.(lastApplied := s.commitIndex,
                         delivered := s.delivered + s.log[s.lastApplied..s.commitIndex])
            else t.lastApplied == s.lastApplied && t.delivered == s.delivered + s.log[s.lastApplied..][..k]
  {
    var b := BeginApply(s);
    if s.lastApplied < s.commitIndex {
      DeliveredSoFar(b, k);
      assert b.phase.rest == s.log[s.lastApplied..s.commitIndex];
      assert b.phase.rest[..k] == s.log[s.lastApplied..][..k];
    } else {
      assert s.log[s.lastApplied..s.commitIndex] == [];
    }
  }

  // ----- what is left alone -----

  /** Who may change a log and a commit index, */
  lemma LogsConfined(cfg: Config, s: System, a: Action)
    requires Enabled(cfg, s, a)
    ensures var st, t := s.nodes[Actor(a)], NextNode(cfg, s, a);
            && (t.log != st.log ==> a.DeliverAppend? || a.ClientSubmit?)
            && (t.commitIndex != st.commitIndex ==> a.DeliverAppend? || a.DeliverAppendReply?)
  {
  }

  /** what a leader knows of its peers, */
  lemma IndicesConfined(cfg: Config, s: System, a: Action)
    requires Enabled(cfg, s, a)
    ensures var st, t := s.nodes[Actor(a)], NextNode(cfg, s, a);
            && (t.nextIndex != st.nextIndex || t.matchIndex != st.matchIndex ==>
                  a.DeliverVoteReply? || a.DeliverAppendReply?)
  {
  }

  /** term, vote and role, */
  lemma RolesConfined(cfg: Config, s: System, a: Action)
    requires Enabled(cfg, s, a) && !a.ElectionTimeout? && !IsDelivery(a)
    ensures var st, t := s.nodes[Actor(a)], NextNode(cfg, s, a);
            && t.currentTerm == st.currentTerm && t.votedFor == st.votedFor && t.role == st.role
            && t.votes == st.votes && t.votesReceived == st.votesReceived
  {
  }

  /** what goroutines hold, */
  lemma GoroutinesConfined(cfg: Config, s: System, a: Action)
    requires Enabled(cfg, s, a)
    ensures var st, t := s.nodes[Actor(a)], NextNode(cfg, s, a);
            && (t.tickets != st.tickets ==> a.BeginHeartbeat?)
            && (t.submissions != st.submissions ==> a.ClientSubmit? || a.ClientReturn?)
  {
  }

  /** and what has been delivered. */
  lemma DeliveriesConfined(cfg: Config, s: System, a: Action)
    requires Enabled(cfg, s, a)
    ensures var st, t := s.nodes[Actor(a)], NextNode(cfg, s, a);
            && (t.phase != st.phase || t.delivered != st.delivered || t.lastApplied != st.lastApplied ==>
                  a.ApplyBegin? || a.ApplyDeliver? || a.ApplyEnd?)
  {
  }
}
