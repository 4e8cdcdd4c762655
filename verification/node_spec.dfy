/**
 * What each critical section of a node does, as functions from state to state
 * (internal/raft/node.go, internal/raft/replication.go).
 */
module NodeSpec {
  import opened Types
  import opened Logs
  import opened Recovery

  /** A heartbeat goroutine between its two critical sections: what the first one captured. */
  datatype Ticket = Ticket(term: nat, commit: nat)

  /** A SubmitCommand call that waits for its entry to be applied. */
  datatype Submission = Submission(index: nat, term: nat, command: Command)

  /** The apply loop, between batches or with part of a batch still to deliver. */
  datatype ApplyPhase = Idle | Delivering(rest: seq<Entry>, newLastApplied: nat)

  datatype NodeState = NodeState(
    currentTerm: nat,
    votedFor: NodeId,
    log: Log,
    role: Role,
    commitIndex: nat,
    lastApplied: nat,
    nextIndex: map<NodeId, nat>,
    matchIndex: map<NodeId, nat>,
    votes: nat,
    votesReceived: set<NodeId>,
    wal: seq<Record>,             // everything persisted so far
    discarded: nat,               // entries this process dropped by conflict truncation, which no record tells
    tickets: set<Ticket>,
    submissions: set<Submission>,
    phase: ApplyPhase,
    delivered: seq<Entry>,        // everything sent on the apply channel by this process
    stray: nat,                   // bytes of an unfinished record behind which this process writes its records
    found: nat)                   // how many records it found before them

  function NewNode(): NodeState {
    NodeState(0, NO_NODE, [], Follower, 0, 0, map[], map[], 0, {}, [], 0, {}, {}, Idle, [], 0, 0)
  }

  /** Reading an absent key of a Go map yields zero. */
  function Lookup(m: map<NodeId, nat>, p: NodeId): nat {
    if p in m then m[p] else 0
  }

  // ----- elections -----

  function StartElection(s: NodeState, id: NodeId): NodeState {
    var term := s.currentTerm + 1;
    s.(currentTerm := term,
       role := Candidate,
       votedFor := id,
       votes := 1,
       votesReceived := {id},
       wal := s.wal + [TermRecord(term)] + [VoteRecord(id, term)])
  }

  function VoteRequest(s: NodeState, id: NodeId): VoteArgs {
    VoteArgs(s.currentTerm, id, |s.log|, LastTerm(s.log))
  }

  function BecomeFollower(s: NodeState, term: nat): NodeState {
    var t := if term > s.currentTerm
             then s.(currentTerm := term, votedFor := NO_NODE, wal := s.wal + [TermRecord(term)])
             else s;
    t.(role := Follower, votes := 0, votesReceived := {})
  }

  /** The same value for all peers. */
  function Filled(m: map<NodeId, nat>, peers: seq<NodeId>, v: nat): (r: map<NodeId, nat>)
    ensures forall p | p in peers :: p in r && r[p] == v
    ensures forall p | p !in peers :: (p in r <==> p in m) && (p in m ==> r[p] == m[p])
  {
    if peers == [] then m else Filled(m, peers[..|peers| - 1], v)[peers[|peers| - 1] := v]
  }

  function BecomeLeader(s: NodeState, peers: seq<NodeId>): NodeState {
    s.(role := Leader,
       nextIndex := Filled(s.nextIndex, peers, |s.log| + 1),
       matchIndex := Filled(s.matchIndex, peers, 0))
  }

  predicate GrantsVote(s: NodeState, args: VoteArgs) {
    && args.term >= s.currentTerm
    && (s.votedFor == NO_NODE || s.votedFor == args.candidate || args.term > s.currentTerm)
    && UpToDate(args.lastLogTerm, args.lastLogIndex, s.log)
  }

  function HandleVote(s: NodeState, args: VoteArgs): (NodeState, VoteReply) {
    var t := if args.term > s.currentTerm then BecomeFollower(s, args.term) else s;
    if GrantsVote(s, args) then
      (t.(votedFor := args.candidate, wal := t.wal + [VoteRecord(args.candidate, t.currentTerm)]),
       VoteReply(t.currentTerm, true))
    else
      (t, VoteReply(t.currentTerm, false))
  }

  function Majority(peers: seq<NodeId>): nat {
    (|peers| + 1) / 2 + 1
  }

  /** The reply of `from` to the vote request this node sent in `term`. */
  function HandleVoteReply(s: NodeState, peers: seq<NodeId>, from: NodeId, term: nat, reply: VoteReply): NodeState {
    if s.currentTerm != term || s.role != Candidate then s
    else if reply.term > s.currentTerm then BecomeFollower(s, reply.term)
    else if !reply.granted || from in s.votesReceived then s
    else
      var t := s.(votesReceived := s.votesReceived + {from}, votes := s.votes + 1);
      if t.votes >= Majority(peers) then BecomeLeader(t, peers) else t
  }

  // ----- sending entries -----

  /** Unsigned subtraction: zero wraps around. */
  function Decrement(i: nat): nat {
    if i == 0 then 0xFFFF_FFFF_FFFF_FFFF else i - 1
  }

  /** What is sent to `p`: always the complete suffix from nextIndex. */
  function AppendRequest(s: NodeState, id: NodeId, p: NodeId, ticket: Ticket): AppendArgs {
    var next := Lookup(s.nextIndex, p);
    AppendArgs(ticket.term, id, Decrement(next), TermAt(s.log, Decrement(next)), EntriesFrom(s.log, next),
      ticket.commit)
  }

  // ----- receiving entries -----

  /**
   * The position in `entries` of the first one that `log` lacks or holds with another term;
   * `|entries|` if there is none.
   */
  function Divergence(log: Log, prev: nat, entries: seq<Entry>): (d: nat)
    ensures d <= |entries| && (d > 0 ==> prev + d <= |log|)
    ensures forall j | 0 <= j < d :: prev + j < |log| && log[prev + j].term == entries[j].term
    ensures d < |entries| ==> prev + d >= |log| || log[prev + d].term != entries[d].term
  {
    DivergenceFrom(log, prev, entries, 0)
  }

  function DivergenceFrom(log: Log, prev: nat, entries: seq<Entry>, i: nat): (d: nat)
    requires i <= |entries|
    ensures i <= d <= |entries| && (d > i ==> prev + d <= |log|)
    ensures forall j | i <= j < d :: prev + j < |log| && log[prev + j].term == entries[j].term
    ensures d < |entries| ==> prev + d >= |log| || log[prev + d].term != entries[d].term
    decreases |entries| - i
  {
    if i == |entries| || prev + i >= |log| || log[prev + i].term != entries[i].term then i
    else DivergenceFrom(log, prev, entries, i + 1)
  }

  /** The log after accepting `entries` behind `prev`: kept up to the divergence, replaced after it. */
  function MergeEntries(log: Log, prev: nat, entries: seq<Entry>): Log
    requires prev <= |log|
  {
    var d := Divergence(log, prev, entries);
    if d == |entries| then log else log[..prev + d] + entries[d..]
  }

  function EntryRecords(entries: seq<Entry>): seq<Record> {
    seq(|entries|, i requires 0 <= i < |entries| =>
        EntryRecord(entries[i].index, entries[i].term, entries[i].command))
  }

  /** The first index holding `term`, or 0. */
  function FirstIndexOfTerm(log: Log, term: nat): (r: nat)
    ensures r <= |log|
    ensures r > 0 ==> log[r - 1].term == term && forall i | 0 <= i < r - 1 :: log[i].term != term
    ensures r == 0 ==> forall i | 0 <= i < |log| :: log[i].term != term
  {
    FirstIndexFrom(log, term, 0)
  }

  function FirstIndexFrom(log: Log, term: nat, i: nat): (r: nat)
    requires i <= |log|
    ensures r == 0 || i < r <= |log|
    ensures r > 0 ==> log[r - 1].term == term && forall j | i <= j < r - 1 :: log[j].term != term
    ensures r == 0 ==> forall j | i <= j < |log| :: log[j].term != term
    decreases |log| - i
  {
    if i == |log| then 0 else if log[i].term == term then i + 1 else FirstIndexFrom(log, term, i + 1)
  }

  /** The last index holding `term`, or 0. */
  function LastIndexOfTerm(log: Log, term: nat): (r: nat)
    ensures r <= |log|
    ensures r > 0 ==> log[r - 1].term == term && forall i | r <= i < |log| :: log[i].term != term
    ensures r == 0 ==> forall i | 0 <= i < |log| :: log[i].term != term
  {
    if log == [] then 0
    else if log[|log| - 1].term == term then |log|
    else LastIndexOfTerm(log[..|log| - 1], term)
  }

  /** The term a node is in, and the role it has, once it listens to the sender of `args`. */
  function Listen(s: NodeState, args: AppendArgs): NodeState {
    var t := if args.term > s.currentTerm then BecomeFollower(s, args.term) else s;
    t.(role := Follower)
  }

  /** The log holds the entry that the sent ones follow. */
  predicate Matches(log: Log, args: AppendArgs) {
    args.prevLogIndex == 0
    || (Contains(log, args.prevLogIndex) && TermAt(log, args.prevLogIndex) == args.prevLogTerm)
  }

  function Refusal(s: NodeState, args: AppendArgs): AppendReply {
    if !Contains(s.log, args.prevLogIndex) then
      AppendReply(s.currentTerm, false, 0, |s.log| + 1)
    else
      var t := TermAt(s.log, args.prevLogIndex);
      AppendReply(s.currentTerm, false, t, FirstIndexOfTerm(s.log, t))
  }

  /** Store the entries, persist those that were new, and learn the leader's commit index. */
  function StoreEntries(s: NodeState, args: AppendArgs): NodeState
    requires args.prevLogIndex <= |s.log|
  {
    var d := Divergence(s.log, args.prevLogIndex, args.entries);
    var log := MergeEntries(s.log, args.prevLogIndex, args.entries);
    s.(log := log,
       wal := s.wal + EntryRecords(args.entries[d..]),
       discarded := s.discarded + if d < |args.entries| && args.prevLogIndex + d < |s.log|
                                  then |s.log| - (args.prevLogIndex + d) else 0,
       commitIndex := if args.leaderCommit > s.commitIndex then Min(args.leaderCommit, |log|) else s.commitIndex)
  }

  function HandleAppend(s: NodeState, args: AppendArgs): (NodeState, AppendReply) {
    if args.term < s.currentTerm then
      (s, AppendReply(s.currentTerm, false, 0, 0))
    else
      var t := Listen(s, args);
      if Matches(t.log, args) then
        (StoreEntries(t, args), AppendReply(t.currentTerm, true, 0, 0))
      else
        (t, Refusal(t, args))
  }

  // ----- learning what followers hold -----

  /** nextIndex after a refusal. */
  function RollBack(log: Log, next: nat, reply: AppendReply): nat {
    if reply.conflictTerm > 0 then
      var last := LastIndexOfTerm(log, reply.conflictTerm);
      if last > 0 then last + 1 else reply.conflictIndex
    else if reply.conflictIndex > 0 then reply.conflictIndex
    else if next > 1 then next - 1
    else next
  }

  /** nextIndex of all peers after a refusal by `p`; the last resort writes only if it can count down. */
  function RolledBack(nextIndex: map<NodeId, nat>, log: Log, p: NodeId, reply: AppendReply): map<NodeId, nat> {
    var next := Lookup(nextIndex, p);
    if reply.conflictTerm == 0 && reply.conflictIndex == 0 && next <= 1 then nextIndex
    else nextIndex[p := RollBack(log, next, reply)]
  }

  /** Indices only go up: a lower value leaves the map alone. */
  function Raise(m: map<NodeId, nat>, p: NodeId, v: nat): map<NodeId, nat> {
    if v > Lookup(m, p) then m[p := v] else m
  }

  lemma RaiseIsMax(m: map<NodeId, nat>, p: NodeId, v: nat)
    requires p in m
    ensures Raise(m, p, v) == m[p := Max(v, m[p])]
  {
    assert v <= m[p] ==> m[p := m[p]] == m;
  }

  function Insert(x: nat, sorted: seq<nat>): seq<nat> {
    if sorted == [] || x >= sorted[0] then [x] + sorted else [sorted[0]] + Insert(x, sorted[1..])
  }

  function SortDescending(s: seq<nat>): seq<nat> {
    if s == [] then [] else Insert(s[0], SortDescending(s[1..]))
  }

  /** What the leader itself and each peer are known to hold. */
  function MatchIndices(s: NodeState, peers: seq<NodeId>): seq<nat> {
    [|s.log|] + seq(|peers|, i requires 0 <= i < |peers| => Lookup(s.matchIndex, peers[i]))
  }

  /** The middle of the sorted match indices. */
  function MiddleMatch(matches: seq<nat>): nat {
    var sorted := SortDescending(matches);
    if |matches| / 2 < |sorted| then sorted[|matches| / 2] else 0
  }

  function AdvanceCommit(s: NodeState, peers: seq<NodeId>): NodeState {
    var c := MiddleMatch(MatchIndices(s, peers));
    if c > s.commitIndex && Contains(s.log, c) && TermAt(s.log, c) == s.currentTerm
    then s.(commitIndex := c)
    else s
  }

  /** The reply of `from` to `args`, which this node sent. */
  function HandleAppendReply(s: NodeState, peers: seq<NodeId>, from: NodeId, args: AppendArgs,
          reply: AppendReply): NodeState {
    if s.role != Leader || s.currentTerm != args.term then s
    else if reply.term > s.currentTerm then BecomeFollower(s, reply.term)
    else if reply.success then
      if args.entries == [] then s
      else
        var last := args.entries[|args.entries| - 1].index;
        AdvanceCommit(s.(nextIndex := Raise(s.nextIndex, from, last + 1),
                         matchIndex := Raise(s.matchIndex, from, last)), peers)
    else s.(nextIndex := RolledBack(s.nextIndex, s.log, from, reply))
  }

  // ----- clients -----

  function Submit(s: NodeState, command: Command): NodeState
    requires s.role == Leader
  {
    var e := Entry(s.currentTerm, |s.log| + 1, command);
    s.(log := s.log + [e],
       wal := s.wal + [EntryRecord(e.index, e.term, e.command)],
       submissions := s.submissions + {Submission(e.index, e.term, e.command)})
  }

  /** SubmitCommand returns success: still leading the same term, and the entry has been applied. */
  predicate SubmitReturns(s: NodeState, sub: Submission) {
    sub in s.submissions && s.role == Leader && s.currentTerm == sub.term && s.lastApplied >= sub.index
  }

  // ----- the apply loop -----

  /** The entries from `first` to `last`, as far as they exist. */
  function EntriesBetween(log: Log, first: nat, last: nat): seq<Entry>
    requires first >= 1
  {
    if first > last || first > |log| then [] else log[first - 1..Min(last, |log|)]
  }

  function BeginApply(s: NodeState): NodeState {
    if s.phase == Idle && s.lastApplied < s.commitIndex
    then s.(phase := Delivering(EntriesBetween(s.log, s.lastApplied + 1, s.commitIndex), s.commitIndex))
    else s
  }

  function DeliverOne(s: NodeState): NodeState {
    if s.phase.Delivering? && s.phase.rest != []
    then s.(delivered := s.delivered + [s.phase.rest[0]], phase := s.phase.(rest := s.phase.rest[1..]))
    else s
  }

  function EndApply(s: NodeState): NodeState {
    if s.phase.Delivering? && s.phase.rest == []
    then s.(lastApplied := s.phase.newLastApplied, phase := Idle)
    else s
  }

  // ----- crash and restart -----

  /** A new process: everything volatile is gone, the rest comes back from the records. */
  function Boot(wal: seq<Record>, stray: nat): NodeState {
    var r := Fold(wal);
    NewNode().(currentTerm := r.term, votedFor := r.votedFor, log := r.entries,
               wal := wal, stray := stray, found := |wal|)
  }

  /**
   * With this term and vote, a server keeps to its vote for `c` in `term`: it will vote for nobody else in
   * that term.
   */
  predicate KeepsTo(currentTerm: nat, votedFor: NodeId, c: NodeId, term: nat) {
    term < currentTerm || (term == currentTerm && votedFor == c)
  }

  /** No record lies behind stray bytes. */
  predicate Intact(s: NodeState) {
    s.stray == 0 || |s.wal| <= s.found
  }

  /** The records that replay finds: what lies behind stray bytes is cut off. */
  function Readable(s: NodeState): seq<Record> {
    if Intact(s) then s.wal else s.wal[..s.found]
  }

  /**
   * A crash that leaves the first `left` bytes of one more record, and a restart. Replay leaves one to
   * seven stray bytes in place and cuts off more, or anything that lies behind them.
   */
  function Restart(s: NodeState, left: nat): NodeState {
    Boot(Readable(s), if Intact(s) && s.stray + left <= 7 then s.stray + left else 0)
  }
}
