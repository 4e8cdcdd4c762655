/**
 * A cluster: nodes and the messages ever sent. A message stays deliverable for ever, so it may be
 * lost, delayed, reordered or delivered again; each reply carries the request it answers, as the
 * blocking calls of the source pair them. Every step is one critical section of one node, or a crash
 * in the middle of one.
 */
module Cluster {
  import opened Types
  import opened Logs
  import opened Quorums
  import opened Recovery
  import opened NodeSpec

  /** Each server's own list of peers. */
  datatype Config = Config(servers: set<NodeId>, peers: map<NodeId, seq<NodeId>>)

  ghost predicate PeersOk(cfg: Config, n: NodeId) {
    n in cfg.peers && NoDuplicates(cfg.peers[n]) && Elements(cfg.peers[n]) == cfg.servers - {n}
  }

  ghost predicate ValidConfig(cfg: Config) {
    NO_NODE !in cfg.servers && forall n {:trigger PeersOk(cfg, n)} | n in cfg.servers :: PeersOk(cfg, n)
  }

  datatype Message =
    | RequestVote(src: NodeId, dst: NodeId, vote: VoteArgs)
    | VoteResponse(src: NodeId, dst: NodeId, vote: VoteArgs, voteReply: VoteReply)
    | AppendEntries(src: NodeId, dst: NodeId, append: AppendArgs)
    | AppendResponse(src: NodeId, dst: NodeId, append: AppendArgs, appendReply: AppendReply)

  datatype System = System(nodes: map<NodeId, NodeState>, net: set<Message>)

  /** One critical section of one node. */
  datatype Action =
    | ElectionTimeout(n: NodeId)                     // from any role: run() releases the lock before it
    | DeliverVoteRequest(m: Message)
    | DeliverVoteReply(m: Message)
    | BeginHeartbeat(n: NodeId)                      // first critical section of sendHeartbeats
    | SendHeartbeat(n: NodeId, p: NodeId, t: Ticket) // second one, with no check of the role
    | Replicate(n: NodeId, p: NodeId)                // one tick of replicateLog
    | DeliverAppend(m: Message)
    | DeliverAppendReply(m: Message)
    | ClientSubmit(n: NodeId, command: Command)
    | ClientReturn(n: NodeId, sub: Submission)
    | ApplyBegin(n: NodeId)
    | ApplyDeliver(n: NodeId)
    | ApplyEnd(n: NodeId)

  /** The node that acts. */
  function Actor(a: Action): NodeId {
    match a
    case DeliverVoteRequest(m) => m.dst
    case DeliverVoteReply(m) => m.dst
    case DeliverAppend(m) => m.dst
    case DeliverAppendReply(m) => m.dst
    case _ => a.n
  }

  ghost predicate Init(cfg: Config, s: System) {
    s.nodes.Keys == cfg.servers && s.net == {} && forall n | n in cfg.servers :: s.nodes[n] == NewNode()
  }

  predicate Enabled(cfg: Config, s: System, a: Action) {
    var n := Actor(a);
    && n in cfg.servers && n in cfg.peers && n in s.nodes
    && match a
       case ElectionTimeout(_) => true
       case DeliverVoteRequest(m) => m in s.net && m.RequestVote?
       case DeliverVoteReply(m) => m in s.net && m.VoteResponse?
       case BeginHeartbeat(_) => s.nodes[n].role == Leader
       case SendHeartbeat(_, p, t) => p in cfg.peers[n] && t in s.nodes[n].tickets
       case Replicate(_, p) => p in cfg.peers[n] && s.nodes[n].role == Leader
                               && EntriesFrom(s.nodes[n].log, Lookup(s.nodes[n].nextIndex, p)) != []
       case DeliverAppend(m) => m in s.net && m.AppendEntries?
       case DeliverAppendReply(m) => m in s.net && m.AppendResponse?
       case ClientSubmit(_, _) => s.nodes[n].role == Leader
       case ClientReturn(_, sub) => SubmitReturns(s.nodes[n], sub)
       case ApplyBegin(_) => true
       case ApplyDeliver(_) => true
       case ApplyEnd(_) => true
  }

  /** The acting node's next state. */
  function NextNode(cfg: Config, s: System, a: Action): NodeState
    requires Enabled(cfg, s, a)
  {
    var n := Actor(a);
    var st := s.nodes[n];
    match a
    case ElectionTimeout(_) => StartElection(st, n)
    case DeliverVoteRequest(m) => HandleVote(st, m.vote).0
    case DeliverVoteReply(m) => HandleVoteReply(st, cfg.peers[n], m.src, m.vote.term, m.voteReply)
    case BeginHeartbeat(_) => st.(tickets := st.tickets + {Ticket(st.currentTerm, st.commitIndex)})
    case SendHeartbeat(_, _, _) => st
    case Replicate(_, _) => st
    case DeliverAppend(m) => HandleAppend(st, m.append).0
    case DeliverAppendReply(m) => HandleAppendReply(st, cfg.peers[n], m.src, m.append, m.appendReply)
    case ClientSubmit(_, command) => Submit(st, command)
    case ClientReturn(_, sub) => st.(submissions := st.submissions - {sub})
    case ApplyBegin(_) => BeginApply(st)
    case ApplyDeliver(_) => DeliverOne(st)
    case ApplyEnd(_) => EndApply(st)
  }

  /** The messages it sends. */
  function Sent(cfg: Config, s: System, a: Action): set<Message>
    requires Enabled(cfg, s, a)
  {
    var n := Actor(a);
    var st := s.nodes[n];
    match a
    case ElectionTimeout(_) =>
      set p | p in cfg.peers[n] :: RequestVote(n, p, VoteRequest(StartElection(st, n), n))
    case DeliverVoteRequest(m) => {VoteResponse(n, m.src, m.vote, HandleVote(st, m.vote).1)}
    case SendHeartbeat(_, p, t) => {AppendEntries(n, p, AppendRequest(st, n, p, t))}
    case Replicate(_, p) =>
      {AppendEntries(n, p, AppendRequest(st, n, p, Ticket(st.currentTerm, st.commitIndex)))}
    case DeliverAppend(m) => {AppendResponse(n, m.src, m.append, HandleAppend(st, m.append).1)}
    case _ => {}
  }

  // Records are only ever added, behind the same stray bytes.

  lemma AppendAdds(s: NodeState, args: AppendArgs)
    ensures s.wal <= HandleAppend(s, args).0.wal
  {
  }

  lemma ReplyAdds(s: NodeState, peers: seq<NodeId>, from: NodeId, args: AppendArgs, reply: AppendReply)
    ensures s.wal <= HandleAppendReply(s, peers, from, args, reply).wal
  {
  }

  lemma WalGrows(cfg: Config, s: System, a: Action)
    requires Enabled(cfg, s, a)
    ensures s.nodes[Actor(a)].wal <= NextNode(cfg, s, a).wal
  {
    var st := s.nodes[Actor(a)];
    match a {
      case DeliverAppend(m) => AppendAdds(st, m.append);
      case DeliverAppendReply(m) => ReplyAdds(st, cfg.peers[m.dst], m.src, m.append, m.appendReply);
      case _ =>
    }
  }

  lemma OnlyAppendsDrop(cfg: Config, s: System, a: Action)
    requires Enabled(cfg, s, a)
    ensures NextNode(cfg, s, a).discarded != s.nodes[Actor(a)].discarded ==>
              a.DeliverAppend? && NextNode(cfg, s, a) == HandleAppend(s.nodes[a.m.dst], a.m.append).0
  {
  }

  lemma StraysStay(cfg: Config, s: System, a: Action)
    requires Enabled(cfg, s, a)
    ensures NextNode(cfg, s, a).stray == s.nodes[Actor(a)].stray && NextNode(cfg, s, a).found == s.nodes[Actor(a)].found
  {
  }

  /**
   * An action that completes; or a crash after some of its records were written, and `left` bytes of the
   * next one, and before anything was sent, followed by a restart. If the next record will start a new
   * file, bytes left at the end of the old one do not matter, and `left` counts as 0.
   */
  datatype Step = Complete(a: Action) | Crash(a: Action, written: nat, left: nat)

  predicate CanHappen(cfg: Config, s: System, step: Step) {
    && Enabled(cfg, s, step.a)
    && (step.Crash? ==>
          var before, after := |s.nodes[Actor(step.a)].wal|, |NextNode(cfg, s, step.a).wal|;
          before + step.written <= after && (step.left > 0 ==> before + step.written < after))
  }

  /** The node as the crash finds it on disk. */
  function Crashed(cfg: Config, s: System, a: Action, written: nat): NodeState
    requires CanHappen(cfg, s, Crash(a, written, 0))
  {
    var st := s.nodes[Actor(a)];
    st.(wal := NextNode(cfg, s, a).wal[..|st.wal| + written])
  }

  // ----- which restarts are harmless, and to what -----

  /** What replay finds: everything written so far, or what lies in front of stray bytes. */
  function Found(cfg: Config, s: System, a: Action, written: nat): seq<Record>
    requires CanHappen(cfg, s, Crash(a, written, 0))
  {
    Readable(Crashed(cfg, s, a, written))
  }

  /** The restarted server keeps to every vote of which it has written a record. */
  predicate KeepsVotes(cfg: Config, s: System, step: Step) {
    && CanHappen(cfg, s, step)
    && (step.Crash? ==>
          var r := Fold(Found(cfg, s, step.a, step.written));
          forall rec | rec in s.nodes[Actor(step.a)].wal && rec.VoteRecord? ::
            KeepsTo(r.term, r.votedFor, rec.votedFor, rec.term))
  }

  /** No lost record tells a later term than the ones that are found. */
  predicate KeepsTerms(cfg: Config, s: System, step: Step) {
    && CanHappen(cfg, s, step)
    && (step.Crash? ==>
          var wal, found := s.nodes[Actor(step.a)].wal, Found(cfg, s, step.a, step.written);
          forall i | |found| <= i < |wal| :: TermOf(wal[i]) <= Fold(found).term)
  }

  /** No entry is lost. */
  predicate KeepsEntries(cfg: Config, s: System, step: Step) {
    && CanHappen(cfg, s, step)
    && (step.Crash? ==>
          var wal, found := s.nodes[Actor(step.a)].wal, Found(cfg, s, step.a, step.written);
          forall i | |found| <= i < |wal| :: !wal[i].EntryRecord?)
  }

  /** Nothing is lost at all: no record lies behind stray bytes. */
  predicate LosesNothing(cfg: Config, s: System, step: Step) {
    CanHappen(cfg, s, step) && (step.Crash? ==> Intact(Crashed(cfg, s, step.a, step.written)))
  }

  /**
   * The records that are found tell the log. No record tells of a truncation, so the process must not have
   * truncated its log, and no entry may be found of an append that makes it do so.
   */
  predicate TellsLog(cfg: Config, s: System, step: Step) {
    && CanHappen(cfg, s, step)
    && (step.Crash? ==>
          var st, st' := s.nodes[Actor(step.a)], NextNode(cfg, s, step.a);
          && st.discarded == 0
          && (st'.discarded == 0 ||
              forall i | |st.wal| <= i < |Found(cfg, s, step.a, step.written)| :: !st'.wal[i].EntryRecord?))
  }

  /** The steps that the theorems on logs, commits and deliveries are about. */
  predicate Possible(cfg: Config, s: System, step: Step) {
    KeepsVotes(cfg, s, step) && KeepsTerms(cfg, s, step) && KeepsEntries(cfg, s, step) && TellsLog(cfg, s, step)
  }

  function Next(cfg: Config, s: System, step: Step): System
    requires CanHappen(cfg, s, step)
  {
    var n := Actor(step.a);
    match step
    case Complete(a) => System(s.nodes[n := NextNode(cfg, s, a)], s.net + Sent(cfg, s, a))
    case Crash(a, written, left) => System(s.nodes[n := Restart(Crashed(cfg, s, a, written), left)], s.net)
  }

  /** A run: the states it passes through and the steps between them. */
  datatype Run = Run(states: seq<System>, steps: seq<Step>)

  ghost predicate Linked(cfg: Config, run: Run, i: nat)
    requires |run.states| == |run.steps| + 1 && i < |run.steps|
  {
    CanHappen(cfg, run.states[i], run.steps[i]) && run.states[i + 1] == Next(cfg, run.states[i], run.steps[i])
  }

  /** A run in which any node may crash and restart at any time. */
  ghost predicate IsAnyRun(cfg: Config, run: Run) {
    && ValidConfig(cfg)
    && |run.states| == |run.steps| + 1
    && Init(cfg, run.states[0])
    && forall i {:trigger Linked(cfg, run, i)} | 0 <= i < |run.steps| :: Linked(cfg, run, i)
  }

  /** A run in which no restart makes a server forget a vote. */
  ghost predicate IsVoteRun(cfg: Config, run: Run) {
    IsAnyRun(cfg, run)
    && forall i {:trigger Linked(cfg, run, i)} | 0 <= i < |run.steps| :: KeepsVotes(cfg, run.states[i], run.steps[i])
  }

  /** A run in which no restart loses a record. */
  ghost predicate IsIntactRun(cfg: Config, run: Run) {
    IsAnyRun(cfg, run)
    && forall i {:trigger Linked(cfg, run, i)} | 0 <= i < |run.steps| :: LosesNothing(cfg, run.states[i], run.steps[i])
  }

  ghost predicate IsStep(cfg: Config, run: Run, i: nat)
    requires |run.states| == |run.steps| + 1 && i < |run.steps|
  {
    Possible(cfg, run.states[i], run.steps[i]) && run.states[i + 1] == Next(cfg, run.states[i], run.steps[i])
  }

  /** A run in which no restart forgets a vote, a term or an entry, or brings back a log that was truncated. */
  ghost predicate IsRun(cfg: Config, run: Run) {
    && ValidConfig(cfg)
    && |run.states| == |run.steps| + 1
    && Init(cfg, run.states[0])
    && forall i {:trigger IsStep(cfg, run, i)} | 0 <= i < |run.steps| :: IsStep(cfg, run, i)
  }
}
