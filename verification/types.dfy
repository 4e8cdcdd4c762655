/** The values that nodes exchange, store and log (internal/raft/types.go, internal/storage/wal.go). */
module Types {

  /** A node's name. The source uses strings; only equality and the empty name matter. */
  type NodeId = nat

  /** The empty name: "voted for nobody". No server carries it. */
  const NO_NODE: NodeId := 0

  /** The bytes of a client command, opaque to the consensus layer. */
  type Command = seq<nat>

  datatype Entry = Entry(term: nat, index: nat, command: Command)

  /** Log entries without the sentinel: the entry with index `i` is `log[i - 1]`. */
  type Log = seq<Entry>

  datatype Role = Follower | Candidate | Leader

  datatype VoteArgs = VoteArgs(term: nat, candidate: NodeId, lastLogIndex: nat, lastLogTerm: nat)

  datatype VoteReply = VoteReply(term: nat, granted: bool)

  datatype AppendArgs = AppendArgs(
    term: nat,
    leader: NodeId,
    prevLogIndex: nat,
    prevLogTerm: nat,
    entries: seq<Entry>,
    leaderCommit: nat)

  datatype AppendReply = AppendReply(term: nat, success: bool, conflictTerm: nat, conflictIndex: nat)

  /** A decoded write-ahead-log record. */
  datatype Record =
    | TermRecord(term: nat)
    | VoteRecord(votedFor: NodeId, term: nat)
    | EntryRecord(index: nat, term: nat, command: Command)

  function Min(a: nat, b: nat): nat {
    if a <= b then a else b
  }

  function Max(a: nat, b: nat): nat {
    if a >= b then a else b
  }
}
