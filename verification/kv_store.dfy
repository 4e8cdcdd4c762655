/**
 * The key-value store (internal/kvstore/store.go): a deterministic state machine that is fed what
 * the apply channel delivers. Decoding a command from its JSON is a parameter.
 */
module KvStore {
  import opened Types

  datatype Operation = Operation(op: string, key: string, value: string)

  /** What JSON decoding makes of a command's bytes. */
  datatype Decoded = Malformed | Decoded(operation: Operation)

  type Decoder = Command -> Decoded

  datatype Outcome = Applied | CannotDecode | UnknownOp(op: string)

  const CMD_PUT := "put"
  const CMD_DELETE := "delete"

  type Data = map<string, string>

  function Execute(data: Data, o: Operation): (Data, Outcome) {
    if o.op == CMD_PUT then (data[o.key := o.value], Applied)
    else if o.op == CMD_DELETE then (data - {o.key}, Applied)
    else (data, UnknownOp(o.op))
  }

  function ApplyCommand(decode: Decoder, data: Data, command: Command): (Data, Outcome) {
    match decode(command)
    case Malformed => (data, CannotDecode)
    case Decoded(o) => Execute(data, o)
  }

  /**
   * A put or delete is applied and reports success; anything else is reported for what it is, and changes
   * nothing.
   */
  lemma OutcomeIff(decode: Decoder, data: Data, command: Command, op: string)
    ensures var (after, outcome) := ApplyCommand(decode, data, command);
            && (outcome == Applied <==> decode(command).Decoded? && decode(command).operation.op in {"put", "delete"})
            && (outcome == CannotDecode <==> decode(command).Malformed?)
            && (outcome == UnknownOp(op) <==>
                  decode(command).Decoded? && decode(command).operation.op == op && op !in {"put", "delete"})
            && (outcome != Applied ==> after == data)
  {
  }

  /** An applied command decides what its own key reads as, and leaves all others alone. */
  lemma AppliedReads(decode: Decoder, data: Data, command: Command, key: string)
    requires ApplyCommand(decode, data, command).1 == Applied
    ensures var o, after := decode(command).operation, ApplyCommand(decode, data, command).0;
            Read(after, key) ==
            if key != o.key then Read(data, key) else if o.op == "put" then Present(o.value) else Missing
  {
  }

  /** Entries without a command are skipped, and commands that fail change nothing. */
  function Consume(decode: Decoder, data: Data, e: Entry): Data {
    if e.command == [] then data else ApplyCommand(decode, data, e.command).0
  }

  /** The store after consuming `entries`. */
  function ConsumeAll(decode: Decoder, data: Data, entries: seq<Entry>): Data {
    if entries == [] then data
    else Consume(decode, ConsumeAll(decode, data, entries[..|entries| - 1]), entries[|entries| - 1])
  }

  lemma {:induction false} ConsumeParts(decode: Decoder, data: Data, a: seq<Entry>, b: seq<Entry>)
    ensures ConsumeAll(decode, data, a + b) == ConsumeAll(decode, ConsumeAll(decode, data, a), b)
  {
    if b == [] {
      assert a + b == a;
    } else {
      ConsumeParts(decode, data, a, b[..|b| - 1]);
      assert (a + b)[..|a + b| - 1] == a + b[..|b| - 1];
    }
  }

  /** The entry puts or deletes `key`. */
  predicate Touches(decode: Decoder, e: Entry, key: string) {
    && e.command != [] && decode(e.command).Decoded? && decode(e.command).operation.key == key
    && decode(e.command).operation.op in {CMD_PUT, CMD_DELETE}
  }

  /** What a key reads as. */
  datatype Reading = Missing | Present(value: string)

  function Read(data: Data, key: string): Reading {
    if key in data then Present(data[key]) else Missing
  }

  function Left(decode: Decoder, e: Entry): Reading
    requires decode(e.command).Decoded?
  {
    var o := decode(e.command).operation;
    if o.op == CMD_PUT then Present(o.value) else Missing
  }

  /** The last entry that touches a key decides what it reads as, and no other entry matters. */
  lemma {:induction false} LastWriteWins(decode: Decoder, data: Data, entries: seq<Entry>, key: string, i: nat)
    requires i < |entries| && Touches(decode, entries[i], key)
    requires forall j | i < j < |entries| :: !Touches(decode, entries[j], key)
    ensures Read(ConsumeAll(decode, data, entries), key) == Left(decode, entries[i])
  {
    var last := |entries| - 1;
    if i < last {
      LastWriteWins(decode, data, entries[..last], key, i);
    }
  }

  lemma {:induction false} UntouchedStays(decode: Decoder, data: Data, entries: seq<Entry>, key: string)
    requires forall j | 0 <= j < |entries| :: !Touches(decode, entries[j], key)
    ensures Read(ConsumeAll(decode, data, entries), key) == Read(data, key)
  {
    if entries != [] {
      UntouchedStays(decode, data, entries[..|entries| - 1], key);
    }
  }

  class KVStore {
    const decode: Decoder
    var data: Data

    constructor (decode: Decoder)
      ensures this.decode == decode && data == map[]
    {
      this.decode := decode;
      data := map[];
    }

    method Get(key: string) returns (value: string, ok: bool)
      ensures Read(data, key) == if ok then Present(value) else Missing
      ensures !ok ==> value == ""
    {
      if key in data {
        return data[key], true;
      }
      return "", false;
    }

    method Put(key: string, value: string)
      modifies this
      ensures data == old(data)[key := value]
    {
      data := data[key := value];
    }

    method Delete(key: string)
      modifies this
      ensures data == old(data) - {key}
    {
      data := data - {key};
    }

    method Apply(command: Command) returns (outcome: Outcome)
      modifies this
      ensures (data, outcome) == ApplyCommand(decode, old(data), command)
    {
      var decoded := decode(command);
      if decoded.Malformed? {
        return CannotDecode;
      }
      var o := decoded.operation;
      if o.op == CMD_PUT {
        Put(o.key, o.value);
      } else if o.op == CMD_DELETE {
        Delete(o.key);
      } else {
        return UnknownOp(o.op);
      }
      return Applied;
    }

    /** The consumer of the apply channel. */
    method Drain(entries: seq<Entry>)
      modifies this
      ensures data == ConsumeAll(decode, old(data), entries)
    {
      for i := 0 to |entries|
        invariant data == ConsumeAll(decode, old(data), entries[..i])
      {
        assert entries[..i + 1][..i] == entries[..i];
        if |entries[i].command| > 0 {
          var outcome := Apply(entries[i].command);
        }
      }
      assert entries[..|entries|] == entries;
    }
  }
}

/** Replicas agree on the key-value map, and an acknowledged write is in it. */
module KvSafety {
  import opened Types
  import opened NodeSpec
  import opened Cluster
  import opened Safety
  import opened ReplicationSafety
  import opened KvStore

  /** The map of a replica whose consumer has taken everything delivered so far. */
  ghost function Store(decode: Decoder, s: NodeState): Data {
    ConsumeAll(decode, map[], s.delivered)
  }

  /**
   * Any two replicas, at any moments: the one that is behind holds an earlier version of the same
   * map, and after equally many deliveries the maps are equal.
   */
  lemma StoresAgree(cfg: Config, run: Run, decode: Decoder, i: nat, j: nat, a: NodeId, b: NodeId)
    requires At(cfg, run, i, a) && At(cfg, run, j, b)
    requires |NodeAt(cfg, run, i, a).delivered| <= |NodeAt(cfg, run, j, b).delivered|
    ensures var s, t := NodeAt(cfg, run, i, a), NodeAt(cfg, run, j, b);
            && Store(decode, t) == ConsumeAll(decode, Store(decode, s), t.delivered[|s.delivered|..])
            && (|s.delivered| == |t.delivered| ==> Store(decode, s) == Store(decode, t))
  {
    var s, t := NodeAt(cfg, run, i, a).delivered, NodeAt(cfg, run, j, b).delivered;
    DeliveriesAgree(cfg, run, i, j, a, b);
    assert t == s + t[|s|..];
    ConsumeParts(decode, map[], s, t[|s|..]);
  }

  /**
   * Once a put is acknowledged, the key reads as the value put, on every replica that has delivered
   * at least that entry, unless a later entry touches the key.
   */
  lemma AcknowledgedPutIsRead(cfg: Config, run: Run, decode: Decoder, i: nat, n: NodeId, sub: Submission,
                              key: string, value: string, j: nat, b: NodeId)
    requires Acknowledged(cfg, run, i, n, sub) && At(cfg, run, j, b)
    requires sub.command != [] && decode(sub.command) == Decoded(Operation(CMD_PUT, key, value))
    requires sub.index <= |NodeAt(cfg, run, j, b).delivered|
    requires forall x | sub.index <= x < |NodeAt(cfg, run, j, b).delivered| ::
               !Touches(decode, NodeAt(cfg, run, j, b).delivered[x], key)
    ensures Read(Store(decode, NodeAt(cfg, run, j, b)), key) == Present(value)
  {
    AcknowledgedIsCommitted(cfg, run, i, n, sub);
    DeliveriesAgree(cfg, run, i, j, n, b);
    var s, t := NodeAt(cfg, run, i, n).delivered, NodeAt(cfg, run, j, b).delivered;
    assert t[sub.index - 1] == s[sub.index - 1] == Entry(sub.term, sub.index, sub.command);
    LastWriteWins(decode, map[], t, key, sub.index - 1);
  }
}
