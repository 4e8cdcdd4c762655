/** Reads of a log (internal/raft/log.go) and the relations between logs that the proofs use. */
module Logs {
  import opened Types

  function LastTerm(log: Log): nat {
    if log == [] then 0 else log[|log| - 1].term
  }

  /** Index 0 is the sentinel, which every log contains. */
  predicate Contains(log: Log, index: nat) {
    index <= |log|
  }

  /** The term at `index`; 0 for the sentinel and beyond the end. */
  function TermAt(log: Log, index: nat): nat {
    if index == 0 || index > |log| then 0 else log[index - 1].term
  }

  const SENTINEL := Entry(0, 0, [])

  /** A copy of the entries from `start` to the end; index 0 would include the sentinel. */
  function EntriesFrom(log: Log, start: nat): seq<Entry> {
    if start > |log| then [] else if start == 0 then [SENTINEL] + log else log[start - 1..]
  }

  /** The candidate's last term and index are at least as up to date as `own`. */
  predicate UpToDate(lastTerm: nat, lastIndex: nat, own: Log) {
    if lastTerm != LastTerm(own) then lastTerm > LastTerm(own) else lastIndex >= |own|
  }

  /** `own` if it already extends `other`, and otherwise `other`. */
  function Adopt(own: Log, other: Log): Log {
    if other <= own then own else other
  }

  /**
   * A ledger holds, for each term, the log of that term's leader. `log` is rooted in it when each
   * entry of `log`, together with everything before it, was copied from the leader of its term.
   */
  ghost predicate Rooted(ledger: map<nat, Log>, log: Log) {
    forall i | 0 <= i < |log| :: RootedAt(ledger, log, i)
  }

  ghost predicate RootedAt(ledger: map<nat, Log>, log: Log, i: nat)
    requires i < |log|
  {
    log[i].term in ledger && log[..i + 1] <= ledger[log[i].term]
  }

  /** Terms are between 1 and `top`, and each stored index is the entry's position. */
  ghost predicate Bounded(log: Log, top: nat) {
    forall i | 0 <= i < |log| :: 1 <= log[i].term <= top && log[i].index == i + 1
  }

  ghost predicate LedgerOk(ledger: map<nat, Log>) {
    forall t | t in ledger :: t >= 1 && Rooted(ledger, ledger[t]) && Bounded(ledger[t], t)
  }

  ghost predicate LedgerGrows(before: map<nat, Log>, after: map<nat, Log>) {
    forall t {:trigger t in before} {:trigger before[t]} | t in before :: t in after && before[t] <= after[t]
  }

  lemma RootedGrows(before: map<nat, Log>, after: map<nat, Log>, log: Log)
    requires Rooted(before, log) && LedgerGrows(before, after)
    ensures Rooted(after, log)
  {
    forall i | 0 <= i < |log| ensures RootedAt(after, log, i) {
      assert RootedAt(before, log, i);
    }
  }

  lemma RootedPrefix(ledger: map<nat, Log>, log: Log, p: Log)
    requires Rooted(ledger, log) && p <= log
    ensures Rooted(ledger, p)
  {
    forall i | 0 <= i < |p| ensures RootedAt(ledger, p, i) {
      assert RootedAt(ledger, log, i);
      assert p[..i + 1] == log[..i + 1];
    }
  }

  /** Log Matching for any two logs rooted in one ledger. */
  lemma RootedMatch(ledger: map<nat, Log>, a: Log, b: Log, i: nat)
    requires Rooted(ledger, a) && Rooted(ledger, b)
    requires i < |a| && i < |b| && a[i].term == b[i].term
    ensures a[..i + 1] == b[..i + 1]
  {
    assert RootedAt(ledger, a, i) && RootedAt(ledger, b, i);
  }

  /** A nonempty rooted log is a prefix of the ledger of its last term. */
  lemma RootedLast(ledger: map<nat, Log>, log: Log)
    requires Rooted(ledger, log) && log != []
    ensures LastTerm(log) in ledger && log <= ledger[LastTerm(log)]
  {
    assert RootedAt(ledger, log, |log| - 1);
    assert log[..|log|] == log;
  }

  /** Along a rooted log terms never decrease, are positive, and indices are positions. */
  lemma RootedOrdered(ledger: map<nat, Log>, log: Log)
    requires LedgerOk(ledger) && Rooted(ledger, log)
    ensures forall i, j | 0 <= i <= j < |log| :: log[i].term <= log[j].term
    ensures forall i | 0 <= i < |log| :: log[i].term >= 1 && log[i].index == i + 1
    ensures Bounded(log, LastTerm(log))
  {
    forall i, j | 0 <= i <= j < |log|
      ensures 1 <= log[i].term <= log[j].term && log[i].index == i + 1
    {
      assert RootedAt(ledger, log, j);
      assert log[..j + 1][i] == log[i];
      assert Bounded(ledger[log[j].term], log[j].term);
    }
  }
}
