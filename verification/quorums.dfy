/** Majorities of a finite cluster. */
module Quorums {
  import opened Types

  ghost predicate IsQuorum(servers: set<NodeId>, q: set<NodeId>) {
    q <= servers && 2 * |q| > |servers|
  }

  lemma SubsetSize(a: set<NodeId>, b: set<NodeId>)
    requires a <= b
    ensures |a| <= |b|
  {
    if a != {} {
      var x :| x in a;
      SubsetSize(a - {x}, b - {x});
    }
  }

  /** Any two majorities share a server. */
  lemma QuorumsMeet(servers: set<NodeId>, p: set<NodeId>, q: set<NodeId>) returns (v: NodeId)
    requires IsQuorum(servers, p) && IsQuorum(servers, q)
    ensures v in p && v in q
  {
    SubsetSize(p + q, servers);
    assert |p + q| == |p| + |q| - |p * q|;
    v :| v in p * q;
  }

  ghost predicate NoDuplicates(s: seq<NodeId>) {
    forall i, j | 0 <= i < j < |s| :: s[i] != s[j]
  }

  ghost function Elements(s: seq<NodeId>): set<NodeId> {
    set x | x in s
  }

  lemma {:induction false} ElementsSize(s: seq<NodeId>)
    requires NoDuplicates(s)
    ensures |Elements(s)| == |s|
  {
    if s != [] {
      var init, last := s[..|s| - 1], s[|s| - 1];
      ElementsSize(init);
      assert s == init + [last];
      assert Elements(s) == Elements(init) + {last};
      assert last !in Elements(init);
    }
  }
}
