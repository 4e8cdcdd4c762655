/** Sort-and-pick commit advance against its documented rule (internal/raft/replication.go). */
module CommitRule {
  import opened Types
  import opened Quorums
  import opened NodeSpec

  /** How many of `s` are at least `x`. */
  ghost function CountAtLeast(s: seq<nat>, x: nat): nat {
    if s == [] then 0 else (if s[0] >= x then 1 else 0) + CountAtLeast(s[1..], x)
  }

  ghost predicate Descending(s: seq<nat>) {
    forall i, j | 0 <= i <= j < |s| :: s[i] >= s[j]
  }

  lemma {:induction false} InsertElements(x: nat, s: seq<nat>)
    ensures multiset(Insert(x, s)) == multiset(s) + multiset{x} && |Insert(x, s)| == |s| + 1
  {
    if s != [] && x < s[0] {
      InsertElements(x, s[1..]);
      assert s == [s[0]] + s[1..];
    }
  }

  lemma {:induction false} InsertSorted(x: nat, s: seq<nat>)
    requires Descending(s)
    ensures Descending(Insert(x, s))
  {
    if s != [] && x < s[0] {
      var t := Insert(x, s[1..]);
      InsertSorted(x, s[1..]);
      InsertElements(x, s[1..]);
      forall i | 0 <= i < |t| ensures t[i] <= s[0] {
        assert t[i] in multiset(t);
      }
    }
  }

  lemma {:induction false} InsertCounts(x: nat, s: seq<nat>, y: nat)
    ensures CountAtLeast(Insert(x, s), y) == CountAtLeast(s, y) + if x >= y then 1 else 0
  {
    if s == [] || x >= s[0] {
      assert ([x] + s)[1..] == s;
    } else {
      InsertCounts(x, s[1..], y);
      assert ([s[0]] + Insert(x, s[1..]))[1..] == Insert(x, s[1..]);
    }
  }

  lemma {:induction false} SortSorts(s: seq<nat>)
    ensures var t := SortDescending(s); Descending(t) && multiset(t) == multiset(s) && |t| == |s|
  {
    if s != [] {
      SortSorts(s[1..]);
      InsertSorted(s[0], SortDescending(s[1..]));
      InsertElements(s[0], SortDescending(s[1..]));
      assert s == [s[0]] + s[1..];
    }
  }

  lemma {:induction false} SortCounts(s: seq<nat>, y: nat)
    ensures CountAtLeast(SortDescending(s), y) == CountAtLeast(s, y)
  {
    if s != [] {
      SortCounts(s[1..], y);
      InsertCounts(s[0], SortDescending(s[1..]), y);
    }
  }

  /** In a descending sequence, more than `k` elements reach `x` exactly if the one at `k` does. */
  lemma {:induction false} CountDescending(s: seq<nat>, k: nat, x: nat)
    requires Descending(s) && k < |s|
    ensures CountAtLeast(s, x) > k <==> s[k] >= x
  {
    if s[0] < x {
      NoneReach(s, x);
    } else if k > 0 {
      assert s[1..][k - 1] == s[k];
      CountDescending(s[1..], k - 1, x);
    }
  }

  lemma {:induction false} NoneReach(s: seq<nat>, x: nat)
    requires Descending(s) && (s != [] ==> s[0] < x)
    ensures CountAtLeast(s, x) == 0
  {
    if s != [] {
      NoneReach(s[1..], x);
    }
  }

  /** The middle of the sorted match indices is the greatest index that a majority holds. */
  lemma MiddleIsMajority(matches: seq<nat>, x: nat)
    requires matches != []
    ensures 2 * CountAtLeast(matches, x) > |matches| <==> x <= MiddleMatch(matches)
  {
    SortSorts(matches);
    SortCounts(matches, x);
    CountDescending(SortDescending(matches), |matches| / 2, x);
  }

  /** The three conditions of the documented rule for moving the commit index to `c`. */
  ghost predicate Committable(s: NodeState, peers: seq<NodeId>, c: nat) {
    && c > s.commitIndex
    && 1 <= c <= |s.log| && s.log[c - 1].term == s.currentTerm
    && 2 * CountAtLeast(MatchIndices(s, peers), c) > |peers| + 1
  }

  /**
   * On a leader's log, testing only the middle match finds the highest index that meets the rule,
   * and leaves the commit index alone exactly when no index does.
   */
  lemma AdvanceCommitFindsHighest(s: NodeState, peers: seq<NodeId>)
    requires forall i, j | 0 <= i <= j < |s.log| :: s.log[i].term <= s.log[j].term <= s.currentTerm
    requires forall i | 0 <= i < |peers| :: Lookup(s.matchIndex, peers[i]) <= |s.log|
    ensures var c := AdvanceCommit(s, peers).commitIndex;
            if exists x: nat :: Committable(s, peers, x)
            then Committable(s, peers, c) && forall x: nat | Committable(s, peers, x) :: x <= c
            else c == s.commitIndex
  {
    var matches := MatchIndices(s, peers);
    var m := MiddleMatch(matches);
    MiddleWithin(matches, |s.log|);
    MiddleIsMajority(matches, m);
    forall x: nat | Committable(s, peers, x) ensures Committable(s, peers, m) && x <= m {
      MiddleIsMajority(matches, x);
    }
    assert AdvanceCommit(s, peers).commitIndex != s.commitIndex ==> Committable(s, peers, m);
  }

  lemma MiddleWithin(matches: seq<nat>, top: nat)
    requires forall i | 0 <= i < |matches| :: matches[i] <= top
    ensures MiddleMatch(matches) <= top
  {
    SortSorts(matches);
    var sorted := SortDescending(matches);
    forall i | 0 <= i < |sorted| ensures sorted[i] <= top {
      assert sorted[i] in multiset(matches);
    }
  }

  // ----- from counting positions to counting servers -----

  /** The servers among `ids` whose match index reaches `x`. */
  ghost function Holders(ids: seq<NodeId>, matches: seq<nat>, x: nat): seq<NodeId>
    requires |ids| == |matches|
  {
    if ids == [] then []
    else (if matches[0] >= x then [ids[0]] else []) + Holders(ids[1..], matches[1..], x)
  }

  lemma {:induction false} HoldersCounted(ids: seq<NodeId>, matches: seq<nat>, x: nat)
    requires |ids| == |matches| && NoDuplicates(ids)
    ensures |Holders(ids, matches, x)| == CountAtLeast(matches, x) && NoDuplicates(Holders(ids, matches, x))
    ensures forall v | v in Holders(ids, matches, x) :: exists i :: 0 <= i < |ids| && ids[i] == v && matches[i] >= x
  {
    if ids != [] {
      var rest := Holders(ids[1..], matches[1..], x);
      HoldersCounted(ids[1..], matches[1..], x);
      forall v | v in rest ensures v != ids[0] && exists i :: 0 <= i < |ids| && ids[i] == v && matches[i] >= x {
        var i :| 0 <= i < |ids[1..]| && ids[1..][i] == v && matches[1..][i] >= x;
        assert ids[i + 1] == v && matches[i + 1] >= x;
      }
      if matches[0] >= x {
        var all := [ids[0]] + rest;
        assert Holders(ids, matches, x) == all;
        forall i, j | 0 <= i < j < |all| ensures all[i] != all[j] {
          assert all[j] == rest[j - 1] && all[j] in rest;
          assert i > 0 ==> all[i] == rest[i - 1];
        }
        forall v | v in all ensures exists i :: 0 <= i < |ids| && ids[i] == v && matches[i] >= x {
          assert v != ids[0] ==> v in rest;
          assert v == ids[0] ==> ids[0] == v && matches[0] >= x;
        }
      } else {
        assert Holders(ids, matches, x) == rest;
      }
    }
  }

  lemma AllServers(servers: set<NodeId>, n: NodeId, peers: seq<NodeId>)
    requires n in servers && NoDuplicates(peers) && Elements(peers) == servers - {n}
    ensures NoDuplicates([n] + peers) && |servers| == |peers| + 1
    ensures forall v | v in [n] + peers :: v in servers
  {
    assert n !in Elements(peers);
    ElementsSize(peers);
    assert servers == Elements(peers) + {n};
    forall i | 0 <= i < |peers| ensures peers[i] != n && peers[i] in servers {
      assert peers[i] in Elements(peers);
    }
  }

  lemma MajorityIsQuorum(servers: set<NodeId>, ids: seq<NodeId>, matches: seq<nat>, c: nat) returns (q: set<NodeId>)
    requires |ids| == |matches| == |servers| && NoDuplicates(ids) && forall v | v in ids :: v in servers
    requires 2 * CountAtLeast(matches, c) > |matches|
    ensures IsQuorum(servers, q)
    ensures forall v | v in q :: exists i :: 0 <= i < |ids| && ids[i] == v && matches[i] >= c
  {
    HoldersCounted(ids, matches, c);
    q := Elements(Holders(ids, matches, c));
    ElementsSize(Holders(ids, matches, c));
  }

  /** The servers that hold the middle match are a majority of the cluster. */
  lemma MiddleHeldByQuorum(servers: set<NodeId>, n: NodeId, peers: seq<NodeId>, s: NodeState) returns (q: set<NodeId>)
    requires n in servers && NoDuplicates(peers) && Elements(peers) == servers - {n}
    ensures IsQuorum(servers, q)
    ensures var c := MiddleMatch(MatchIndices(s, peers));
            forall v | v in q :: (v == n && |s.log| >= c) || (v in peers && Lookup(s.matchIndex, v) >= c)
  {
    var ids, matches := [n] + peers, MatchIndices(s, peers);
    var c := MiddleMatch(matches);
    AllServers(servers, n, peers);
    MiddleIsMajority(matches, c);
    q := MajorityIsQuorum(servers, ids, matches, c);
    forall v | v in q
      ensures (v == n && |s.log| >= c) || (v in peers && Lookup(s.matchIndex, v) >= c)
    {
      var i :| 0 <= i < |ids| && ids[i] == v && matches[i] >= c;
    }
  }

  lemma OneMore(q: set<NodeId>, x: NodeId, rest: set<NodeId>)
    requires x !in rest
    ensures |q * ({x} + rest)| == |q * rest| + if x in q then 1 else 0
  {
    if x in q {
      assert q * ({x} + rest) == q * rest + {x};
    } else {
      assert q * ({x} + rest) == q * rest;
    }
  }

  lemma FirstElement(ids: seq<NodeId>)
    requires ids != [] && NoDuplicates(ids)
    ensures Elements(ids) == {ids[0]} + Elements(ids[1..]) && ids[0] !in Elements(ids[1..]) && NoDuplicates(ids[1..])
  {
    assert ids == [ids[0]] + ids[1..];
  }

  lemma {:induction false} CountCovers(ids: seq<NodeId>, matches: seq<nat>, q: set<NodeId>, x: nat)
    requires |ids| == |matches| && NoDuplicates(ids) && forall i | 0 <= i < |ids| && ids[i] in q :: matches[i] >= x
    ensures |q * Elements(ids)| <= CountAtLeast(matches, x)
  {
    if ids == [] {
      assert q * Elements(ids) == {};
    } else {
      FirstElement(ids);
      OneMore(q, ids[0], Elements(ids[1..]));
      CountCovers(ids[1..], matches[1..], q, x);
    }
  }

  /** The servers that are known to hold the first `c` entries: the leader itself, and peers by their match index. */
  ghost predicate KnownToHold(n: NodeId, peers: seq<NodeId>, s: NodeState, v: NodeId, c: nat) {
    if v == n then |s.log| >= c else v in peers && Lookup(s.matchIndex, v) >= c
  }

  ghost predicate MajorityHolds(servers: set<NodeId>, n: NodeId, peers: seq<NodeId>, s: NodeState, q: set<NodeId>,
    c: nat) {
    IsQuorum(servers, q) && forall v | v in q :: KnownToHold(n, peers, s, v, c)
  }

  lemma HoldersCount(servers: set<NodeId>, n: NodeId, peers: seq<NodeId>, s: NodeState, q: set<NodeId>, c: nat)
    requires n in servers && NoDuplicates(peers) && Elements(peers) == servers - {n}
    requires MajorityHolds(servers, n, peers, s, q, c)
    ensures 2 * CountAtLeast(MatchIndices(s, peers), c) > |peers| + 1
  {
    AllServers(servers, n, peers);
    CountCovers([n] + peers, MatchIndices(s, peers), q, c);
    forall v | v in q ensures v in Elements([n] + peers) {
      if v != n { assert v in Elements(peers); }
    }
    assert q * Elements([n] + peers) == q;
  }

  /** An index counts as held by a majority exactly if some majority is known to hold it. */
  lemma CountedIff(servers: set<NodeId>, n: NodeId, peers: seq<NodeId>, s: NodeState, c: nat)
    requires n in servers && NoDuplicates(peers) && Elements(peers) == servers - {n}
    ensures 2 * CountAtLeast(MatchIndices(s, peers), c) > |peers| + 1 <==>
            exists q :: MajorityHolds(servers, n, peers, s, q, c)
  {
    AllServers(servers, n, peers);
    var ids, matches := [n] + peers, MatchIndices(s, peers);
    if 2 * CountAtLeast(matches, c) > |peers| + 1 {
      var q := MajorityIsQuorum(servers, ids, matches, c);
      forall v | v in q ensures KnownToHold(n, peers, s, v, c) {
        var i :| 0 <= i < |ids| && ids[i] == v && matches[i] >= c;
      }
      assert MajorityHolds(servers, n, peers, s, q, c);
    } else if exists q :: MajorityHolds(servers, n, peers, s, q, c) {
      var q :| MajorityHolds(servers, n, peers, s, q, c);
      HoldersCount(servers, n, peers, s, q, c);
    }
  }
}
