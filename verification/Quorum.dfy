/** Majorities of a cluster whose servers are numbered 0 .. n-1. */
module Quorum {

  /** More than half of the servers. Counting in the source compares with `len(peers)/2`. */
  ghost predicate Majority(q: set<nat>, n: nat) {
    (forall v :: v in q ==> v < n) && 2 * |q| > n
  }

  function Servers(n: nat): (s: set<nat>)
    ensures |s| == n
    ensures forall v: nat :: v in s <==> v < n
  {
    if n == 0 then {} else Servers(n - 1) + {n - 1}
  }

  lemma SubsetCard(a: set<nat>, b: set<nat>)
    requires a <= b
    ensures |a| <= |b|
  {
    assert b == a + (b - a);
  }

  /** Any two majorities share a server. */
  lemma Intersect(q: set<nat>, r: set<nat>, n: nat) returns (v: nat)
    requires Majority(q, n) && Majority(r, n)
    ensures v in q && v in r && v < n
  {
    if q * r == {} {
      SubsetCard(q + r, Servers(n));
      assert false;
    }
    v :| v in q * r;
  }

  lemma LargerIsMajority(q: set<nat>, r: set<nat>, n: nat)
    requires Majority(q, n) && q <= r
    requires forall v :: v in r ==> v < n
    ensures Majority(r, n)
  {
    SubsetCard(q, r);
  }
}
