/** Counts, finite ranges and quotients of natural numbers. */
module Naturals {

  function One(b: bool): nat {
    if b then 1 else 0
  }

  function Quotient(a: nat, b: nat): nat
    requires b > 0
  {
    a / b
  }

  ghost function Below(n: nat): (s: set<nat>)
    ensures |s| == n && forall i: nat :: i in s <==> i < n
  {
    if n == 0 then {} else Below(n - 1) + {n - 1}
  }

  ghost function Image(pos: seq<nat>): (s: set<nat>)
    ensures |s| <= |pos| && forall v :: 0 <= v < |pos| ==> pos[v] in s
  {
    if |pos| == 0 then {} else Image(pos[..|pos| - 1]) + {pos[|pos| - 1]}
  }

  lemma SubsetSize(a: set<nat>, b: set<nat>)
    requires a <= b
    ensures |a| <= |b|
  {
    assert b == a + (b - a);
  }
}
