/** Finite lists: what several of the models use. */
module Sequences {
  ghost predicate Distinct<A>(l: seq<A>) {
    forall i, j :: 0 <= i < j < |l| ==> l[i] != l[j]
  }

  /** q directly follows p in l. */
  ghost predicate Adjacent<A>(l: seq<A>, p: A, q: A) {
    exists k :: 0 <= k < |l| - 1 && l[k] == p && l[k + 1] == q
  }

  lemma AdjacentSnoc<A>(l: seq<A>, x: A, p: A, q: A)
    requires Adjacent(l, p, q)
    ensures Adjacent(l + [x], p, q)
  {
    var k :| 0 <= k < |l| - 1 && l[k] == p && l[k + 1] == q;
    assert (l + [x])[k] == p && (l + [x])[k + 1] == q;
  }

  lemma AdjacentLast<A>(l: seq<A>, x: A)
    requires l != []
    ensures Adjacent(l + [x], l[|l| - 1], x)
  {
    var k := |l| - 1;
    assert (l + [x])[k] == l[k] && (l + [x])[k + 1] == x;
  }

  lemma AdjacentTail<A>(l: seq<A>, p: A, q: A)
    requires Adjacent(l, p, q) && p != l[0]
    ensures Adjacent(l[1..], p, q)
  {
    var k :| 0 <= k < |l| - 1 && l[k] == p && l[k + 1] == q;
    assert l[1..][k - 1] == p && l[1..][k] == q;
  }

  /** How many elements of l satisfy p, from index i up to j. */
  function Count<A>(l: seq<A>, p: A -> bool, i: nat, j: nat): nat
    requires i <= j <= |l|
    decreases j
  {
    if i == j then 0 else Count(l, p, i, j - 1) + if p(l[j - 1]) then 1 else 0
  }
}
