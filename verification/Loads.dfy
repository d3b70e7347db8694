/**
 * The loads of the cores in table order, as numbers: what registering and removing a
 * file descriptor does to them, and how even they stay over a whole run.
 */
module Loads {
  ghost predicate Sorted(l: seq<nat>) {
    forall i, j :: 0 <= i < j < |l| ==> l[i] <= l[j]
  }

  function Sum(l: seq<nat>): nat {
    if l == [] then 0 else l[|l| - 1] + Sum(l[..|l| - 1])
  }

  /** The last index whose load equals that of index k, in a sorted list. */
  function Last(l: seq<nat>, k: nat): (i: nat)
    requires k < |l|
    ensures k <= i < |l| && forall j :: k <= j <= i ==> l[j] == l[k]
    ensures i + 1 < |l| ==> l[i + 1] != l[k]
    decreases |l| - k
  {
    if k + 1 < |l| && l[k + 1] == l[k] then Last(l, k + 1) else k
  }

  /** The first index whose load equals that of index k, in a sorted list. */
  function First(l: seq<nat>, k: nat): (i: nat)
    requires k < |l|
    ensures i <= k && forall j :: i <= j <= k ==> l[j] == l[k]
    ensures i > 0 ==> l[i - 1] != l[k]
    decreases k
  {
    if k > 0 && l[k - 1] == l[k] then First(l, k - 1) else k
  }

  /** A registration: the least load goes up by one, at the end of its run of equals. */
  function Raise(l: seq<nat>): (r: seq<nat>)
    requires l != []
  {
    l[Last(l, 0) := l[0] + 1]
  }

  /** A removal on the core at position p: that load goes down, at the start of its run. */
  function Lower(l: seq<nat>, p: nat): (r: seq<nat>)
    requires p < |l| && l[p] > 0
  {
    l[First(l, p) := l[p] - 1]
  }

  lemma SumUpdate(l: seq<nat>, i: nat, v: nat)
    requires i < |l|
    ensures Sum(l[i := v]) == Sum(l) - l[i] + v
    ensures Sum(l) >= l[i]
  {
    if i < |l| - 1 {
      assert l[i := v][..|l| - 1] == l[..|l| - 1][i := v];
      SumUpdate(l[..|l| - 1], i, v);
    } else {
      assert l[i := v][..|l| - 1] == l[..|l| - 1];
    }
  }

  lemma SumAtLeast(l: seq<nat>, low: nat)
    requires forall k :: 0 <= k < |l| ==> low <= l[k]
    ensures |l| * low <= Sum(l)
  {
    if l != [] {
      SumAtLeast(l[..|l| - 1], low);
      assert |l| * low == (|l| - 1) * low + low;
    }
  }

  lemma RaiseSorted(l: seq<nat>)
    requires l != [] && Sorted(l)
    ensures Sorted(Raise(l)) && Sum(Raise(l)) == Sum(l) + 1
  {
    SumUpdate(l, Last(l, 0), l[0] + 1);
  }

  lemma LowerSorted(l: seq<nat>, p: nat)
    requires Sorted(l) && p < |l| && l[p] > 0
    ensures Sorted(Lower(l, p)) && Sum(Lower(l, p)) + 1 == Sum(l)
  {
    SumUpdate(l, First(l, p), l[p] - 1);
  }

  function Swapped(l: seq<nat>, i: nat, j: nat): (r: seq<nat>)
    requires i < |l| && j < |l|
  {
    l[i := l[j]][j := l[i]]
  }

  /** The single swap of lines 104 to 111 restores the order. */
  lemma RaiseBySwap(l: seq<nat>)
    requires l != [] && Sorted(l)
    ensures Sorted(Raise(l))
    ensures Swapped(l[0 := l[0] + 1], 0, Last(l, 0)) == Raise(l)
  {
    RaiseSorted(l);
  }

  /** The single swap of lines 150 to 156 restores the order. */
  lemma LowerBySwap(l: seq<nat>, p: nat)
    requires p < |l| && l[p] > 0 && Sorted(l)
    ensures Sorted(Lower(l, p))
    ensures Swapped(l[p := l[p] - 1], p, First(l, p)) == Lower(l, p)
  {
    LowerSorted(l, p);
  }

  // ----- whole runs -----

  datatype Change = Register | Remove(pos: nat)

  ghost predicate Changes(l: seq<nat>, c: Change, l': seq<nat>) {
    match c
    case Register => l != [] && l' == Raise(l)
    case Remove(p) => p < |l| && l[p] > 0 && l' == Lower(l, p)
  }

  /** Any registrations and removals on n cores, from none. */
  ghost predicate Run(loads: seq<seq<nat>>, changes: seq<Change>, n: nat) {
    && |loads| == |changes| + 1 && n >= 1
    && loads[0] == seq(n, _ => 0)
    && forall i :: 0 <= i < |changes| ==> Changes(loads[i], changes[i], loads[i + 1])
  }

  lemma RunExtends(loads: seq<seq<nat>>, changes: seq<Change>, n: nat, c: Change, l: seq<nat>)
    requires Run(loads, changes, n) && Changes(loads[|loads| - 1], c, l)
    ensures Run(loads + [l], changes + [c], n)
  {
  }

  /** The most file descriptors ever registered at once. */
  function Peak(loads: seq<seq<nat>>): (p: nat)
    ensures forall i :: 0 <= i < |loads| ==> Sum(loads[i]) <= p
    ensures loads != [] ==> exists i :: 0 <= i < |loads| && Sum(loads[i]) == p
  {
    if loads == [] then 0
    else
      var rest, last := Peak(loads[..|loads| - 1]), Sum(loads[|loads| - 1]);
      if rest <= last then last
      else
        PeakReached(loads[..|loads| - 1], loads);
        rest
  }

  lemma PeakReached(some: seq<seq<nat>>, all: seq<seq<nat>>)
    requires some <= all
    ensures forall i :: 0 <= i < |some| ==> Sum(all[i]) == Sum(some[i])
  {
  }

  function CeilDiv(p: nat, n: nat): nat
    requires n >= 1
  {
    (p + n - 1) / n
  }

  lemma {:induction false} ZeroSum(n: nat)
    ensures Sum(seq(n, _ => 0)) == 0
  {
    if n > 0 {
      assert seq(n, _ => 0)[..n - 1] == seq(n - 1, _ => 0);
      ZeroSum(n - 1);
    }
  }

  /** At every instant the table is sorted, and no core has more than its share of the peak. */
  lemma {:induction false} SharesBounded(loads: seq<seq<nat>>, changes: seq<Change>, n: nat, i: nat)
    requires Run(loads, changes, n) && i < |loads|
    ensures |loads[i]| == n && Sorted(loads[i])
    ensures Bounded(loads[i], Peak(loads))
  {
    if i > 0 {
      SharesBounded(loads, changes, n, i - 1);
      var l := loads[i - 1];
      assert Changes(l, changes[i - 1], loads[i]);
      match changes[i - 1] {
        case Register => RaiseBounded(l, Peak(loads));
        case Remove(p) => LowerBounded(l, p, Peak(loads));
      }
    }
  }

  /** No core has more than its share of the peak. */
  ghost predicate Bounded(l: seq<nat>, peak: nat) {
    forall k :: 0 <= k < |l| && l[k] > 0 ==> |l| * (l[k] - 1) < peak
  }

  lemma RaiseBounded(l: seq<nat>, peak: nat)
    requires l != [] && Sorted(l) && Bounded(l, peak) && Sum(Raise(l)) <= peak
    ensures Sorted(Raise(l)) && Bounded(Raise(l), peak)
  {
    RaiseSorted(l);
    SumAtLeast(l, l[0]);
    var r, i := Raise(l), Last(l, 0);
    forall k | 0 <= k < |r| && r[k] > 0
      ensures |r| * (r[k] - 1) < peak
    {
      if k == i {
        assert r[k] - 1 == l[0];
      } else {
        assert r[k] == l[k];
      }
    }
  }

  lemma LowerBounded(l: seq<nat>, p: nat, peak: nat)
    requires p < |l| && l[p] > 0 && Sorted(l) && Bounded(l, peak)
    ensures Sorted(Lower(l, p)) && Bounded(Lower(l, p), peak)
  {
    LowerSorted(l, p);
    if l[p] > 1 {
      Times(|l|, l[p] - 1, l[p] - 2);
    }
  }

  /** Load is at most ceil(P / n), where P is the peak number of file descriptors. */
  lemma LoadAtMostShare(loads: seq<seq<nat>>, changes: seq<Change>, n: nat, i: nat, k: nat)
    requires Run(loads, changes, n) && i < |loads| && k < n
    ensures k < |loads[i]| && loads[i][k] <= CeilDiv(Peak(loads), n)
  {
    SharesBounded(loads, changes, n, i);
    if loads[i][k] > 0 {
      ShareOf(Peak(loads), n, loads[i][k]);
    }
  }

  lemma ShareOf(p: nat, n: nat, load: nat)
    requires n >= 1 && load > 0 && n * (load - 1) < p
    ensures load <= CeilDiv(p, n)
  {
    var q := CeilDiv(p, n);
    assert n * q + n > p + n - 1;
    if load - 1 >= q {
      Times(n, load - 1, q);
    }
  }

  lemma Times(n: nat, a: nat, b: nat)
    requires a >= b
    ensures n * a >= n * b
  {
  }

  /** With registrations only, the loads differ by at most one. */
  lemma {:induction false} RegistrationsStayEven(loads: seq<seq<nat>>, changes: seq<Change>, n: nat, i: nat)
    requires Run(loads, changes, n) && i < |loads|
    requires forall j :: 0 <= j < i ==> changes[j].Register?
    ensures |loads[i]| == n && Sorted(loads[i])
    ensures loads[i][n - 1] <= loads[i][0] + 1
  {
    SharesBounded(loads, changes, n, i);
    if i > 0 {
      RegistrationsStayEven(loads, changes, n, i - 1);
      assert Changes(loads[i - 1], changes[i - 1], loads[i]);
    }
  }

  /** The total is registrations less removals. */
  lemma {:induction false} TotalIsNet(loads: seq<seq<nat>>, changes: seq<Change>, n: nat, i: nat)
    requires Run(loads, changes, n) && i < |loads|
    ensures Sum(loads[i]) + Count(changes[..i], false) == Count(changes[..i], true)
  {
    if i == 0 {
      ZeroSum(n);
    } else {
      TotalIsNet(loads, changes, n, i - 1);
      SharesBounded(loads, changes, n, i - 1);
      var l := loads[i - 1];
      assert Changes(l, changes[i - 1], loads[i]);
      assert changes[..i][..i - 1] == changes[..i - 1];
      match changes[i - 1] {
        case Register => RaiseSorted(l);
        case Remove(p) => LowerSorted(l, p);
      }
    }
  }

  function Count(changes: seq<Change>, registrations: bool): nat {
    if changes == [] then 0
    else
      var one := if changes[|changes| - 1].Register? == registrations then 1 else 0;
      Count(changes[..|changes| - 1], registrations) + one
  }
}
