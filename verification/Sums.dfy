/** Sums of sequences of natural numbers. */
module Sums {
  function Sum(s: seq<nat>): (r: nat)
    decreases |s|
  {
    if s == [] then 0 else Sum(s[..|s| - 1]) + s[|s| - 1]
  }

  lemma {:induction false} SumUpdate(s: seq<nat>, i: nat, n: nat)
    requires i < |s|
    ensures Sum(s[i := n]) == Sum(s) - s[i] + n
    decreases |s|
  {
    var last := |s| - 1;
    if i < last {
      assert s[i := n][..last] == s[..last][i := n];
      SumUpdate(s[..last], i, n);
    } else {
      assert s[i := n][..last] == s[..last];
    }
  }

  lemma {:induction false} SumMonotone(a: seq<nat>, b: seq<nat>)
    requires |a| == |b| && forall i :: 0 <= i < |a| ==> a[i] <= b[i]
    ensures Sum(a) <= Sum(b)
    decreases |a|
  {
    if a != [] { SumMonotone(a[..|a| - 1], b[..|b| - 1]); }
  }

  lemma {:induction false} ZeroSum(s: seq<nat>)
    requires forall i :: 0 <= i < |s| ==> s[i] == 0
    ensures Sum(s) == 0
    decreases |s|
  {
    if s != [] { ZeroSum(s[..|s| - 1]); }
  }

  lemma {:induction false} SumOfDifferences(a: seq<nat>, b: seq<nat>, d: seq<nat>)
    requires |a| == |b| == |d| && forall i :: 0 <= i < |a| ==> a[i] + d[i] == b[i]
    ensures Sum(a) + Sum(d) == Sum(b)
    decreases |a|
  {
    if a != [] {
      SumOfDifferences(a[..|a| - 1], b[..|b| - 1], d[..|d| - 1]);
    }
  }

  lemma {:induction false} SumAtLeast(s: seq<nat>, i: nat)
    requires i < |s|
    ensures s[i] <= Sum(s)
    decreases |s|
  {
    if i < |s| - 1 { SumAtLeast(s[..|s| - 1], i); }
  }

  lemma {:induction false} SumOfOnes(s: seq<nat>)
    requires forall i :: 0 <= i < |s| ==> s[i] <= 1
    ensures Sum(s) <= |s|
    decreases |s|
  {
    if s != [] { SumOfOnes(s[..|s| - 1]); }
  }

  lemma {:induction false} SumsEqual(a: seq<nat>, b: seq<nat>)
    requires |a| == |b| && Sum(a) == Sum(b) && forall i :: 0 <= i < |a| ==> a[i] <= b[i]
    ensures a == b
    decreases |a|
  {
    if a != [] {
      var last := |a| - 1;
      SumMonotone(a[..last], b[..last]);
      SumsEqual(a[..last], b[..last]);
      assert a == a[..last] + [a[last]] && b == b[..last] + [b[last]];
    }
  }
}
