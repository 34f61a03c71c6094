/**
 * The values behind the smooth weighted round-robin balancer and what one call to Next does to
 * them. The class in Weighted.dfy is proved equal to these functions; the laws of whole runs are
 * in WeightedLaws.dfy.
 */
module SmoothWeighted {
  import opened Lists
  import opened Sums

  /** One entry per backend, in list order. */
  datatype Ring = Ring(addrs: seq<string>, weights: seq<int>, current: seq<int>) {

    predicate WellFormed() {
      && |addrs| == |weights| == |current|
      && forall i :: 0 <= i < |weights| ==> weights[i] > 0
    }

    function Total(): int {
      Sum(weights)
    }
  }

  /** The same backends and weights at the start of a cycle. */
  function Restart(r: Ring): Ring {
    r.(current := Zeros(|r.addrs|))
  }

  /** The first index below n holding the largest of the first n values. */
  function FirstMaxTo(xs: seq<int>, n: nat): (k: nat)
    requires 0 < n <= |xs|
    ensures k < n
    ensures forall i :: 0 <= i < n ==> xs[i] <= xs[k]
    ensures forall i :: 0 <= i < k ==> xs[i] < xs[k]
  {
    if n == 1 then 0
    else
      var k := FirstMaxTo(xs, n - 1);
      if xs[n - 1] > xs[k] then n - 1 else k
  }

  /** The first index holding the largest value. */
  function FirstMax(xs: seq<int>): (k: nat)
    requires xs != []
    ensures k < |xs|
    ensures forall i :: 0 <= i < |xs| ==> xs[i] <= xs[k]
    ensures forall i :: 0 <= i < k ==> xs[i] < xs[k]
  {
    FirstMaxTo(xs, |xs|)
  }

  lemma FirstMaxUnique(xs: seq<int>, k: nat)
    requires k < |xs|
    requires forall i :: 0 <= i < |xs| ==> xs[i] <= xs[k]
    requires forall i :: 0 <= i < k ==> xs[i] < xs[k]
    ensures FirstMax(xs) == k
  {
    var f := FirstMax(xs);
    assert xs[f] == xs[k];
  }

  /** Every running weight raised by its configured weight. */
  function Bumped(r: Ring): (b: seq<int>)
    requires r.WellFormed()
    ensures |b| == |r.current|
  {
    seq(|r.current|, i requires 0 <= i < |r.current| => r.current[i] + r.weights[i])
  }

  /** The backend ahead of all others once everyone has its weight; of equals, the first listed. */
  function Pick(r: Ring): (k: nat)
    requires r.WellFormed() && r.addrs != []
    ensures k < |r.addrs|
    ensures forall i :: 0 <= i < |r.addrs| ==> r.current[i] + r.weights[i] <= r.current[k] + r.weights[k]
    ensures forall i :: 0 <= i < k ==> r.current[i] + r.weights[i] < r.current[k] + r.weights[k]
  {
    assert forall i :: 0 <= i < |r.addrs| ==> Bumped(r)[i] == r.current[i] + r.weights[i];
    FirstMax(Bumped(r))
  }

  /** The ring after one call to Next; an empty ring does not move. */
  function Advance(r: Ring): (s: Ring)
    requires r.WellFormed()
    ensures |s.current| == |r.current| && s.addrs == r.addrs && s.weights == r.weights
  {
    if r.addrs == [] then r
    else
      var b, k := Bumped(r), Pick(r);
      r.(current := b[k := b[k] - r.Total()])
  }

  /** The ring after m calls. */
  function Run(r: Ring, m: nat): (s: Ring)
    requires r.WellFormed()
    ensures s.weights == r.weights && s.addrs == r.addrs && |s.current| == |r.current|
  {
    if m == 0 then r else Advance(Run(r, m - 1))
  }

  /** How many of m calls pick backend i. */
  function Served(r: Ring, m: nat, i: nat): (c: nat)
    requires r.WellFormed()
    ensures c <= m
  {
    if m == 0 || r.addrs == [] then 0
    else Served(r, m - 1, i) + if Pick(Run(r, m - 1)) == i then 1 else 0
  }

  /** The configured weight of entry i: missing and non-positive entries count as 1. */
  function InitialWeight(weights: seq<int>, i: nat): (w: int)
    ensures w > 0
  {
    if i < |weights| && weights[i] > 0 then weights[i] else 1
  }

  /** A freshly built balancer. */
  function Fresh(addrs: seq<string>, weights: seq<int>): (r: Ring)
    ensures r.WellFormed()
  {
    Ring(addrs, seq(|addrs|, i requires 0 <= i < |addrs| => InitialWeight(weights, i)), Zeros(|addrs|))
  }

  /** The weight a replaced list gives to a: that of its last entry so far, or 1. */
  function KeptWeight(addrs: seq<string>, weights: seq<int>, a: string): (w: int)
    requires |addrs| == |weights|
    requires forall i :: 0 <= i < |weights| ==> weights[i] > 0
    ensures w > 0
  {
    if addrs == [] then 1
    else
      var n := |addrs| - 1;
      if addrs[n] == a then weights[n] else KeptWeight(addrs[..n], weights[..n], a)
  }

  lemma KeptWeightStep(addrs: seq<string>, weights: seq<int>, i: nat, a: string)
    requires |addrs| == |weights| && i < |addrs|
    requires forall j :: 0 <= j < |weights| ==> weights[j] > 0
    ensures KeptWeight(addrs[..i + 1], weights[..i + 1], a)
         == if addrs[i] == a then weights[i] else KeptWeight(addrs[..i], weights[..i], a)
  {
    assert addrs[..i + 1][..i] == addrs[..i] && weights[..i + 1][..i] == weights[..i];
  }

  lemma {:induction false} KeptWeightNew(addrs: seq<string>, weights: seq<int>, a: string)
    requires |addrs| == |weights|
    requires forall i :: 0 <= i < |weights| ==> weights[i] > 0
    requires a !in addrs
    ensures KeptWeight(addrs, weights, a) == 1
  {
    if addrs != [] {
      KeptWeightNew(addrs[..|addrs| - 1], weights[..|addrs| - 1], a);
    }
  }

  /** Entry j is the last one for a. */
  ghost predicate LastEntry(addrs: seq<string>, a: string, j: int) {
    0 <= j < |addrs| && addrs[j] == a && forall l :: j < l < |addrs| ==> addrs[l] != a
  }

  lemma {:induction false} KeptWeightLast(addrs: seq<string>, weights: seq<int>, a: string, j: nat)
    requires |addrs| == |weights|
    requires forall i :: 0 <= i < |weights| ==> weights[i] > 0
    requires LastEntry(addrs, a, j)
    ensures KeptWeight(addrs, weights, a) == weights[j]
  {
    var n := |addrs| - 1;
    if j < n {
      KeptWeightLast(addrs[..n], weights[..n], a, j);
    }
  }

  /** The ring after the backend list is replaced. */
  function Replaced(r: Ring, addrs: seq<string>): (s: Ring)
    requires r.WellFormed()
    ensures s.WellFormed() && s.addrs == addrs
  {
    Ring(addrs,
         seq(|addrs|, i requires 0 <= i < |addrs| => KeptWeight(r.addrs, r.weights, addrs[i])),
         Zeros(|addrs|))
  }

  /** r is what some number of calls make of its own starting point. */
  ghost predicate Reachable(r: Ring) {
    r.WellFormed() && exists m: nat :: Run(Restart(r), m) == r
  }

  lemma RestartReachable(r: Ring)
    requires r.WellFormed() && r.current == Zeros(|r.addrs|)
    ensures Reachable(r)
  {
    assert Run(Restart(r), 0) == r;
  }

  lemma AdvanceReachable(r: Ring)
    requires Reachable(r)
    ensures Reachable(Advance(r))
  {
    var m: nat :| Run(Restart(r), m) == r;
    assert Restart(Advance(r)) == Restart(r);
    assert Run(Restart(r), m + 1) == Advance(r);
  }
}
