/** Sums and counts over sequences, taken from the back so that they follow append-style loops. */
module Sums {

  /** The sum of the first n entries. */
  function SumTo(xs: seq<int>, n: nat): int
    requires n <= |xs|
  {
    if n == 0 then 0 else SumTo(xs, n - 1) + xs[n - 1]
  }

  function Sum(xs: seq<int>): int {
    SumTo(xs, |xs|)
  }

  lemma {:induction false} SumToPrefix(xs: seq<int>, ys: seq<int>, n: nat)
    requires n <= |xs| && n <= |ys| && xs[..n] == ys[..n]
    ensures SumTo(xs, n) == SumTo(ys, n)
  {
    if n > 0 {
      assert xs[..n][..n - 1] == xs[..n - 1] && ys[..n][..n - 1] == ys[..n - 1];
      assert xs[n - 1] == xs[..n][n - 1] && ys[n - 1] == ys[..n][n - 1];
      SumToPrefix(xs, ys, n - 1);
    }
  }

  lemma SumLast(xs: seq<int>)
    requires xs != []
    ensures Sum(xs) == Sum(xs[..|xs| - 1]) + xs[|xs| - 1]
  {
    SumToPrefix(xs, xs[..|xs| - 1], |xs| - 1);
  }

  /** The sum of xs over the index set S. */
  function SumOver(xs: seq<int>, S: set<int>): int {
    if xs == [] then 0
    else SumOver(xs[..|xs| - 1], S) + if |xs| - 1 in S then xs[|xs| - 1] else 0
  }

  /** The set of indices of a sequence of length n. */
  function Indices(n: nat): (s: set<int>)
    ensures |s| == n
    ensures forall i :: i in s <==> 0 <= i < n
  {
    if n == 0 then {} else Indices(n - 1) + {n - 1}
  }

  lemma SumAppend(xs: seq<int>, x: int)
    ensures Sum(xs + [x]) == Sum(xs) + x
  {
    SumLast(xs + [x]);
    assert (xs + [x])[..|xs|] == xs;
  }

  lemma {:induction false} SumUpdate(xs: seq<int>, k: nat, v: int)
    requires k < |xs|
    ensures Sum(xs[k := v]) == Sum(xs) - xs[k] + v
  {
    var n := |xs| - 1;
    SumLast(xs);
    SumLast(xs[k := v]);
    if k == n {
      assert xs[k := v][..n] == xs[..n];
    } else {
      SumUpdate(xs[..n], k, v);
      assert xs[k := v][..n] == xs[..n][k := v];
    }
  }

  lemma {:induction false} SumPlus(xs: seq<int>, ys: seq<int>, zs: seq<int>)
    requires |xs| == |ys| == |zs|
    requires forall i :: 0 <= i < |xs| ==> zs[i] == xs[i] + ys[i]
    ensures Sum(zs) == Sum(xs) + Sum(ys)
  {
    if xs != [] {
      var n := |xs| - 1;
      SumPlus(xs[..n], ys[..n], zs[..n]);
      SumLast(xs);
      SumLast(ys);
      SumLast(zs);
    }
  }

  lemma {:induction false} SumAtMost(xs: seq<int>, top: int)
    requires forall i :: 0 <= i < |xs| ==> xs[i] <= top
    ensures Sum(xs) <= |xs| * top
  {
    if xs != [] {
      SumAtMost(xs[..|xs| - 1], top);
      SumLast(xs);
    }
  }

  lemma {:induction false} SumAtLeastEach(xs: seq<int>, k: nat)
    requires k < |xs|
    requires forall i :: 0 <= i < |xs| ==> xs[i] >= 0
    ensures 0 <= Sum(xs)
    ensures xs[k] <= Sum(xs)
  {
    var n := |xs| - 1;
    SumNonNegative(xs[..n]);
    SumLast(xs);
    if k < n {
      SumAtLeastEach(xs[..n], k);
    }
  }

  lemma {:induction false} SumNonNegative(xs: seq<int>)
    requires forall i :: 0 <= i < |xs| ==> xs[i] >= 0
    ensures 0 <= Sum(xs)
  {
    if xs != [] {
      SumNonNegative(xs[..|xs| - 1]);
      SumLast(xs);
    }
  }

  /** Pointwise at most and equal in total forces equality everywhere. */
  lemma {:induction false} SqueezedSums(xs: seq<int>, ys: seq<int>)
    requires |xs| == |ys|
    requires forall i :: 0 <= i < |xs| ==> xs[i] <= ys[i]
    ensures Sum(xs) <= Sum(ys)
    ensures Sum(xs) == Sum(ys) ==> xs == ys
  {
    if xs != [] {
      var n := |xs| - 1;
      SqueezedSums(xs[..n], ys[..n]);
      SumLast(xs);
      SumLast(ys);
      if Sum(xs) == Sum(ys) {
        assert xs == xs[..n] + [xs[n]] && ys == ys[..n] + [ys[n]];
      }
    }
  }

  lemma {:induction false} SumConstant(xs: seq<int>, v: int)
    requires forall i :: 0 <= i < |xs| ==> xs[i] == v
    ensures Sum(xs) == |xs| * v
  {
    if xs != [] {
      SumConstant(xs[..|xs| - 1], v);
      SumLast(xs);
    }
  }

  lemma {:induction false} SumOverUpdate(xs: seq<int>, S: set<int>, k: nat, v: int)
    requires k < |xs|
    ensures SumOver(xs[k := v], S) == SumOver(xs, S) + if k in S then v - xs[k] else 0
  {
    var n := |xs| - 1;
    if k == n {
      assert xs[k := v][..n] == xs[..n];
    } else {
      SumOverUpdate(xs[..n], S, k, v);
      assert xs[k := v][..n] == xs[..n][k := v];
    }
  }

  lemma {:induction false} SumOverPlus(xs: seq<int>, ys: seq<int>, zs: seq<int>, S: set<int>)
    requires |xs| == |ys| == |zs|
    requires forall i :: 0 <= i < |xs| ==> zs[i] == xs[i] + ys[i]
    ensures SumOver(zs, S) == SumOver(xs, S) + SumOver(ys, S)
  {
    if xs != [] {
      var n := |xs| - 1;
      SumOverPlus(xs[..n], ys[..n], zs[..n], S);
    }
  }

  lemma {:induction false} SumOverSame(xs: seq<int>, S: set<int>, R: set<int>)
    requires forall i :: 0 <= i < |xs| ==> (i in S <==> i in R)
    ensures SumOver(xs, S) == SumOver(xs, R)
  {
    if xs != [] {
      SumOverSame(xs[..|xs| - 1], S, R);
    }
  }

  lemma {:induction false} SumOverAdd(xs: seq<int>, S: set<int>, k: nat)
    requires k < |xs| && k !in S
    ensures SumOver(xs, S + {k}) == SumOver(xs, S) + xs[k]
  {
    var n := |xs| - 1;
    if k == n {
      SumOverSame(xs[..n], S, S + {k});
    } else {
      SumOverAdd(xs[..n], S, k);
    }
  }

  /** Over non-negative entries a partial sum is at most the whole. */
  lemma {:induction false} SumOverAtMostSum(xs: seq<int>, S: set<int>)
    requires forall i :: 0 <= i < |xs| ==> xs[i] >= 0
    ensures 0 <= SumOver(xs, S) <= Sum(xs)
  {
    if xs != [] {
      SumOverAtMostSum(xs[..|xs| - 1], S);
      SumLast(xs);
    }
  }

  lemma {:induction false} SumOverAll(xs: seq<int>, S: set<int>)
    requires forall i :: 0 <= i < |xs| ==> i in S
    ensures SumOver(xs, S) == Sum(xs)
  {
    if xs != [] {
      SumOverAll(xs[..|xs| - 1], S);
      SumLast(xs);
    }
  }

  lemma {:induction false} SumOverBound(xs: seq<int>, S: set<int>, top: int)
    requires forall i :: i in S ==> 0 <= i < |xs| && xs[i] <= top
    ensures SumOver(xs, S) <= |S| * top
    decreases |xs|
  {
    if xs == [] {
      assert forall i :: i !in S;
      assert S == {};
    } else {
      var n := |xs| - 1;
      var R := S - {n};
      SumOverSame(xs[..n], S, R);
      SumOverBound(xs[..n], R, top);
      if n in S {
        assert |S| == |R| + 1;
      } else {
        assert R == S;
      }
    }
  }
}
