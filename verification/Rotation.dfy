/** With nothing to tell backends apart, all three balancers rotate through the list in order. */
module Rotation {
  import opened Lists
  import opened Sums
  import opened SmoothWeighted
  import WeightedLaws
  import opened LeastConn
  import opened RoundRobin

  lemma StepModulo(k: nat, n: nat)
    requires n > 0
    ensures (k + 1) % n == if k % n + 1 == n then 0 else k % n + 1
    ensures (k + 1) / n == if k % n + 1 == n then k / n + 1 else k / n
  {
    var q, r := k / n, k % n;
    assert k == q * n + r;
    if r + 1 == n {
      assert k + 1 == (q + 1) * n;
      Quotient(k + 1, n, q + 1, 0);
    } else {
      Quotient(k + 1, n, q, r + 1);
    }
  }

  lemma MultipleBounds(d: int, n: nat)
    ensures d >= 1 ==> d * n >= n
    ensures d <= -1 ==> d * n + n <= 0
  {
    assert d >= 1 ==> (d - 1) * n >= 0;
    assert d <= -1 ==> (d + 1) * n <= 0;
  }

  lemma Quotient(x: nat, n: nat, q: nat, r: nat)
    requires r < n && x == q * n + r
    ensures x / n == q && x % n == r
  {
    var d := x / n - q;
    assert x == (x / n) * n + x % n;
    assert d * n == r - x % n;
    MultipleBounds(d, n);
  }

  // ---- Weighted, all weights equal

  /** Entry i of the running weights r picks into a round of n equal backends. */
  function RoundWeight(n: nat, w: int, r: nat, i: nat): int {
    r * w - if i < r then n * w else 0
  }

  ghost predicate InRound(s: Ring, w: int, r: nat) {
    var n := |s.addrs|;
    && s.WellFormed() && n > 0 && r < n
    && (forall i :: 0 <= i < n ==> s.weights[i] == w)
    && (forall i :: 0 <= i < n ==> s.current[i] == RoundWeight(n, w, r, i))
  }

  lemma RoundStep(s: Ring, w: int, r: nat)
    requires InRound(s, w, r)
    ensures Pick(s) == r
    ensures InRound(Advance(s), w, if r + 1 == |s.addrs| then 0 else r + 1)
  {
    var n, b := |s.addrs|, Bumped(s);
    assert w == s.weights[0] && w > 0;
    assert n * w > 0;
    assert (r + 1) * w == r * w + w;
    forall i | 0 <= i < n ensures b[i] == RoundWeight(n, w, r, i) + w {}
    FirstMaxUnique(b, r);
    SumConstant(s.weights, w);
    forall i | 0 <= i < n
      ensures Advance(s).current[i] == RoundWeight(n, w, if r + 1 == n then 0 else r + 1, i)
    {
      WeightedLaws.AdvanceCurrent(s, i);
    }
  }

  lemma RoundStart(addrs: seq<string>, weights: seq<int>, w: int)
    requires addrs != []
    requires forall i :: 0 <= i < |addrs| ==> InitialWeight(weights, i) == w
    ensures InRound(Fresh(addrs, weights), w, 0)
  {}

  lemma {:induction false} WeightedRotates(addrs: seq<string>, weights: seq<int>, w: int, k: nat)
    requires addrs != []
    requires forall i :: 0 <= i < |addrs| ==> InitialWeight(weights, i) == w
    ensures InRound(Run(Fresh(addrs, weights), k), w, k % |addrs|)
  {
    hide Advance, Pick, InRound, InitialWeight;
    var start, n := Fresh(addrs, weights), |addrs|;
    if k == 0 {
      RoundStart(addrs, weights, w);
      Quotient(0, n, 0, 0);
    } else {
      WeightedRotates(addrs, weights, w, k - 1);
      RoundStep(Run(start, k - 1), w, (k - 1) % n);
      StepModulo(k - 1, n);
    }
  }

  lemma WeightedPicks(addrs: seq<string>, weights: seq<int>, k: nat)
    requires addrs != []
    requires forall i :: 0 <= i < |addrs| ==> InitialWeight(weights, i) == InitialWeight(weights, 0)
    ensures Pick(Run(Fresh(addrs, weights), k)) == k % |addrs|
  {
    hide Advance, Pick, InRound, InitialWeight;
    WeightedRotates(addrs, weights, InitialWeight(weights, 0), k);
    RoundStep(Run(Fresh(addrs, weights), k), InitialWeight(weights, 0), k % |addrs|);
  }

  // ---- Least connections, every pick acquired at once and never released

  function LoadAfter(addrs: seq<string>, k: nat): (load: Load)
    requires addrs != []
    ensures forall a :: a in load <==> a in addrs
  {
    if k == 0 then Kept(map[], addrs)
    else
      var load := LoadAfter(addrs, k - 1);
      Added(load, addrs[Least(addrs, load)], 1)
  }

  /** Everyone holds q connections and the first r one more. */
  ghost predicate Spread(addrs: seq<string>, load: Load, q: nat, r: nat) {
    && (forall a :: a in load <==> a in addrs)
    && forall i :: 0 <= i < |addrs| ==> CountOf(load, addrs[i]) == q + if i < r then 1 else 0
  }

  lemma SpreadStep(addrs: seq<string>, load: Load, q: nat, r: nat)
    requires Distinct(addrs) && r < |addrs| && Spread(addrs, load, q, r)
    ensures Least(addrs, load) == r
    ensures Spread(addrs, Added(load, addrs[r], 1),
                   if r + 1 == |addrs| then q + 1 else q, if r + 1 == |addrs| then 0 else r + 1)
  {
    FirstMinUnique(Counts(addrs, load), r);
  }

  lemma {:induction false} LeastConnRotates(addrs: seq<string>, k: nat)
    requires addrs != [] && Distinct(addrs)
    ensures Spread(addrs, LoadAfter(addrs, k), k / |addrs|, k % |addrs|)
    ensures Least(addrs, LoadAfter(addrs, k)) == k % |addrs|
  {
    hide Least, Added, CountOf, Spread, Distinct;
    var n := |addrs|;
    if k > 0 {
      LeastConnRotates(addrs, k - 1);
      SpreadStep(addrs, LoadAfter(addrs, k - 1), (k - 1) / n, (k - 1) % n);
      StepModulo(k - 1, n);
    } else {
      Quotient(0, n, 0, 0);
      SpreadStart(addrs);
    }
    SpreadStep(addrs, LoadAfter(addrs, k), k / n, k % n);
  }

  lemma SpreadStart(addrs: seq<string>)
    ensures Spread(addrs, Kept(map[], addrs), 0, 0)
  {}

  // ---- Round robin

  /** A counter that wraps at w, after k increments. */
  function Wrapped(k: nat, w: nat): nat
    requires w > 0
  {
    if k == 0 then 0 else (Wrapped(k - 1, w) + 1) % w
  }

  function CounterAfter(k: nat): nat {
    Wrapped(k, WRAP)
  }

  lemma {:induction false} WrappedModulo(k: nat, w: nat)
    requires w > 0
    ensures Wrapped(k, w) == k % w
    ensures k < w ==> Wrapped(k, w) == k
  {
    if k == 0 {
      Quotient(0, w, 0, 0);
    } else {
      WrappedModulo(k - 1, w);
      StepModulo(k - 1, w);
      if (k - 1) % w + 1 == w {
        Quotient(w, w, 1, 0);
      } else {
        Quotient((k - 1) % w + 1, w, 0, (k - 1) % w + 1);
      }
    }
  }

  lemma CounterModulo(k: nat)
    ensures CounterAfter(k) == k % WRAP
    ensures k < WRAP ==> CounterAfter(k) == k
  {
    WrappedModulo(k, WRAP);
  }

  lemma CounterPicks(addrs: seq<string>, k: nat)
    requires addrs != []
    ensures k < WRAP ==> Chosen(addrs, CounterAfter(k)) == addrs[k % |addrs|]
  {
    CounterModulo(k);
  }

  // ---- The refinement

  /** Call k of each balancer, from a fresh state, answers entry k modulo the list length. */
  lemma SameRotation(addrs: seq<string>, weights: seq<int>, k: nat)
    requires addrs != [] && Distinct(addrs)
    requires forall i :: 0 <= i < |addrs| ==> InitialWeight(weights, i) == InitialWeight(weights, 0)
    ensures addrs[Pick(Run(Fresh(addrs, weights), k))] == addrs[k % |addrs|]
    ensures addrs[Least(addrs, LoadAfter(addrs, k))] == addrs[k % |addrs|]
    ensures k < WRAP ==> Chosen(addrs, CounterAfter(k)) == addrs[k % |addrs|]
  {
    hide *;
    WeightedPicks(addrs, weights, k);
    LeastConnRotates(addrs, k);
    CounterPicks(addrs, k);
  }

  /** Past the wrap the counter keeps the rotation exactly when the list length divides 2^64. */
  lemma RotationSurvivesWrap(addrs: seq<string>)
    requires addrs != [] && Distinct(addrs)
    ensures (forall k: nat :: Chosen(addrs, CounterAfter(k)) == addrs[k % |addrs|]) <==> WRAP % |addrs| == 0
  {
    var n := |addrs|;
    CounterModulo(WRAP);
    if WRAP % n == 0 {
      forall k: nat ensures Chosen(addrs, CounterAfter(k)) == addrs[k % n] {
        CounterModulo(k);
        ModuloOfMultiple(k, WRAP, n);
      }
    } else {
      assert Chosen(addrs, CounterAfter(WRAP)) == addrs[0];
      assert addrs[WRAP % n] != addrs[0];
    }
  }

  lemma ModuloOfMultiple(k: nat, m: nat, n: nat)
    requires n > 0 && m > 0 && m % n == 0
    ensures k % m % n == k % n
  {
    var q, d, r := k / m, m / n, k % m;
    var s, t := r / n, r % n;
    assert k == q * (d * n) + (s * n + t);
    Regroup(q, d, n, s, t);
    Quotient(k, n, q * d + s, t);
  }

  lemma Regroup(q: nat, d: nat, n: nat, s: nat, t: nat)
    ensures q * d + s >= 0
    ensures q * (d * n) + (s * n + t) == (q * d + s) * n + t
  {
    assert q * d >= 0;
    assert q * (d * n) == (q * d) * n;
    assert (q * d + s) * n == (q * d) * n + s * n;
  }
}
