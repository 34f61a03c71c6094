/** What smooth weighted round-robin guarantees over whole runs of calls and list replacements. */
module WeightedLaws {
  import opened Lists
  import opened Sums
  import opened SmoothWeighted

  // ---- Runs compose

  lemma {:induction false} RunAdd(r: Ring, a: nat, b: nat)
    requires r.WellFormed()
    ensures Run(Run(r, a), b) == Run(r, a + b)
  {
    hide Advance;
    if b > 0 {
      RunAdd(r, a, b - 1);
    }
  }

  lemma {:induction false} ServedAdd(r: Ring, a: nat, b: nat, i: nat)
    requires r.WellFormed()
    ensures Served(r, a + b, i) == Served(r, a, i) + Served(Run(r, a), b, i)
  {
    hide Advance, Pick;
    if b > 0 {
      ServedAdd(r, a, b - 1, i);
      RunAdd(r, a, b - 1);
    }
  }

  /** Every call picks exactly one backend. */
  lemma {:induction false} ServedAddUp(r: Ring, m: nat)
    requires r.WellFormed() && r.addrs != []
    ensures Sum(Tally(r, m)) == m
  {
    hide Advance, Pick;
    if m == 0 {
      SumConstant(Tally(r, 0), 0);
    } else {
      var before, k := Tally(r, m - 1), Pick(Run(r, m - 1));
      ServedAddUp(r, m - 1);
      assert Tally(r, m) == before[k := before[k] + 1];
      SumUpdate(before, k, before[k] + 1);
    }
  }

  /** What each backend has served after m calls. */
  function Tally(r: Ring, m: nat): (c: seq<int>)
    requires r.WellFormed()
    ensures |c| == |r.addrs|
  {
    seq(|r.addrs|, i requires 0 <= i < |r.addrs| => Served(r, m, i))
  }

  /** One call earns every backend its weight and costs the winner a total. */
  lemma AdvanceCurrent(r: Ring, i: nat)
    requires r.WellFormed() && i < |r.addrs|
    ensures Advance(r).current[i] == r.current[i] + r.weights[i] - if Pick(r) == i then r.Total() else 0
  {
    hide FirstMax, Sum;
  }

  // ---- The invariant of a cycle

  /** The running weights cancel out and none has fallen by a whole total. */
  ghost predicate Settled(r: Ring) {
    && r.WellFormed()
    && Sum(r.current) == 0
    && forall i :: 0 <= i < |r.current| ==> r.current[i] > -r.Total()
  }

  lemma SettledRestart(r: Ring)
    requires r.WellFormed()
    ensures Settled(Restart(r))
  {
    SumConstant(Zeros(|r.addrs|), 0);
    if r.weights != [] {
      SumAtLeastEach(r.weights, 0);
    }
  }

  /**
   * The winner of a settled ring has a positive raised weight, so paying the total keeps it above
   * minus the total.
   */
  lemma SettledAdvance(r: Ring)
    requires Settled(r)
    ensures Settled(Advance(r))
  {
    hide FirstMax, Sum;
    if r.addrs != [] {
      var b, k, t := Bumped(r), Pick(r), r.Total();
      SumAtLeastEach(r.weights, 0);
      SumPlus(r.current, r.weights, b);
      SumAtMost(b, b[k]);
      PositiveFactor(|b|, b[k]);
      SumUpdate(b, k, b[k] - t);
    }
  }

  lemma PositiveFactor(n: nat, top: int)
    requires n * top > 0
    ensures top > 0
  {
    assert top <= 0 ==> n * top <= 0;
  }

  lemma {:induction false} SettledRun(r: Ring, m: nat)
    requires r.WellFormed() && Settled(r)
    ensures Settled(Run(r, m))
  {
    hide Settled, Advance;
    if m > 0 {
      SettledRun(r, m - 1);
      SettledAdvance(Run(r, m - 1));
    }
  }

  lemma ReachableSettled(r: Ring)
    requires Reachable(r)
    ensures Settled(r)
  {
    var m: nat :| Run(Restart(r), m) == r;
    SettledRestart(r);
    SettledRun(Restart(r), m);
  }

  /** What m calls earn a backend of weight w, less what c picks cost it when the total is t. */
  function Balance(m: int, w: int, c: int, t: int): int {
    m * w - c * t
  }

  lemma BalanceStep(m: int, w: int, c: int, t: int)
    ensures Balance(m + 1, w, c, t) == Balance(m, w, c, t) + w
    ensures Balance(m, w, c + 1, t) == Balance(m, w, c, t) - t
  {}

  /** Every running weight is a ledger: weight earned by each call, a total paid for each pick. */
  lemma {:induction false} Ledger(r: Ring, m: nat, i: nat)
    requires r.WellFormed() && i < |r.addrs|
    ensures Run(r, m).current[i] == r.current[i] + Balance(m, r.weights[i], Served(r, m, i), r.Total())
  {
    hide Advance, Pick;
    if m > 0 {
      hide Balance;
      var before, c, t, w := Run(r, m - 1), Served(r, m - 1, i), r.Total(), r.weights[i];
      Ledger(r, m - 1, i);
      AdvanceCurrent(before, i);
      BalanceStep(m - 1, w, c, t);
      BalanceStep(m, w, c, t);
    }
  }

  // ---- Exact proportions

  /** From the start of a cycle, total calls serve every backend exactly its weight and close the cycle. */
  lemma CycleFromStart(r: Ring)
    requires r.WellFormed() && r.addrs != [] && r == Restart(r)
    ensures r.Total() > 0
    ensures Run(r, r.Total()) == r
    ensures forall i :: 0 <= i < |r.addrs| ==> Served(r, r.Total(), i) == r.weights[i]
  {
    hide Advance, Pick, Served, Balance;
    SumAtLeastEach(r.weights, 0);
    var t := r.Total();
    forall i | 0 <= i < |r.addrs| ensures Tally(r, t)[i] <= r.weights[i] {
      WindowCount(r, i);
    }
    ServedAddUp(r, t);
    SqueezedSums(Tally(r, t), r.weights);
    forall i | 0 <= i < |r.addrs| ensures Run(r, t).current[i] == 0 {
      assert Tally(r, t)[i] == r.weights[i];
      WindowCount(r, i);
    }
    assert Run(r, t).current == r.current;
    assert forall i :: 0 <= i < |r.addrs| ==> Served(r, t, i) == Tally(r, t)[i];
  }

  /** One backend over total calls: never more picks than its weight, and exactly that many if it ends level. */
  lemma WindowCount(r: Ring, i: nat)
    requires Settled(r) || r == Restart(r)
    requires r.WellFormed() && i < |r.addrs|
    ensures r.Total() > 0
    ensures r == Restart(r) ==> Served(r, r.Total(), i) <= r.weights[i]
    ensures Served(r, r.Total(), i) == r.weights[i] <==> Run(r, r.Total()).current[i] == r.current[i]
  {
    hide Advance, Pick, Balance;
    SumAtLeastEach(r.weights, i);
    var t := r.Total();
    Ledger(r, t, i);
    if r == Restart(r) {
      SettledRestart(r);
      SettledRun(r, t);
      NotAbove(r.weights[i], Served(r, t, i), t);
    }
    BalanceZero(r.weights[i], Served(r, t, i), t);
  }

  lemma NotAbove(w: int, c: int, t: int)
    requires t > 0 && Balance(t, w, c, t) > -t
    ensures c <= w
  {
    assert c >= w + 1 ==> (c - w - 1) * t >= 0;
  }

  lemma BalanceZero(w: int, c: int, t: int)
    requires t > 0
    ensures Balance(t, w, c, t) == 0 <==> c == w
  {
    assert Balance(t, w, c, t) == (w - c) * t;
  }

  /** Total calls return the balancer to where they found it, whatever state it was in. */
  lemma WindowReturns(r: Ring)
    requires Reachable(r) && r.addrs != []
    ensures r.Total() > 0
    ensures Run(r, r.Total()) == r
  {
    hide Advance;
    var m: nat :| Run(Restart(r), m) == r;
    CycleFromStart(Restart(r));
    RunAdd(Restart(r), m, r.Total());
    RunAdd(Restart(r), r.Total(), m);
  }

  /** Exact proportionality: total calls serve each backend its weight, and the window may start in any state. */
  lemma ExactWindow(r: Ring, i: nat)
    requires Reachable(r) && i < |r.addrs|
    ensures r.Total() >= 0
    ensures Served(r, r.Total(), i) == r.weights[i]
  {
    hide Advance, Pick;
    ReachableSettled(r);
    WindowReturns(r);
    WindowCount(r, i);
  }

  // ---- Neither starved nor over-served

  /** More than total - weight calls in a row always serve the backend, wherever they start. */
  lemma NoStarvation(r: Ring, m: nat, i: nat)
    requires Reachable(r) && i < |r.addrs|
    requires m > r.Total() - r.weights[i]
    ensures Served(r, m, i) > 0
  {
    hide *;
    ReachableSettled(r);
    SettledPositive(r, i);
    ExactWindow(r, i);
    ServedWithin(r, m, r.Total(), i);
  }

  lemma SettledPositive(r: Ring, i: nat)
    requires Settled(r) && i < |r.addrs|
    ensures r.WellFormed() && r.weights[i] > 0
  {}

  /** What t calls serve, fewer calls serve but for one each. */
  lemma ServedWithin(r: Ring, m: nat, t: nat, i: nat)
    requires r.WellFormed() && Served(r, t, i) > 0 && m > t - Served(r, t, i)
    ensures Served(r, m, i) > 0
  {
    hide *;
    if m < t {
      ServedAdd(r, m, t - m, i);
    } else {
      ServedAdd(r, t, m - t, i);
    }
  }

  /** From the start of a cycle no backend is ever a whole pick ahead of its exact share. */
  lemma NoOverService(r: Ring, m: nat, i: nat)
    requires r.WellFormed() && r == Restart(r) && i < |r.addrs|
    ensures Served(r, m, i) * r.Total() < m * r.weights[i] + r.Total()
  {
    hide Advance, Pick;
    SettledRestart(r);
    SettledRun(r, m);
    Ledger(r, m, i);
  }

  /** The raised weights of a reachable ring stay within n totals of zero, which bounds the integers Next needs. */
  lemma RunningWeightsBounded(r: Ring, i: nat)
    requires Reachable(r) && i < |r.addrs|
    ensures -r.Total() < r.current[i]
    ensures r.current[i] <= Bumped(r)[i] <= |r.addrs| * r.Total()
  {
    ReachableSettled(r);
    var t := r.Total();
    var lifted := seq(|r.current|, j requires 0 <= j < |r.current| => r.current[j] + t);
    var ts := seq(|r.current|, j => t);
    SumConstant(ts, t);
    SumPlus(r.current, ts, lifted);
    SumAtLeastEach(lifted, i);
    SumAtLeastEach(r.weights, i);
  }

  // ---- Logarithmic drift

  /** The n-th harmonic number. */
  function Harmonic(n: nat): (h: real)
    ensures h >= 0.0
  {
    if n == 0 then 0.0 else Harmonic(n - 1) + 1.0 / n as real
  }

  lemma {:induction false} HarmonicGrows(k: nat, n: nat)
    requires k <= n
    ensures Harmonic(k) <= Harmonic(n)
  {
    if k < n {
      HarmonicGrows(k, n - 1);
    }
  }

  /** How far k of n backends may be behind together. */
  function Slack(n: nat, k: nat, t: int): real
    requires k <= n
  {
    k as real * t as real * (Harmonic(n) - Harmonic(k))
  }

  lemma SlackIs(n: nat, k: nat, t: int)
    requires k <= n
    ensures Slack(n, k, t) == k as real * t as real * (Harmonic(n) - Harmonic(k))
  {}

  /** Every set of k backends is behind by at most its slack. */
  ghost predicate Drifts(r: Ring) {
    && Settled(r)
    && forall S: set<int> :: S <= Indices(|r.addrs|) ==> Within(r, S)
  }

  ghost predicate Within(r: Ring, S: set<int>) {
    |S| <= |r.addrs| && SumOver(r.current, S) as real <= Slack(|r.addrs|, |S|, r.Total())
  }

  lemma SubsetSize(S: set<int>, n: nat)
    requires S <= Indices(n)
    ensures |S| <= n
  {
    assert |Indices(n) - S| == n - |S|;
  }

  lemma DriftsRestart(r: Ring)
    requires r.WellFormed()
    ensures Drifts(Restart(r))
  {
    hide Sum, SumOver, Harmonic;
    SettledRestart(r);
    var z := Restart(r);
    forall S: set<int> | S <= Indices(|r.addrs|) ensures Within(z, S) {
      SubsetSize(S, |r.addrs|);
      SumOverZero(z.current, S);
      HarmonicGrows(|S|, |r.addrs|);
      SumNonNegative(r.weights);
      NonNegativeProduct(|S|, r.Total(), Harmonic(|r.addrs|) - Harmonic(|S|));
    }
  }

  lemma {:induction false} SumOverZero(xs: seq<int>, S: set<int>)
    requires forall i :: 0 <= i < |xs| ==> xs[i] == 0
    ensures SumOver(xs, S) == 0
  {
    if xs != [] {
      SumOverZero(xs[..|xs| - 1], S);
    }
  }

  lemma NonNegativeProduct(k: nat, t: int, h: real)
    requires t >= 0 && h >= 0.0
    ensures k as real * t as real * h >= 0.0
  {
    assert k as real * t as real >= 0.0;
  }

  /** A set that contains the winner gains at most the total and pays it. */
  lemma DriftWithWinner(r: Ring, S: set<int>)
    requires Drifts(r) && r.addrs != [] && S <= Indices(|r.addrs|) && Pick(r) in S
    ensures Within(Advance(r), S)
  {
    hide FirstMax, Sum, SumOver;
    var b, k := Bumped(r), Pick(r);
    SumOverPlus(r.current, r.weights, b, S);
    SumOverUpdate(b, S, k, b[k] - r.Total());
    SumOverAtMostSum(r.weights, S);
    assert Within(r, S);
  }

  /** A set without the winner holds at most its share of the set enlarged by the winner. */
  lemma DriftWithoutWinner(r: Ring, S: set<int>)
    requires Drifts(r) && r.addrs != [] && S <= Indices(|r.addrs|) && Pick(r) !in S
    ensures Within(Advance(r), S)
  {
    hide FirstMax, Sum, SumOver;
    var b, p, n, t := Bumped(r), Pick(r), |r.addrs|, r.Total();
    var R := S + {p};
    assert |R| == |S| + 1;
    SubsetSize(R, n);
    SumOverUpdate(b, S, p, b[p] - t);
    SumOverPlus(r.current, r.weights, b, R);
    SumOverAtMostSum(r.weights, R);
    SumOverAdd(b, S, p);
    SumOverBound(b, S, b[p]);
    assert Within(r, R);
    ShareOfEnlarged(n, |S|, t, SumOver(b, S), b[p]);
  }

  lemma ShareOfEnlarged(n: nat, k: nat, t: int, part: int, top: int)
    requires k + 1 <= n
    requires part <= k * top
    requires (part + top) as real <= Slack(n, k + 1, t) + t as real
    ensures part as real <= Slack(n, k, t)
  {
    hide Slack;
    var c := t as real * (Harmonic(n) - Harmonic(k));
    SlackStep(n, k, t);
    ShareOfSum(k, part, top, c);
  }

  /** Enlarging the set by one and adding a total spreads the same amount per backend. */
  lemma SlackStep(n: nat, k: nat, t: int)
    requires k + 1 <= n
    ensures Slack(n, k, t) == k as real * (t as real * (Harmonic(n) - Harmonic(k)))
    ensures Slack(n, k + 1, t) + t as real == (k as real + 1.0) * (t as real * (Harmonic(n) - Harmonic(k)))
  {
    var kr, tr, h := k as real + 1.0, t as real, Harmonic(n) - Harmonic(k);
    assert Harmonic(k + 1) == Harmonic(k) + 1.0 / kr;
    assert Slack(n, k + 1, t) == kr * tr * (h - 1.0 / kr);
    Unspread(kr, tr, h);
  }

  lemma Unspread(k: real, t: real, h: real)
    requires k > 0.0
    ensures k * t * (h - 1.0 / k) + t == k * (t * h)
  {
    assert k * t * (h - 1.0 / k) == k * t * h - t * (k * (1.0 / k));
    assert k * (1.0 / k) == 1.0;
  }

  lemma ShareOfSum(k: nat, part: int, top: int, c: real)
    requires part <= k * top
    requires (part + top) as real <= (k as real + 1.0) * c
    ensures part as real <= k as real * c
  {
    var kr, x, y := k as real, part as real, top as real;
    assert x <= kr * y by {
      assert (k * top) as real == kr * y;
    }
    assert kr * (x + y) <= kr * ((kr + 1.0) * c) by {
      assert kr * ((kr + 1.0) * c - (x + y)) >= 0.0;
    }
    assert (kr + 1.0) * x <= kr * (x + y);
    assert kr * ((kr + 1.0) * c) == (kr + 1.0) * (kr * c);
    CancelPositive(kr + 1.0, x, kr * c);
  }

  lemma CancelPositive(c: real, x: real, y: real)
    requires c > 0.0 && c * x <= c * y
    ensures x <= y
  {
    assert x > y ==> c * (x - y) > 0.0;
  }

  lemma DriftsAdvance(r: Ring)
    requires Drifts(r)
    ensures Drifts(Advance(r))
  {
    hide Advance, Pick;
    SettledAdvance(r);
    if r.addrs != [] {
      forall S: set<int> | S <= Indices(|r.addrs|) ensures Within(Advance(r), S) {
        if Pick(r) in S {
          DriftWithWinner(r, S);
        } else {
          DriftWithoutWinner(r, S);
        }
      }
    }
  }

  lemma {:induction false} DriftsRun(r: Ring, m: nat)
    requires r.WellFormed() && Drifts(r)
    ensures Drifts(Run(r, m))
  {
    hide Drifts, Advance;
    if m > 0 {
      DriftsRun(r, m - 1);
      DriftsAdvance(Run(r, m - 1));
    }
  }

  lemma DriftWithinSlack(r: Ring, S: set<int>)
    requires Reachable(r)
    requires forall i :: i in S ==> 0 <= i < |r.addrs|
    ensures |S| <= |r.addrs|
    ensures SumOver(r.current, S) as real <= Slack(|r.addrs|, |S|, r.Total())
  {
    hide Slack, Reachable;
    ReachableDrifts(r);
    assert S <= Indices(|r.addrs|);
    assert Within(r, S);
  }

  /** Logarithmic drift, for every set of backends in every state the balancer can be in. */
  lemma LogarithmicDrift(r: Ring, S: set<int>)
    requires Reachable(r)
    requires forall i :: i in S ==> 0 <= i < |r.addrs|
    ensures |S| <= |r.addrs|
    ensures SumOver(r.current, S) as real
         <= |S| as real * r.Total() as real * (Harmonic(|r.addrs|) - Harmonic(|S|))
  {
    hide *;
    DriftWithinSlack(r, S);
    SlackIs(|r.addrs|, |S|, r.Total());
  }

  lemma ReachableDrifts(r: Ring)
    requires Reachable(r)
    ensures r.WellFormed() && Drifts(r)
  {
    hide Advance, Pick, Drifts;
    var m: nat :| Run(Restart(r), m) == r;
    DriftsRestart(r);
    DriftsRun(Restart(r), m);
  }

  /** The part of m calls that a backend of weight w is due when the total is t. */
  function ExactShare(m: nat, w: int, t: int): real
    requires t > 0
  {
    (m * w) as real / t as real
  }

  /** No backend lags its exact share m * weight / total by more than Harmonic(n) - 1 picks. */
  lemma LagBound(r: Ring, m: nat, i: nat)
    requires r.WellFormed() && r == Restart(r) && i < |r.addrs|
    ensures r.Total() > 0
    ensures ExactShare(m, r.weights[i], r.Total()) - Served(r, m, i) as real <= Harmonic(|r.addrs|) - 1.0
  {
    hide Advance, Pick, Balance, ExactShare;
    SumAtLeastEach(r.weights, i);
    assert Restart(Run(r, m)) == r;
    SingleDrift(Run(r, m), i);
    Ledger(r, m, i);
    ShareOfBalance(m, r.weights[i], Served(r, m, i), r.Total(), Harmonic(|r.addrs|) - 1.0);
  }

  lemma SingleDrift(r: Ring, i: nat)
    requires r.WellFormed() && Reachable(r) && i < |r.addrs|
    ensures r.current[i] as real <= r.Total() as real * (Harmonic(|r.addrs|) - 1.0)
  {
    hide Reachable, Slack;
    DriftWithinSlack(r, {i});
    SumOverSingle(r.current, i);
    SlackOfOne(|r.addrs|, r.Total());
    assert |{i}| == 1;
  }

  lemma SlackOfOne(n: nat, t: int)
    requires 1 <= n
    ensures Slack(n, 1, t) == t as real * (Harmonic(n) - 1.0)
  {
    assert Harmonic(1) == 1.0;
  }

  lemma ShareOfBalance(m: nat, w: int, c: int, t: int, h: real)
    requires t > 0
    requires Balance(m, w, c, t) as real <= t as real * h
    ensures ExactShare(m, w, t) - c as real <= h
  {
    var share, tr := ExactShare(m, w, t), t as real;
    assert share * tr == (m * w) as real;
    assert (c * t) as real == c as real * tr;
    CancelPositive(tr, share - c as real, h);
  }

  lemma SumOverSingle(xs: seq<int>, i: nat)
    requires i < |xs|
    ensures SumOver(xs, {i}) == xs[i]
  {
    SumOverAdd(xs, {}, i);
    SumOverEmpty(xs);
    assert {} + {i} == {i};
  }

  lemma {:induction false} SumOverEmpty(xs: seq<int>)
    ensures SumOver(xs, {}) == 0
  {
    if xs != [] {
      SumOverEmpty(xs[..|xs| - 1]);
    }
  }

  // ---- All runs of operations

  datatype Op = Call | Replace(addrs: seq<string>)

  function After(r: Ring, ops: seq<Op>): (s: Ring)
    requires r.WellFormed()
    ensures s.WellFormed()
  {
    if ops == [] then r
    else
      var s := After(r, ops[..|ops| - 1]);
      match ops[|ops| - 1]
      case Call => Advance(s)
      case Replace(addrs) => Replaced(s, addrs)
  }

  /** Whatever was called and replaced since construction, the laws above apply to the state. */
  lemma {:induction false} EveryRunReachable(addrs: seq<string>, weights: seq<int>, ops: seq<Op>)
    ensures Reachable(After(Fresh(addrs, weights), ops))
  {
    var r := Fresh(addrs, weights);
    if ops == [] {
      RestartReachable(r);
    } else {
      var init := ops[..|ops| - 1];
      EveryRunReachable(addrs, weights, init);
      match ops[|ops| - 1]
      case Call => AdvanceReachable(After(r, init));
      case Replace(live) => RestartReachable(Replaced(After(r, init), live));
    }
  }
}
