/** What the laws of the balancers mean for a run of requests or connections, each the answer of one call. */
module Traffic {
  import opened Lists
  import opened Sums
  import opened SmoothWeighted
  import opened WeightedLaws
  import opened Balancers

  /** A run of calls with nothing but calls between: views[k] is the balancer before answer k. */
  ghost predicate Calls(views: seq<View>, answers: seq<string>) {
    && |views| == |answers| + 1
    && forall k :: 0 <= k < |answers| ==> OneCall(views[k], answers[k], views[k + 1])
  }

  /** How often a is the answer. */
  function Times(answers: seq<string>, a: string): nat {
    if answers == [] then 0
    else Times(answers[..|answers| - 1], a) + if answers[|answers| - 1] == a then 1 else 0
  }

  lemma CallsPrefix(views: seq<View>, answers: seq<string>)
    requires Calls(views, answers) && answers != []
    ensures Calls(views[..|answers|], answers[..|answers| - 1])
    ensures OneCall(views[|answers| - 1], answers[|answers| - 1], views[|answers|])
  {
    hide OneCall;
    var n := |answers| - 1;
    forall k | 0 <= k < n ensures OneCall(views[..n + 1][k], answers[..n][k], views[..n + 1][k + 1]) {
      assert OneCall(views[k], answers[k], views[k + 1]);
    }
  }

  /** Call k of a new round-robin balancer is answered by entry k modulo the length, up to the wrap. */
  lemma {:induction false} RoundRobinServes(views: seq<View>, answers: seq<string>, addrs: seq<string>, k: nat)
    requires Calls(views, answers) && views[0] == RoundRobinView(addrs, 0) && addrs != []
    requires k <= |answers| && |answers| < 0x1_0000_0000_0000_0000
    ensures views[k] == RoundRobinView(addrs, k)
    ensures k < |answers| ==> answers[k] == addrs[k % |addrs|]
  {
    if k > 0 {
      RoundRobinServes(views, answers, addrs, k - 1);
      assert OneCall(views[k - 1], answers[k - 1], views[k]);
    }
    if k < |answers| {
      assert OneCall(views[k], answers[k], views[k + 1]);
    }
  }

  /** A weighted balancer goes through its ring, and its answers count what the ring serves. */
  lemma {:induction false} WeightedServes(views: seq<View>, answers: seq<string>, r: Ring, i: nat)
    requires Calls(views, answers) && views[0] == WeightedView(r)
    requires r.WellFormed() && Distinct(r.addrs) && i < |r.addrs|
    ensures views[|answers|] == WeightedView(Run(r, |answers|))
    ensures Times(answers, r.addrs[i]) == Served(r, |answers|, i)
    decreases |answers|
  {
    hide Advance, Pick;
    if answers != [] {
      var n := |answers| - 1;
      CallsPrefix(views, answers);
      WeightedServes(views[..n + 1], answers[..n], r, i);
      OneWeighted(views[n], answers[n], views[n + 1], Run(r, n), i);
    }
  }

  lemma OneWeighted(v: View, addr: string, w: View, r: Ring, i: nat)
    requires OneCall(v, addr, w) && v == WeightedView(r)
    requires r.WellFormed() && Distinct(r.addrs) && i < |r.addrs|
    ensures w == WeightedView(Advance(r)) && (addr == r.addrs[i] <==> Pick(r) == i)
  {
    hide Advance;
  }

  /**
   * Of the requests to a new weighted balancer, any window of as many as the weights add up to, wherever
   * it starts, goes to each backend exactly as often as its weight says, where a missing or non-positive
   * weight says 1.
   */
  lemma ExactShares(addrs: seq<string>, weights: seq<int>, ws: seq<int>, views: seq<View>, answers: seq<string>,
                    start: nat, i: nat)
    requires Distinct(addrs) && i < |addrs| == |ws|
    requires forall j :: 0 <= j < |addrs| ==> ws[j] == if j < |weights| && weights[j] > 0 then weights[j] else 1
    requires Calls(views, answers) && views[0] == WeightedView(Fresh(addrs, weights))
    requires start <= |answers| && |answers| - start == Sum(ws)
    ensures Times(answers[start..], addrs[i]) == ws[i]
  {
    hide Advance, Pick, OneCall, Reachable;
    var r := Fresh(addrs, weights);
    assert r.weights == ws;
    RestartReachable(r);
    CallsSplit(views, answers, start);
    WeightedServes(views[..start + 1], answers[..start], r, i);
    var mid := Run(r, start);
    RunReachable(r, start);
    WeightedServes(views[start..], answers[start..], mid, i);
    ExactWindow(mid, i);
  }

  lemma CallsSplit(views: seq<View>, answers: seq<string>, start: nat)
    requires Calls(views, answers) && start <= |answers|
    ensures Calls(views[..start + 1], answers[..start]) && Calls(views[start..], answers[start..])
  {
    hide OneCall;
    forall k | 0 <= k < start ensures OneCall(views[..start + 1][k], answers[..start][k], views[..start + 1][k + 1]) {
      assert OneCall(views[k], answers[k], views[k + 1]);
    }
    forall k | 0 <= k < |answers| - start ensures OneCall(views[start..][k], answers[start..][k], views[start..][k + 1]) {
      assert OneCall(views[start + k], answers[start + k], views[start + k + 1]);
    }
  }

  lemma {:induction false} RunReachable(r: Ring, m: nat)
    requires Reachable(r)
    ensures Reachable(Run(r, m))
  {
    hide Reachable, Advance;
    ReachableWellFormed(r);
    if m > 0 {
      RunReachable(r, m - 1);
      AdvanceReachable(Run(r, m - 1));
    }
  }

  lemma ReachableWellFormed(r: Ring)
    requires Reachable(r)
    ensures r.WellFormed()
  {}
}
