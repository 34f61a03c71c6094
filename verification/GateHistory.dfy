/** A weighted gate over time: health checks and reloads push lists to the balancer while traffic calls it. */
module GateHistory {
  import opened HealthCache
  import opened SmoothWeighted
  import WeightedLaws
  import opened Lists

  /** The health checker, its weighted balancer and every list pushed so far. */
  datatype Gate = Gate(scan: Scan, ring: Ring, pushes: seq<seq<string>>)

  datatype GateOp = Traffic | Health(op: Op)

  function NewGate(addrs: seq<string>, weights: seq<int>): Gate {
    Gate(NewScan(addrs), Fresh(addrs, weights), [])
  }

  function Pushed(g: Gate, scan: Scan): Gate
    requires g.ring.WellFormed()
  {
    Gate(scan, Replaced(g.ring, scan.live), g.pushes + [scan.live])
  }

  /** One step; a check with the wrong number of answers does nothing. */
  function Step(g: Gate, op: GateOp): (h: Gate)
    requires g.ring.WellFormed()
    ensures h.ring.WellFormed()
  {
    match op
    case Traffic => g.(ring := Advance(g.ring))
    case Health(Reload(addrs)) => Pushed(g, Reloaded(g.scan, addrs))
    case Health(Check(pings)) =>
      if |pings| != |g.scan.all| then g
      else if SweepOf(g.scan.healthy, g.scan.all, pings).changed then Pushed(g, Checked(g.scan, pings))
      else g.(scan := Checked(g.scan, pings))
  }

  function GateAfter(g: Gate, ops: seq<GateOp>): (h: Gate)
    requires g.ring.WellFormed()
    ensures h.ring.WellFormed()
  {
    if ops == [] then g else Step(GateAfter(g, ops[..|ops| - 1]), ops[|ops| - 1])
  }

  /** The configured weight of a in the initial list; 1 when it is not there. */
  function ConfiguredWeight(addrs: seq<string>, weights: seq<int>, a: string): int {
    if addrs == [] then 1
    else
      var n := |addrs| - 1;
      if addrs[n] == a then InitialWeight(weights, n) else ConfiguredWeight(addrs[..n], weights, a)
  }

  predicate AlwaysPushed(pushes: seq<seq<string>>, a: string) {
    forall k :: 0 <= k < |pushes| ==> a in pushes[k]
  }

  /** The weight that history leaves to a: its configured one until the first push without it, 1 from then on. */
  function WeightNow(addrs: seq<string>, weights: seq<int>, pushes: seq<seq<string>>, a: string): int {
    if AlwaysPushed(pushes, a) then ConfiguredWeight(addrs, weights, a) else 1
  }

  ghost predicate Remembered(addrs: seq<string>, weights: seq<int>, g: Gate) {
    && g.ring.WellFormed()
    && g.ring.addrs == g.scan.live
    && g.ring.addrs == (if g.pushes == [] then addrs else g.pushes[|g.pushes| - 1])
    && forall i :: 0 <= i < |g.ring.addrs| ==> g.ring.weights[i] == WeightNow(addrs, weights, g.pushes, g.ring.addrs[i])
  }

  lemma {:induction false} ConfiguredIsInitial(addrs: seq<string>, weights: seq<int>, i: nat)
    requires Distinct(addrs) && i < |addrs|
    ensures ConfiguredWeight(addrs, weights, addrs[i]) == InitialWeight(weights, i)
  {
    if i < |addrs| - 1 {
      ConfiguredIsInitial(addrs[..|addrs| - 1], weights, i);
    }
  }

  lemma {:induction false} ConfiguredElsewhere(addrs: seq<string>, weights: seq<int>, a: string)
    requires a !in addrs
    ensures ConfiguredWeight(addrs, weights, a) == 1
  {
    if addrs != [] {
      ConfiguredElsewhere(addrs[..|addrs| - 1], weights, a);
    }
  }

  lemma {:induction false} KeptByRule(addrs: seq<string>, weights: seq<int>, rule: string -> int, a: string)
    requires |addrs| == |weights| && a in addrs
    requires forall i :: 0 <= i < |weights| ==> weights[i] > 0 && weights[i] == rule(addrs[i])
    ensures KeptWeight(addrs, weights, a) == rule(a)
  {
    var n := |addrs| - 1;
    if addrs[n] != a {
      assert addrs == addrs[..n] + [addrs[n]];
      KeptByRule(addrs[..n], weights[..n], rule, a);
    }
  }

  lemma RememberedNew(addrs: seq<string>, weights: seq<int>)
    requires Distinct(addrs)
    ensures Remembered(addrs, weights, NewGate(addrs, weights))
  {
    forall i | 0 <= i < |addrs| ensures ConfiguredWeight(addrs, weights, addrs[i]) == InitialWeight(weights, i) {
      ConfiguredIsInitial(addrs, weights, i);
    }
  }

  lemma PushedWeight(addrs: seq<string>, weights: seq<int>, g: Gate, live: seq<string>, a: string)
    requires Remembered(addrs, weights, g) && a in live
    ensures KeptWeight(g.ring.addrs, g.ring.weights, a) == WeightNow(addrs, weights, g.pushes + [live], a)
  {
    hide ConfiguredWeight, KeptWeight;
    assert AlwaysPushed(g.pushes + [live], a) <==> AlwaysPushed(g.pushes, a) by {
      forall k | 0 <= k < |g.pushes| ensures (g.pushes + [live])[k] == g.pushes[k] {}
    }
    if a in g.ring.addrs {
      KeptByRule(g.ring.addrs, g.ring.weights, x => WeightNow(addrs, weights, g.pushes, x), a);
    } else {
      KeptWeightNew(g.ring.addrs, g.ring.weights, a);
      if g.pushes == [] {
        ConfiguredElsewhere(addrs, weights, a);
      }
    }
  }

  lemma RememberedPushed(addrs: seq<string>, weights: seq<int>, g: Gate, scan: Scan)
    requires Remembered(addrs, weights, g)
    ensures Remembered(addrs, weights, Pushed(g, scan))
  {
    hide WeightNow, KeptWeight;
    forall i | 0 <= i < |scan.live|
      ensures KeptWeight(g.ring.addrs, g.ring.weights, scan.live[i])
           == WeightNow(addrs, weights, g.pushes + [scan.live], scan.live[i])
    {
      PushedWeight(addrs, weights, g, scan.live, scan.live[i]);
    }
  }

  /**
   * Across every mix of traffic, checks and reloads the weights are exactly what history leaves, over
   * the live list.
   */
  lemma {:induction false} WeightHistory(addrs: seq<string>, weights: seq<int>, ops: seq<GateOp>)
    requires Distinct(addrs)
    ensures Remembered(addrs, weights, GateAfter(NewGate(addrs, weights), ops))
    ensures Reachable(GateAfter(NewGate(addrs, weights), ops).ring)
  {
    hide Remembered, Reachable, Advance, SweepOf, Pushed;
    var start := NewGate(addrs, weights);
    if ops == [] {
      RememberedNew(addrs, weights);
      RestartReachable(start.ring);
    } else {
      var g, op := GateAfter(start, ops[..|ops| - 1]), ops[|ops| - 1];
      WeightHistory(addrs, weights, ops[..|ops| - 1]);
      HistoryStep(addrs, weights, g, op);
    }
  }

  lemma HistoryStep(addrs: seq<string>, weights: seq<int>, g: Gate, op: GateOp)
    requires g.ring.WellFormed() && Remembered(addrs, weights, g) && Reachable(g.ring)
    ensures Remembered(addrs, weights, Step(g, op)) && Reachable(Step(g, op).ring)
  {
    hide Reachable, SweepOf, WeightNow, KeptWeight;
    match op
    case Traffic => AdvanceReachable(g.ring);
    case Health(Reload(live)) =>
      RememberedPushed(addrs, weights, g, Reloaded(g.scan, live));
      RestartReachable(Step(g, op).ring);
    case Health(Check(pings)) =>
      if |pings| == |g.scan.all| && SweepOf(g.scan.healthy, g.scan.all, pings).changed {
        RememberedPushed(addrs, weights, g, Checked(g.scan, pings));
        RestartReachable(Step(g, op).ring);
      }
  }

  /**
   * A check disturbs the running weights exactly when some answer differs from what was known, and
   * then starts the cycle over.
   */
  lemma CheckRestartsIff(g: Gate, pings: seq<bool>)
    requires g.ring.WellFormed() && |pings| == |g.scan.all|
    ensures var h := Step(g, Health(Check(pings)));
      if forall i :: 0 <= i < |pings| ==> pings[i] == HealthyIn(g.scan.healthy, g.scan.all[i])
      then h.ring == g.ring && h.pushes == g.pushes && h.scan.live == g.scan.live && h.scan.events == g.scan.events
      else h.ring == Restart(h.ring) && h.pushes == g.pushes + [h.scan.live]
  {
    SweepUnchanged(g.scan.healthy, g.scan.all, pings);
  }

  // ---- One backend fails a check and recovers

  /** Everyone up but backend i; everyone up for an i beyond the list. */
  function AllUpBut(n: nat, i: nat): seq<bool> {
    seq(n, j => j != i)
  }

  /** A check that finds some flip pushes exactly the addresses that answered up. */
  lemma FlipPushes(g: Gate, pings: seq<bool>, f: nat)
    requires g.ring.WellFormed() && Distinct(g.scan.all) && |pings| == |g.scan.all|
    requires f < |pings| && pings[f] != HealthyIn(g.scan.healthy, g.scan.all[f])
    ensures var h := Step(g, Health(Check(pings)));
      && h.scan.all == g.scan.all && h.pushes == g.pushes + [h.scan.live]
      && (forall i :: 0 <= i < |pings| ==> HealthyIn(h.scan.healthy, h.scan.all[i]) == pings[i])
      && h.scan.live == Filter(h.scan.all, h.scan.healthy)
      && (forall i :: 0 <= i < |pings| ==> (h.scan.all[i] in h.scan.live <==> pings[i]))
  {
    hide SweepOf, Filter, HealthyIn, Replaced;
    var s := g.scan;
    DistinctConsistent(s.all, pings);
    SweepUnchanged(s.healthy, s.all, pings);
    SweepHealth(s.healthy, s.all, pings);
    var h := Checked(s, pings).healthy;
    SweepLive(s.healthy, s.all, pings, h);
    forall i | 0 <= i < |pings| ensures s.all[i] in Filter(s.all, h) <==> pings[i] {
      FilterOccurrences(s.all, h, s.all[i]);
      assert s.all[i] in Filter(s.all, h) <==> Occurrences(Filter(s.all, h), s.all[i]) > 0;
    }
  }

  /**
   * A backend that alone fails one check and is back at the next has weight 1 from then on, whatever was
   * configured; every other backend keeps its configured weight.
   */
  lemma RecoveredAtOne(addrs: seq<string>, weights: seq<int>, i: nat)
    requires Distinct(addrs) && i < |addrs|
    ensures var down, up := AllUpBut(|addrs|, i), AllUpBut(|addrs|, |addrs|);
      var r := GateAfter(NewGate(addrs, weights), [Health(Check(down)), Health(Check(up))]).ring;
      && r.addrs == addrs
      && forall j :: 0 <= j < |addrs| ==>
           r.weights[j] == if j != i && j < |weights| && weights[j] > 0 then weights[j] else 1
  {
    hide Step, Filter, HealthyIn, Remembered, Reachable, ConfiguredWeight;
    var down, up := AllUpBut(|addrs|, i), AllUpBut(|addrs|, |addrs|);
    var g, ops := NewGate(addrs, weights), [Health(Check(down)), Health(Check(up))];
    var g1 := Step(g, ops[0]);
    var g2 := Step(g1, ops[1]);
    assert ops[..1] == [ops[0]] && ops[..1][..0] == [];
    assert GateAfter(g, ops[..1]) == g1;
    assert GateAfter(g, ops) == g2;
    NewAllUp(addrs, weights, i);
    FlipPushes(g, down, i);
    FlipPushes(g1, up, i);
    FilterAll(addrs, g2.scan.healthy) by {
      forall a | a in addrs ensures HealthyIn(g2.scan.healthy, a) {
        var j :| 0 <= j < |addrs| && addrs[j] == a;
        assert up[j];
      }
    }
    WeightHistory(addrs, weights, ops);
    RecoveredWeights(addrs, weights, g2, g1.scan.live, i);
  }

  lemma NewAllUp(addrs: seq<string>, weights: seq<int>, i: nat)
    requires i < |addrs|
    ensures HealthyIn(NewGate(addrs, weights).scan.healthy, addrs[i])
  {}

  lemma RecoveredWeights(addrs: seq<string>, weights: seq<int>, g: Gate, without: seq<string>, i: nat)
    requires Distinct(addrs) && i < |addrs|
    requires Remembered(addrs, weights, g) && g.pushes == [without, addrs]
    requires forall j :: 0 <= j < |addrs| ==> (addrs[j] in without <==> j != i)
    ensures g.ring.addrs == addrs
    ensures forall j :: 0 <= j < |addrs| ==> g.ring.weights[j] == if j == i then 1 else InitialWeight(weights, j)
  {
    hide ConfiguredWeight;
    forall j | 0 <= j < |addrs| ensures g.ring.weights[j] == if j == i then 1 else InitialWeight(weights, j) {
      ConfiguredIsInitial(addrs, weights, j);
      assert addrs[j] in g.pushes[0] <==> j != i;
    }
  }

  // ---- Checks that find nothing new

  /** Traffic, and checks whose every answer is what was known. */
  predicate Quiet(g: Gate, ops: seq<GateOp>) {
    forall k :: 0 <= k < |ops| ==> ops[k].Traffic? || SameAnswers(g.scan, ops[k])
  }

  predicate SameAnswers(s: Scan, op: GateOp) {
    && op.Health? && op.op.Check? && |op.op.pings| == |s.all|
    && forall i :: 0 <= i < |s.all| ==> op.op.pings[i] == HealthyIn(s.healthy, s.all[i])
  }

  function Requests(ops: seq<GateOp>): nat {
    if ops == [] then 0 else Requests(ops[..|ops| - 1]) + if ops[|ops| - 1].Traffic? then 1 else 0
  }

  lemma SameAnswersStep(g: Gate, op: GateOp)
    requires g.ring.WellFormed() && SameAnswers(g.scan, op)
    ensures Step(g, op).ring == g.ring && Step(g, op).scan.all == g.scan.all
    ensures forall a :: a in g.scan.all ==> HealthyIn(Step(g, op).scan.healthy, a) == HealthyIn(g.scan.healthy, a)
  {
    hide SweepOf, Advance, HealthyIn;
    SweepUnchanged(g.scan.healthy, g.scan.all, op.op.pings);
    SweepHealth(g.scan.healthy, g.scan.all, op.op.pings);
    CheckRestartsIff(g, op.op.pings);
  }

  /** Checks that find nothing new leave no trace in the order of service: the ring counts the requests only. */
  lemma {:induction false} QuietRun(g: Gate, ops: seq<GateOp>)
    requires g.ring.WellFormed() && Quiet(g, ops)
    ensures var h := GateAfter(g, ops);
      && h.ring == Run(g.ring, Requests(ops)) && h.scan.all == g.scan.all
      && forall a :: a in g.scan.all ==> HealthyIn(h.scan.healthy, a) == HealthyIn(g.scan.healthy, a)
  {
    hide Advance, SweepOf, HealthyIn, Pushed;
    if ops != [] {
      var n := |ops| - 1;
      var h := GateAfter(g, ops[..n]);
      QuietRun(g, ops[..n]);
      if !ops[n].Traffic? {
        assert SameAnswers(g.scan, ops[n]);
        assert SameAnswers(h.scan, ops[n]);
        SameAnswersStep(h, ops[n]);
      }
    }
  }

  /**
   * In any history, a stretch of total requests with no flip and no reload brings the balancer back to
   * where it was and serves every live backend exactly its weight, however many checks fall into it.
   */
  lemma QuietWindow(addrs: seq<string>, weights: seq<int>, past: seq<GateOp>, ops: seq<GateOp>, i: nat)
    requires Distinct(addrs)
    requires var g := GateAfter(NewGate(addrs, weights), past);
      Quiet(g, ops) && Requests(ops) == g.ring.Total() && i < |g.ring.addrs|
    ensures var g := GateAfter(NewGate(addrs, weights), past);
      && GateAfter(g, ops).ring == g.ring
      && Served(g.ring, Requests(ops), i) == g.ring.weights[i]
  {
    hide Advance, Reachable, Quiet;
    var g := GateAfter(NewGate(addrs, weights), past);
    WeightHistory(addrs, weights, past);
    QuietRun(g, ops);
    WeightedLaws.WindowReturns(g.ring);
    WeightedLaws.ExactWindow(g.ring, i);
  }
}
