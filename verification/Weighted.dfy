/** The weighted balancer: backends on the heap, their running weights updated in place. */
module Weighted {
  import opened Lists
  import opened Sums
  import opened SmoothWeighted

  class WeightedBackend {
    const addr: string
    const weight: int
    var currentWeight: int

    constructor (addr: string, weight: int)
      ensures this.addr == addr && this.weight == weight && currentWeight == 0
    {
      this.addr, this.weight, currentWeight := addr, weight, 0;
    }
  }

  class Weighted {
    var backends: seq<WeightedBackend>
    var total: int

    /** The backends as values. */
    ghost var ring: Ring

    /** The objects agree with the ring. */
    ghost predicate Valid()
      reads this, backends
    {
      && Shows(backends, ring)
      && ring.WellFormed()
      && total == ring.Total()
    }

    /** Distinct objects with the given addresses and weights. */
    static ghost predicate Built(bs: seq<WeightedBackend>, addrs: seq<string>, weights: seq<int>)
    {
      && |bs| == |addrs| == |weights|
      && (forall i :: 0 <= i < |bs| ==> bs[i].addr == addrs[i] && bs[i].weight == weights[i])
      && (forall i, j :: 0 <= i < j < |bs| ==> bs[i] != bs[j])
    }

    static ghost predicate Holding(bs: seq<WeightedBackend>, current: seq<int>)
      reads bs
    {
      && |bs| == |current|
      && (forall i :: 0 <= i < |bs| ==> bs[i].currentWeight == current[i])
    }

    static ghost predicate Shows(bs: seq<WeightedBackend>, r: Ring)
      reads bs
    {
      Built(bs, r.addrs, r.weights) && Holding(bs, r.current)
    }

    constructor (addrs: seq<string>, weights: seq<int>)
      ensures Valid() && fresh(backends)
      ensures ring == Fresh(addrs, weights)
      ensures |backends| == |addrs|
      ensures forall i :: 0 <= i < |addrs| ==> backends[i].addr == addrs[i] && backends[i].currentWeight == 0
      ensures forall i :: 0 <= i < |addrs| ==> backends[i].weight == if i < |weights| && weights[i] > 0 then weights[i] else 1
    {
      new;
      Init(addrs, weights);
    }

    static method HasPositive(weights: seq<int>) returns (found: bool)
      ensures found <==> exists k :: 0 <= k < |weights| && weights[k] > 0
    {
      found := false;
      for j := 0 to |weights|
        invariant !found
        invariant forall k :: 0 <= k < j ==> weights[k] <= 0
      {
        if weights[j] > 0 {
          return true;
        }
      }
    }

    /** A new list at the start of a cycle: missing and non-positive weights count as 1. */
    static method Build(addrs: seq<string>, weights: seq<int>, ghost ws: seq<int>)
      returns (built: seq<WeightedBackend>, sum: int)
      requires |ws| == |addrs| && forall i :: 0 <= i < |addrs| ==> ws[i] == InitialWeight(weights, i)
      ensures fresh(built) && Shows(built, Ring(addrs, ws, Zeros(|addrs|)))
      ensures forall i :: 0 <= i < |addrs| ==> built[i].weight == if i < |weights| && weights[i] > 0 then weights[i] else 1
      ensures sum == Sum(ws)
    {
      var hasPositive := HasPositive(weights);
      built, sum := [], 0;
      assert Sum(ws[..0]) == 0;
      hide Sum;
      for i := 0 to |addrs|
        invariant |built| == i && fresh(built)
        invariant forall k :: 0 <= k < i ==> built[k].addr == addrs[k] && built[k].weight == ws[k]
        invariant forall k :: 0 <= k < i ==> built[k].weight == if k < |weights| && weights[k] > 0 then weights[k] else 1
        invariant forall k :: 0 <= k < i ==> built[k].currentWeight == 0
        invariant forall k, l :: 0 <= k < l < i ==> built[k] != built[l]
        invariant sum == Sum(ws[..i])
      {
        var wt := 1;
        if hasPositive && i < |weights| && weights[i] > 0 {
          wt := weights[i];
        }
        SumAppend(ws[..i], wt);
        assert ws[..i + 1] == ws[..i] + [wt];
        var b := new WeightedBackend(addrs[i], wt);
        built := built + [b];
        sum := sum + wt;
      }
      assert ws[..|addrs|] == ws;
    }

    method Init(addrs: seq<string>, weights: seq<int>)
      modifies this
      ensures Valid() && fresh(backends)
      ensures ring == Fresh(addrs, weights)
      ensures |backends| == |addrs|
      ensures forall i :: 0 <= i < |addrs| ==> backends[i].addr == addrs[i] && backends[i].currentWeight == 0
      ensures forall i :: 0 <= i < |addrs| ==> backends[i].weight == if i < |weights| && weights[i] > 0 then weights[i] else 1
    {
      ghost var r := Fresh(addrs, weights);
      backends, total := Build(addrs, weights, r.weights);
      ring := r;
    }

    /** Step 1 of Next: every running weight grows by the configured weight. */
    method Raise()
      requires Shows(backends, ring) && ring.WellFormed()
      modifies backends
      ensures Shows(backends, ring.(current := Bumped(ring)))
    {
      ghost var b := Bumped(ring);
      for i := 0 to |backends|
        invariant forall k :: 0 <= k < i ==> backends[k].currentWeight == b[k]
        invariant forall k :: i <= k < |backends| ==> backends[k].currentWeight == ring.current[k]
      {
        backends[i].currentWeight := backends[i].currentWeight + backends[i].weight;
      }
    }

    /** Step 2 of Next: the first backend with the highest running weight. */
    method Heaviest() returns (best: WeightedBackend)
      requires backends != [] && ring.WellFormed() && Shows(backends, ring.(current := Bumped(ring)))
      ensures best == backends[Pick(ring)] && best.addr == ring.addrs[Pick(ring)]
    {
      ghost var b, at := Bumped(ring), 0;
      best := backends[0];
      for i := 1 to |backends|
        invariant at < i && best == backends[at]
        invariant forall k :: 0 <= k < i ==> b[k] <= b[at]
        invariant forall k :: 0 <= k < at ==> b[k] < b[at]
      {
        if backends[i].currentWeight > best.currentWeight {
          best, at := backends[i], i;
        }
      }
      FirstMaxUnique(b, at);
    }

    /** Step 3 of Next: the winner gives up the total. */
    method Pay(best: WeightedBackend, ghost k: nat, ghost b: seq<int>)
      requires k < |backends| && best == backends[k] && Shows(backends, ring.(current := b))
      modifies best
      ensures Shows(backends, ring.(current := b[k := b[k] - total]))
    {
      best.currentWeight := best.currentWeight - total;
    }

    /** The backend with the first highest raised weight wins and gives up the total. */
    method Next() returns (addr: string)
      requires Valid()
      modifies this, backends
      ensures Valid() && backends == old(backends)
      ensures ring == Advance(old(ring))
      ensures addr == if old(ring).addrs == [] then "" else old(ring).addrs[Pick(old(ring))]
    {
      hide Pick, Bumped, Built, Sum;
      if |backends| == 0 {
        return "";
      }
      Raise();
      var best := Heaviest();
      Pay(best, Pick(ring), Bumped(ring));
      ring := Advance(ring);
      return best.addr;
    }

    /** The weight of each address in the list; a repeated address keeps its last one. */
    method Existing() returns (existing: map<string, int>)
      requires Valid()
      ensures forall a :: a in existing <==> a in ring.addrs
      ensures forall a :: a in existing ==> existing[a] == KeptWeight(ring.addrs, ring.weights, a)
    {
      hide KeptWeight;
      existing := map[];
      for i := 0 to |backends|
        invariant forall a :: a in existing <==> a in ring.addrs[..i]
        invariant forall a :: a in existing ==> existing[a] == KeptWeight(ring.addrs[..i], ring.weights[..i], a)
      {
        forall a {
          KeptWeightStep(ring.addrs, ring.weights, i, a);
        }
        assert ring.addrs[..i + 1] == ring.addrs[..i] + [ring.addrs[i]];
        existing := existing[backends[i].addr := backends[i].weight];
      }
      assert ring.addrs[..|backends|] == ring.addrs && ring.weights[..|backends|] == ring.weights;
    }

    /** A new list at the start of a cycle: known addresses get their recorded weight, others 1. */
    static method Rebuild(addrs: seq<string>, existing: map<string, int>, ghost ws: seq<int>)
      returns (built: seq<WeightedBackend>, sum: int)
      requires |ws| == |addrs|
      requires forall i :: 0 <= i < |addrs| ==> ws[i] == if addrs[i] in existing then existing[addrs[i]] else 1
      ensures fresh(built) && Shows(built, Ring(addrs, ws, Zeros(|addrs|)))
      ensures sum == Sum(ws)
    {
      built, sum := [], 0;
      assert Sum(ws[..0]) == 0;
      hide Sum;
      for i := 0 to |addrs|
        invariant |built| == i && fresh(built)
        invariant forall k :: 0 <= k < i ==> built[k].addr == addrs[k] && built[k].weight == ws[k]
        invariant forall k :: 0 <= k < i ==> built[k].currentWeight == 0
        invariant forall k, l :: 0 <= k < l < i ==> built[k] != built[l]
        invariant sum == Sum(ws[..i])
      {
        var wt := 1;
        if addrs[i] in existing {
          wt := existing[addrs[i]];
        }
        SumAppend(ws[..i], wt);
        assert ws[..i + 1] == ws[..i] + [wt];
        var b := new WeightedBackend(addrs[i], wt);
        built := built + [b];
        sum := sum + wt;
      }
      assert ws[..|addrs|] == ws;
    }

    /** Kept backends keep their weights, new ones get 1, and the cycle starts over. */
    method SetBackends(addrs: seq<string>)
      requires Valid()
      modifies this
      ensures Valid() && fresh(backends)
      ensures ring == Replaced(old(ring), addrs)
      ensures |backends| == |addrs|
      ensures forall i :: 0 <= i < |addrs| ==> backends[i].addr == addrs[i] && backends[i].currentWeight == 0
      ensures forall i :: 0 <= i < |addrs| && addrs[i] !in old(ring).addrs ==> backends[i].weight == 1
      ensures forall i, j :: 0 <= i < |addrs| && LastEntry(old(ring).addrs, addrs[i], j) ==>
        backends[i].weight == old(backends)[j].weight
    {
      var existing := Existing();
      ghost var r := Replaced(ring, addrs);
      forall i | 0 <= i < |addrs| && addrs[i] !in ring.addrs ensures r.weights[i] == 1 {
        KeptWeightNew(ring.addrs, ring.weights, addrs[i]);
      }
      forall i, j | 0 <= i < |addrs| && LastEntry(ring.addrs, addrs[i], j)
        ensures r.weights[i] == backends[j].weight
      {
        KeptWeightLast(ring.addrs, ring.weights, addrs[i], j);
      }
      backends, total := Rebuild(addrs, existing, r.weights);
      ring := r;
    }

    method Len() returns (n: nat)
      requires Valid()
      ensures n == |ring.addrs|
    {
      n := |backends|;
    }
  }
}
