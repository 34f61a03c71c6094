/** The three balancers behind one interface, as a tagged union of their objects. */
module Balancers {
  import opened SmoothWeighted
  import R = RoundRobin
  import L = LeastConn
  import W = Weighted

  /** What a balancer shows between two calls. */
  datatype View =
    | RoundRobinView(addrs: seq<string>, counter: nat)
    | LeastConnView(addrs: seq<string>, load: map<string, int>)
    | WeightedView(ring: Ring)

  /** One call answers addr and takes the balancer from view v to view w. */
  ghost predicate OneCall(v: View, addr: string, w: View) {
    match v
    case RoundRobinView(addrs, c) =>
      && addr == (if addrs == [] then "" else addrs[c % |addrs|])
      && w == RoundRobinView(addrs, if addrs == [] then c else (c + 1) % 0x1_0000_0000_0000_0000)
    case LeastConnView(addrs, load) =>
      && w == v
      && (if addrs == [] then addr == "" else exists k :: L.FewestAt(addrs, load, k) && addr == addrs[k])
    case WeightedView(r) =>
      && r.WellFormed() && w == WeightedView(Advance(r))
      && addr == if r.addrs == [] then "" else r.addrs[Pick(r)]
  }

  datatype Balancer =
    | RoundRobinOf(rr: R.RoundRobin)
    | LeastConnOf(lc: L.LeastConn)
    | WeightedOf(w: W.Weighted)
  {
    /** The balancer object itself. */
    function Owner(): object {
      match this
      case RoundRobinOf(rr) => rr
      case LeastConnOf(lc) => lc
      case WeightedOf(w) => w
    }

    /** The objects it keeps per backend. */
    ghost function Parts(): set<object>
      reads Owner()
    {
      match this
      case RoundRobinOf(rr) => {}
      case LeastConnOf(lc) => set o: object | o in lc.conns.Values
      case WeightedOf(w) => set o: object | o in w.backends
    }

    ghost predicate Valid()
      reads Owner(), Parts()
    {
      match this
      case RoundRobinOf(rr) => rr.Valid()
      case LeastConnOf(lc) => lc.Valid()
      case WeightedOf(w) => w.Valid()
    }

    ghost function Backends(): seq<string>
      reads Owner()
    {
      match this
      case RoundRobinOf(rr) => rr.backends
      case LeastConnOf(lc) => lc.backends
      case WeightedOf(w) => w.ring.addrs
    }

    ghost function Shown(): View
      reads Owner(), Parts()
    {
      match this
      case RoundRobinOf(rr) => RoundRobinView(rr.backends, rr.counter)
      case LeastConnOf(lc) => LeastConnView(lc.backends, lc.Loads())
      case WeightedOf(w) => WeightedView(w.ring)
    }

    /** Any balancer answers as its kind does and moves once; an answer is listed, or nothing for the empty list. */
    method Next() returns (addr: string)
      requires Valid()
      modifies Owner(), Parts()
      ensures Valid() && Backends() == old(Backends()) && Parts() == old(Parts())
      ensures OneCall(old(Shown()), addr, Shown())
      ensures if Backends() == [] then addr == "" else addr in Backends()
      ensures LeastConnOf? ==> lc.conns == old(lc.conns) && lc.Loads() == old(lc.Loads())
      ensures LeastConnOf? ==> forall a :: a in lc.conns ==> lc.conns[a].n == old(lc.conns[a].n)
    {
      hide Advance, Pick, L.FewestAt, L.Least;
      match this
      case RoundRobinOf(rr) => addr := rr.Next();
      case LeastConnOf(lc) =>
        addr := lc.Next();
        if lc.backends != [] {
          L.LeastIsFewest(lc.backends, lc.Loads());
        }
      case WeightedOf(w) => addr := w.Next();
    }

    /** Replacing the list touches the balancer object only; its per-backend objects are kept or new. */
    method SetBackends(addrs: seq<string>)
      requires Valid()
      modifies Owner()
      ensures Valid() && Backends() == addrs
      ensures fresh(Parts() - old(Parts()))
      ensures WeightedOf? ==> w.ring == Replaced(old(w.ring), addrs)
      ensures LeastConnOf? ==> lc.Loads() == L.Kept(old(lc.Loads()), addrs)
      ensures RoundRobinOf? ==> rr.counter == old(rr.counter)
    {
      match this
      case RoundRobinOf(rr) => rr.SetBackends(addrs);
      case LeastConnOf(lc) => lc.SetBackends(addrs);
      case WeightedOf(w) => w.SetBackends(addrs);
    }
  }

  method NewFromConfig(addrs: seq<string>, weights: seq<int>, algorithm: string) returns (b: Balancer)
    ensures b.Valid() && fresh(b.Owner()) && fresh(b.Parts())
    ensures b.Backends() == addrs
    ensures b.LeastConnOf? <==> algorithm == "least_connections"
    ensures b.WeightedOf? <==> algorithm == "weighted"
    ensures b.Shown() ==
      if algorithm == "least_connections" then LeastConnView(addrs, map a | a in addrs :: 0)
      else if algorithm == "weighted" then WeightedView(Fresh(addrs, weights))
      else RoundRobinView(addrs, 0)
    ensures b.WeightedOf? ==> |b.w.backends| == |addrs|
    ensures b.WeightedOf? ==> forall i :: 0 <= i < |addrs| ==>
      b.w.backends[i].weight == if i < |weights| && weights[i] > 0 then weights[i] else 1
  {
    if algorithm == "least_connections" {
      var lc := new L.LeastConn(addrs);
      b := LeastConnOf(lc);
    } else if algorithm == "weighted" {
      var w := new W.Weighted(addrs, weights);
      b := WeightedOf(w);
    } else {
      var rr := new R.RoundRobin(addrs);
      b := RoundRobinOf(rr);
    }
  }
}
