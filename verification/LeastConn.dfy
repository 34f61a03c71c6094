/** The least-connections balancer: one shared counter object per listed address. */
module LeastConn {

  /** Open connections per listed address. */
  type Load = map<string, int>

  function CountOf(load: Load, addr: string): int {
    if addr in load then load[addr] else 0
  }

  /** The load after d connections are opened on (or closed on, when negative) addr; other addresses are ignored. */
  function Added(load: Load, addr: string, d: int): Load {
    if addr in load then load[addr := load[addr] + d] else load
  }

  /** The load after the list is replaced: kept addresses keep their count. */
  function Kept(load: Load, addrs: seq<string>): Load {
    map a | a in addrs :: CountOf(load, a)
  }

  function Counts(backends: seq<string>, load: Load): (c: seq<int>)
    ensures |c| == |backends|
  {
    seq(|backends|, i requires 0 <= i < |backends| => CountOf(load, backends[i]))
  }

  /** The first index below n holding the smallest of the first n values. */
  function FirstMinTo(xs: seq<int>, n: nat): (k: nat)
    requires 0 < n <= |xs|
    ensures k < n
    ensures forall i :: 0 <= i < n ==> xs[k] <= xs[i]
    ensures forall i :: 0 <= i < k ==> xs[k] < xs[i]
  {
    if n == 1 then 0
    else
      var k := FirstMinTo(xs, n - 1);
      if xs[n - 1] < xs[k] then n - 1 else k
  }

  lemma FirstMinStep(xs: seq<int>, k: nat)
    requires k < |xs|
    ensures FirstMinTo(xs, k + 1) == if k > 0 && xs[FirstMinTo(xs, k)] <= xs[k] then FirstMinTo(xs, k) else k
  {}

  /** The first index holding the smallest value. */
  function FirstMin(xs: seq<int>): (k: nat)
    requires xs != []
    ensures k < |xs|
    ensures forall i :: 0 <= i < |xs| ==> xs[k] <= xs[i]
    ensures forall i :: 0 <= i < k ==> xs[k] < xs[i]
  {
    FirstMinTo(xs, |xs|)
  }

  lemma FirstMinUnique(xs: seq<int>, k: nat)
    requires k < |xs|
    requires forall i :: 0 <= i < |xs| ==> xs[k] <= xs[i]
    requires forall i :: 0 <= i < k ==> xs[k] < xs[i]
    ensures FirstMin(xs) == k
  {
    assert xs[FirstMin(xs)] == xs[k];
  }

  /** The first listed address with the fewest connections. */
  function Least(backends: seq<string>, load: Load): (k: nat)
    requires backends != []
    ensures k < |backends|
  {
    FirstMin(Counts(backends, load))
  }

  /** Entry k is the first one with the smallest load. */
  ghost predicate FewestAt(addrs: seq<string>, load: map<string, int>, k: int) {
    && 0 <= k < |addrs| && addrs[k] in load
    && (forall j :: 0 <= j < |addrs| ==> addrs[j] in load && load[addrs[k]] <= load[addrs[j]])
    && (forall j :: 0 <= j < k ==> load[addrs[k]] < load[addrs[j]])
  }

  lemma LeastIsFewest(backends: seq<string>, load: Load)
    requires backends != [] && forall a :: a in backends ==> a in load
    ensures FewestAt(backends, load, Least(backends, load))
  {
    var k := Least(backends, load);
    assert forall j :: 0 <= j < |backends| ==> Counts(backends, load)[j] == load[backends[j]];
  }

  class Counter {
    var n: int

    constructor ()
      ensures n == 0
    {
      n := 0;
    }
  }

  class LeastConn {
    var backends: seq<string>
    var conns: map<string, Counter>

    /** Exactly the listed addresses have a counter, each its own. */
    ghost predicate Valid()
      reads this
    {
      && (forall a :: a in conns <==> a in backends)
      && OneEach(conns)
    }

    static ghost predicate OneEach(m: map<string, Counter>) {
      forall a, b :: a in m && b in m && a != b ==> m[a] != m[b]
    }

    function Loads(): Load
      reads this, conns.Values
    {
      map a | a in conns :: conns[a].n
    }

    constructor (addrs: seq<string>)
      ensures Valid() && fresh(conns.Values)
      ensures backends == addrs && Loads() == Kept(map[], addrs)
      ensures forall a :: a in conns <==> a in addrs
      ensures forall a :: a in addrs ==> conns[a].n == 0
    {
      backends, conns := addrs, map[];
      new;
      for i := 0 to |addrs|
        invariant backends == addrs
        invariant forall a :: a in conns <==> a in addrs[..i]
        invariant OneEach(conns)
        invariant forall a :: a in conns ==> fresh(conns[a]) && conns[a].n == 0
      {
        assert addrs[..i + 1] == addrs[..i] + [addrs[i]];
        var c := new Counter();
        conns := conns[addrs[i] := c];
      }
      assert addrs[..|addrs|] == addrs;
    }

    /** The open connections on addr; an unlisted address has none. */
    method Count(addr: string) returns (n: int)
      ensures n == CountOf(Loads(), addr)
      ensures n == if addr in conns then conns[addr].n else 0
    {
      if addr in conns {
        return conns[addr].n;
      }
      return 0;
    }

    /** Entry k is the first listed one with the fewest open connections. */
    ghost predicate Fewest(k: int)
      reads this, conns.Values
    {
      && 0 <= k < |backends| && backends[k] in conns
      && (forall j :: 0 <= j < |backends| && backends[j] in conns ==> conns[backends[k]].n <= conns[backends[j]].n)
      && (forall j :: 0 <= j < k && backends[j] in conns ==> conns[backends[k]].n < conns[backends[j]].n)
    }

    lemma FewestShown(k: int)
      requires Valid() && FewestAt(backends, Loads(), k)
      ensures Fewest(k)
    {}

    method Next() returns (addr: string)
      requires Valid()
      ensures addr == if backends == [] then "" else backends[Least(backends, Loads())]
      ensures backends != [] ==> exists k :: Fewest(k) && addr == backends[k]
    {
      if |backends| == 0 {
        return "";
      }
      ghost var counts := Counts(backends, Loads());
      hide Fewest, FewestAt;
      addr := backends[0];
      ghost var at := 0;
      var bestCount := Count(addr);
      for i := 1 to |backends|
        invariant at < i && addr == backends[at] && bestCount == counts[at]
        invariant forall k :: 0 <= k < i ==> bestCount <= counts[k]
        invariant forall k :: 0 <= k < at ==> bestCount < counts[k]
      {
        var c := Count(backends[i]);
        assert c == counts[i];
        if c < bestCount {
          addr, at := backends[i], i;
          bestCount := c;
        }
      }
      FirstMinUnique(counts, at);
      LeastIsFewest(backends, Loads());
      FewestShown(at);
    }

    method Acquire(addr: string)
      requires Valid()
      modifies conns.Values
      ensures Valid() && Loads() == Added(old(Loads()), addr, 1)
      ensures forall a :: a in conns ==> conns[a].n == old(conns[a].n) + if a == addr then 1 else 0
    {
      if addr in conns {
        var c := conns[addr];
        c.n := c.n + 1;
      }
    }

    method Release(addr: string)
      requires Valid()
      modifies conns.Values
      ensures Valid() && Loads() == Added(old(Loads()), addr, -1)
      ensures forall a :: a in conns ==> conns[a].n == old(conns[a].n) - if a == addr then 1 else 0
    {
      if addr in conns {
        var c := conns[addr];
        c.n := c.n - 1;
      }
    }

    /** Kept addresses keep the very same counter object; only new ones get a new counter. */
    method SetBackends(addrs: seq<string>)
      requires Valid()
      modifies this
      ensures Valid() && backends == addrs && Loads() == Kept(old(Loads()), addrs)
      ensures forall a :: a in addrs && a in old(conns) ==> conns[a] == old(conns)[a]
      ensures forall a :: a in addrs && a in old(conns) ==> conns[a].n == old(conns[a].n)
      ensures forall a :: a in addrs && a !in old(conns) ==> fresh(conns[a]) && conns[a].n == 0
    {
      ghost var was := conns;
      var newConns: map<string, Counter> := map[];
      for i := 0 to |addrs|
        invariant conns == was
        invariant forall a :: a in newConns <==> a in addrs[..i]
        invariant OneEach(newConns)
        invariant forall a :: a in newConns && a in was ==> newConns[a] == was[a]
        invariant forall a :: a in newConns && a !in was ==> fresh(newConns[a]) && newConns[a].n == 0
      {
        assert addrs[..i + 1] == addrs[..i] + [addrs[i]];
        var a := addrs[i];
        if a in conns {
          newConns := newConns[a := conns[a]];
        } else {
          var c := new Counter();
          newConns := newConns[a := c];
        }
      }
      assert addrs[..|addrs|] == addrs;
      backends := addrs;
      conns := newConns;
    }

    method Len() returns (n: nat)
      ensures n == |backends|
    {
      n := |backends|;
    }
  }
}
