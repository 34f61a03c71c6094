/** One HTTP request through the proxy and one TCP connection through the tunnel: each acquire meets its release. */
module Lifecycle {
  import opened Balancers
  import L = LeastConn

  /** Opening and closing one connection leaves every count as it was. */
  lemma AddedBack(load: L.Load, addr: string)
    ensures L.Added(L.Added(load, addr, 1), addr, -1) == load
    ensures Tracked(Tracked(load, addr, 1), addr, -1) == load
  {}

  /** The load after d is added for a tracked address; an empty address stands for none. */
  function Tracked(load: L.Load, addr: string, d: int): L.Load {
    if addr == "" then load else L.Added(load, addr, d)
  }

  /** The string shared by the director and the callbacks of one request. */
  class Tracking {
    var addr: string

    constructor ()
      ensures addr == ""
    {
      addr := "";
    }
  }

  datatype Status = Forwarded | BadGateway | ServiceUnavailable

  class Proxy {
    const balancer: Balancer

    ghost predicate Valid()
      reads balancer.Owner(), balancer.Parts()
    {
      balancer.Valid()
    }

    constructor (lb: Balancer)
      requires lb.Valid()
      ensures balancer == lb && Valid()
    {
      balancer := lb;
    }

    /** Records the picked address and, for least connections, acquires it; an empty address is never acquired. */
    method Director(t: Tracking)
      requires Valid() && t !in balancer.Parts() && t != balancer.Owner()
      modifies balancer.Owner(), balancer.Parts(), t
      ensures Valid() && balancer.Parts() == old(balancer.Parts())
      ensures balancer.Backends() == old(balancer.Backends())
      ensures if balancer.Backends() == [] then t.addr == "" else t.addr in balancer.Backends()
      ensures balancer.LeastConnOf? ==> balancer.lc.conns == old(balancer.lc.conns)
      ensures balancer.LeastConnOf? ==>
        balancer.lc.Loads() == Tracked(old(balancer.lc.Loads()), t.addr, 1)
      ensures balancer.LeastConnOf? ==> OneCall(old(balancer.Shown()), t.addr, old(balancer.Shown()))
      ensures balancer.LeastConnOf? ==> forall a :: a in balancer.lc.conns ==>
        balancer.lc.conns[a].n == old(balancer.lc.conns[a].n) + if a == t.addr && t.addr != "" then 1 else 0
      ensures !balancer.LeastConnOf? ==> OneCall(old(balancer.Shown()), t.addr, balancer.Shown())
    {
      hide OneCall;
      var addr := balancer.Next();
      t.addr := addr;
      if balancer.LeastConnOf? && addr != "" {
        balancer.lc.Acquire(addr);
      }
    }

    /** What both callbacks do for least connections. */
    method ReleaseTracked(t: Tracking)
      requires Valid()
      modifies balancer.Parts()
      ensures Valid()
      ensures balancer.LeastConnOf? ==>
        balancer.lc.Loads() == Tracked(old(balancer.lc.Loads()), old(t.addr), -1)
      ensures balancer.LeastConnOf? ==> balancer.lc.conns == old(balancer.lc.conns)
      ensures balancer.LeastConnOf? ==> forall a :: a in balancer.lc.conns ==>
        balancer.lc.conns[a].n == old(balancer.lc.conns[a].n) - if a == old(t.addr) && old(t.addr) != "" then 1 else 0
      ensures !balancer.LeastConnOf? ==> balancer.Shown() == old(balancer.Shown())
    {
      if balancer.LeastConnOf? && t.addr != "" {
        balancer.lc.Release(t.addr);
      }
    }

    method ModifyResponse(t: Tracking) returns (status: Status)
      requires Valid()
      modifies balancer.Parts()
      ensures Valid() && status == Forwarded
      ensures balancer.LeastConnOf? ==>
        balancer.lc.Loads() == Tracked(old(balancer.lc.Loads()), old(t.addr), -1)
      ensures balancer.LeastConnOf? ==> balancer.lc.conns == old(balancer.lc.conns)
      ensures balancer.LeastConnOf? ==> forall a :: a in balancer.lc.conns ==>
        balancer.lc.conns[a].n == old(balancer.lc.conns[a].n) - if a == old(t.addr) && old(t.addr) != "" then 1 else 0
      ensures !balancer.LeastConnOf? ==> balancer.Shown() == old(balancer.Shown())
    {
      ReleaseTracked(t);
      status := Forwarded;
    }

    method ErrorHandler(t: Tracking) returns (status: Status)
      requires Valid() && t !in balancer.Parts()
      modifies balancer.Parts()
      ensures Valid() && status == if t.addr == "" then ServiceUnavailable else BadGateway
      ensures balancer.LeastConnOf? ==>
        balancer.lc.Loads() == Tracked(old(balancer.lc.Loads()), old(t.addr), -1)
      ensures balancer.LeastConnOf? ==> balancer.lc.conns == old(balancer.lc.conns)
      ensures balancer.LeastConnOf? ==> forall a :: a in balancer.lc.conns ==>
        balancer.lc.conns[a].n == old(balancer.lc.conns[a].n) - if a == old(t.addr) && old(t.addr) != "" then 1 else 0
      ensures !balancer.LeastConnOf? ==> balancer.Shown() == old(balancer.Shown())
    {
      ReleaseTracked(t);
      if t.addr == "" {
        return ServiceUnavailable;
      }
      return BadGateway;
    }

    /**
     * A whole request: the director, then exactly one callback. Reachable says whether the picked
     * backend answers; without a backend the request goes to an address that never does. It goes to the
     * one answer of one call, and during is what the counters show while it is open.
     */
    method ServeHTTP(reachable: bool) returns (status: Status, to: string, ghost during: L.Load)
      requires Valid()
      modifies balancer.Owner(), balancer.Parts()
      ensures Valid()
      ensures OneCall(old(balancer.Shown()), to, balancer.Shown())
      ensures balancer.LeastConnOf? ==> balancer.lc.Loads() == old(balancer.lc.Loads())
      ensures balancer.LeastConnOf? ==> forall a :: a in balancer.lc.conns ==>
        && balancer.lc.conns[a].n == old(balancer.Shown()).load[a]
        && a in during && during[a] == balancer.lc.conns[a].n + if a == to && to != "" then 1 else 0
      ensures to == "" ==> status == ServiceUnavailable
      ensures to != "" ==> status == if reachable then Forwarded else BadGateway
      ensures old(balancer.Backends()) == [] ==> status == ServiceUnavailable
      ensures old(balancer.Backends()) != [] && "" !in old(balancer.Backends()) ==>
        status == if reachable then Forwarded else BadGateway
    {
      hide Tracked, OneCall;
      var t := new Tracking();
      Director(t);
      to := t.addr;
      during := if balancer.LeastConnOf? then balancer.lc.Loads() else map[];
      if balancer.LeastConnOf? {
        AddedBack(old(balancer.lc.Loads()), t.addr);
      }
      if reachable && t.addr != "" {
        status := ModifyResponse(t);
      } else {
        status := ErrorHandler(t);
      }
      assert balancer.LeastConnOf? ==> balancer.Shown() == old(balancer.Shown());
    }
  }

  class Tunnel {
    const balancer: Balancer

    constructor (lb: Balancer)
      ensures balancer == lb
    {
      balancer := lb;
    }

    /**
     * A whole connection to the one answer of one call: the release is deferred, so a failed dial gives
     * back what it acquired. During is what the counters show while the backend is dialed and served.
     */
    method Handle(dials: bool) returns (piped: bool, dialed: string, ghost during: L.Load)
      requires balancer.Valid()
      modifies balancer.Owner(), balancer.Parts()
      ensures balancer.Valid()
      ensures OneCall(old(balancer.Shown()), dialed, balancer.Shown())
      ensures balancer.LeastConnOf? ==> balancer.lc.Loads() == old(balancer.lc.Loads())
      ensures balancer.LeastConnOf? ==> forall a :: a in balancer.lc.conns ==>
        && balancer.lc.conns[a].n == old(balancer.Shown()).load[a]
        && a in during && during[a] == balancer.lc.conns[a].n + if a == dialed && dialed != "" then 1 else 0
      ensures piped <==> dials && dialed != ""
      ensures piped ==> dials && balancer.Backends() != []
      ensures dials && balancer.Backends() != [] && "" !in balancer.Backends() ==> piped
    {
      hide OneCall;
      dialed := balancer.Next();
      during := if balancer.LeastConnOf? then balancer.lc.Loads() else map[];
      if dialed == "" {
        return false, "", during;
      }
      if balancer.LeastConnOf? {
        balancer.lc.Acquire(dialed);
        AddedBack(old(balancer.lc.Loads()), dialed);
        during := balancer.lc.Loads();
      }
      piped := dials;
      if balancer.LeastConnOf? {
        balancer.lc.Release(dialed);
        assert balancer.Shown() == old(balancer.Shown());
      }
    }
  }
}
