/** The health checker: it updates what it knows in place and pushes the live list to its balancer. */
module PulseScan {
  import opened HealthCache
  import opened SmoothWeighted
  import opened Balancers

  lemma ReloadedIs(s: Scan, addrs: seq<string>, healthy: map<string, bool>, live: seq<string>)
    requires healthy == Resettled(s.healthy, s.all, addrs) && live == Filter(addrs, healthy)
    ensures Reloaded(s, addrs) == Scan(addrs, healthy, live, s.events)
  {}

  lemma SweepOne(h: map<string, bool>, all: seq<string>, pings: seq<bool>, i: nat)
    requires i < |all| == |pings|
    ensures SweepOf(h, all[..i + 1], pings[..i + 1]) == Pinged(SweepOf(h, all[..i], pings[..i]), all[i], pings[i])
  {
    assert all[..i + 1][..i] == all[..i] && pings[..i + 1][..i] == pings[..i];
  }

  class PulseScan {
    const balancer: Balancer
    var all: seq<string>
    var healthy: map<string, bool>

    /** Whether an event function is registered, and the calls made to it so far. */
    var reports: bool
    var events: seq<Event>

    ghost predicate Valid()
      reads this, balancer.Owner(), balancer.Parts()
    {
      && balancer.Valid()
      && this !in {balancer.Owner()} + balancer.Parts()
    }

    ghost function View(): Scan
      reads this, balancer.Owner()
    {
      Scan(all, healthy, balancer.Backends(), events)
    }

    /** The balancer is left as it is; one built from the same list makes this a new scan. */
    constructor (addresses: seq<string>, lb: Balancer)
      requires lb.Valid()
      ensures Valid() && balancer == lb && !reports
      ensures View() == NewScan(addresses).(live := lb.Backends())
      ensures forall a :: a in healthy <==> a in addresses
      ensures forall a :: a in addresses ==> healthy[a]
    {
      balancer, all, healthy, reports, events := lb, addresses, map[], false, [];
      new;
      for i := 0 to |addresses|
        modifies this
        invariant all == addresses && !reports && events == []
        invariant healthy == map a | a in addresses[..i] :: true
      {
        assert addresses[..i + 1] == addresses[..i] + [addresses[i]];
        healthy := healthy[addresses[i] := true];
      }
      assert addresses[..|addresses|] == addresses;
    }

    method SetEventFunc()
      modifies this`reports
      ensures reports
    {
      reports := true;
    }

    /** Unknown addresses are not healthy. */
    method Healthy(address: string) returns (up: bool)
      ensures up == HealthyIn(healthy, address)
      ensures up <==> address in healthy && healthy[address]
    {
      if address !in healthy {
        return false;
      }
      return healthy[address];
    }

    /** The loop of a round: what is found is noted and reported, and nothing is pushed yet. */
    method PingAll(pings: seq<bool>) returns (live: seq<string>, changed: bool)
      requires |pings| == |all|
      modifies this`healthy, this`events
      ensures var w := SweepOf(old(healthy), all, pings);
        && healthy == w.healthy && live == w.live && changed == w.changed
        && events == old(events) + if reports then w.events else []
    {
      changed, live := false, [];
      ghost var es, w := events, SweepOf(healthy, [], []);
      hide SweepOf;
      for i := 0 to |all|
        modifies this`healthy, this`events
        invariant w == SweepOf(old(healthy), all[..i], pings[..i])
        invariant healthy == w.healthy && live == w.live && changed == w.changed
        invariant events == es + if reports then w.events else []
      {
        SweepOne(old(healthy), all, pings, i);
        w := Pinged(w, all[i], pings[i]);
        var addr, isHealthy := all[i], pings[i];
        var wasHealthy := Healthy(addr);
        healthy := healthy[addr := isHealthy];
        if isHealthy {
          live := live + [addr];
        }
        if wasHealthy != isHealthy {
          changed := true;
          if reports {
            events := events + [Event(isHealthy, addr)];
          }
        }
      }
      assert all[..|all|] == all && pings[..|all|] == pings;
    }

    /** One round: pings[i] is the answer for the i-th watched address. */
    method Check(pings: seq<bool>)
      requires Valid() && |pings| == |all|
      modifies this, balancer.Owner()
      ensures Valid() && reports == old(reports)
      ensures View() == Checked(old(View()), pings).(events := old(events) +
        if reports then SweepOf(old(healthy), old(all), pings).events else [])
      ensures var w := SweepOf(old(healthy), old(all), pings);
        balancer.WeightedOf? ==>
          balancer.w.ring == if w.changed then Replaced(old(balancer.w.ring), w.live) else old(balancer.w.ring)
    {
      hide SweepOf, Replaced;
      var live, changed := PingAll(pings);
      if changed {
        balancer.SetBackends(live);
      }
    }

    /** Addresses no longer listed are forgotten. */
    method Forget(newSet: set<string>)
      modifies this`healthy
      ensures healthy == map a | a in old(healthy) && (a in newSet || a !in all) :: old(healthy)[a]
    {
      for i := 0 to |all|
        invariant healthy == map a | a in old(healthy) && (a in newSet || a !in all[..i]) :: old(healthy)[a]
      {
        assert all[..i + 1] == all[..i] + [all[i]];
        if all[i] !in newSet {
          healthy := healthy - {all[i]};
        }
      }
      assert all[..|all|] == all;
    }

    /** Addresses not known yet are presumed healthy. */
    method Presume(addresses: seq<string>)
      modifies this`healthy
      ensures healthy == map a | a in old(healthy).Keys + (set x | x in addresses) ::
        if a in old(healthy) then old(healthy)[a] else true
    {
      for i := 0 to |addresses|
        invariant healthy == map a | a in old(healthy).Keys + (set x | x in addresses[..i]) ::
          if a in old(healthy) then old(healthy)[a] else true
      {
        assert addresses[..i + 1] == addresses[..i] + [addresses[i]];
        if addresses[i] !in healthy {
          healthy := healthy[addresses[i] := true];
        }
      }
      assert addresses[..|addresses|] == addresses;
    }

    /** Both: what is known of the new list, and nothing of what only the old one had. */
    method Resettle(addresses: seq<string>, newSet: set<string>)
      requires newSet == set a | a in addresses
      modifies this`healthy
      ensures healthy == Resettled(old(healthy), all, addresses)
      ensures forall a :: a in addresses ==>
        a in healthy && healthy[a] == if a in old(healthy) then old(healthy)[a] else true
      ensures forall a :: a in all && a !in addresses ==> a !in healthy
    {
      hide Resettled;
      Forget(newSet);
      ghost var kept := healthy;
      Presume(addresses);
      ResettledInSteps(old(healthy), all, addresses, kept, healthy);
    }

    method Live(addresses: seq<string>) returns (live: seq<string>)
      ensures live == Filter(addresses, healthy)
    {
      live := [];
      for i := 0 to |addresses|
        invariant live == Filter(addresses[..i], healthy)
      {
        assert addresses[..i + 1][..i] == addresses[..i];
        var up := Healthy(addresses[i]);
        if up {
          live := live + [addresses[i]];
        }
      }
      assert addresses[..|addresses|] == addresses;
    }

    /** The watched list is replaced and the balancer updated at once. */
    method SetAll(addresses: seq<string>)
      requires Valid()
      modifies this, balancer.Owner()
      ensures Valid() && reports == old(reports) && View() == Reloaded(old(View()), addresses)
      ensures forall a :: a in addresses ==>
        a in healthy && healthy[a] == if a in old(healthy) then old(healthy)[a] else true
      ensures forall a :: a in old(all) && a !in addresses ==> a !in healthy
      ensures balancer.WeightedOf? ==> balancer.w.ring == Replaced(old(balancer.w.ring), View().live)
    {
      var newSet := set a | a in addresses;
      hide Filter, Replaced, Reloaded;
      Resettle(addresses, newSet);
      all := addresses;
      var live := Live(addresses);
      balancer.SetBackends(live);
      ReloadedIs(old(View()), addresses, healthy, live);
    }
  }
}
