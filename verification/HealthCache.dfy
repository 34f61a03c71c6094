/**
 * The values behind PulseScan: what it knows about each watched address, the list it last pushed to
 * its balancer and the events it has reported. The class in PulseScan.dfy is proved equal to these
 * functions.
 */
module HealthCache {
  import opened Lists

  datatype Event = Event(up: bool, addr: string)

  datatype Scan = Scan(all: seq<string>, healthy: map<string, bool>, live: seq<string>, events: seq<Event>)

  function HealthyIn(healthy: map<string, bool>, a: string): bool {
    a in healthy && healthy[a]
  }

  /** The healthy addresses of a list, in order. */
  function Filter(all: seq<string>, healthy: map<string, bool>): seq<string> {
    if all == [] then []
    else
      var n := |all| - 1;
      Filter(all[..n], healthy) + if HealthyIn(healthy, all[n]) then [all[n]] else []
  }

  function NewScan(addrs: seq<string>): Scan {
    Scan(addrs, map a | a in addrs :: true, addrs, [])
  }

  /** What a round of pings over a list has found so far. */
  datatype Sweep = Sweep(healthy: map<string, bool>, live: seq<string>, changed: bool, events: seq<Event>)

  function Pinged(s: Sweep, a: string, up: bool): Sweep {
    var flipped := HealthyIn(s.healthy, a) != up;
    Sweep(s.healthy[a := up],
          s.live + if up then [a] else [],
          s.changed || flipped,
          s.events + if flipped then [Event(up, a)] else [])
  }

  function SweepOf(healthy: map<string, bool>, all: seq<string>, pings: seq<bool>): Sweep
    requires |pings| == |all|
  {
    if all == [] then Sweep(healthy, [], false, [])
    else
      var n := |all| - 1;
      Pinged(SweepOf(healthy, all[..n], pings[..n]), all[n], pings[n])
  }

  /** A check pushes the live list only when some address flipped. */
  function Checked(s: Scan, pings: seq<bool>): Scan
    requires |pings| == |s.all|
  {
    var w := SweepOf(s.healthy, s.all, pings);
    Scan(s.all, w.healthy, if w.changed then w.live else s.live, s.events + w.events)
  }

  /** Removed addresses are forgotten, new ones are presumed healthy. */
  function Resettled(healthy: map<string, bool>, all: seq<string>, addrs: seq<string>): map<string, bool> {
    map a | a in healthy.Keys + (set x | x in addrs) && (a in addrs || a !in all) ::
      if a in healthy then healthy[a] else true
  }

  lemma ResettledInSteps(healthy: map<string, bool>, all: seq<string>, addrs: seq<string>,
                         kept: map<string, bool>, h: map<string, bool>)
    requires kept == map a | a in healthy && (a in addrs || a !in all) :: healthy[a]
    requires h == map a | a in kept.Keys + (set x | x in addrs) :: if a in kept then kept[a] else true
    ensures h == Resettled(healthy, all, addrs)
  {}

  /** A reload always pushes. */
  function Reloaded(s: Scan, addrs: seq<string>): Scan {
    var healthy := Resettled(s.healthy, s.all, addrs);
    Scan(addrs, healthy, Filter(addrs, healthy), s.events)
  }

  // ---- The pushed list is a correct cache

  ghost predicate Agrees(s: Scan) {
    && (forall a :: a in s.healthy <==> a in s.all)
    && s.live == Filter(s.all, s.healthy)
  }

  /** Repeated addresses, if any, answered alike. */
  ghost predicate Consistent(all: seq<string>, pings: seq<bool>)
    requires |pings| == |all|
  {
    forall i, j :: 0 <= i < j < |all| && all[i] == all[j] ==> pings[i] == pings[j]
  }

  lemma DistinctConsistent(all: seq<string>, pings: seq<bool>)
    requires |pings| == |all| && Distinct(all)
    ensures Consistent(all, pings)
  {}

  lemma FilterOne(a: string, healthy: map<string, bool>)
    ensures Filter([a], healthy) == if a in healthy && healthy[a] then [a] else []
  {
    assert [a][..0] == [];
  }

  lemma FilterLast(xs: seq<string>, x: string, healthy: map<string, bool>)
    ensures Filter(xs + [x], healthy) == Filter(xs, healthy) + if HealthyIn(healthy, x) then [x] else []
  {
    assert (xs + [x])[..|xs|] == xs;
  }

  /** Filtering keeps the order: a list is filtered piece by piece. */
  lemma {:induction false} FilterInOrder(xs: seq<string>, ys: seq<string>, healthy: map<string, bool>)
    ensures Filter(xs + ys, healthy) == Filter(xs, healthy) + Filter(ys, healthy)
  {
    if ys == [] {
      assert xs + ys == xs;
    } else {
      var n := |ys| - 1;
      var zs := ys[..n];
      assert ys == zs + [ys[n]] && xs + ys == (xs + zs) + [ys[n]];
      FilterInOrder(xs, zs, healthy);
      FilterLast(xs + zs, ys[n], healthy);
      FilterLast(zs, ys[n], healthy);
      hide HealthyIn, Filter;
    }
  }

  lemma {:induction false} FilterAll(all: seq<string>, healthy: map<string, bool>)
    requires forall a :: a in all ==> HealthyIn(healthy, a)
    ensures Filter(all, healthy) == all
  {
    hide HealthyIn;
    if all != [] {
      var n := |all| - 1;
      assert all[n] in all;
      FilterAll(all[..n], healthy);
      assert all == all[..n] + [all[n]];
    }
  }

  lemma {:induction false} FilterSame(all: seq<string>, h: map<string, bool>, g: map<string, bool>)
    requires forall a :: a in all ==> HealthyIn(h, a) == HealthyIn(g, a)
    ensures Filter(all, h) == Filter(all, g)
  {
    hide HealthyIn;
    if all != [] {
      assert all[|all| - 1] in all;
      FilterSame(all[..|all| - 1], h, g);
    }
  }

  lemma NewAgrees(addrs: seq<string>)
    ensures Agrees(NewScan(addrs))
  {
    FilterAll(addrs, NewScan(addrs).healthy);
  }

  lemma ReloadAgrees(s: Scan, addrs: seq<string>)
    requires forall a :: a in s.healthy <==> a in s.all
    ensures Agrees(Reloaded(s, addrs))
  {}

  /** What a sweep leaves for each address: the last answer, or what it was. */
  lemma {:induction false} SweepHealth(h: map<string, bool>, all: seq<string>, pings: seq<bool>)
    requires |pings| == |all|
    ensures forall a :: a in SweepOf(h, all, pings).healthy <==> a in h || a in all
    ensures forall a :: a !in all ==> HealthyIn(SweepOf(h, all, pings).healthy, a) == HealthyIn(h, a)
    ensures Consistent(all, pings) ==>
      forall i :: 0 <= i < |all| ==> HealthyIn(SweepOf(h, all, pings).healthy, all[i]) == pings[i]
  {
    if all != [] {
      var n := |all| - 1;
      SweepHealth(h, all[..n], pings[..n]);
      assert all == all[..n] + [all[n]];
    }
  }

  /** A sweep reports no change exactly when every answer matched what was known. */
  lemma {:induction false} SweepUnchanged(h: map<string, bool>, all: seq<string>, pings: seq<bool>)
    requires |pings| == |all|
    ensures !SweepOf(h, all, pings).changed <==> forall i :: 0 <= i < |all| ==> pings[i] == HealthyIn(h, all[i])
    ensures !SweepOf(h, all, pings).changed ==>
      && SweepOf(h, all, pings).events == []
      && forall a :: HealthyIn(SweepOf(h, all, pings).healthy, a) == HealthyIn(h, a)
  {
    if all != [] {
      var n := |all| - 1;
      var before := SweepOf(h, all[..n], pings[..n]);
      SweepUnchanged(h, all[..n], pings[..n]);
      if !before.changed {
        assert HealthyIn(before.healthy, all[n]) == HealthyIn(h, all[n]);
      }
    }
  }

  lemma {:induction false} SweepLive(h: map<string, bool>, all: seq<string>, pings: seq<bool>, g: map<string, bool>)
    requires |pings| == |all|
    requires forall i :: 0 <= i < |all| ==> HealthyIn(g, all[i]) == pings[i]
    ensures SweepOf(h, all, pings).live == Filter(all, g)
  {
    if all != [] {
      var n := |all| - 1;
      SweepLive(h, all[..n], pings[..n], g);
    }
  }

  function Occurrences(xs: seq<string>, a: string): nat {
    multiset(xs)[a]
  }

  lemma {:induction false} FilterOccurrences(all: seq<string>, h: map<string, bool>, a: string)
    ensures Occurrences(Filter(all, h), a) == if HealthyIn(h, a) then Occurrences(all, a) else 0
  {
    if all != [] {
      var n := |all| - 1;
      FilterOccurrences(all[..n], h, a);
      assert all == all[..n] + [all[n]];
    }
  }

  lemma SweepLast(h: map<string, bool>, all: seq<string>, pings: seq<bool>)
    requires |pings| == |all| > 0
    ensures var n := |all| - 1;
      SweepOf(h, all, pings).live == SweepOf(h, all[..n], pings[..n]).live + if pings[n] then [all[n]] else []
  {}

  lemma OccurrencesLast(xs: seq<string>, x: string, a: string)
    ensures Occurrences(xs + [x], a) == Occurrences(xs, a) + if x == a then 1 else 0
    ensures xs + [] == xs
  {}

  lemma OccurrencesSplit(xs: seq<string>, a: string)
    requires xs != []
    ensures var n := |xs| - 1; Occurrences(xs, a) == Occurrences(xs[..n], a) + if xs[n] == a then 1 else 0
  {
    assert xs == xs[..|xs| - 1] + [xs[|xs| - 1]];
    OccurrencesLast(xs[..|xs| - 1], xs[|xs| - 1], a);
  }

  lemma LiveLast(h: map<string, bool>, all: seq<string>, pings: seq<bool>, a: string)
    requires |pings| == |all| > 0
    ensures var n := |all| - 1;
      Occurrences(SweepOf(h, all, pings).live, a)
      == Occurrences(SweepOf(h, all[..n], pings[..n]).live, a) + if pings[n] && all[n] == a then 1 else 0
  {
    hide Occurrences;
    SweepLast(h, all, pings);
    OccurrencesLast(SweepOf(h, all[..|all| - 1], pings[..|all| - 1]).live, all[|all| - 1], a);
  }

  lemma {:induction false} LiveAtMost(h: map<string, bool>, all: seq<string>, pings: seq<bool>, a: string)
    requires |pings| == |all|
    ensures Occurrences(SweepOf(h, all, pings).live, a) <= Occurrences(all, a)
  {
    if all != [] {
      hide SweepOf, Occurrences;
      LiveLast(h, all, pings, a);
      OccurrencesSplit(all, a);
      LiveAtMost(h, all[..|all| - 1], pings[..|all| - 1], a);
    }
  }

  /** An address is listed at least once if it answered up once, and not every time if it answered down once. */
  lemma {:induction false} LiveOccurrences(h: map<string, bool>, all: seq<string>, pings: seq<bool>, i: nat)
    requires |pings| == |all| && i < |all|
    ensures pings[i] ==> 0 < Occurrences(SweepOf(h, all, pings).live, all[i])
    ensures !pings[i] ==> Occurrences(SweepOf(h, all, pings).live, all[i]) < Occurrences(all, all[i])
  {
    hide SweepOf;
    var n := |all| - 1;
    assert all == all[..n] + [all[n]];
    SweepLast(h, all, pings);
    if i < n {
      LiveOccurrences(h, all[..n], pings[..n], i);
    } else {
      LiveAtMost(h, all[..n], pings[..n], all[n]);
    }
  }

  lemma ConsistentCheckAgrees(s: Scan, pings: seq<bool>)
    requires Agrees(s) && |pings| == |s.all| && Consistent(s.all, pings)
    ensures Agrees(Checked(s, pings))
  {
    hide SweepOf, Filter, HealthyIn;
    var w := SweepOf(s.healthy, s.all, pings);
    SweepHealth(s.healthy, s.all, pings);
    SweepUnchanged(s.healthy, s.all, pings);
    SweepLive(s.healthy, s.all, pings, w.healthy);
    if !w.changed {
      FilterSame(s.all, s.healthy, w.healthy);
    }
  }

  lemma InconsistentCheckDisagrees(s: Scan, pings: seq<bool>)
    requires |pings| == |s.all| && !Consistent(s.all, pings)
    ensures !Agrees(Checked(s, pings))
  {
    hide SweepOf, Filter, HealthyIn;
    var w := SweepOf(s.healthy, s.all, pings);
    SweepUnchanged(s.healthy, s.all, pings);
    var i, j :| 0 <= i < j < |s.all| && s.all[i] == s.all[j] && pings[i] != pings[j];
    LiveOccurrences(s.healthy, s.all, pings, i);
    LiveOccurrences(s.healthy, s.all, pings, j);
    FilterOccurrences(s.all, w.healthy, s.all[i]);
  }

  /** A check keeps the cache correct exactly when repeated addresses answered alike, so always on distinct ones. */
  lemma CheckKeepsCacheIff(s: Scan, pings: seq<bool>)
    requires Agrees(s) && |pings| == |s.all|
    ensures Agrees(Checked(s, pings)) <==> Consistent(s.all, pings)
  {
    if Consistent(s.all, pings) {
      ConsistentCheckAgrees(s, pings);
    } else {
      InconsistentCheckDisagrees(s, pings);
    }
  }

  datatype Op = Check(pings: seq<bool>) | Reload(addrs: seq<string>)

  /** Each check has one answer per watched address. */
  predicate Fits(s: Scan, ops: seq<Op>)
    decreases |ops|
  {
    ops == [] ||
    (match ops[0]
     case Check(pings) => |pings| == |s.all| && Fits(Checked(s, pings), ops[1..])
     case Reload(addrs) => Fits(Reloaded(s, addrs), ops[1..]))
  }

  function After(s: Scan, ops: seq<Op>): Scan
    requires Fits(s, ops)
    decreases |ops|
  {
    if ops == [] then s
    else
      match ops[0]
      case Check(pings) => After(Checked(s, pings), ops[1..])
      case Reload(addrs) => After(Reloaded(s, addrs), ops[1..])
  }

  /** Only lists without repeats are ever watched. */
  ghost predicate AllDistinct(s: Scan, ops: seq<Op>) {
    && Distinct(s.all)
    && forall i :: 0 <= i < |ops| && ops[i].Reload? ==> Distinct(ops[i].addrs)
  }

  /** Over any run of checks and reloads the balancer's list is the watched list filtered by health. */
  lemma {:induction false} CacheCorrect(s: Scan, ops: seq<Op>)
    requires Fits(s, ops) && Agrees(s) && AllDistinct(s, ops)
    ensures Agrees(After(s, ops))
    decreases |ops|
  {
    if ops != [] {
      match ops[0]
      case Check(pings) =>
        DistinctConsistent(s.all, pings);
        CheckKeepsCacheIff(s, pings);
        CacheCorrect(Checked(s, pings), ops[1..]);
      case Reload(addrs) =>
        ReloadAgrees(s, addrs);
        CacheCorrect(Reloaded(s, addrs), ops[1..]);
    }
  }

  // ---- The event log replays to health

  /** The directions of the events about a, in order. */
  function About(events: seq<Event>, a: string): seq<bool> {
    if events == [] then []
    else
      var n := |events| - 1;
      About(events[..n], a) + if events[n].addr == a then [events[n].up] else []
  }

  /** Strictly alternating events that lead from one health to another. */
  predicate Replays(from: bool, ups: seq<bool>, to: bool) {
    if ups == [] then from == to
    else ups[|ups| - 1] == to && Replays(from, ups[..|ups| - 1], !to)
  }

  lemma {:induction false} AboutConcat(xs: seq<Event>, ys: seq<Event>, a: string)
    ensures About(xs + ys, a) == About(xs, a) + About(ys, a)
  {
    if ys == [] {
      assert xs + ys == xs;
    } else {
      var n := |ys| - 1;
      assert (xs + ys)[..|xs| + n] == xs + ys[..n];
      AboutConcat(xs, ys[..n], a);
    }
  }

  lemma {:induction false} ReplaysConcat(from: bool, xs: seq<bool>, mid: bool, ys: seq<bool>, to: bool)
    requires Replays(from, xs, mid) && Replays(mid, ys, to)
    ensures Replays(from, xs + ys, to)
  {
    if ys == [] {
      assert xs + ys == xs;
    } else {
      var n := |ys| - 1;
      ReplaysConcat(from, xs, mid, ys[..n], !to);
      assert (xs + ys)[..|xs| + n] == xs + ys[..n];
    }
  }

  /** Starting from up, the first event is a down and they take turns from there. */
  lemma {:induction false} ReplaysFromUp(ups: seq<bool>, to: bool)
    requires Replays(true, ups, to)
    ensures forall i :: 0 <= i < |ups| ==> ups[i] == (i % 2 == 1)
    ensures to == (|ups| % 2 == 0)
  {
    if ups != [] {
      ReplaysFromUp(ups[..|ups| - 1], !to);
    }
  }

  lemma AboutOne(e: Event, a: string)
    ensures About([e], a) == if e.addr == a then [e.up] else []
  {
    assert [e][..0] == [];
  }

  lemma ReplaysOne(up: bool)
    ensures Replays(!up, [up], up)
  {
    assert [up][..0] == [];
  }

  /** One ping adds at most one event, and only a flip of the pinged address. */
  lemma PingReplays(from: bool, s: Sweep, x: string, up: bool, a: string)
    requires Replays(from, About(s.events, a), HealthyIn(s.healthy, a))
    ensures Replays(from, About(Pinged(s, x, up).events, a), HealthyIn(Pinged(s, x, up).healthy, a))
  {
    hide Replays, About;
    if HealthyIn(s.healthy, x) != up {
      AboutConcat(s.events, [Event(up, x)], a);
      AboutOne(Event(up, x), a);
      if x == a {
        ReplaysOne(up);
        ReplaysConcat(from, About(s.events, a), !up, [up], up);
      } else {
        assert About(s.events, a) + [] == About(s.events, a);
      }
    } else {
      assert s.events + [] == s.events;
    }
  }

  lemma {:induction false} SweepReplays(h: map<string, bool>, all: seq<string>, pings: seq<bool>, a: string)
    requires |pings| == |all|
    ensures Replays(HealthyIn(h, a), About(SweepOf(h, all, pings).events, a), HealthyIn(SweepOf(h, all, pings).healthy, a))
  {
    hide Pinged, HealthyIn;
    if all != [] {
      var n := |all| - 1;
      SweepReplays(h, all[..n], pings[..n], a);
      PingReplays(HealthyIn(h, a), SweepOf(h, all[..n], pings[..n]), all[n], pings[n], a);
    }
  }

  ghost predicate Watched(s: Scan, ops: seq<Op>, a: string) {
    && a in s.healthy && a in s.all
    && forall i :: 0 <= i < |ops| && ops[i].Reload? ==> a in ops[i].addrs
  }

  lemma NothingReplays(up: bool, a: string)
    ensures Replays(up, About([], a), up)
  {}

  /** Two stretches of the log that replay, one after the other, replay together. */
  lemma JoinReplays(from: bool, xs: seq<Event>, mid: bool, ys: seq<Event>, to: bool, zs: seq<Event>, a: string)
    requires xs <= ys <= zs
    requires Replays(from, About(ys[|xs|..], a), mid) && Replays(mid, About(zs[|ys|..], a), to)
    ensures Replays(from, About(zs[|xs|..], a), to)
  {
    hide Replays, About;
    var early, late := ys[|xs|..], zs[|ys|..];
    assert zs[|xs|..] == early + late;
    AboutConcat(early, late, a);
    ReplaysConcat(from, About(early, a), mid, About(late, a), to);
  }

  lemma ReloadKeepsHealth(s: Scan, addrs: seq<string>, a: string)
    requires a in s.healthy && a in addrs
    ensures HealthyIn(Reloaded(s, addrs).healthy, a) == HealthyIn(s.healthy, a)
  {}

  /**
   * While a stays watched, its reported events alternate and lead from its health before the run to
   * its health after.
   */
  lemma {:induction false} EventsReplay(s: Scan, ops: seq<Op>, a: string)
    requires Fits(s, ops) && Watched(s, ops, a)
    ensures s.events <= After(s, ops).events
    ensures Replays(HealthyIn(s.healthy, a), About(After(s, ops).events[|s.events|..], a), HealthyIn(After(s, ops).healthy, a))
    decreases |ops|
  {
    hide SweepOf, HealthyIn, Replays, About;
    if ops == [] {
      assert s.events[|s.events|..] == [];
      NothingReplays(HealthyIn(s.healthy, a), a);
    } else {
      match ops[0]
      case Check(pings) =>
        var t := Checked(s, pings);
        SweepHealth(s.healthy, s.all, pings);
        SweepReplays(s.healthy, s.all, pings, a);
        EventsReplay(t, ops[1..], a);
        JoinReplays(HealthyIn(s.healthy, a), s.events, HealthyIn(t.healthy, a), t.events,
                    HealthyIn(After(s, ops).healthy, a), After(s, ops).events, a);
      case Reload(addrs) =>
        ReloadKeepsHealth(s, addrs, a);
        EventsReplay(Reloaded(s, addrs), ops[1..], a);
    }
  }
}
