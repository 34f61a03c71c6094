/**
 * Least-connections under concurrency. Next reads the counters one at a time while other clients
 * go on adding to them, because the read lock does not exclude Acquire. Every read, pick and add
 * is one step here, and any interleaving of arrivals over a fixed list is a run.
 */
module LeastConnRace {
  import opened LeastConn

  type Client = nat

  /**
   * The read of the counter that is a client's best so far. Value is what the code keeps in
   * bestCount; the rest records, for the proofs only, when the read happened, who already held a
   * connection to that backend and who was between the start of Next and the end of Acquire.
   */
  datatype Reading = Reading(value: nat, stamp: nat, holders: set<Client>, inFlight: set<Client>)

  datatype Phase =
    | Scanning(best: string, seen: Reading, next: nat)
    | Picked(best: string, seen: Reading)
    | Holding(best: string, seen: Reading)

  datatype State = State(counts: map<string, nat>, clients: map<Client, Phase>, clock: nat)

  datatype Event = Begin(c: Client) | Look(c: Client) | Finish(c: Client) | Add(c: Client)

  function InFlight(s: State): set<Client> {
    set c | c in s.clients && !s.clients[c].Holding?
  }

  function Holders(s: State, a: string): set<Client> {
    set c | c in s.clients && s.clients[c].Holding? && s.clients[c].best == a
  }

  /** Clients whose Next has answered a and whose Acquire has not yet landed. */
  function Waiting(s: State, a: string): set<Client> {
    set c | c in s.clients && s.clients[c].Picked? && s.clients[c].best == a
  }

  predicate Can(list: seq<string>, s: State, e: Event) {
    match e
    case Begin(c) => c !in s.clients && list != []
    case Look(c) => c in s.clients && s.clients[c].Scanning? && s.clients[c].next < |list|
    case Finish(c) => c in s.clients && s.clients[c].Scanning? && s.clients[c].next >= |list|
    case Add(c) => c in s.clients && s.clients[c].Picked?
  }

  function CountIn(s: State, a: string): nat {
    if a in s.counts then s.counts[a] else 0
  }

  function Read(s: State, c: Client, a: string): Reading {
    Reading(CountIn(s, a), s.clock, Holders(s, a), InFlight(s) + {c})
  }

  function Do(list: seq<string>, s: State, e: Event): State
    requires Can(list, s, e)
  {
    match e
    case Begin(c) =>
      s.(clients := s.clients[c := Scanning(list[0], Read(s, c, list[0]), 1)], clock := s.clock + 1)
    case Look(c) =>
      var p, a := s.clients[c], list[s.clients[c].next];
      if CountIn(s, a) < p.seen.value then
        s.(clients := s.clients[c := Scanning(a, Read(s, c, a), p.next + 1)], clock := s.clock + 1)
      else
        s.(clients := s.clients[c := p.(next := p.next + 1)])
    case Finish(c) =>
      var p := s.clients[c];
      s.(clients := s.clients[c := Picked(p.best, p.seen)])
    case Add(c) =>
      var p := s.clients[c];
      State(if p.best in s.counts then s.counts[p.best := s.counts[p.best] + 1] else s.counts,
            s.clients[c := Holding(p.best, p.seen)], s.clock)
  }

  function Start(list: seq<string>): State {
    State(map a | a in list :: 0, map[], 0)
  }

  /** The state after a sequence of events; an event that cannot happen is passed over. */
  function After(list: seq<string>, es: seq<Event>): State {
    if es == [] then Start(list)
    else
      var s, e := After(list, es[..|es| - 1]), es[|es| - 1];
      if Can(list, s, e) then Do(list, s, e) else s
  }

  /** At no point are more than p clients between the start of Next and the end of Acquire. */
  ghost predicate AtMost(list: seq<string>, p: nat, es: seq<Event>) {
    && |InFlight(After(list, es))| <= p
    && (es != [] ==> AtMost(list, p, es[..|es| - 1]))
  }

  // ---- The invariant

  ghost predicate Counted(list: seq<string>, s: State) {
    && (forall a :: a in s.counts <==> a in list)
    && (forall a :: a in s.counts ==> s.counts[a] == |Holders(s, a)|)
  }

  ghost predicate SoundReading(list: seq<string>, p: nat, s: State, c: Client)
    requires c in s.clients
  {
    var ph := s.clients[c];
    && ph.best in list
    && ph.seen.stamp < s.clock
    && ph.seen.value == |ph.seen.holders| && |ph.seen.inFlight| <= p
    && (ph.Scanning? ==> 1 <= ph.next <= |list|)
    && forall j :: 0 <= j < (if ph.Scanning? then ph.next else |list|) ==> ph.seen.value <= CountIn(s, list[j])
  }

  /** A client that read a backend no later than c was already holding or in flight at c's read. */
  ghost predicate Ordered(s: State) {
    forall c, d :: c in s.clients && d in s.clients && s.clients[c].best == s.clients[d].best
                   && s.clients[d].seen.stamp <= s.clients[c].seen.stamp ==>
      d in s.clients[c].seen.holders || d in s.clients[c].seen.inFlight
  }

  ghost predicate Inv(list: seq<string>, p: nat, s: State) {
    && Counted(list, s)
    && (forall c :: c in s.clients ==> SoundReading(list, p, s, c))
    && Ordered(s)
  }

  lemma InvStart(list: seq<string>, p: nat)
    ensures Inv(list, p, Start(list))
  {
    forall a | a in list ensures Holders(Start(list), a) == {} {}
  }

  lemma HoldersDo(list: seq<string>, s: State, e: Event, a: string)
    requires Can(list, s, e)
    ensures var t := Do(list, s, e);
      if e.Add? && s.clients[e.c].best == a
      then e.c !in Holders(s, a) && Holders(t, a) == Holders(s, a) + {e.c}
      else Holders(t, a) == Holders(s, a)
  {}

  lemma CountedDo(list: seq<string>, s: State, e: Event)
    requires Counted(list, s) && Can(list, s, e)
    ensures Counted(list, Do(list, s, e))
  {
    hide Holders;
    var t := Do(list, s, e);
    forall a | a in t.counts ensures t.counts[a] == |Holders(t, a)| {
      HoldersDo(list, s, e, a);
    }
  }

  /** Arrivals only: counters never fall, so a client that does not move keeps a sound reading. */
  lemma SoundOther(list: seq<string>, p: nat, s: State, e: Event, c: Client)
    requires Can(list, s, e) && c in s.clients && c != e.c && SoundReading(list, p, s, c)
    ensures c in Do(list, s, e).clients && SoundReading(list, p, Do(list, s, e), c)
  {
    assert forall a :: CountIn(s, a) <= CountIn(Do(list, s, e), a);
  }

  lemma InFlightRead(list: seq<string>, s: State, e: Event)
    requires Can(list, s, e) && (e.Begin? || e.Look?)
    ensures InFlight(Do(list, s, e)) == InFlight(s) + {e.c}
  {}

  lemma SoundRead(list: seq<string>, p: nat, s: State, e: Event)
    requires Counted(list, s) && Can(list, s, e) && |InFlight(Do(list, s, e))| <= p
    requires e.Begin? || (e.Look? && SoundReading(list, p, s, e.c))
    ensures SoundReading(list, p, Do(list, s, e), e.c)
  {
    hide Holders, InFlight;
    InFlightRead(list, s, e);
  }

  lemma SoundMove(list: seq<string>, p: nat, s: State, e: Event)
    requires Can(list, s, e) && (e.Finish? || e.Add?) && SoundReading(list, p, s, e.c)
    ensures SoundReading(list, p, Do(list, s, e), e.c)
  {
    assert forall a :: CountIn(s, a) <= CountIn(Do(list, s, e), a);
  }

  lemma SoundDo(list: seq<string>, p: nat, s: State, e: Event, c: Client)
    requires Inv(list, p, s) && Can(list, s, e) && |InFlight(Do(list, s, e))| <= p
    requires c in Do(list, s, e).clients
    ensures SoundReading(list, p, Do(list, s, e), c)
  {
    hide SoundReading, Counted, Ordered;
    if c != e.c {
      SoundOther(list, p, s, e, c);
    } else if e.Begin? || e.Look? {
      assert e.Look? ==> SoundReading(list, p, s, e.c);
      SoundRead(list, p, s, e);
    } else {
      SoundMove(list, p, s, e);
    }
  }

  lemma OrderedDo(list: seq<string>, p: nat, s: State, e: Event)
    requires Inv(list, p, s) && Can(list, s, e)
    ensures Ordered(Do(list, s, e))
  {
    hide Inv, Can, Counted;
    var t := Do(list, s, e);
    forall c, d | c in t.clients && d in t.clients && t.clients[c].best == t.clients[d].best
                  && t.clients[d].seen.stamp <= t.clients[c].seen.stamp
      ensures d in t.clients[c].seen.holders || d in t.clients[c].seen.inFlight
    {
      OrderedPair(list, p, s, e, c, d);
    }
  }

  lemma OrderedPair(list: seq<string>, p: nat, s: State, e: Event, c: Client, d: Client)
    requires Inv(list, p, s) && Can(list, s, e)
    requires c in Do(list, s, e).clients && d in Do(list, s, e).clients
    requires Do(list, s, e).clients[c].best == Do(list, s, e).clients[d].best
    requires Do(list, s, e).clients[d].seen.stamp <= Do(list, s, e).clients[c].seen.stamp
    ensures d in Do(list, s, e).clients[c].seen.holders || d in Do(list, s, e).clients[c].seen.inFlight
  {
    if (e.Begin? || e.Look?) && c == e.c && Do(list, s, e).clients[c].seen.stamp == s.clock {
      NewReading(list, s, e, d);
    } else {
      assert SoundReading(list, p, s, c);
      OldReading(list, s, e, c);
      OldReading(list, s, e, d);
    }
  }

  /** A read made now sees every client with that backend as holder or in flight. */
  lemma NewReading(list: seq<string>, s: State, e: Event, d: Client)
    requires Can(list, s, e) && (e.Begin? || (e.Look? && s.clients[e.c].seen.stamp < s.clock))
    requires Do(list, s, e).clients[e.c].seen.stamp == s.clock
    requires d == e.c || (d in s.clients && s.clients[d].best == Do(list, s, e).clients[e.c].best)
    ensures d in Do(list, s, e).clients[e.c].seen.holders || d in Do(list, s, e).clients[e.c].seen.inFlight
  {
    assert d == e.c || d in InFlight(s) || d in Holders(s, s.clients[d].best);
  }

  /** A client whose latest read is older than this step has not changed its best. */
  lemma OldReading(list: seq<string>, s: State, e: Event, c: Client)
    requires Can(list, s, e) && c in Do(list, s, e).clients
    requires Do(list, s, e).clients[c].seen.stamp < s.clock
    ensures c in s.clients
    ensures s.clients[c].best == Do(list, s, e).clients[c].best && s.clients[c].seen == Do(list, s, e).clients[c].seen
  {}

  lemma {:induction false} InvAfter(list: seq<string>, p: nat, es: seq<Event>)
    requires AtMost(list, p, es)
    ensures Inv(list, p, After(list, es))
  {
    if es == [] {
      InvStart(list, p);
    } else {
      var s, e := After(list, es[..|es| - 1]), es[|es| - 1];
      InvAfter(list, p, es[..|es| - 1]);
      if Can(list, s, e) {
        CountedDo(list, s, e);
        forall c | c in Do(list, s, e).clients ensures SoundReading(list, p, Do(list, s, e), c) {
          SoundDo(list, p, s, e, c);
        }
        OrderedDo(list, p, s, e);
      }
    }
  }

  // ---- The bound

  lemma LatestReader(s: State, users: set<Client>) returns (x: Client)
    requires users != {} && users <= s.clients.Keys
    ensures x in users
    ensures forall d :: d in users ==> s.clients[d].seen.stamp <= s.clients[x].seen.stamp
  {
    x :| x in users;
    var rest := users - {x};
    assert forall d :: d in users ==> d == x || d in rest;
    if rest != {} {
      var y := LatestReader(s, rest);
      if s.clients[y].seen.stamp > s.clients[x].seen.stamp {
        x := y;
      }
    }
  }

  lemma SizeOfUnion<T>(x: set<T>, a: set<T>, b: set<T>)
    requires x <= a + b
    ensures |x| <= |a| + |b|
  {
    assert |(a + b) - x| == |a + b| - |x|;
    assert |a + b| == |a| + |b - a|;
    assert |b - (b * a)| == |b| - |b * a| && b - a == b - (b * a);
  }

  /**
   * In every state of every run in which at most p clients are ever in flight, a backend's open
   * connections together with the picks about to be added exceed no other backend's by more than p.
   */
  lemma SpreadAtMostInFlight(list: seq<string>, p: nat, es: seq<Event>, a: string, b: string)
    requires AtMost(list, p, es) && a in list && b in list
    ensures a in After(list, es).counts && b in After(list, es).counts
    ensures After(list, es).counts[a] + |Waiting(After(list, es), a)| <= After(list, es).counts[b] + p
  {
    InvAfter(list, p, es);
    var s := After(list, es);
    var users := Holders(s, a) + Waiting(s, a);
    assert |users| == |Holders(s, a)| + |Waiting(s, a)|;
    if users != {} {
      var x := LatestReader(s, users);
      var seen := s.clients[x].seen;
      assert SoundReading(list, p, s, x);
      SizeOfUnion(users, seen.holders, seen.inFlight);
      var j :| 0 <= j < |list| && list[j] == b;
      assert seen.value <= CountIn(s, list[j]);
    }
  }

  // ---- A scan nobody interferes with

  function Seen(list: seq<string>, s: State): (counts: seq<int>)
    ensures |counts| == |list|
  {
    seq(|list|, i requires 0 <= i < |list| => CountIn(s, list[i]))
  }

  /** The state after c begins a call and looks at the next k addresses, with no other step between. */
  function Scanned(list: seq<string>, s: State, c: Client, k: nat): (t: State)
    requires c !in s.clients && k < |list|
    ensures c in t.clients && t.clients[c].Scanning? && t.clients[c].next == k + 1 && t.counts == s.counts
  {
    if k == 0 then Do(list, s, Begin(c)) else Do(list, Scanned(list, s, c, k - 1), Look(c))
  }

  /** Alone, the step-by-step scan ends on the address that Next returns when nothing moves. */
  lemma {:induction false} LoneScan(list: seq<string>, s: State, c: Client, k: nat)
    requires c !in s.clients && k < |list|
    ensures var p := Scanned(list, s, c, k).clients[c];
      p.best == list[FirstMinTo(Seen(list, s), k + 1)] && p.seen.value == CountIn(s, p.best)
  {
    hide Holders, InFlight, FirstMinTo;
    FirstMinStep(Seen(list, s), k);
    if k > 0 {
      LoneScan(list, s, c, k - 1);
    }
  }

  /**
   * The whole call, alone: it answers the first listed address with the fewest connections, as Next does,
   * and its acquire adds one connection to that address.
   */
  lemma LoneCallAnswers(list: seq<string>, s: State, c: Client)
    requires c !in s.clients && list != [] && forall a :: a in list ==> a in s.counts
    ensures var t := Scanned(list, s, c, |list| - 1);
      && Can(list, t, Finish(c))
      && var p := Do(list, t, Finish(c)).clients[c];
         && p.Picked? && p.best == list[Least(list, s.counts)]
         && (exists k :: FewestAt(list, s.counts, k) && p.best == list[k])
         && Can(list, Do(list, t, Finish(c)), Add(c))
         && p.best in s.counts
         && Do(list, Do(list, t, Finish(c)), Add(c)).counts == s.counts[p.best := s.counts[p.best] + 1]
  {
    hide Holders, InFlight, FirstMinTo, FewestAt;
    LoneScan(list, s, c, |list| - 1);
    assert Seen(list, s) == Counts(list, s.counts);
    FirstMinUnique(Seen(list, s), FirstMinTo(Seen(list, s), |list|));
    LeastIsFewest(list, s.counts);
  }
}
