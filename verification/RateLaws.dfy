/** When forgetting idle clients changes no answer, and what a client can be granted. */
module RateLaws {
  import opened FluxShield

  datatype Op = Request(ip: string, at: real) | Cleanup(at: real)

  predicate Timed(ops: seq<Op>, since: real)
    decreases |ops|
  {
    ops == [] || (ops[0].at >= since && Timed(ops[1..], ops[0].at))
  }

  function Step(p: Shield, peers: Peers, op: Op): Peers {
    match op
    case Request(ip, now) => Handled(p, peers, ip, now)
    case Cleanup(now) => Cleaned(peers, now)
  }

  /** A map that never evicts passes over the cleanups. */
  function StepKeeping(p: Shield, peers: Peers, op: Op): Peers {
    if op.Cleanup? then peers else Step(p, peers, op)
  }

  /** The answers to the requests, in order, when idle entries are evicted. */
  function Evicting(p: Shield, peers: Peers, ops: seq<Op>): seq<bool>
    decreases |ops|
  {
    if ops == [] then []
    else
      (if ops[0].Request? then [Granted(p, peers, ops[0].ip, ops[0].at)] else [])
      + Evicting(p, Step(p, peers, ops[0]), ops[1..])
  }

  function Keeping(p: Shield, peers: Peers, ops: seq<Op>): seq<bool>
    decreases |ops|
  {
    if ops == [] then []
    else
      (if ops[0].Request? then [Granted(p, peers, ops[0].ip, ops[0].at)] else [])
      + Keeping(p, StepKeeping(p, peers, ops[0]), ops[1..])
  }

  // ---- Buckets over time

  /** A bucket a limiter can have at a time: last used no later, and never in debt. */
  predicate Sound(p: Shield, b: Bucket, now: real) {
    && b.last <= now
    && b.tokens <= p.burst as real
    && (b.tokens >= 0.0 || b.tokens >= p.burst as real)
  }

  lemma Product(a: real, b: real)
    requires a >= 0.0 && b >= 0.0
    ensures a * b >= 0.0
  {}

  lemma LevelLater(p: Shield, b: Bucket, now: real, later: real)
    requires p.rps > 0.0 && Sound(p, b, now) && now <= later
    ensures Level(p, b, later) == Min(p.burst as real, Level(p, b, now) + (later - now) * p.rps)
    ensures Level(p, b, now) <= Level(p, b, later) <= Level(p, b, now) + (later - now) * p.rps
  {
    Product(later - now, p.rps);
    Product(now - b.last, p.rps);
    assert (later - b.last) * p.rps == (now - b.last) * p.rps + (later - now) * p.rps;
  }

  lemma SpentSound(p: Shield, b: Bucket, now: real)
    requires p.rps > 0.0 && Sound(p, b, now)
    ensures Sound(p, Spent(p, b, now), now)
    ensures Level(p, Spent(p, b, now), now) == Level(p, b, now) - if Allows(p, b, now) then 1.0 else 0.0
  {}

  /** Idle for over a minute at no less than a burst a minute, a bucket is full again. */
  lemma IdleIsFull(p: Shield, b: Bucket, now: real)
    requires p.rps > 0.0 && p.burst as real <= 60.0 * p.rps
    requires Sound(p, b, now) && b.last < now - IDLE
    ensures Level(p, b, now) == p.burst as real
  {
    Product(now - b.last - IDLE, p.rps);
    assert (now - b.last) * p.rps == 60.0 * p.rps + (now - b.last - IDLE) * p.rps;
  }

  // ---- Eviction is invisible

  ghost predicate AllSound(p: Shield, peers: Peers, now: real) {
    forall ip :: ip in peers ==> Sound(p, peers[ip].bucket, now) && peers[ip].bucket.last <= peers[ip].lastSeen <= now
  }

  /** Every client has as many tokens in one map as in the other, a missing entry counting as a full one. */
  ghost predicate Alike(p: Shield, peers: Peers, kept: Peers, now: real) {
    && AllSound(p, peers, now) && AllSound(p, kept, now)
    && forall ip :: Level(p, LimiterOf(p, peers, ip, now), now) == Level(p, LimiterOf(p, kept, ip, now), now)
  }

  lemma FullSound(p: Shield, now: real)
    ensures Sound(p, Full(p, now), now)
    ensures Level(p, Full(p, now), now) == p.burst as real
  {}

  lemma AlikeLater(p: Shield, peers: Peers, kept: Peers, now: real, later: real)
    requires p.rps > 0.0 && Alike(p, peers, kept, now) && now <= later
    ensures Alike(p, peers, kept, later)
  {
    forall ip ensures Level(p, LimiterOf(p, peers, ip, later), later) == Level(p, LimiterOf(p, kept, ip, later), later) {
      LimiterLater(p, peers, ip, now, later);
      LimiterLater(p, kept, ip, now, later);
    }
  }

  lemma LimiterLater(p: Shield, peers: Peers, ip: string, now: real, later: real)
    requires p.rps > 0.0 && AllSound(p, peers, now) && now <= later
    ensures Level(p, LimiterOf(p, peers, ip, later), later)
         == Min(p.burst as real, Level(p, LimiterOf(p, peers, ip, now), now) + (later - now) * p.rps)
  {
    if ip in peers {
      LevelLater(p, peers[ip].bucket, now, later);
    } else {
      Product(later - now, p.rps);
    }
  }

  lemma HandledSound(p: Shield, peers: Peers, ip: string, now: real)
    requires p.rps > 0.0 && AllSound(p, peers, now)
    ensures AllSound(p, Handled(p, peers, ip, now), now)
    ensures forall jp ::
      Level(p, LimiterOf(p, Handled(p, peers, ip, now), jp, now), now)
      == Level(p, LimiterOf(p, peers, jp, now), now) - if jp == ip && Granted(p, peers, ip, now) then 1.0 else 0.0
  {
    hide Level, Allows, Spent;
    FullSound(p, now);
    SpentSound(p, LimiterOf(p, peers, ip, now), now);
    SpentFresh(p, LimiterOf(p, peers, ip, now), now);
  }

  lemma SpentFresh(p: Shield, b: Bucket, now: real)
    requires b.last <= now
    ensures Spent(p, b, now).last <= now
  {}

  lemma CleanedSound(p: Shield, peers: Peers, now: real)
    requires p.rps > 0.0 && p.burst as real <= 60.0 * p.rps && AllSound(p, peers, now)
    ensures AllSound(p, Cleaned(peers, now), now)
    ensures forall ip :: Level(p, LimiterOf(p, Cleaned(peers, now), ip, now), now) == Level(p, LimiterOf(p, peers, ip, now), now)
  {
    hide Level;
    FullSound(p, now);
    forall ip ensures Level(p, LimiterOf(p, Cleaned(peers, now), ip, now), now) == Level(p, LimiterOf(p, peers, ip, now), now) {
      if ip in peers && ip !in Cleaned(peers, now) {
        IdleIsFull(p, peers[ip].bucket, now);
      }
    }
  }

  lemma GrantedByLevel(p: Shield, peers: Peers, kept: Peers, ip: string, now: real)
    requires Level(p, LimiterOf(p, peers, ip, now), now) == Level(p, LimiterOf(p, kept, ip, now), now)
    ensures Granted(p, peers, ip, now) == Granted(p, kept, ip, now)
  {}

  /** For every timed sequence of requests and cleanups, eviction answers as if it never forgot. */
  lemma {:induction false} EvictionInvisible(p: Shield, peers: Peers, kept: Peers, ops: seq<Op>, now: real)
    requires p.rps > 0.0 && p.burst as real <= 60.0 * p.rps
    requires Timed(ops, now) && Alike(p, peers, kept, now)
    ensures Evicting(p, peers, ops) == Keeping(p, kept, ops)
    decreases |ops|
  {
    hide Alike, Granted, Handled, Cleaned;
    if ops != [] {
      AlikeLater(p, peers, kept, now, ops[0].at);
      AlikeStep(p, peers, kept, ops[0]);
      EvictionInvisible(p, Step(p, peers, ops[0]), StepKeeping(p, kept, ops[0]), ops[1..], ops[0].at);
    }
  }

  lemma AlikeStep(p: Shield, peers: Peers, kept: Peers, op: Op)
    requires p.rps > 0.0 && p.burst as real <= 60.0 * p.rps && Alike(p, peers, kept, op.at)
    ensures op.Request? ==> Granted(p, peers, op.ip, op.at) == Granted(p, kept, op.ip, op.at)
    ensures Alike(p, Step(p, peers, op), StepKeeping(p, kept, op), op.at)
  {
    hide Level, LimiterOf, AllSound, Handled, Cleaned, Granted;
    match op
    case Request(ip, now) =>
      GrantedByLevel(p, peers, kept, ip, now);
      HandledSound(p, peers, ip, now);
      HandledSound(p, kept, ip, now);
    case Cleanup(now) =>
      CleanedSound(p, peers, now);
  }

  // ---- What a client can be granted

  /** How many requests of ip are granted. */
  function Grants(p: Shield, peers: Peers, ops: seq<Op>, ip: string): nat
    decreases |ops|
  {
    if ops == [] then 0
    else
      (if ops[0].Request? && ops[0].ip == ip && Granted(p, peers, ip, ops[0].at) then 1 else 0)
      + Grants(p, Step(p, peers, ops[0]), ops[1..], ip)
  }

  lemma Inflow(p: Shield, s: real, t: real)
    requires p.rps > 0.0 && s <= t
    ensures 0.0 <= p.rps * (t - s)
  {}

  /** Whatever the state at time s, up to time t a client is granted at most what it has then and what flows in. */
  lemma {:induction false} GrantsByLevel(p: Shield, peers: Peers, ops: seq<Op>, ip: string, s: real, t: real)
    requires p.rps > 0.0 && 0.0 <= p.burst as real <= 60.0 * p.rps
    requires AllSound(p, peers, s) && Timed(ops, s) && s <= t
    requires forall i :: 0 <= i < |ops| ==> ops[i].at <= t
    ensures Grants(p, peers, ops, ip) as real <= Level(p, LimiterOf(p, peers, ip, s), s) + p.rps * (t - s)
    decreases |ops|
  {
    hide Handled, Cleaned, Granted, Level, LimiterOf, AllSound;
    if ops == [] {
      LevelNonNegative(p, peers, ip, s);
      Inflow(p, s, t);
      assert Grants(p, peers, ops, ip) == 0;
    } else {
      var now := ops[0].at;
      SoundLater(p, peers, s, now);
      LimiterLater(p, peers, ip, s, now);
      match ops[0] {
        case Request(jp, at) => HandledSound(p, peers, jp, now);
        case Cleanup(at) => CleanedSound(p, peers, now);
      }
      GrantsByLevel(p, Step(p, peers, ops[0]), ops[1..], ip, now, t);
      assert p.rps * (t - s) == p.rps * (t - now) + (now - s) * p.rps;
    }
  }

  lemma SoundLater(p: Shield, peers: Peers, now: real, later: real)
    requires AllSound(p, peers, now) && now <= later
    ensures AllSound(p, peers, later)
  {}

  lemma LevelNonNegative(p: Shield, peers: Peers, ip: string, now: real)
    requires p.rps > 0.0 && p.burst >= 0 && AllSound(p, peers, now)
    ensures 0.0 <= Level(p, LimiterOf(p, peers, ip, now), now) <= p.burst as real
  {
    if ip in peers {
      Product(now - peers[ip].bucket.last, p.rps);
    }
  }

  /** In any interval a client is granted at most a burst plus the rate times its length, evictions included. */
  lemma RateBound(p: Shield, peers: Peers, ops: seq<Op>, ip: string, s: real, t: real)
    requires p.rps > 0.0 && 0.0 <= p.burst as real <= 60.0 * p.rps
    requires AllSound(p, peers, s) && Timed(ops, s) && s <= t
    requires forall i :: 0 <= i < |ops| ==> ops[i].at <= t
    ensures Grants(p, peers, ops, ip) as real <= p.burst as real + p.rps * (t - s)
  {
    GrantsByLevel(p, peers, ops, ip, s, t);
    LevelNonNegative(p, peers, ip, s);
  }

  /** The states those laws speak of are the ones a run from the empty map reaches. */
  lemma {:induction false} RunSound(p: Shield, peers: Peers, ops: seq<Op>, now: real) returns (end: real)
    requires p.rps > 0.0 && AllSound(p, peers, now) && Timed(ops, now)
    ensures end == if ops == [] then now else ops[|ops| - 1].at
    ensures AllSound(p, After(p, peers, ops), end)
    decreases |ops|
  {
    hide Handled, Cleaned, AllSound;
    if ops == [] {
      end := now;
    } else {
      SoundLater(p, peers, now, ops[0].at);
      match ops[0] {
        case Request(ip, at) => HandledSound(p, peers, ip, at);
        case Cleanup(at) => CleanedStillSound(p, peers, at);
      }
      end := RunSound(p, Step(p, peers, ops[0]), ops[1..], ops[0].at);
    }
  }

  lemma CleanedStillSound(p: Shield, peers: Peers, now: real)
    requires AllSound(p, peers, now)
    ensures AllSound(p, Cleaned(peers, now), now)
  {}

  function After(p: Shield, peers: Peers, ops: seq<Op>): Peers
    decreases |ops|
  {
    if ops == [] then peers else After(p, Step(p, peers, ops[0]), ops[1..])
  }

  // ---- When the burst outruns a minute of refill

  /** k requests of one client at one moment. */
  function Volley(ip: string, at: real, k: nat): (ops: seq<Op>) {
    if k == 0 then [] else [Request(ip, at)] + Volley(ip, at, k - 1)
  }

  function Trues(k: nat): seq<bool> {
    if k == 0 then [] else [true] + Trues(k - 1)
  }

  lemma {:induction false} VolleyTimed(ip: string, at: real, k: nat, rest: seq<Op>, since: real)
    requires since <= at && Timed(rest, at)
    ensures Timed(Volley(ip, at, k) + rest, since)
    decreases k
  {
    if k == 0 {
      assert Volley(ip, at, k) + rest == rest;
    } else {
      VolleyTimed(ip, at, k - 1, rest, at);
      assert (Volley(ip, at, k) + rest)[1..] == Volley(ip, at, k - 1) + rest;
    }
  }

  /** The map after k grants to ip at one moment, out of a given level. */
  function AfterVolley(peers: Peers, ip: string, level: real, at: real, k: nat): Peers {
    if k == 0 then peers else peers[ip := Entry(Bucket(level - k as real, at), at)]
  }

  lemma GrantOne(p: Shield, peers: Peers, ip: string, at: real)
    requires p.burst >= 1 && Level(p, LimiterOf(p, peers, ip, at), at) >= 1.0
    ensures Granted(p, peers, ip, at)
    ensures Handled(p, peers, ip, at) == AfterVolley(peers, ip, Level(p, LimiterOf(p, peers, ip, at), at), at, 1)
    ensures Level(p, LimiterOf(p, Handled(p, peers, ip, at), ip, at), at) == Level(p, LimiterOf(p, peers, ip, at), at) - 1.0
  {}

  /** With a token for each, a whole volley is granted. */
  lemma {:induction false} VolleyGranted(p: Shield, peers: Peers, ip: string, at: real, k: nat, rest: seq<Op>)
    requires p.burst >= 1 && Level(p, LimiterOf(p, peers, ip, at), at) >= k as real
    ensures var then_ := AfterVolley(peers, ip, Level(p, LimiterOf(p, peers, ip, at), at), at, k);
      && Evicting(p, peers, Volley(ip, at, k) + rest) == Trues(k) + Evicting(p, then_, rest)
      && Keeping(p, peers, Volley(ip, at, k) + rest) == Trues(k) + Keeping(p, then_, rest)
      && Grants(p, peers, Volley(ip, at, k) + rest, ip) == k + Grants(p, then_, rest, ip)
    decreases k
  {
    hide Level, LimiterOf, Granted, Handled, Evicting, Keeping, Grants, AfterVolley;
    var ops := Volley(ip, at, k) + rest;
    var level := Level(p, LimiterOf(p, peers, ip, at), at);
    if k == 0 {
      assert ops == rest;
      NoVolley(peers, ip, level, at);
    } else {
      var next := Handled(p, peers, ip, at);
      GrantOne(p, peers, ip, at);
      VolleyGranted(p, next, ip, at, k - 1, rest);
      assert ops == [Request(ip, at)] + (Volley(ip, at, k - 1) + rest);
      FirstGranted(p, peers, ip, at, Volley(ip, at, k - 1) + rest);
      NextVolley(peers, ip, level, at, k);
    }
  }

  lemma NoVolley(peers: Peers, ip: string, level: real, at: real)
    ensures AfterVolley(peers, ip, level, at, 0) == peers
  {}

  lemma NextVolley(peers: Peers, ip: string, level: real, at: real, k: nat)
    requires k > 0
    ensures AfterVolley(AfterVolley(peers, ip, level, at, 1), ip, level - 1.0, at, k - 1) == AfterVolley(peers, ip, level, at, k)
  {}

  lemma FirstGranted(p: Shield, peers: Peers, ip: string, at: real, rest: seq<Op>)
    requires Granted(p, peers, ip, at)
    ensures Evicting(p, peers, [Request(ip, at)] + rest) == [true] + Evicting(p, Handled(p, peers, ip, at), rest)
    ensures Keeping(p, peers, [Request(ip, at)] + rest) == [true] + Keeping(p, Handled(p, peers, ip, at), rest)
    ensures Grants(p, peers, [Request(ip, at)] + rest, ip) == 1 + Grants(p, Handled(p, peers, ip, at), rest, ip)
  {
    assert ([Request(ip, at)] + rest)[1..] == rest;
  }

  /** Conversely a volley granted in full had a token for each. */
  lemma {:induction false} VolleyNeeds(p: Shield, peers: Peers, ip: string, at: real, k: nat)
    requires p.rps > 0.0 && AllSound(p, peers, at) && k > 0
    requires Keeping(p, peers, Volley(ip, at, k)) == Trues(k)
    ensures Level(p, LimiterOf(p, peers, ip, at), at) >= k as real
    decreases k
  {
    var ops := Volley(ip, at, k);
    assert ops[1..] == Volley(ip, at, k - 1);
    var answers := Keeping(p, peers, ops);
    assert answers[0] == true && answers[1..] == Trues(k - 1);
    assert Granted(p, peers, ip, at);
    HandledSound(p, peers, ip, at);
    if k > 1 {
      assert Keeping(p, Handled(p, peers, ip, at), Volley(ip, at, k - 1)) == answers[1..];
      VolleyNeeds(p, Handled(p, peers, ip, at), ip, at, k - 1);
    }
  }

  /** A volley just before the first tick, that tick, the second one, and a second volley. */
  function Outrun(p: Shield, ip: string, early: real): seq<Op>
    requires p.burst >= 0
  {
    Volley(ip, early, p.burst) + Ticks(Volley(ip, 2.0 * IDLE, p.burst))
  }

  /** Both ticks of the ticker up to the second minute, and then some more. */
  function Ticks(more: seq<Op>): seq<Op> {
    [Cleanup(IDLE), Cleanup(2.0 * IDLE)] + more
  }

  /** The first of the two ticks spares the drained client, the second one takes it. */
  lemma TicksEvict(p: Shield, ip: string, level: real, early: real, more: seq<Op>)
    requires p.burst >= 1 && 0.0 <= early < IDLE
    ensures var drained := AfterVolley(map[], ip, level, early, p.burst);
      && Cleaned(drained, IDLE) == drained
      && Evicting(p, drained, Ticks(more)) == Evicting(p, map[], more)
      && Keeping(p, drained, Ticks(more)) == Keeping(p, drained, more)
      && Grants(p, drained, Ticks(more), ip) == Grants(p, map[], more, ip)
  {
    var drained: Peers := AfterVolley(map[], ip, level, early, p.burst);
    var ops := Ticks(more);
    assert ops[1..][1..] == more;
    assert ops[0] == Cleanup(IDLE) && ops[1..][0] == Cleanup(2.0 * IDLE);
    assert Cleaned(drained, IDLE) == drained;
    assert Cleaned(drained, 2.0 * IDLE) == map[];
  }

  /** The evicting map grants both volleys in full. */
  lemma OutrunEvicting(p: Shield, ip: string, early: real)
    requires p.rps > 0.0 && p.burst >= 1 && 0.0 <= early < IDLE
    ensures Evicting(p, map[], Outrun(p, ip, early)) == Trues(p.burst) + Trues(p.burst)
    ensures Grants(p, map[], Outrun(p, ip, early), ip) == 2 * p.burst
  {
    hide Ticks, AfterVolley;
    var b, second := p.burst, Volley(ip, 2.0 * IDLE, p.burst);
    VolleyGranted(p, map[], ip, early, b, Ticks(second));
    TicksEvict(p, ip, b as real, early, second);
    VolleyGranted(p, map[], ip, 2.0 * IDLE, b, []);
    assert second + [] == second;
  }

  lemma DrainedLevel(p: Shield, ip: string, early: real)
    requires p.rps > 0.0 && p.burst >= 1 && early < IDLE
    requires (2.0 * IDLE - early) * p.rps < p.burst as real
    ensures var drained: Peers := AfterVolley(map[], ip, p.burst as real, early, p.burst);
      && AllSound(p, drained, 2.0 * IDLE)
      && Level(p, LimiterOf(p, drained, ip, 2.0 * IDLE), 2.0 * IDLE) < p.burst as real
  {}

  /** The map that never evicts does not, when the burst is more than flows in between. */
  lemma OutrunKeeping(p: Shield, ip: string, early: real)
    requires p.rps > 0.0 && p.burst >= 1 && 0.0 <= early < IDLE
    requires (2.0 * IDLE - early) * p.rps < p.burst as real
    ensures Keeping(p, map[], Outrun(p, ip, early)) != Trues(p.burst) + Trues(p.burst)
  {
    var b, second := p.burst, Volley(ip, 2.0 * IDLE, p.burst);
    VolleyGranted(p, map[], ip, early, b, Ticks(second));
    var drained: Peers := AfterVolley(map[], ip, b as real, early, b);
    TicksEvict(p, ip, b as real, early, second);
    DrainedLevel(p, ip, early);
    hide AfterVolley, Level, LimiterOf, Volley, Ticks;
    if Keeping(p, map[], Outrun(p, ip, early)) == Trues(b) + Trues(b) {
      assert Keeping(p, drained, second) == (Trues(b) + Trues(b))[|Trues(b)|..] == Trues(b);
      VolleyNeeds(p, drained, ip, 2.0 * IDLE, b);
      assert false;
    }
  }

  /** How early the first volley must be for less than a burst to flow in before the second. */
  lemma Early(p: Shield) returns (early: real)
    requires p.rps > 0.0 && p.burst as real > 60.0 * p.rps
    ensures 0.0 <= early < IDLE && (2.0 * IDLE - early) * p.rps < p.burst as real
  {
    var spare := p.burst as real / p.rps - IDLE;
    assert spare * p.rps == p.burst as real - 60.0 * p.rps;
    assert spare > 0.0;
    var margin := Min(spare / 2.0, IDLE);
    early := IDLE - margin;
    assert (spare - margin) * p.rps > 0.0;
    assert (2.0 * IDLE - early) * p.rps == 60.0 * p.rps + margin * p.rps;
    assert (spare - margin) * p.rps == spare * p.rps - margin * p.rps;
  }

  /** Eviction is invisible to every timed sequence exactly when a minute refills a burst. */
  lemma EvictionInvisibleIff(p: Shield)
    requires p.rps > 0.0
    ensures (forall ops :: Timed(ops, 0.0) ==> Evicting(p, map[], ops) == Keeping(p, map[], ops))
       <==> p.burst as real <= 60.0 * p.rps
  {
    if p.burst as real <= 60.0 * p.rps {
      forall ops | Timed(ops, 0.0) ensures Evicting(p, map[], ops) == Keeping(p, map[], ops) {
        EvictionInvisible(p, map[], map[], ops, 0.0);
      }
    } else {
      var early := Early(p);
      OutrunEvicting(p, "", early);
      OutrunKeeping(p, "", early);
      OutrunTimed(p, "", early);
    }
  }

  lemma OutrunTimed(p: Shield, ip: string, early: real)
    requires p.burst >= 0 && 0.0 <= early < IDLE
    ensures Timed(Outrun(p, ip, early), 0.0)
    ensures Within(Outrun(p, ip, early), early, 2.0 * IDLE)
  {
    var end := 2.0 * IDLE;
    var second := Volley(ip, end, p.burst);
    VolleyTimed(ip, end, p.burst, [], end);
    assert second + [] == second;
    var rest := Ticks(second);
    assert rest[1..][1..] == second;
    assert rest[0] == Cleanup(IDLE) && rest[1..][0] == Cleanup(end);
    VolleyTimed(ip, early, p.burst, rest, 0.0);
    VolleyAt(ip, end, p.burst);
    VolleyAt(ip, early, p.burst);
  }

  lemma {:induction false} VolleyAt(ip: string, at: real, k: nat)
    ensures forall i :: 0 <= i < |Volley(ip, at, k)| ==> Volley(ip, at, k)[i].at == at
  {
    if k > 0 {
      VolleyAt(ip, at, k - 1);
    }
  }

  // ---- The rate bound in the middle of a run

  /** All of ops happen in [s, t]. */
  predicate Within(ops: seq<Op>, s: real, t: real) {
    forall i :: 0 <= i < |ops| ==> s <= ops[i].at <= t
  }

  /**
   * Of a run from the empty map, mid is what happens in the interval [s, t]: it is granted no more than
   * a burst and what flows in.
   */
  ghost predicate Bounded(p: Shield, pre: seq<Op>, mid: seq<Op>, ip: string, s: real, t: real) {
    Timed(pre + mid, 0.0) && s <= t && Within(mid, s, t) ==>
      Grants(p, After(p, map[], pre), mid, ip) as real <= p.burst as real + p.rps * (t - s)
  }

  lemma {:induction false} TimedSplit(pre: seq<Op>, mid: seq<Op>, since: real)
    requires Timed(pre + mid, since) && mid != []
    ensures Timed(pre, since) && Timed(mid, mid[0].at)
    ensures (if pre == [] then since else pre[|pre| - 1].at) <= mid[0].at
    decreases |pre|
  {
    if pre == [] {
      assert pre + mid == mid;
    } else {
      assert (pre + mid)[1..] == pre[1..] + mid;
      TimedSplit(pre[1..], mid, pre[0].at);
    }
  }

  lemma AlwaysBounded(p: Shield, pre: seq<Op>, mid: seq<Op>, ip: string, s: real, t: real)
    requires p.rps > 0.0 && 0.0 <= p.burst as real <= 60.0 * p.rps
    requires Timed(pre + mid, 0.0) && s <= t && Within(mid, s, t)
    ensures Grants(p, After(p, map[], pre), mid, ip) as real <= p.burst as real + p.rps * (t - s)
  {
    hide AllSound, After, Timed, Grants;
    if mid == [] {
      NothingGranted(p, After(p, map[], pre), ip, s, t);
    } else {
      SoundAtFirst(p, pre, mid);
      BoundedFromFirst(p, After(p, map[], pre), mid, ip, s, t);
    }
  }

  lemma NothingGranted(p: Shield, peers: Peers, ip: string, s: real, t: real)
    requires p.rps > 0.0 && p.burst >= 0 && s <= t
    ensures Grants(p, peers, [], ip) as real <= p.burst as real + p.rps * (t - s)
  {
    assert Grants(p, peers, [], ip) == 0;
    Inflow(p, s, t);
  }

  lemma BoundedFromFirst(p: Shield, peers: Peers, mid: seq<Op>, ip: string, s: real, t: real)
    requires p.rps > 0.0 && 0.0 <= p.burst as real <= 60.0 * p.rps
    requires mid != [] && AllSound(p, peers, mid[0].at) && Timed(mid, mid[0].at) && Within(mid, s, t)
    ensures Grants(p, peers, mid, ip) as real <= p.burst as real + p.rps * (t - s)
  {
    hide AllSound, Timed, Grants;
    var first := mid[0].at;
    RateBound(p, peers, mid, ip, first, t);
    LongerFlow(p, s, first, t);
  }

  lemma SoundAtFirst(p: Shield, pre: seq<Op>, mid: seq<Op>)
    requires p.rps > 0.0 && Timed(pre + mid, 0.0) && mid != []
    ensures AllSound(p, After(p, map[], pre), mid[0].at) && Timed(mid, mid[0].at)
  {
    hide AllSound, After, Timed;
    TimedSplit(pre, mid, 0.0);
    EmptySound(p, 0.0);
    var end := RunSound(p, map[], pre, 0.0);
    SoundLater(p, After(p, map[], pre), end, mid[0].at);
  }

  lemma LongerFlow(p: Shield, s: real, first: real, t: real)
    requires p.rps > 0.0 && s <= first
    ensures p.rps * (t - first) <= p.rps * (t - s)
  {
    var d := first - s;
    Product(p.rps, d);
    assert p.rps * (t - s) == p.rps * (t - first) + p.rps * (first - s);
  }

  lemma EmptyRun(p: Shield)
    ensures After(p, map[], []) == map[]
  {}

  lemma EmptySound(p: Shield, now: real)
    ensures AllSound(p, map[], now)
  {}

  /** In any interval of any run the rate bound holds of the evicting map exactly under that condition. */
  lemma RateBoundIff(p: Shield)
    requires p.rps > 0.0 && p.burst >= 0
    ensures (forall pre: seq<Op>, mid: seq<Op>, ip, s, t :: Bounded(p, pre, mid, ip, s, t)) <==>
      p.burst as real <= 60.0 * p.rps
  {
    hide Timed, Within, Grants, After, Outrun;
    if p.burst as real <= 60.0 * p.rps {
      forall pre: seq<Op>, mid: seq<Op>, ip, s, t ensures Bounded(p, pre, mid, ip, s, t) {
        if Timed(pre + mid, 0.0) && s <= t && Within(mid, s, t) {
          AlwaysBounded(p, pre, mid, ip, s, t);
        }
      }
    } else {
      var early := Early(p);
      var ops := Outrun(p, "", early);
      OutrunEvicting(p, "", early);
      OutrunTimed(p, "", early);
      EmptyRun(p);
      assert [] + ops == ops;
      assert !Bounded(p, [], ops, "", early, 2.0 * IDLE);
    }
  }
}
