/** The traffic aggregator and the analysis rounds that decide when its baseline moves. */
module Oracle {

  /** Cumulative counters of one gate. */
  datatype Metrics = Metrics(gate: string, reqTotal: nat, errTotal: nat, p95Ms: real)

  datatype Snapshot = Snapshot(
    gate: string, reqPerSec: real, errorRate: real, p95Ms: real,
    reqDelta: real, errDelta: real, p95Delta: real,
    rawReqTotal: nat, rawErrTotal: nat)

  /** Thresholds of zero or less are off. */
  datatype Config = Config(intervalSeconds: int, errorRateThreshold: real, p95LatencyThreshold: real)

  /** Snapshots by gate; a repeated gate keeps its last one. */
  function ByGate(snaps: seq<Snapshot>): map<string, Snapshot> {
    if snaps == [] then map[]
    else var n := |snaps| - 1; ByGate(snaps[..n])[snaps[n].gate := snaps[n]]
  }

  /** An interval that divides. */
  function Effective(seconds: real): (r: real)
    ensures r > 0.0
  {
    if seconds <= 0.0 then 1.0 else seconds
  }

  function Since(now: nat, before: nat): nat {
    if now < before then 0 else now - before
  }

  /** Errors per request; no requests make no errors. */
  function Ratio(errs: nat, reqs: nat): real {
    if reqs > 0 then errs as real / reqs as real else 0.0
  }

  function SnapshotOf(cur: Metrics, prev: map<string, Snapshot>, seconds: real): Snapshot
    requires seconds > 0.0
  {
    var known := cur.gate in prev;
    var reqs := if known then Since(cur.reqTotal, prev[cur.gate].rawReqTotal) else cur.reqTotal;
    var errs := if known then Since(cur.errTotal, prev[cur.gate].rawErrTotal) else cur.errTotal;
    var rate := reqs as real / seconds;
    var errorRate := Ratio(errs, reqs);
    Snapshot(cur.gate, rate, errorRate, cur.p95Ms,
             if known then rate - prev[cur.gate].reqPerSec else 0.0,
             if known then errorRate - prev[cur.gate].errorRate else 0.0,
             if known then cur.p95Ms - prev[cur.gate].p95Ms else 0.0,
             cur.reqTotal, cur.errTotal)
  }

  function SnapshotsOf(current: seq<Metrics>, prev: map<string, Snapshot>, seconds: real): (snaps: seq<Snapshot>)
    requires seconds > 0.0
    ensures |snaps| == |current|
  {
    if current == [] then []
    else
      var n := |current| - 1;
      SnapshotsOf(current[..n], prev, seconds) + [SnapshotOf(current[n], prev, seconds)]
  }

  /** Entry j is the last one for a gate. */
  ghost predicate LastFor(snaps: seq<Snapshot>, gate: string, j: int) {
    0 <= j < |snaps| && snaps[j].gate == gate && forall l :: j < l < |snaps| ==> snaps[l].gate != gate
  }

  /** The rates of a snapshot are those of so many requests and errors in so many seconds. */
  ghost predicate RatesOf(snap: Snapshot, reqs: int, errs: int, seconds: real) {
    && snap.reqPerSec * seconds == reqs as real
    && snap.errorRate * reqs as real == (if reqs > 0 then errs as real else 0.0)
    && (reqs == 0 ==> snap.errorRate == 0.0)
  }

  /** Snap is what reading cur says against the previous snapshots: nothing is divided, nothing is looked up. */
  ghost predicate Describes(snap: Snapshot, cur: Metrics, prev: seq<Snapshot>, seconds: real) {
    && snap.gate == cur.gate && snap.p95Ms == cur.p95Ms
    && snap.rawReqTotal == cur.reqTotal && snap.rawErrTotal == cur.errTotal
    && ((forall j :: 0 <= j < |prev| ==> prev[j].gate != cur.gate) ==>
          && RatesOf(snap, cur.reqTotal, cur.errTotal, seconds)
          && snap.reqDelta == 0.0 && snap.errDelta == 0.0 && snap.p95Delta == 0.0)
    && (forall j :: LastFor(prev, cur.gate, j) ==>
          && RatesOf(snap,
                     if cur.reqTotal < prev[j].rawReqTotal then 0 else cur.reqTotal - prev[j].rawReqTotal,
                     if cur.errTotal < prev[j].rawErrTotal then 0 else cur.errTotal - prev[j].rawErrTotal,
                     seconds)
          && snap.reqDelta == snap.reqPerSec - prev[j].reqPerSec
          && snap.errDelta == snap.errorRate - prev[j].errorRate
          && snap.p95Delta == snap.p95Ms - prev[j].p95Ms)
  }

  ghost predicate DescribesAll(snaps: seq<Snapshot>, current: seq<Metrics>, prev: seq<Snapshot>, seconds: real) {
    |snaps| == |current| && forall i :: 0 <= i < |snaps| ==> Describes(snaps[i], current[i], prev, seconds)
  }

  lemma {:induction false} ByGateLast(snaps: seq<Snapshot>, gate: string)
    ensures gate !in ByGate(snaps) <==> forall j :: 0 <= j < |snaps| ==> snaps[j].gate != gate
    ensures forall j :: LastFor(snaps, gate, j) ==> gate in ByGate(snaps) && ByGate(snaps)[gate] == snaps[j]
  {
    if snaps != [] {
      var n := |snaps| - 1;
      ByGateLast(snaps[..n], gate);
      if snaps[n].gate != gate {
        forall j | LastFor(snaps, gate, j) ensures LastFor(snaps[..n], gate, j) {}
      }
    }
  }

  lemma SnapshotRates(cur: Metrics, prev: map<string, Snapshot>, seconds: real)
    requires seconds > 0.0
    ensures var known := cur.gate in prev;
      RatesOf(SnapshotOf(cur, prev, seconds),
              if !known then cur.reqTotal
              else if cur.reqTotal < prev[cur.gate].rawReqTotal then 0 else cur.reqTotal - prev[cur.gate].rawReqTotal,
              if !known then cur.errTotal
              else if cur.errTotal < prev[cur.gate].rawErrTotal then 0 else cur.errTotal - prev[cur.gate].rawErrTotal,
              seconds)
  {
    var reqs := if cur.gate in prev then Since(cur.reqTotal, prev[cur.gate].rawReqTotal) else cur.reqTotal;
    var errs := if cur.gate in prev then Since(cur.errTotal, prev[cur.gate].rawErrTotal) else cur.errTotal;
    hide Ratio;
    DivideBack(reqs as real, seconds);
    RatioBack(errs, reqs);
  }

  lemma SnapshotDescribes(cur: Metrics, prev: seq<Snapshot>, seconds: real)
    requires seconds > 0.0
    ensures Describes(SnapshotOf(cur, ByGate(prev), seconds), cur, prev, seconds)
  {
    hide RatesOf, ByGate;
    ByGateLast(prev, cur.gate);
    SnapshotRates(cur, ByGate(prev), seconds);
  }

  lemma {:induction false} SnapshotsDescribe(current: seq<Metrics>, prev: seq<Snapshot>, seconds: real)
    requires seconds > 0.0
    ensures DescribesAll(SnapshotsOf(current, ByGate(prev), seconds), current, prev, seconds)
  {
    hide Describes, SnapshotOf;
    if current != [] {
      var n := |current| - 1;
      SnapshotsDescribe(current[..n], prev, seconds);
      SnapshotDescribes(current[n], prev, seconds);
    }
  }

  /**
   * One snapshot per gate in order, against the last known one of the same gate; counter resets count
   * as no traffic.
   */
  method BuildSnapshot(current: seq<Metrics>, prev: seq<Snapshot>, intervalSecs: real) returns (snaps: seq<Snapshot>)
    ensures snaps == SnapshotsOf(current, ByGate(prev), Effective(intervalSecs))
    ensures DescribesAll(snaps, current, prev, if intervalSecs > 0.0 then intervalSecs else 1.0)
  {
    var prevMap: map<string, Snapshot> := map[];
    for i := 0 to |prev|
      invariant prevMap == ByGate(prev[..i])
    {
      assert prev[..i + 1][..i] == prev[..i];
      prevMap := prevMap[prev[i].gate := prev[i]];
    }
    assert prev[..|prev|] == prev;
    var seconds := intervalSecs;
    if seconds <= 0.0 {
      seconds := 1.0;
    }
    snaps := [];
    for i := 0 to |current|
      invariant snaps == SnapshotsOf(current[..i], prevMap, seconds)
    {
      assert current[..i + 1][..i] == current[..i];
      var cur := current[i];
      var deltaReq, deltaErr := cur.reqTotal as int, cur.errTotal as int;
      if cur.gate in prevMap {
        deltaReq := cur.reqTotal - prevMap[cur.gate].rawReqTotal;
        deltaErr := cur.errTotal - prevMap[cur.gate].rawErrTotal;
        if deltaReq < 0 {
          deltaReq := 0;
        }
        if deltaErr < 0 {
          deltaErr := 0;
        }
      }
      var rate := deltaReq as real / seconds;
      var errorRate := 0.0;
      if deltaReq > 0 {
        errorRate := deltaErr as real / deltaReq as real;
      }
      var reqDelta, errDelta, p95Delta := 0.0, 0.0, 0.0;
      if cur.gate in prevMap {
        var p := prevMap[cur.gate];
        reqDelta, errDelta, p95Delta := rate - p.reqPerSec, errorRate - p.errorRate, cur.p95Ms - p.p95Ms;
      }
      snaps := snaps + [Snapshot(cur.gate, rate, errorRate, cur.p95Ms, reqDelta, errDelta, p95Delta,
                                 cur.reqTotal, cur.errTotal)];
    }
    assert current[..|current|] == current;
    SnapshotsDescribe(current, prev, seconds);
  }

  // ---- Rounds

  /** The baseline: the snapshots of the last successful round and when it ended. */
  datatype State = State(lastSnaps: seq<Snapshot>, lastCall: real)

  /** One analysis: when it starts, decides and ends, what it reads, and whether the model answers. */
  datatype Round = Round(start: real, decides: real, ends: real, current: seq<Metrics>, answered: bool)

  /** The time since the baseline; the configured interval when no time has passed, and a second at the least. */
  function Seconds(cfg: Config, s: State, r: Round): (seconds: real)
    ensures r.start > s.lastCall ==> seconds == r.start - s.lastCall
    ensures r.start <= s.lastCall && cfg.intervalSeconds > 0 ==> seconds == cfg.intervalSeconds as real
    ensures r.start <= s.lastCall && cfg.intervalSeconds <= 0 ==> seconds == 1.0
  {
    var elapsed := r.start - s.lastCall;
    Effective(if elapsed <= 0.0 then cfg.intervalSeconds as real else elapsed)
  }

  predicate Breaches(cfg: Config, snap: Snapshot) {
    || (cfg.errorRateThreshold > 0.0 && snap.errorRate > cfg.errorRateThreshold)
    || (cfg.p95LatencyThreshold > 0.0 && snap.p95Ms > cfg.p95LatencyThreshold)
  }

  predicate Due(cfg: Config, s: State, snaps: seq<Snapshot>, now: real) {
    || now - s.lastCall >= cfg.intervalSeconds as real
    || exists i :: 0 <= i < |snaps| && Breaches(cfg, snaps[i])
  }

  function Built(cfg: Config, s: State, r: Round): seq<Snapshot> {
    SnapshotsOf(r.current, ByGate(s.lastSnaps), Seconds(cfg, s, r))
  }

  /** A round that is skipped or gets no answer leaves the baseline alone. */
  predicate Succeeds(cfg: Config, s: State, r: Round) {
    Due(cfg, s, Built(cfg, s, r), r.decides) && r.answered
  }

  function Analyzed(cfg: Config, s: State, r: Round): State {
    if Succeeds(cfg, s, r) then State(Built(cfg, s, r), r.ends) else s
  }

  /** A configured interval of zero means five minutes. */
  function Adjusted(cfg: Config): Config {
    if cfg.intervalSeconds == 0 then cfg.(intervalSeconds := 300) else cfg
  }

  class Oracle {
    const cfg: Config
    var lastSnaps: seq<Snapshot>
    var lastCall: real

    function View(): State
      reads this
    {
      State(lastSnaps, lastCall)
    }

    /** Never is the time no call has been made at. */
    constructor (cfg: Config, never: real)
      ensures this.cfg == Adjusted(cfg)
      ensures this.cfg == if cfg.intervalSeconds == 0 then cfg.(intervalSeconds := 300) else cfg
      ensures View() == State([], never) && lastSnaps == [] && lastCall == never
    {
      this.cfg := Adjusted(cfg);
      lastSnaps, lastCall := [], never;
    }

    /** Enough time has passed, or some gate breaches a threshold that is on. */
    method ShouldCall(snaps: seq<Snapshot>, now: real) returns (call: bool)
      ensures call == Due(cfg, View(), snaps, now)
      ensures call <==>
        || now - lastCall >= cfg.intervalSeconds as real
        || exists i :: 0 <= i < |snaps| &&
             (  (cfg.errorRateThreshold > 0.0 && snaps[i].errorRate > cfg.errorRateThreshold)
             || (cfg.p95LatencyThreshold > 0.0 && snaps[i].p95Ms > cfg.p95LatencyThreshold))
    {
      if now - lastCall >= cfg.intervalSeconds as real {
        return true;
      }
      for i := 0 to |snaps|
        invariant forall j :: 0 <= j < i ==> !Breaches(cfg, snaps[j])
      {
        if cfg.errorRateThreshold > 0.0 && snaps[i].errorRate > cfg.errorRateThreshold {
          return true;
        }
        if cfg.p95LatencyThreshold > 0.0 && snaps[i].p95Ms > cfg.p95LatencyThreshold {
          return true;
        }
      }
      return false;
    }

    /**
     * Snaps, which the model is shown, describes the reading against the baseline, over the time since the last success when some has
     * passed. A round that is due and answered makes it the new baseline; any other leaves the old one.
     */
    method Analyze(r: Round) returns (called: bool, snaps: seq<Snapshot>)
      modifies this
      ensures DescribesAll(snaps, r.current, old(lastSnaps),
                           if r.start > old(lastCall) then r.start - old(lastCall)
                           else if cfg.intervalSeconds > 0 then cfg.intervalSeconds as real else 1.0)
      ensures called <==>
        || r.decides - old(lastCall) >= cfg.intervalSeconds as real
        || exists i :: 0 <= i < |snaps| &&
             (  (cfg.errorRateThreshold > 0.0 && snaps[i].errorRate > cfg.errorRateThreshold)
             || (cfg.p95LatencyThreshold > 0.0 && snaps[i].p95Ms > cfg.p95LatencyThreshold))
      ensures called && r.answered ==> lastSnaps == snaps && lastCall == r.ends
      ensures !(called && r.answered) ==> lastSnaps == old(lastSnaps) && lastCall == old(lastCall)
      ensures View() == Analyzed(cfg, old(View()), r)
      ensures called == Due(cfg, old(View()), Built(cfg, old(View()), r), r.decides)
    {
      hide DescribesAll, SnapshotsOf, ByGate, Breaches;
      var interval := r.start - lastCall;
      if interval <= 0.0 {
        interval := cfg.intervalSeconds as real;
      }
      snaps := BuildSnapshot(r.current, lastSnaps, interval);
      called := ShouldCall(snaps, r.decides);
      if !called || !r.answered {
        return;
      }
      lastCall := r.ends;
      lastSnaps := snaps;
    }
  }

  /** There is no oracle when it is disabled or has no key. */
  method New(enabled: bool, apiKey: string, cfg: Config, never: real) returns (o: Oracle?)
    ensures o == null <==> !enabled || apiKey == ""
    ensures o != null ==> fresh(o) && o.cfg == Adjusted(cfg) && o.View() == State([], never)
  {
    if !enabled || apiKey == "" {
      return null;
    }
    o := new Oracle(cfg, never);
  }

  // ---- No request lost or counted twice

  /** The counter of a gate in a reading, the last one if repeated; a gate that is missing reads 0. */
  function Reading(current: seq<Metrics>, gate: string): nat {
    if current == [] then 0
    else
      var n := |current| - 1;
      if current[n].gate == gate then current[n].reqTotal else Reading(current[..n], gate)
  }

  /** The counter the next round will subtract. */
  function Baseline(s: State, gate: string): nat {
    var m := ByGate(s.lastSnaps);
    if gate in m then m[gate].rawReqTotal else 0
  }

  function Rate(snaps: seq<Snapshot>, gate: string): real {
    var m := ByGate(snaps);
    if gate in m then m[gate].reqPerSec else 0.0
  }

  function After(cfg: Config, s: State, rounds: seq<Round>): State
    decreases |rounds|
  {
    if rounds == [] then s else After(cfg, Analyzed(cfg, s, rounds[0]), rounds[1..])
  }

  /** What one round reports: its rate times the interval it was taken over. */
  function RoundReport(cfg: Config, s: State, r: Round, gate: string): real {
    Rate(Built(cfg, s, r), gate) * Seconds(cfg, s, r)
  }

  /** Requests accounted for by the successful rounds. */
  function Reported(cfg: Config, s: State, rounds: seq<Round>, gate: string): real
    decreases |rounds|
  {
    if rounds == [] then 0.0
    else
      (if Succeeds(cfg, s, rounds[0]) then RoundReport(cfg, s, rounds[0], gate) else 0.0)
      + Reported(cfg, Analyzed(cfg, s, rounds[0]), rounds[1..], gate)
  }

  /** How far the counter stepped back in all at successful rounds. */
  function SteppedBack(cfg: Config, s: State, rounds: seq<Round>, gate: string): nat
    decreases |rounds|
  {
    if rounds == [] then 0
    else
      (if Succeeds(cfg, s, rounds[0]) then Since(Baseline(s, gate), Reading(rounds[0].current, gate)) else 0)
      + SteppedBack(cfg, Analyzed(cfg, s, rounds[0]), rounds[1..], gate)
  }

  /** No successful round reads less than the one before. */
  predicate Monotone(cfg: Config, s: State, rounds: seq<Round>, gate: string)
    decreases |rounds|
  {
    rounds != [] ==>
      && (Succeeds(cfg, s, rounds[0]) ==> Reading(rounds[0].current, gate) >= Baseline(s, gate))
      && Monotone(cfg, Analyzed(cfg, s, rounds[0]), rounds[1..], gate)
  }

  lemma {:induction false} BuiltByGate(current: seq<Metrics>, prev: map<string, Snapshot>, seconds: real, gate: string)
    requires seconds > 0.0
    ensures var m := ByGate(SnapshotsOf(current, prev, seconds));
      var before := if gate in prev then prev[gate].rawReqTotal else 0;
      if gate in m then
        && m[gate].rawReqTotal == Reading(current, gate)
        && m[gate].reqPerSec == Since(Reading(current, gate), before) as real / seconds
      else Reading(current, gate) == 0
  {
    if current != [] {
      var n := |current| - 1;
      var snaps := SnapshotsOf(current, prev, seconds);
      BuiltByGate(current[..n], prev, seconds, gate);
      assert snaps[..n] == SnapshotsOf(current[..n], prev, seconds) && snaps[n] == SnapshotOf(current[n], prev, seconds);
    }
  }

  /** What one successful round reports and where it leaves the baseline. */
  lemma RoundReports(cfg: Config, s: State, r: Round, gate: string)
    ensures RoundReport(cfg, s, r, gate) == Since(Reading(r.current, gate), Baseline(s, gate)) as real
    ensures Succeeds(cfg, s, r) ==> Baseline(Analyzed(cfg, s, r), gate) == Reading(r.current, gate)
  {
    hide *;
    ReportIs(cfg, s, r, gate);
    SecondsPositive(cfg, s, r);
    RoundRate(cfg, s, r, gate);
    DivideBack(Since(Reading(r.current, gate), Baseline(s, gate)) as real, Seconds(cfg, s, r));
  }

  lemma ReportIs(cfg: Config, s: State, r: Round, gate: string)
    ensures RoundReport(cfg, s, r, gate) == Rate(Built(cfg, s, r), gate) * Seconds(cfg, s, r)
  {
    hide Rate, Built, Seconds;
  }

  lemma RoundRate(cfg: Config, s: State, r: Round, gate: string)
    requires Seconds(cfg, s, r) > 0.0
    ensures Rate(Built(cfg, s, r), gate) == Since(Reading(r.current, gate), Baseline(s, gate)) as real / Seconds(cfg, s, r)
    ensures Succeeds(cfg, s, r) ==> Baseline(Analyzed(cfg, s, r), gate) == Reading(r.current, gate)
  {
    hide SnapshotsOf, Seconds, Succeeds;
    BuiltByGate(r.current, ByGate(s.lastSnaps), Seconds(cfg, s, r), gate);
  }

  lemma SecondsPositive(cfg: Config, s: State, r: Round)
    ensures Seconds(cfg, s, r) > 0.0
  {}

  lemma DivideBack(x: real, y: real)
    requires y > 0.0
    ensures x / y * y == x
  {}

  /** Over any rounds, what is reported is how far the baseline moved plus all it ever stepped back. */
  lemma {:induction false} RequestsAccounted(cfg: Config, s: State, rounds: seq<Round>, gate: string)
    ensures Reported(cfg, s, rounds, gate)
         == (Baseline(After(cfg, s, rounds), gate) - Baseline(s, gate) + SteppedBack(cfg, s, rounds, gate)) as real
    decreases |rounds|
  {
    hide RoundReport, Rate, Built, Baseline, Reading, Seconds, Analyzed, Succeeds;
    if rounds != [] {
      RoundReports(cfg, s, rounds[0], gate);
      AnalyzedIf(cfg, s, rounds[0]);
      RequestsAccounted(cfg, Analyzed(cfg, s, rounds[0]), rounds[1..], gate);
    }
  }

  lemma AnalyzedIf(cfg: Config, s: State, r: Round)
    ensures !Succeeds(cfg, s, r) ==> Analyzed(cfg, s, r) == s
  {}

  lemma {:induction false} MonotoneIff(cfg: Config, s: State, rounds: seq<Round>, gate: string)
    ensures Monotone(cfg, s, rounds, gate) <==> SteppedBack(cfg, s, rounds, gate) == 0
    decreases |rounds|
  {
    hide Baseline, Reading, Analyzed, Succeeds;
    if rounds != [] {
      MonotoneIff(cfg, Analyzed(cfg, s, rounds[0]), rounds[1..], gate);
    }
  }

  /**
   * From the first round on, the reports add up to the counter at the last success exactly when no
   * success read less than the one before.
   */
  lemma NoRequestLostIff(cfg: Config, never: real, rounds: seq<Round>, gate: string)
    ensures var s := State([], never);
      Reported(cfg, s, rounds, gate) == Baseline(After(cfg, s, rounds), gate) as real <==> Monotone(cfg, s, rounds, gate)
  {
    RequestsAccounted(cfg, State([], never), rounds, gate);
    MonotoneIff(cfg, State([], never), rounds, gate);
  }

  // ---- Error rates and deltas

  function ErrorReading(current: seq<Metrics>, gate: string): nat {
    if current == [] then 0
    else
      var n := |current| - 1;
      if current[n].gate == gate then current[n].errTotal else ErrorReading(current[..n], gate)
  }

  function ErrorBaseline(s: State, gate: string): nat {
    var m := ByGate(s.lastSnaps);
    if gate in m then m[gate].rawErrTotal else 0
  }

  /** The three figures of a gate whose changes are reported. */
  datatype Figures = Figures(reqPerSec: real, errorRate: real, p95Ms: real) {
    function Plus(f: Figures): Figures {
      Figures(reqPerSec + f.reqPerSec, errorRate + f.errorRate, p95Ms + f.p95Ms)
    }

    function Minus(f: Figures): Figures {
      Figures(reqPerSec - f.reqPerSec, errorRate - f.errorRate, p95Ms - f.p95Ms)
    }
  }

  const NOTHING: Figures := Figures(0.0, 0.0, 0.0)

  function FiguresOf(snaps: seq<Snapshot>, gate: string): Figures {
    var m := ByGate(snaps);
    if gate in m then Figures(m[gate].reqPerSec, m[gate].errorRate, m[gate].p95Ms) else NOTHING
  }

  function ChangesOf(snaps: seq<Snapshot>, gate: string): Figures {
    var m := ByGate(snaps);
    if gate in m then Figures(m[gate].reqDelta, m[gate].errDelta, m[gate].p95Delta) else NOTHING
  }

  lemma {:induction false} BuiltFigures(current: seq<Metrics>, prev: map<string, Snapshot>, seconds: real, gate: string)
    requires seconds > 0.0 && gate in ByGate(SnapshotsOf(current, prev, seconds))
    ensures var snaps := SnapshotsOf(current, prev, seconds);
      var before := if gate in prev then (prev[gate].rawReqTotal, prev[gate].rawErrTotal) else (0, 0);
      var reqs, errs := Since(Reading(current, gate), before.0), Since(ErrorReading(current, gate), before.1);
      && ByGate(snaps)[gate].rawErrTotal == ErrorReading(current, gate)
      && FiguresOf(snaps, gate).errorRate == Ratio(errs, reqs)
      && ChangesOf(snaps, gate) ==
         if gate in prev
         then FiguresOf(snaps, gate).Minus(Figures(prev[gate].reqPerSec, prev[gate].errorRate, prev[gate].p95Ms))
         else NOTHING
  {
    var n := |current| - 1;
    var snaps := SnapshotsOf(current, prev, seconds);
    assert snaps[..n] == SnapshotsOf(current[..n], prev, seconds) && snaps[n] == SnapshotOf(current[n], prev, seconds);
    if current[n].gate != gate {
      BuiltFigures(current[..n], prev, seconds, gate);
    }
  }

  /** A round's error rate times its requests is the errors since the baseline; without requests it is zero. */
  lemma ErrorRateReports(cfg: Config, s: State, r: Round, gate: string)
    requires gate in ByGate(Built(cfg, s, r))
    ensures var reqs := Since(Reading(r.current, gate), Baseline(s, gate));
      FiguresOf(Built(cfg, s, r), gate).errorRate * reqs as real
      == if reqs > 0 then Since(ErrorReading(r.current, gate), ErrorBaseline(s, gate)) as real else 0.0
  {
    hide *;
    ErrorRateIs(cfg, s, r, gate);
    RatioBack(Since(ErrorReading(r.current, gate), ErrorBaseline(s, gate)),
              Since(Reading(r.current, gate), Baseline(s, gate)));
  }

  lemma ErrorRateIs(cfg: Config, s: State, r: Round, gate: string)
    requires gate in ByGate(Built(cfg, s, r))
    ensures FiguresOf(Built(cfg, s, r), gate).errorRate
         == Ratio(Since(ErrorReading(r.current, gate), ErrorBaseline(s, gate)), Since(Reading(r.current, gate), Baseline(s, gate)))
  {
    hide SnapshotsOf, Seconds, Ratio;
    SecondsPositive(cfg, s, r);
    BuiltFigures(r.current, ByGate(s.lastSnaps), Seconds(cfg, s, r), gate);
  }

  lemma RatioBack(errs: nat, reqs: nat)
    ensures Ratio(errs, reqs) * reqs as real == if reqs > 0 then errs as real else 0.0
  {
    if reqs > 0 {
      DivideBack(errs as real, reqs as real);
    }
  }

  /** All changes reported by the successful rounds. */
  function Changes(cfg: Config, s: State, rounds: seq<Round>, gate: string): Figures
    decreases |rounds|
  {
    if rounds == [] then NOTHING
    else
      (if Succeeds(cfg, s, rounds[0]) then ChangesOf(Built(cfg, s, rounds[0]), gate) else NOTHING)
      .Plus(Changes(cfg, Analyzed(cfg, s, rounds[0]), rounds[1..], gate))
  }

  /** The gate appears in every successful reading. */
  predicate Present(cfg: Config, s: State, rounds: seq<Round>, gate: string)
    decreases |rounds|
  {
    rounds != [] ==>
      && (Succeeds(cfg, s, rounds[0]) ==> gate in ByGate(Built(cfg, s, rounds[0])))
      && Present(cfg, Analyzed(cfg, s, rounds[0]), rounds[1..], gate)
  }

  lemma RoundChanges(cfg: Config, s: State, r: Round, gate: string)
    requires gate in ByGate(s.lastSnaps) && gate in ByGate(Built(cfg, s, r))
    ensures ChangesOf(Built(cfg, s, r), gate) == FiguresOf(Built(cfg, s, r), gate).Minus(FiguresOf(s.lastSnaps, gate))
  {
    hide SnapshotsOf, Seconds;
    SecondsPositive(cfg, s, r);
    BuiltFigures(r.current, ByGate(s.lastSnaps), Seconds(cfg, s, r), gate);
  }

  /** The changes of rate, error rate and latency that successes report add up to the change from first to last. */
  lemma {:induction false} DeltasTelescope(cfg: Config, s: State, rounds: seq<Round>, gate: string)
    requires gate in ByGate(s.lastSnaps) && Present(cfg, s, rounds, gate)
    ensures Changes(cfg, s, rounds, gate)
         == FiguresOf(After(cfg, s, rounds).lastSnaps, gate).Minus(FiguresOf(s.lastSnaps, gate))
    decreases |rounds|
  {
    hide FiguresOf, Built, Succeeds, ChangesOf;
    if rounds != [] {
      if Succeeds(cfg, s, rounds[0]) {
        RoundChanges(cfg, s, rounds[0], gate);
      }
      DeltasTelescope(cfg, Analyzed(cfg, s, rounds[0]), rounds[1..], gate);
    }
  }
}
