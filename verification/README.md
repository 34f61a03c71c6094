# Proxy Centauri: the load-balancing core, modelled and proved

Proxy Centauri is a reverse proxy written in Go. This project models the parts of it that keep state
under traffic: the three balancers, the health checker that drives them, the request and connection
lifecycle around least-connections, the UDP session table, the per-IP rate limiter, the latency
estimate and the analysis rounds that watch the counters.

Each component that updates fields in place is a class whose methods are proved equal to functions on
values. The laws of whole runs are lemmas about those functions. Where goroutines race, the component
is also modelled as a transition system whose steps are the single operations on shared state, and the
laws hold for every interleaving.

| file | what it holds |
|---|---|
| `Lists.dfy`, `Sums.dfy` | lists without repeats, lists of zeros; sums over sequences and over sets of indices |
| `SmoothWeighted.dfy`, `Weighted.dfy`, `WeightedLaws.dfy` | smooth weighted round-robin: values, objects, laws of runs |
| `RoundRobin.dfy`, `LeastConn.dfy`, `Rotation.dfy` | the other two balancers, and the rotation all three share |
| `LeastConnRace.dfy` | `Next` and `Acquire` interleaved, with the counters read one by one |
| `LeastConnLedger.dfy` | `Acquire` and `Release` in two steps, interleaved with list replacement |
| `Balancers.dfy`, `Traffic.dfy` | the common interface and its factory; what the balancers' laws mean for a run of requests |
| `HealthCache.dfy`, `PulseScan.dfy`, `GateHistory.dfy` | health checks and reloads, their event log, and the weights they leave behind |
| `Lifecycle.dfy` | one HTTP request and one TCP connection |
| `UdpProtocol.dfy`, `UdpTable.dfy` | the UDP session table as an interleaved protocol, and one operation at a time |
| `FluxShield.dfy`, `RateLaws.dfy` | the rate limiter and when its eviction can be noticed |
| `Histogram.dfy` | the 95th-percentile estimate |
| `Oracle.dfy` | the aggregator and the analysis rounds |

## Main results

- **Weighted.** Any `total` consecutive calls, from any reachable state, serve each backend exactly its
  weight and return to the state they started from; so for requests, with the weights as configured
  (`Traffic.ExactShares`), and across health checks that find nothing new (`GateHistory.QuietWindow`).
  No set of k of n backends is ever behind by more than `k * total * (H(n) - H(k))`, with H the harmonic
  numbers.
- **Least connections.** With at most p clients in flight, the open connections and pending picks of one
  backend never exceed another's count by more than p, although `Next` reads counters that move under it.
- **Counts.** A counter is acquires less releases since its address last entered the list. The code lets a
  connection outlive a drop: an address that is listed again counts its open holds for as long as it is
  kept exactly when none of its jobs is acquiring, open or releasing at that moment. `NegativeAfterDrop`
  exhibits an event sequence that takes the new counter below zero.
- **Rotation.** The three balancers agree call by call; round-robin keeps the rotation past the 64-bit
  wrap exactly when the list length divides 2^64.
- **PulseScan.** The pushed list is the watched list filtered by health after any run over lists without
  repeats; a check keeps it so exactly when repeated addresses answer alike.
- **UDP.** Every dialed connection has exactly one holder in every interleaving; nothing leaks. A touch keeps
  a session open, in every continuation whose cutoffs are no later than it, exactly when the connection is
  not closed already and the evictor has not found it expired; `LateTouchHappens` exhibits an event
  sequence from the start that loses a datagram.
- **Rate limiter.** Eviction never changes an answer exactly when `burst <= 60 * rps`, and the same
  condition decides whether the promised rate bound holds in every interval of every run.
- **P95.** The estimate and the true sample share a bucket, and slower samples never lower the estimate.
- **Oracle.** Reported requests add up to the counter exactly when no successful round reads less than the
  one before.

## Where the code and its comments part

The model follows the code.

- `internal/balancer/weighted.go:22` says a short weight list means equal weights; the code gives 1 only to
  the missing and non-positive entries (lines 40-43).
- A weighted backend that fails one check and recovers comes back with weight 1
  (`GateHistory.RecoveredAtOne`), although its configured weight is unchanged.
- `docs/SETUP.md:189` says idle UDP sessions go after 30 seconds; the tick period makes it up to 60
  (`UdpTable.EvictedOnTime`).
- `internal/ratelimit/fluxshield.go:50` presents eviction as housekeeping; with a burst above a minute's
  refill it resets a drained client (`RateLaws.EvictionInvisibleIff`).
- `internal/metrics/collector.go:159` says the fallback means all observations lie above the last bound;
  it means the sample of rank 95% does (`Histogram.FallbackSound`).
- The branch at `internal/metrics/collector.go:149-151` is never taken.
- `internal/metrics/collector.go:78-80` yields no gates when gathering fails; a successful analysis on such
  a reading drops the baseline, and the next one counts everything again (`Oracle.NoRequestLostIff`).

## Model

| member | source | states |
|---|---|---|
| Weighted.WeightedBackend.constructor | internal/balancer/weighted.go:45 | a new backend starts its cycle at zero |
| Weighted.Weighted.constructor | internal/balancer/weighted.go:23-27 | every backend has the weight configured for it, or 1 when that is missing or not positive, and starts at zero |
| Weighted.Weighted.HasPositive | internal/balancer/weighted.go:30-36 | whether some weight is positive |
| Weighted.Weighted.Build | internal/balancer/weighted.go:38-47 | distinct new objects, each with its configured weight when positive and 1 otherwise, and the sum of those weights |
| Weighted.Weighted.Init | internal/balancer/weighted.go:29-50 | the objects, their configured weights, the total and the ring of a new balancer |
| Weighted.Weighted.Raise | internal/balancer/weighted.go:60-63 | every running weight grows by its own weight |
| Weighted.Weighted.Heaviest | internal/balancer/weighted.go:64-70 | the first backend with the highest raised weight |
| Weighted.Weighted.Pay | internal/balancer/weighted.go:71-72 | only the winner changes, by the total |
| Weighted.Weighted.Next | internal/balancer/weighted.go:54-74 | the whole new ring and the address of the winner; the empty list answers nothing and does not move |
| Weighted.Weighted.Existing | internal/balancer/weighted.go:81-84 | the last recorded weight of exactly the listed addresses |
| Weighted.Weighted.Rebuild | internal/balancer/weighted.go:85-94 | new objects with recorded weights for known addresses and 1 for others |
| Weighted.Weighted.SetBackends | internal/balancer/weighted.go:78-97 | each known address has the weight of its last old entry, each new one 1; the cycle restarts |
| Weighted.Weighted.Len | internal/balancer/weighted.go:100-104 | the number of listed backends |
| SmoothWeighted.FirstMax | internal/balancer/weighted.go:65-70 | the chosen index holds the largest value and every earlier one is smaller |
| SmoothWeighted.Pick | internal/balancer/weighted.go:60-70 | the winner's running weight plus weight is the largest, and strictly larger than of every backend before it |
| SmoothWeighted.KeptWeightNew | internal/balancer/weighted.go:87-91 | an address that was not listed gets weight 1 |
| SmoothWeighted.KeptWeightLast | internal/balancer/weighted.go:81-90 | a listed address keeps the weight of its last entry |
| WeightedLaws.AdvanceCurrent | internal/balancer/weighted.go:60-72 | one call earns each backend its weight and costs only the winner a total |
| WeightedLaws.SettledAdvance | internal/balancer/weighted.go:54-74 | running weights keep summing to zero and staying above minus the total |
| WeightedLaws.Ledger | internal/balancer/weighted.go:54-74 | after m calls a running weight is m times its weight less picks times the total |
| WeightedLaws.ServedAddUp | internal/balancer/weighted.go:54-74 | m calls pick m backends in all |
| WeightedLaws.CycleFromStart | internal/balancer/weighted.go:54-74 | from the start of a cycle, total calls serve exact weights and return to it |
| WeightedLaws.WindowReturns | internal/balancer/weighted.go:54-74 | from any reachable state, total calls return to that very state |
| WeightedLaws.ExactWindow | internal/balancer/weighted.go:54-74 | from any reachable state, total calls serve each backend exactly its weight |
| WeightedLaws.NoStarvation | internal/balancer/weighted.go:54-74 | more than total minus weight calls in a row always include the backend |
| WeightedLaws.NoOverService | internal/balancer/weighted.go:54-74 | after m calls from the start, picks times total is below m times weight plus total |
| WeightedLaws.RunningWeightsBounded | internal/balancer/weighted.go:60-63 | running and raised weights stay within n totals of zero, a bound on the integers needed |
| WeightedLaws.DriftWithWinner | internal/balancer/weighted.go:65-72 | a set that contains the winner does not fall further behind |
| WeightedLaws.DriftWithoutWinner | internal/balancer/weighted.go:65-72 | a set without the winner holds at most its share of the enlarged set |
| WeightedLaws.LogarithmicDrift | internal/balancer/weighted.go:54-74 | every set of k of n backends is behind by at most k * total * (H(n) - H(k)) in every reachable state |
| WeightedLaws.LagBound | internal/balancer/weighted.go:54-74 | no backend lags its exact share by more than H(n) - 1 picks |
| WeightedLaws.EveryRunReachable | internal/balancer/weighted.go:54-97 | every run of calls and replacements ends in a reachable state |
| RoundRobin.RoundRobin.constructor | internal/balancer/roundrobin.go:20-22 | a new balancer counts from zero |
| RoundRobin.RoundRobin.Next | internal/balancer/roundrobin.go:26-34 | the entry at the old counter modulo the length, and the counter one up modulo 2^64; an empty list leaves it alone |
| RoundRobin.RoundRobin.SetBackends | internal/balancer/roundrobin.go:38-42 | the list is replaced and the counter kept |
| RoundRobin.RoundRobin.Len | internal/balancer/roundrobin.go:45-49 | the length of the list |
| LeastConn.FirstMin | internal/balancer/leastconn.go:36-43 | the chosen index holds the smallest value and every earlier one is larger |
| LeastConn.LeastConn.constructor | internal/balancer/leastconn.go:17-26 | every listed address has its own counter at zero |
| LeastConn.LeastConn.Count | internal/balancer/leastconn.go:94-99 | the count of an address, zero when unlisted |
| LeastConn.LeastConn.Next | internal/balancer/leastconn.go:30-45 | an address whose counter object shows the fewest connections of all listed ones, and strictly fewer than every earlier one |
| LeastConn.LeastConn.Acquire | internal/balancer/leastconn.go:49-56 | only the counter of a listed address grows by one |
| LeastConn.LeastConn.Release | internal/balancer/leastconn.go:60-67 | only the counter of a listed address falls by one |
| LeastConn.LeastConn.SetBackends | internal/balancer/leastconn.go:71-84 | kept addresses keep the very same counter object and count, others get a new one at zero |
| LeastConn.LeastConn.Len | internal/balancer/leastconn.go:87-91 | the length of the list |
| LeastConnRace.InvAfter | internal/balancer/leastconn.go:30-56 | counts, readings and their order stay sound through every interleaving of scans and adds |
| LeastConnRace.SpreadAtMostInFlight | internal/balancer/leastconn.go:30-56 | with at most p clients in flight, a backend's count plus its pending picks is at most any other's count plus p |
| LeastConnRace.LoneScan | internal/balancer/leastconn.go:36-44 | a scan nobody interferes with ends on the first smallest count |
| LeastConnRace.LoneCallAnswers | internal/balancer/leastconn.go:30-56 | a whole call nobody interferes with answers the first listed address with the fewest connections, as Next does, and its acquire adds one there |
| LeastConnLedger.WellFormedAfter | internal/balancer/leastconn.go:49-84 | a fetched counter still in use always belongs to the address it was fetched for |
| LeastConnLedger.AlwaysTimely | internal/balancer/leastconn.go:49-84 | a job midway holds the listed counter exactly when it fetched since its address last entered |
| LeastConnLedger.CountConserved | internal/balancer/leastconn.go:49-84 | a listed address's count is acquires less releases since it last entered; no two-step update is lost |
| LeastConnLedger.CountIsHolds | internal/tunnel/tunnel.go:47-57 | an address never dropped counts exactly its open holds, so zero when all is quiet |
| LeastConnLedger.RelistedCountsHoldsIff | internal/balancer/leastconn.go:71-84 | an address listed again counts its open holds in every continuation that keeps it, exactly when none of its jobs is acquiring, open or releasing at the relisting |
| LeastConnLedger.ShortOfHolds | internal/balancer/leastconn.go:49-84 | bookkeeping: the counter is the open holds less those it never saw |
| LeastConnLedger.NegativeAfterDrop | internal/balancer/leastconn.go:60-84 | an event sequence in which a hold outlives a drop takes the new counter to minus one |
| Rotation.WeightedRotates | internal/balancer/weighted.go:54-74 | with equal weights the running weights are those of a round of k modulo n picks |
| Rotation.LeastConnRotates | internal/balancer/leastconn.go:30-56 | with every pick acquired and none released, counts differ by at most one, in list order |
| Rotation.SameRotation | internal/balancer/roundrobin.go:26-34 | all three balancers answer entry k modulo n on call k |
| Rotation.RotationSurvivesWrap | internal/balancer/roundrobin.go:32-33 | past the counter's wrap the rotation continues exactly when n divides 2^64 |
| Balancers.Balancer.Next | internal/balancer/balancer.go:6 | any balancer answers and moves as one call of its own kind does; the answer is listed, or nothing exactly for the empty list |
| Balancers.Balancer.SetBackends | internal/balancer/balancer.go:7 | any balancer takes the new list; weights and counts are kept as its own kind keeps them |
| Balancers.NewFromConfig | internal/balancer/balancer.go:16-25 | the algorithm name decides the kind, every other name gives round-robin; each starts at zero, a weighted one with the configured weights |
| Traffic.RoundRobinServes | internal/balancer/roundrobin.go:26-34 | answer k of a run of calls is entry k modulo the length |
| Traffic.WeightedServes | internal/balancer/weighted.go:54-74 | the answers of a run of calls name each backend as often as its ring serves it |
| Traffic.ExactShares | internal/balancer/weighted.go:23-74 | of the answers of a new weighted balancer, every window as long as the configured weights add up to names each backend exactly as often as its configured weight says |
| PulseScan.PulseScan.constructor | internal/health/pulsescan.go:28-41 | every watched address starts healthy, over any balancer, which is left alone |
| PulseScan.PulseScan.SetEventFunc | internal/health/pulsescan.go:45-47 | from then on flips are reported |
| PulseScan.PulseScan.Healthy | internal/health/pulsescan.go:95-101 | unknown addresses are not healthy |
| PulseScan.PulseScan.PingAll | internal/health/pulsescan.go:105-132 | what a round finds: the new health of every address, the live list, whether anything flipped, and the reported flips |
| PulseScan.PulseScan.Check | internal/health/pulsescan.go:104-140 | the whole new state of a round of pings; flips are reported if an event function is registered; the balancer's ring changes only on a flip |
| PulseScan.PulseScan.Forget | internal/health/pulsescan.go:57-62 | exactly the removed addresses leave the health map |
| PulseScan.PulseScan.Presume | internal/health/pulsescan.go:64-69 | exactly the unknown new addresses become healthy |
| PulseScan.PulseScan.Live | internal/health/pulsescan.go:74-79 | the healthy addresses in list order |
| PulseScan.PulseScan.Resettle | internal/health/pulsescan.go:57-69 | what is known of kept addresses stays, new ones count as healthy, removed ones are gone |
| PulseScan.PulseScan.SetAll | internal/health/pulsescan.go:51-81 | the whole new state of a reload, pushed at once; new addresses count as healthy |
| HealthCache.NewAgrees | internal/health/pulsescan.go:28-41 | a new checker agrees with a balancer built from the same list |
| HealthCache.FilterInOrder | internal/health/pulsescan.go:74-79 | the healthy part of a list is that of its pieces in order |
| HealthCache.SweepUnchanged | internal/health/pulsescan.go:108-132 | a round reports no change exactly when every answer matched what was known |
| HealthCache.ReloadAgrees | internal/health/pulsescan.go:51-81 | after a reload the pushed list is the new list filtered by health |
| HealthCache.CheckKeepsCacheIff | internal/health/pulsescan.go:104-140 | a check keeps the pushed list correct exactly when repeated addresses answered alike |
| HealthCache.CacheCorrect | internal/health/pulsescan.go:51-140 | over any run on lists without repeats the health map covers the watched set and the pushed list is its healthy part in order |
| HealthCache.SweepReplays | internal/health/pulsescan.go:118-131 | the events of a round about one address alternate and lead from its old health to its new |
| HealthCache.EventsReplay | internal/health/pulsescan.go:108-132 | while an address stays watched, all its events alternate and replay to its current health |
| HealthCache.ReplaysFromUp | internal/health/pulsescan.go:118-131 | from up, events start with a down, take turns, and their number tells the health |
| GateHistory.WeightHistory | internal/balancer/weighted.go:78-97 | over any mix of traffic, checks and reloads a live backend has its configured weight if every pushed list had it and 1 otherwise |
| GateHistory.CheckRestartsIff | internal/health/pulsescan.go:118-139 | a check leaves the running weights alone exactly when nothing flipped, and otherwise restarts the cycle |
| GateHistory.RecoveredAtOne | internal/balancer/weighted.go:86-91 | a backend that alone fails one check and is back at the next has weight 1; the others keep their configured weights |
| GateHistory.QuietWindow | internal/balancer/weighted.go:54-74 | in any history, total requests with no flip and no reload between serve each live backend exactly its weight and return the balancer, whatever checks fall into them |
| Lifecycle.Proxy.Director | internal/proxy/proxy.go:68-100 | the tracked address is the answer of exactly one call; for least connections its counter alone is one up |
| Lifecycle.Proxy.ReleaseTracked | internal/proxy/proxy.go:31-35 | exactly a tracked address is released |
| Lifecycle.Proxy.ModifyResponse | internal/proxy/proxy.go:30-37 | a response releases the tracked address |
| Lifecycle.Proxy.ErrorHandler | internal/proxy/proxy.go:38-51 | an error releases it too; 503 exactly when no backend was picked, 502 otherwise |
| Lifecycle.Proxy.ServeHTTP | internal/proxy/proxy.go:58-64 | a whole request goes to the answer of exactly one call, is counted while open, leaves every count as it was and answers by what happened |
| Lifecycle.Tunnel.Handle | internal/tunnel/tunnel.go:44-83 | a whole connection dials the answer of exactly one call, is counted while open and leaves every count as it was, failed dials included |
| UdpProtocol.OwnershipStart | internal/tunnel/udp.go:28-30 | an empty tunnel satisfies the ownership books |
| UdpProtocol.PublishedDo | internal/tunnel/udp.go:79-85 | only a winning LoadOrStore publishes and only the evictor's delete withdraws, each its own connection |
| UdpProtocol.OwnershipAfter | internal/tunnel/udp.go:61-135 | the ownership books hold in every state of every interleaving |
| UdpProtocol.ExactlyOneHolder | internal/tunnel/udp.go:61-135 | at any point of any run a dialed connection is owned by one forward, published under one key or closed; only the evictor's half-done step overlaps |
| UdpProtocol.BalancedDo | internal/tunnel/udp.go:61-135 | each step keeps dialed connections equal to closed plus published plus owned |
| UdpProtocol.Quiescence | internal/tunnel/udp.go:61-135 | in any run, when all is quiet, dialed minus closed is the number of sessions |
| UdpProtocol.DeletesWhatItClosed | internal/tunnel/udp.go:128-131 | in any run the evictor's delete removes the session it closed and no other entry |
| UdpProtocol.TouchProtectsIff | internal/tunnel/udp.go:91-96 | in every run a touch keeps its connection open, through every continuation with no later cutoff and no earlier touch, exactly when it is not closed already and the evictor has not found it expired |
| UdpProtocol.DialProtects | internal/tunnel/udp.go:73-78 | in every run a dial counts as a use: with no later cutoff and no earlier touch, what was dialed is closed only if it lost its LoadOrStore |
| UdpProtocol.LateTouchIsLost | internal/tunnel/udp.go:91-131 | a datagram that touches an expired session is lost when the close comes between its touch and its write |
| UdpProtocol.LateTouchHappens | internal/tunnel/udp.go:61-135 | an event sequence from the start in which a client's second datagram is lost that way |
| UdpProtocol.PumpIffPublished | internal/tunnel/udp.go:79-88 | exactly the connections that win their LoadOrStore get a pump |
| UdpProtocol.Isolation | internal/tunnel/udp.go:91-114 | every send step writes the one datagram its goroutine received, once, to a connection dialed for the client it came from and published under its key; every pump step sends one reply, to that connection's client |
| UdpProtocol.Progress | internal/tunnel/udp.go:61-99 | in every run a forward that is not done can step whatever the others do, ends after at most six steps, and ends only by its write or by giving up |
| UdpProtocol.SameConnection | internal/tunnel/udp.go:64-91 | in any run two lookups of a client with no delete of its key between them use the same connection |
| UdpTable.Session.constructor | internal/tunnel/udp.go:78 | a new session is open and seen now |
| UdpTable.UdpTable.Forward | internal/tunnel/udp.go:61-99 | a known client reuses its session, a new one stores the dialed session and starts its pump, a failed dial changes nothing; the datagram is written to that session only |
| UdpTable.UdpTable.CloseBefore | internal/tunnel/udp.go:123-133 | exactly the sessions last used before the cutoff are closed and deleted |
| UdpTable.UdpTable.EvictRound | internal/tunnel/udp.go:118-135 | the table after one tick; the sessions left are the same objects, the deleted ones are closed |
| UdpTable.IdleSession | internal/tunnel/udp.go:121-133 | an untouched session is there exactly until a tick later than its last use plus idle |
| UdpTable.EvictedOnTime | internal/tunnel/udp.go:118-135 | in every run whose ticks are the ticker's, a session is there exactly until the first tick later than its last use plus idle, which is no later than that use plus twice idle |
| UdpTable.FirstTickAfter | internal/tunnel/udp.go:119-122 | the tick due is the first one later than u + idle, and comes no later than u + 2 * idle |
| UdpTable.ReadFrom | internal/tunnel/udp.go:45-47 | a read fills the front of the shared buffer |
| UdpTable.Copy | internal/tunnel/udp.go:53-54 | the copy is a new array with the bytes read |
| UdpTable.Listen | internal/tunnel/udp.go:45-56 | every goroutine keeps the bytes of its own datagram although one buffer serves all reads |
| FluxShield.Limiter.constructor | internal/ratelimit/fluxshield.go:43 | a new limiter is full |
| FluxShield.Limiter.Allow | internal/ratelimit/fluxshield.go:85 | one token per grant, refilled at the rate and capped at the burst; a refusal changes nothing |
| FluxShield.FluxShield.constructor | internal/ratelimit/fluxshield.go:27-35 | a new shield knows no client |
| FluxShield.FluxShield.Insert | internal/ratelimit/fluxshield.go:42-45 | an unknown client gets its own new full limiter and no other entry changes |
| FluxShield.FluxShield.LimiterFor | internal/ratelimit/fluxshield.go:38-48 | the client's limiter, new and full when unknown, seen now |
| FluxShield.FluxShield.AllowOne | internal/ratelimit/fluxshield.go:85 | only the asked client's bucket moves, by what its limiter decides |
| FluxShield.FluxShield.Middleware | internal/ratelimit/fluxshield.go:82-92 | the decision and the whole new map |
| FluxShield.HandledOthers | internal/ratelimit/fluxshield.go:38-48 | a request marks its own client as seen now and leaves every other entry alone |
| FluxShield.FluxShield.Cleanup | internal/ratelimit/fluxshield.go:51-62 | exactly the entries last seen before now - 60 seconds go |
| RateLaws.LevelLater | internal/ratelimit/fluxshield.go:43 | a bucket's level later is its level now plus the refill, capped |
| RateLaws.EvictionInvisible | internal/ratelimit/fluxshield.go:38-62 | under burst <= 60 * rps every timed sequence is answered as if nothing were ever evicted |
| RateLaws.EvictionInvisibleIff | internal/ratelimit/fluxshield.go:38-62 | that holds of all timed sequences exactly when burst <= 60 * rps |
| RateLaws.OutrunEvicting | internal/ratelimit/fluxshield.go:51-62 | the evicting map grants two whole bursts around the ticks at 60 and 120 seconds |
| RateLaws.OutrunKeeping | internal/ratelimit/fluxshield.go:51-62 | a map that forgets nobody does not, when the burst outruns the refill |
| RateLaws.RateBound | internal/ratelimit/fluxshield.go:82-91 | from any sound state a client is granted at most burst + rps * (t - s) in [s, t] |
| RateLaws.RateBoundIff | internal/ratelimit/fluxshield.go:82-91 | that bound holds of every interval of every run from the empty map exactly when burst <= 60 * rps |
| RateLaws.RunSound | internal/ratelimit/fluxshield.go:38-62 | every run keeps buckets out of debt and not ahead of time |
| Histogram.HistogramP95 | internal/metrics/collector.go:133-161 | in the first bucket to hold 95 in 100, the result is as far from its lower to its upper bound as 95% of the total is from the count below it to its own; otherwise the last bound; the empty-bucket branch is dead |
| Histogram.EstimateProportional | internal/metrics/collector.go:152 | the interpolation multiplied out, over a bucket that is not empty |
| Histogram.Rises | internal/metrics/collector.go:145-151 | the bucket that first reaches the target is never empty |
| Histogram.PercentileExists | internal/metrics/collector.go:138 | a non-empty list has a sample of the 95% rank |
| Histogram.EstimateSound | internal/metrics/collector.go:143-154 | the estimate and the true sample of rank ceil(0.95 N) lie in the same non-empty bucket |
| Histogram.FallbackSound | internal/metrics/collector.go:159-160 | the fallback is the last bound and the true sample is above it |
| Histogram.EstimateMonotone | internal/metrics/collector.go:133-161 | counts nowhere greater never lower the estimate, across buckets, interpolation and fallback |
| Histogram.SlowerSamples | internal/metrics/collector.go:133-161 | if every request takes at least as long, so does the estimate |
| Oracle.BuildSnapshot | internal/oracle/aggregator.go:30-76 | each snapshot's rate times the interval is its gate's counter less the last stored one, floored at zero, and so for errors and changes |
| Oracle.New | internal/oracle/oracle.go:44-56 | no oracle exactly when it is disabled or has no key |
| Oracle.Oracle.constructor | internal/oracle/oracle.go:48-55 | no baseline, and five minutes when the interval is zero |
| Oracle.Oracle.ShouldCall | internal/oracle/oracle.go:152-165 | due exactly when the interval has passed or a threshold that is on is breached |
| Oracle.Oracle.Analyze | internal/oracle/oracle.go:100-128 | the reading is described against the baseline over the time since the last success; it becomes the baseline, with the round's end, exactly when due and answered |
| Oracle.BuiltByGate | internal/oracle/aggregator.go:40-74 | what the snapshots say of one gate: its reading and its rate |
| Oracle.RoundReports | internal/oracle/aggregator.go:48-62 | a round's rate times the time since the baseline is the requests since the baseline |
| Oracle.RequestsAccounted | internal/oracle/oracle.go:100-128 | over any rounds, reports add up to the move of the baseline plus every step back |
| Oracle.NoRequestLostIff | internal/oracle/oracle.go:100-128 | from the start, reports add up to the counter at the last success exactly when no success read less than the one before |
| Oracle.ErrorRateReports | internal/oracle/aggregator.go:62-65 | the error rate times the requests is the errors since the baseline; without requests it is zero |
| Oracle.DeltasTelescope | internal/oracle/aggregator.go:67-71 | reported changes of rate, error rate and latency add up to the change from first success to last |

## Left out

- Sockets, HTTP, TLS, DNS, file watching, YAML, SQLite, the Anthropic client and the setup wizard: input and output. Ping answers, dial results and model replies are parameters with arbitrary values.
- The Go interface `Balancer` is a tagged union of the three kinds, since the set is closed by the factory.
- Integer width: running weights, connection counts and totals are unbounded integers; `WeightedLaws.RunningWeightsBounded` gives the bound a machine integer must hold. The round-robin counter does wrap at 2^64.
- Floating point: rates, tokens and latencies are real numbers.
- Wall-clock time is a parameter. The rate limiter uses one moment for both the last-seen mark and the token decision; an analysis has separate moments for its start, its decision and its end.
- golang.org/x/time/rate is not part of this model; a limiter is the token bucket its documentation describes, full when new, and a refused request leaves it unchanged.
- `httputil.ReverseProxy` is not part of this model: exactly one of the two callbacks runs after the director, and a request without a backend always ends in the error handler. Protocol upgrades and URL parsing errors, which end in the same handler, are left out.
- Interleavings inside one check against a reload, and two overlapping analyses: the code does not serialise them; each is one step here and nothing finer is claimed.
- The order in which an eviction round meets the table is arbitrary; in the interleaved protocol one evictor visits entries in any order, one at a time.
- A live pump for every session: a pump may stop at any read or write error while its session stays, so the claim is at most one pump per connection.
- `ping` itself, status writers, log lines, client-IP extraction, prompt text and the signal routes: they would only add easy members.
- The laws of the event log are about a checker that has its event function from the start; without one nothing is reported.
- Lifecycle.Proxy.Director: the rewriting of URL and headers, and the case of an address that does not parse, in which the request goes out unchanged.
- Lifecycle.Proxy.ServeHTTP: one uninterrupted request; requests that overlap each other and list changes are the interleaved model of `LeastConnLedger`.
- Lifecycle.Tunnel.Handle: one uninterrupted connection; overlapping ones are the interleaved model of `LeastConnLedger`.
- Oracle.New: the default model name and the client.
- Oracle.Oracle.Analyze: what is done with an answer after the baseline has moved, the saving of a signal, is not modelled.
