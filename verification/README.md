# A verified model of GoLB's decision core

GoLB is an HTTP load balancer. This project models the code that picks a backend, admits or refuses a request,
fails over, and keeps backend state consistent while probes fire and configs reload, and proves what that code
promises over all inputs, all runs and all interleavings.

| file | models |
|---|---|
| `backend.dfy`, `pool.dfy` | one backend's state; the registered backends |
| `weighted_round_robin.dfy`, `smooth_vectors.dfy` | smooth weighted round-robin: the selector that updates its map, and the theory of its running values |
| `round_robin.dfy` | round-robin over a wrapping 64-bit counter, and its agreement with the weighted one |
| `token_bucket.dfy`, `limiter.dfy` | one token bucket; the limiter with one bucket per client, its calls and its cleanup |
| `limiter_runs.dfy` | the same limiter in small steps of concurrent calls and cleanup |
| `limiter_eviction.dfy`, `limiter_witness.dfy`, `limiter_bounds.dfy` | when eviction of idle clients cannot be noticed, runs in which it is, and what a client can gain from it |
| `circuit_breaker.dfy` | breaker and registry; what a breaker does over every sequence of calls; what it does with the thresholds it is built with |
| `health.dfy` | the probe counters and thresholds, also while reloads change the thresholds, as coded and as the design document describes them |
| `reload.dfy`, `applier.dfy` | the diff of two configs; its application to the running system; startup and SIGHUP reloads |
| `proxy.dfy` | dispatch as small steps of many interleaved requests |
| `proxy_accounts.dfy` | connection counts and probe permits |
| `proxy_requests.dfy` | one outcome, uniform records, bounds, sticky cookies |
| `proxy_termination.dfy` | termination and progress |
| `proxy_breakers.dfy` | each breaker in the running system follows its own call history |
| `proxy_admission.dfy` | no dispatch without an admission: the ledger of grants against dispatches |
| `proxy_choice.dfy` | which backends a frame is offered, who chooses among them, and what the environment may do |
| `proxy_failover.dfy` | no backend is tried twice; what the algorithms promise dispatch |
| `masked_failures.dfy` | what one breaker sees of overlapping dispatches that fail |
| `proxy_overlap.dfy`, `proxy_witness.dfy` | the same in the running system: when failover hides failures from a breaker, with a run that shows the limit |

## How the code is modelled

Objects whose methods change their fields are classes (`Backend`, `ServerPool`, both `Selector`s, `Bucket`,
`RateLimiter`, `Breaker`, `Registry`, `HealthChecker`, `Applier`, `Reloader`), and each method is proved equal to a
function of the old state; the theorems are about runs of those functions. Loops over Go maps pick keys in
an arbitrary order. A method under a mutex is one atomic step. The limiter's `Allow` and cleanup hold no mutex: the
class states what an uninterrupted call and an uninterrupted cleanup do, and `limiter_runs.dfy` breaks both into the
steps that interleave.

Dispatch interleaves, so it is a state machine. A request is a stack of `ServeHTTP` frames with a log of what it
did. `Plan` gives the step the innermost frame may take, with the upstream's outcome, the algorithm's pick and the
race between timer and client left open; `Perform` and `Touch` carry it out on the request and on the shared state.
`Next` adds arrivals, time, health and admin verdicts, and registration and removal of backends; `After` is any
sequence of these. A frame takes a separate step for the snapshot, each `Eligible`, the choice, `Allow`, each
upstream try, each back-off, the dead mark, the blame, the switch, the record and the connection release, so other
requests can run between any two of them.

Time is a real that never runs backward, and float64 is `real`. Integers are unbounded where the project also
proves bounds on them (`ValueRange`), and wrap where the code relies on it (the round-robin counter).

## What the proofs found

- **Eviction of idle clients can be noticed.** The code evicts on a stamp that is read before the entry is looked up
  and stored without a lock, and it checks an entry before it removes it. If a call may hold or use an entry between
  these two steps, a client of any limiter can spend from two buckets at one instant; this is so even when calls are
  prompt and no call holds an entry at the moment it is removed (`EvictionVisibleOtherwise`). If no call holds an
  entry from its check to its removal, and no call is more than `d` seconds past its stamp, then eviction is never
  noticed exactly when `burst <= (300 - 2d) * rate` (`EvictionInvisibleExactly`; both directions). The delay counts
  twice because a slow call may store its old stamp over a later one (`StampPushedBack`). In every interleaving a
  client is admitted at most `(1 + evictions) * (burst + rate * (u - s))` times in [s, u] (`AdmittedAtMost`); the
  bursts alone do not add up, since a stalled call draws on a dropped bucket that still fills
  (`DroppedBucketFlowsOn`).
- **Failover hides failures from the breaker.** The guard meant to keep an outer frame from recording
  (`internal/proxy/proxy.go:236-240`) reads the outer frame's own context, which a nested frame never changes, so it
  always holds. Every dispatch records, and with the status the client finally saw
  (`EveryDispatchRecordsTheFinalStatus`), so the success of another backend wipes out the failure blamed before it.
  In every interleaving, with all records below 500, the breaker of a failing backend stays closed exactly while
  fewer of its dispatches overlap than its threshold (`FailoverMasksExactly`); `OverlapTripsDispatch` gives a run,
  for any threshold, in which that many overlap and the circuit opens although every request gets a 200. When all
  records are failures, each dispatch counts twice unless its own answer ended the request
  (`UnansweredTripsExactly`). A client that leaves during a back-off counts as a success, since the captured status
  is still 200.
- **The error handler's own 503 is unreachable** (`RefusedOnlyWhen`): a frame on its last attempt answers 503 before
  it dispatches.
- **Duplicate URLs in a config.** Startup keeps the first entry of a URL, the diff the last. A fresh start is in step
  with its configuration exactly when the first and last entries of every URL have the same weight
  (`StartupMatchesExactly`, `Start`; `DuplicatesDiffer` is a config where it is not).
- **The health counter resets at every threshold.** `docs/superpowers/specs/2026-03-30-v1-design.md:201-208` resets it
  only when the flag changes; the code resets it whenever the threshold is reached. With no other writer the flags
  never differ (`SameFlags`). The counters agree exactly while the current run is shorter than its threshold, or
  than twice its threshold when it found the flag the other way (`CountersAgreeExactly`, `CountersDiffer`).

## Model

| member | source | states |
|---|---|---|
| DispatchAccounts.ConnectionAccounting | internal/proxy/proxy.go:215-224 | From a start with nothing in flight, in every interleaving each backend's connection count is the number of open dispatch frames on it, so never negative, and all are zero again once every request is over |
| DispatchAccounts.NoLeakedPermit | internal/proxy/proxy.go:198-249 | In every reachable state a half-open breaker whose permit is out has a frame on a backend of its URL that passed `Allow` and has yet to record; with no request in flight a half-open breaker always admits the next probe |
| DispatchAccounts.OwedMove | internal/proxy/proxy.go:198-224 | Which steps, and only those, open or close a connection, a pending record or a pending verdict on a backend, in stacks of any depth |
| DispatchAccounts.TouchDrains | internal/circuitbreaker/circuitbreaker.go:74-138 | A step leaves a breaker half-open without permit only if it took that permit, or if it already was so and the step was no record on it |
| DispatchRequests.ExactlyOneOutcome | internal/proxy/proxy.go:116-144 | A request gets at most one outcome and, when over, exactly one: an upstream answer, a 503, or nothing because its client left during a back-off, which takes a repeatable method |
| DispatchRequests.EveryDispatchRecordsTheFinalStatus | internal/proxy/proxy.go:231-249 | When a request is over, every dispatch to every backend has been recorded exactly once, failed ones included, and every record carries the status the client finally saw |
| DispatchRequests.DispatchBounds | internal/proxy/proxy.go:116-140 | At most 3 dispatches and 4 nested frames; per dispatch to a backend at most 4 upstream tries for a repeatable method and 1 otherwise, and exactly that many on a backend where the request did not end |
| DispatchRequests.RefusedOnlyWhen | internal/proxy/proxy.go:151-156 | The balancer's 503 comes only after three switches or when no candidate was alive at the choice; the error handler's own 503 is unreachable |
| DispatchRequests.CookieNamesTheAnswerer | internal/proxy/proxy.go:208-213 | With stickiness on, the backend whose answer the client got is the one the last cookie set names |
| DispatchRequests.UniformMove | internal/proxy/proxy.go:260-271 | Every step keeps this: before the outcome every captured status is 200 and nothing is recorded; after it every frame that has yet to record has captured the outcome's status, and every record carries it |
| DispatchRequests.WithinBudgetMove | internal/proxy/proxy.go:116-129 | Before it moves on from a backend, a request uses up exactly its tries there |
| DispatchTermination.DispatchTerminates | internal/proxy/proxy.go:151-206 | In every interleaving a request takes at most 3P + 56 steps of its own when the pool never holds more than P backends |
| DispatchTermination.NeverStuck | internal/proxy/proxy.go:116-258 | In every reachable state a request that is not over can take a step |
| DispatchTermination.PotentialFalls | internal/proxy/proxy.go:116-206 | Every step of a request, on any shared state, uses up some of a bound made of the switches and retries left |
| DispatchBreakers.BreakerFollowsHistory | internal/proxy/proxy.go:198-249 | In every interleaving the breaker of a URL is in the state of a lone breaker given that URL's calls in order: each admission asked for, each failure blamed, each final record |
| DispatchBreakers.BackendTripRate | internal/circuitbreaker/circuitbreaker.go:74-138 | However requests interleave, a backend's breaker trips at most 1 + L/timeout times in any window of length L, and from a trip to the next grant by `Allow` at least the timeout passes; `AdmissionsAreGrants` ties the grants to what is sent |
| DispatchBreakers.BackendProbeBudget | internal/circuitbreaker/circuitbreaker.go:74-138 | In one half-open episode the breaker of a backend under dispatch grants at most successThreshold probes, even when late results of earlier requests arrive; `EpisodeAdmits` says so of the frames sent |
| DispatchAdmission.AdmissionsAreGrants | internal/proxy/proxy.go:198-206 | In every interleaving the dispatches to backends of a URL, plus the frames admitted to them and not yet sent, are exactly the admissions that URL's breaker has granted, so a refused frame never reaches the backend |
| DispatchAdmission.NothingAdmittedWhileOpen | internal/proxy/proxy.go:198-206 | From a trip to the end of the timeout, whatever happens between, no frame is admitted to a backend of the URL and its breaker does not change; what is dispatched there had been admitted before |
| DispatchAdmission.EpisodeAdmits | internal/proxy/proxy.go:198-206 | From the request that begins a half-open episode on, at most successThreshold frames are sent to the URL's backends or wait to be, beyond those already so, late results included |
| DispatchAdmission.AdmissionsStep | internal/proxy/proxy.go:198-206 | A step adds one to a URL's admissions exactly when a frame asks a breaker of that URL and is granted |
| DispatchChoice.StickinessIsHonoured | internal/proxy/proxy.go:173-184 | In every run a frame whose cookie names an alive candidate goes on with the first such candidate |
| DispatchChoice.AlgorithmDecides | internal/proxy/proxy.go:186-196 | Without one the algorithm decides: the frame goes on with its pick, a candidate, or refuses when it picks none |
| DispatchChoice.FilterAsksEach | internal/proxy/proxy.go:159-167 | The filter drops a backend exactly when that backend's breaker would refuse a request at that instant |
| DispatchChoice.EveryBackendIsOffered | internal/proxy/proxy.go:157-171 | While the pool stays and no breaker would refuse, or without breakers, every frame chooses from the whole pool |
| DispatchChoice.FilterNeverEmpties | internal/proxy/proxy.go:168-170 | However many circuits are open, no frame is left without a candidate while the pool is not empty |
| DispatchChoice.NoCookieWithoutStickiness | internal/proxy/proxy.go:208-213 | Without stickiness no request is ever given a cookie |
| DispatchChoice.OnlyThePooledIsMarked | internal/proxy/proxy.go:130 | A failed dispatch turns off the flag of the first pooled backend of the URL, none when the URL has left the pool; no other step of a request changes a flag |
| DispatchChoice.MembershipActions | internal/pool/pool.go:19-66 | Registration, removal and verdicts change the running system's pool and flags as the pool's methods do, and nothing else of them |
| DispatchFailover.FailoverNeverRevisits | internal/proxy/proxy.go:130-142 | Whatever happened before, a request that arrives once the pool is left alone and nobody revives backends is sent to each backend at most once, with any algorithm and with stickiness, and tries it at most 4 times or 1 |
| DispatchWitness.RevivedIsRevisited | internal/proxy/proxy.go:130-142 | A run with a single verdict that revives a backend, in which a request is sent to that backend twice |
| DispatchFailover.AlwaysDistinct | internal/pool/pool.go:19-28 | Under any actions the URLs of the pool stay distinct |
| DispatchFailover.FinalStatusIsTheVerdict | internal/proxy/proxy.go:240-249 | The final record of a dispatch tells that backend's breaker success or failure by the status the client got in the end, from whichever backend |
| DispatchSelection.WeightedMayPick | internal/algo/weighted_round_robin.go:49-61 | Weighted round-robin, whatever its running values, keeps the promise dispatch asks of an algorithm: an alive candidate, and none only when none is alive |
| DispatchSelection.RoundRobinMayPick | internal/algo/round_robin.go:18-32 | Round-robin, whatever its counter, keeps the same promise |
| DispatchWitness.FailoverMasksExactly | internal/proxy/proxy.go:130-249 | In every interleaving: runs in which at most n dispatches to a URL overlap and every record on it is below 500 all leave its breaker closed if and only if the threshold is above n |
| DispatchWitness.OverlapTripsDispatch | internal/proxy/proxy.go:130-249 | For any threshold, a run of as many overlapping requests that opens a backend's breaker although every record on it is a success and every request ends with the other backend's 200 |
| DispatchOverlap.FewOverlapsStayMasked | internal/proxy/proxy.go:130-249 | With every record on a URL below 500 and fewer of its dispatches open at once than the threshold, its breaker is closed and counts no more failures than dispatches that failed and have yet to record |
| DispatchOverlap.UnansweredTripsExactly | internal/proxy/proxy.go:130-249 | In every interleaving with all records on a URL at 500 or above, its breaker is closed if and only if blames and records together are below the threshold; once all requests are over these are two a dispatch, less one for each whose own answer ended its request |
| DispatchOverlap.LossesAreBlows | internal/proxy/proxy.go:130-249 | In such a run the failures its breaker is told are exactly the dispatches blamed and the records made |
| MaskedFailures.MasksExactly | internal/proxy/proxy.go:130-249 | All histories of failing dispatches, in any order and with at most n open at once, each recorded with a success, leave a breaker closed if and only if the threshold is above n |
| MaskedFailures.OverlapTrips | internal/proxy/proxy.go:130-249 | A history of complete rounds, as many as the threshold, that opens the circuit |
| MaskedFailures.FailoverMasksFailures | internal/proxy/proxy.go:130-249 | The case of dispatches that follow one another: closed in the end if and only if the threshold is at least 2, open when it is 1 |
| MaskedFailures.UnansweredCountsTwice | internal/proxy/proxy.go:130-249 | After n complete rounds that nobody answered, in any interleaving, the breaker is closed if 2n is below the threshold and open otherwise |
| Proxy.AlwaysSound | internal/proxy/proxy.go:130-142 | In every reachable system each request is a stack of nested calls, one switch deeper each, at most four, whose outer frames all wait |
| Proxy.PerformNested | internal/proxy/proxy.go:136-142 | A step keeps the nesting: only the innermost frame acts, and a frame past the last switch only answers |
| WeightedRoundRobin.Selector.Next | internal/algo/weighted_round_robin.go:21-62 | The in-place update and the returned backend are exactly one `Step` on the snapshot of the slice |
| WeightedRoundRobin.Selector.Prune | internal/algo/weighted_round_robin.go:25-34 | After pruning, in any order of the map, the values left are those of the offered backends, unchanged |
| WeightedRoundRobin.Selector.Accumulate | internal/algo/weighted_round_robin.go:36-47 | Adds each alive backend's weight, not positive counting as 1, and returns their total |
| WeightedRoundRobin.Best | internal/algo/weighted_round_robin.go:49-57 | The first alive backend of greatest value, and none only when none is alive |
| WeightedRoundRobin.Conservation | internal/algo/weighted_round_robin.go:25-61 | A call changes the sum of all values by exactly what the pruned keys held, under any change of aliveness or weights |
| WeightedRoundRobin.HistoryKeepsZeroSum | internal/algo/weighted_round_robin.go:25-61 | From an empty map, over any history of slices in which no backend is dropped, the values always sum to zero |
| WeightedRoundRobin.StepIsNext | internal/algo/weighted_round_robin.go:36-61 | A call on a list of distinct URLs is one step of the vector of alive values |
| WeightedRoundRobin.ExactProportion | internal/algo/weighted_round_robin.go:36-61 | From a fresh map with fixed backends, every window of W calls, aligned or not, picks each alive backend exactly its effective weight times |
| WeightedRoundRobin.ShareIsWeight | internal/algo/weighted_round_robin.go:36-61 | With all alive weights at least 1, in every window as long as their plain sum each backend is picked exactly as often as its configured weight |
| WeightedRoundRobin.NormalizedStep | internal/algo/weighted_round_robin.go:41-44 | Replacing every weight that is not positive by 1 changes no pick and no running value |
| WeightedRoundRobin.ValuesReturn | internal/algo/weighted_round_robin.go:36-61 | After any W calls every running value is back where it was |
| WeightedRoundRobin.ValueIsEarnedLessPaid | internal/algo/weighted_round_robin.go:36-61 | A value is t times the weight less W times the number of picks |
| WeightedRoundRobin.ValueRange | internal/algo/weighted_round_robin.go:36-61 | A value stays above -W and at most W(1/2 + ... + 1/n), and before payment at most nW |
| WeightedRoundRobin.SubsetLag | internal/algo/weighted_round_robin.go:36-61 | After any number of calls the values of any k alive backends sum to at most kW(1/(k+1) + ... + 1/n) |
| WeightedRoundRobin.PickedWithin | internal/algo/weighted_round_robin.go:36-61 | Any T calls with T times weight at least W(1 + ... + 1/n) pick the backend at least once |
| SmoothVectors.LagBound | internal/algo/weighted_round_robin.go:36-61 | The greedy bound on all subsets at once is kept by every step, for any weights |
| SmoothVectors.NextWithinLag | internal/algo/weighted_round_robin.go:49-60 | One step keeps the bound for a subset, by the bounds of the subset and of it with the winner added |
| SmoothVectors.ExactShare | internal/algo/weighted_round_robin.go:36-61 | Any W steps from a zero vector pick each position exactly its weight times |
| SmoothVectors.RunInvariant | internal/algo/weighted_round_robin.go:36-61 | From zero the values always sum to zero and stay above -W |
| SmoothVectors.GapBound | internal/algo/weighted_round_robin.go:36-61 | A stretch without a pick of position i is shorter than W(1 + ... + 1/n)/w_i |
| SmoothVectors.EqualWeightsCycle | internal/algo/weighted_round_robin.go:36-61 | With equal weights step t picks position t mod n |
| RoundRobin.Selector.Next | internal/algo/round_robin.go:18-32 | The returned backend and the new 64-bit counter are exactly one `Step` |
| RoundRobin.NilOnlyWhenNoneAlive | internal/algo/round_robin.go:24-31 | No backend is returned if and only if none is alive, from any counter |
| RoundRobin.StepReturns | internal/algo/round_robin.go:23-30 | The alive backend met first going round is returned, and the counter is set to it |
| RoundRobin.CyclesFrom | internal/algo/round_robin.go:18-32 | Successive calls go round the alive backends in list order |
| RoundRobin.Fairness | internal/algo/round_robin.go:18-32 | From any counter, any k consecutive calls with k alive backends pick each exactly once |
| RoundRobin.DeadCallsCount | internal/algo/round_robin.go:23-31 | With no backend alive t calls add t to the counter modulo 2^64 |
| RoundRobin.EntryAfterDead | internal/algo/round_robin.go:23 | After any number of calls that found nobody alive the scan starts at the next count, wrapped at 2^64, modulo the list length |
| RoundRobinAgreement.SameSequence | internal/algo/round_robin.go:18-32 | With all alive and equal weights, the weighted selector from a fresh map and the plain one pick the same sequence up to a rotation of the start |
| RoundRobinAgreement.WeightedCycles | internal/algo/weighted_round_robin.go:36-61 | With all alive and equal weights the weighted selector picks in cyclic list order |
| TokenBucket.Bucket.TryTake | internal/ratelimit/ratelimit.go:35-52 | The in-place refill, cap and take is exactly `Allow` on the old state |
| TokenBucket.Bucket.RetryAfterSeconds | internal/ratelimit/ratelimit.go:55-68 | The seconds returned are `RetryAfter` of the state, 1 when a token is there or the rate is not positive |
| TokenBucket.TokensInRange | internal/ratelimit/ratelimit.go:35-52 | In every run the tokens stay between 0 and the burst |
| TokenBucket.RateEnvelope | internal/ratelimit/ratelimit.go:35-52 | In every run and for all s <= t at most burst + rate(t - s) requests are admitted within [s, t] |
| TokenBucket.GreedyIsOptimal | internal/ratelimit/ratelimit.go:35-52 | At every prefix of every arrival sequence the code has admitted at least as many as any policy that admits only when the same refilled and capped bucket holds a token |
| TokenBucket.CodeIsFeasible | internal/ratelimit/ratelimit.go:35-52 | The code's own decisions are such a policy |
| TokenBucket.RetryAfterIsExact | internal/ratelimit/ratelimit.go:55-68 | After a rejection the number returned is at least 1, and a lone retry a whole number of seconds later is admitted if and only if it waits at least that long |
| Limiter.RateLimiter.New | internal/ratelimit/ratelimit.go:90-109 | An error exactly when the rate is not positive or, failing that, the burst is below 1; otherwise full and empty of clients |
| Limiter.RateLimiter.Allow | internal/ratelimit/ratelimit.go:112-130 | Per client the map and the decision of an uninterrupted call are `Answered` on the old map, whatever the clock says at its three readings; otherwise the one shared bucket decides and the map is untouched |
| Limiter.RateLimiter.RetryAfter | internal/ratelimit/ratelimit.go:154-163 | The answer of the client's bucket, 1 for a client without one |
| Limiter.RateLimiter.Cleanup | internal/ratelimit/ratelimit.go:180-187 | An uninterrupted visit to the map, in any order, keeps as it is every entry stamped within the last 300 seconds and removes every one stamped 301 seconds ago or more; stamps are whole seconds |
| LimiterWitness.EvictionInvisibleExactly | internal/ratelimit/ratelimit.go:112-190 | Over all runs of interleaved calls and cleanup in which no call is more than d seconds past its stamp and none holds a condemned entry, every take of every client is answered as its own never-evicted bucket would answer it, if and only if burst <= (300 - 2d) * rate |
| LimiterWitness.EvictionVisibleOtherwise | internal/ratelimit/ratelimit.go:112-190 | For every rate and burst some run is answered differently when nothing is restricted, and also when calls are prompt and no entry is removed while a call holds it |
| LimiterEviction.AlwaysTied | internal/ratelimit/ratelimit.go:112-190 | In restricted runs within the bound, at every point a client's entry refills to the same as its own bucket, and a client without an entry, or with a condemned one, has a full one |
| LimiterWitness.StampPushedBack | internal/ratelimit/ratelimit.go:117-128 | Above the bound, a run in which a slow call stores its old stamp over the later stamps of others, whose takes come last, and the client is evicted with a bucket that is not full |
| LimiterWitness.HeldEntryIsLost | internal/ratelimit/ratelimit.go:119-129 | For every rate and burst, a run in which a call's entry is removed while it holds it, and the next burst of the client is granted whole |
| LimiterWitness.CallInTheGap | internal/ratelimit/ratelimit.go:180-187 | The same with a prompt call that comes and goes between the cleanup's check of its entry and the removal |
| LimiterWitness.UninterruptedCall | internal/ratelimit/ratelimit.go:112-130 | A call in the small-step limiter that nothing interrupts, whatever time passes in it, does what `Limiter.RateLimiter.Allow` is proved to do |
| LimiterWitness.UninterruptedSweep | internal/ratelimit/ratelimit.go:180-187 | A sweep in the small-step limiter that nothing interrupts exists from every reachable resting state, and does to the map what `Limiter.RateLimiter.Cleanup` is proved to do |
| LimiterBounds.AdmittedAtMost | internal/ratelimit/ratelimit.go:112-190 | In every interleaving a client is admitted at most (1 + evictions) * (burst + rate * (u - s)) times in [s, u] |
| LimiterBounds.DroppedBucketFlowsOn | internal/ratelimit/ratelimit.go:119-129 | A run with one eviction in which a client is admitted more often than two bursts and one bucket's gain allow |
| CircuitBreaker.Breaker.constructor | internal/circuitbreaker/circuitbreaker.go:52-68 | A new breaker is closed with no counts; each threshold it is given is kept when at least 1 and is 1 otherwise, the timeout when at least a millisecond |
| BuiltBreakers.AcceptedAsGiven | internal/circuitbreaker/circuitbreaker.go:53-61 | A configuration is taken as it is if and only if both thresholds are at least 1 and the timeout at least a millisecond; any other is made proper |
| BuiltBreakers.FailuresInARow | internal/circuitbreaker/circuitbreaker.go:119-131 | Failures in a row leave a new breaker closed if and only if they are fewer than the failure threshold it was given, and open otherwise |
| BuiltBreakers.ReopensAfterTimeout | internal/circuitbreaker/circuitbreaker.go:81-87 | An open breaker grants the next request, and is half-open then, if and only if the timeout it was given has passed |
| BuiltBreakers.SuccessesInARow | internal/circuitbreaker/circuitbreaker.go:101-110 | A breaker that has just turned half-open stays so for fewer successes than the success threshold it was given, and is closed at that many |
| CircuitBreaker.Breaker.Admit | internal/circuitbreaker/circuitbreaker.go:74-93 | The decision and the new state are `Allow`; opening up takes the permit at once |
| CircuitBreaker.Breaker.Succeed | internal/circuitbreaker/circuitbreaker.go:97-114 | The new state is `RecordSuccess` of the old |
| CircuitBreaker.Breaker.Fail | internal/circuitbreaker/circuitbreaker.go:119-138 | The new state is `RecordFailure` of the old |
| CircuitBreaker.EligibleForetellsAllow | internal/circuitbreaker/circuitbreaker.go:151-164 | `Eligible` holds exactly when `Allow` would admit at that instant |
| CircuitBreaker.Registry.Get | internal/circuitbreaker/circuitbreaker.go:182-199 | The breaker of a URL, created closed when absent; no other breaker changes |
| CircuitBreaker.Registry.Remove | internal/circuitbreaker/circuitbreaker.go:202-206 | Exactly that breaker is forgotten |
| BreakerTraces.AlwaysExplained | internal/circuitbreaker/circuitbreaker.go:74-138 | In every history the counters are what they are called: trailing failures, or successes, since the phase was entered |
| BreakerTraces.TripsExactly | internal/circuitbreaker/circuitbreaker.go:123-131 | A closed breaker opens exactly on a failure that makes the last failureThreshold outcomes since it closed all failures |
| BreakerTraces.ClosesExactly | internal/circuitbreaker/circuitbreaker.go:102-110 | A half-open breaker closes exactly when the episode has seen successThreshold outcomes, all successes, and reopens exactly on a failure |
| BreakerTraces.ReopensExactly | internal/circuitbreaker/circuitbreaker.go:81-87 | An open breaker was opened by a failure, and leaves that phase exactly on a request at least the timeout later, which it grants |
| BreakerTraces.NothingAdmittedBeforeTimeout | internal/circuitbreaker/circuitbreaker.go:74-138 | After each trip nothing is granted for the full timeout |
| BreakerTraces.TripRate | internal/circuitbreaker/circuitbreaker.go:74-138 | In any window of length L a breaker trips at most 1 + L/timeout times |
| BreakerTraces.EpisodeLedger | internal/circuitbreaker/circuitbreaker.go:88-110 | In a half-open episode grants plus the free permit are at most 1 plus the successes recorded, late results included |
| BreakerTraces.EpisodeGrants | internal/circuitbreaker/circuitbreaker.go:88-110 | One half-open episode grants at most successThreshold requests |
| Health.HealthChecker.RecordSuccess | internal/health/health.go:101-120 | Counter and flag of that backend change as one good probe says; no other counter changes |
| Health.HealthChecker.RecordFailure | internal/health/health.go:122-141 | Counter and flag of that backend change as one bad probe says; no other counter changes |
| Health.HealthChecker.CheckBackend | internal/health/health.go:74-99 | A status from 200 to 299 is a good probe, anything else and any error a bad one |
| Health.HealthChecker.UpdateConfig | internal/health/health.go:144-163 | A threshold of at least 1 is kept as given and any other becomes 1; an interval or timeout that is not positive keeps the old one; counters are kept |
| Health.HealthChecker.Prune | internal/health/health.go:193-202 | Exactly the counters of backends no longer in the pool are dropped |
| Health.CounterIsTrailingRun | internal/health/health.go:101-141 | After every history the counter is plus or minus the length of the latest run of equal results modulo its threshold |
| Health.FlagIsLatestDecision | internal/health/health.go:101-141 | The alive flag is the direction of the latest run that reached its threshold, the initial flag when none did |
| Health.FlipsAreBounded | internal/health/health.go:101-141 | Down-flips times unhealthy plus up-flips times healthy is at most the number of probes |
| Health.BackendsAreIndependent | internal/health/health.go:172-204 | With probes of all backends interleaved and stale counters pruned, each backend fares as under its own probes alone |
| HealthUnderReload.RunDecides | internal/health/health.go:101-163 | From any counter and flag, with thresholds that may change between probes, n equal results leave the flag in their direction if and only if it was there or some probe's run length, plus what the counter held in that direction, reaches the threshold then in force |
| HealthUnderReload.FirstReached | internal/health/health.go:101-163 | The first probe to do so sets the flag and resets the counter |
| HealthUnderReload.ThresholdSuffices | internal/health/health.go:101-163 | So whatever the counter holds, as many equal probes as the threshold in force at the last of them decide the flag |
| HealthDesign.SameFlags | docs/superpowers/specs/2026-03-30-v1-design.md:201-208 | With no other writer, the documented machine and the coded one have the same flag after every probe |
| HealthDesign.DocumentedStatus | docs/superpowers/specs/2026-03-30-v1-design.md:201-208 | The documented counter is the length of the current run, less its threshold once the run has changed the flag |
| HealthDesign.CountersAgreeExactly | docs/superpowers/specs/2026-03-30-v1-design.md:201-208 | The two counters agree if and only if the current run is shorter than its threshold, or than twice its threshold when it found the flag the other way |
| HealthDesign.CountersDiffer | docs/superpowers/specs/2026-03-30-v1-design.md:201-208 | Two good probes of an alive backend with the default thresholds: the documented counter is 2, the coded one 0 |
| Pool.ServerPool.AddBackend | internal/pool/pool.go:19-28 | Appends the backend unless its URL is registered, and then changes nothing |
| Pool.ServerPool.Remove | internal/pool/pool.go:41-51 | Removes exactly the first backend of the URL and says whether there was one |
| Pool.ServerPool.MarkBackendStatus | internal/pool/pool.go:56-66 | Sets the flag of the first backend of the URL and of no other |
| Pool.WeightsWithoutAll | internal/pool/pool.go:41-51 | Removing a list of URLs from distinct backends removes exactly those URLs and keeps the other weights |
| Reload.ComputeDiff | internal/reload/reload.go:40-94 | For any order of map iteration the lists name, each once, exactly the URLs added, removed and reweighted, and the flags what else differs |
| Reload.RoundTrip | internal/reload/reload.go:40-94 | Patching the old config's weights with the diff gives the new config's weights |
| Reload.PatchPointwise | internal/reload/reload.go:145-174 | Patching any pool: added URLs appear unless present, removed ones vanish, changed ones take the new weight, all others keep theirs |
| Reload.EmptyDiffExactly | internal/reload/reload.go:30-37 | A diff is empty if and only if weights, algorithm, health check and TLS agree |
| Reload.StartupMatchesExactly | cmd/golb/main.go:172-190 | A fresh start and the diff see the same pool if and only if the first and last entries of every URL agree on the weight |
| Reload.DuplicatesDiffer | cmd/golb/main.go:172-190 | One URL listed twice with different weights: startup takes the first weight, the diff the second |
| Applying.Applier.AddAll | internal/reload/reload.go:145-153 | Adding a list keeps present backends, adds fresh alive ones, and the first entry of a URL wins |
| Applying.Applier.Validate | internal/reload/reload.go:113-141 | The first bad URL in order, else an unknown algorithm, is the error |
| Applying.Applier.Apply | internal/reload/reload.go:110-206 | A rejected diff changes nothing; an accepted one patches the pool's weights, keeps the objects, flags and counts of URLs in both, and sets algorithm and health check exactly when they changed |
| Applying.RejectionOfDiff | cmd/golb/main.go:297-310 | A diff to a known algorithm is refused if and only if some URL it adds is malformed, in whatever order the diff lists them |
| Applying.AcceptedExactly | internal/reload/reload.go:113-141 | A diff is accepted if and only if every URL it adds parses, is http or https and has a host, and the algorithm it names, if any, is one of the three |
| Applying.AcceptsExactly | cmd/golb/main.go:286-310 | A reload is accepted if and only if it loads, lists backends, names one of the three algorithms, and every URL it lists that the config in force does not is http or https with a host |
| Applying.FirstErrorIsFirst | internal/reload/reload.go:113-130 | The URL error reported is that of the first bad entry |
| Applying.Applier.Register | cmd/golb/main.go:172-190 | Registers the startup entries in turn, the first of a URL winning, and ends with the first URL error if there is one |
| Applying.Start | cmd/golb/main.go:102-190 | Startup refuses an empty list, an unknown algorithm or the first bad URL; otherwise the running system is in step with the configuration if and only if the first and last entries of every URL agree on the weight |
| Applying.Reloader.Reload | cmd/golb/main.go:286-315 | One reload request, accepted or not, leaves pool, algorithm and health check in step with the config in force; backends whose URL it lists are the same objects with flag and count, others are gone, new ones are alive and idle |
| Applying.Reloader.Serve | cmd/golb/main.go:286-315 | Over any run of accepted and rejected reloads pool, algorithm and health check follow the last accepted config, and a backend is still the same object if and only if every config on the way listed its URL |

## Left out

- HTTP transport, `httputil.ReverseProxy` (its abort panics and 1xx responses too), Hijack and Flush, request IDs, logging, metrics, TLS, signals and tickers: foreign code or I/O. An upstream call is its outcome: a status, or an error before any write.
- Config parsing and merging, admin handlers, the middleware chain and `clientIP`: they would only add easy members. A config is an already parsed value.
- `LeastConnections`: easy. Dispatch is proved for every algorithm that returns an alive candidate, and none only when none is alive; both round-robins are proved to do so.
- URLs are opaque strings on which parsing and printing are the identity; a URL's scheme, host and parse errors are parameters. The base64 of the sticky cookie is taken to be lossless, so a cookie is the URL it holds.
- Float rounding, clocks that step back, and durations that overflow an int: reals and an increasing clock stand in.
- WeightedRoundRobin.Selector.Next: reads aliveness and weight once a call, while the code reads them twice; a backend that dies between the two reads is not modelled.
- DispatchSelection.WeightedMayPick: takes the candidates' aliveness at one instant, while the code reads it twice.
- DispatchSelection.RoundRobinMayPick: takes the candidates' aliveness at one instant, while the code reads it backend by backend.
- RoundRobin.Selector.Next: treats the atomic add and the later store as one step, so fairness is about sequential calls.
- WeightedRoundRobin.ExactProportion: holds for a fixed list of backends. The proxy passes a list filtered by breakers, and a backend that drops out loses its value; `Conservation` says what is lost then.
- Limiter.RateLimiter.Allow: a call that nothing interrupts; interrupted calls are the subject of `limiter_runs.dfy`. There a sweep may check any entry at any time, which includes the code's one visit to each entry every minute.
- Applying.Start: leaves out the checks of TLS files, sticky cookies, metrics ports and rate limits, which also end startup.
- Pool.ServerPool.Remove: the slice is a sequence that is reassigned; that the code shifts its backing array in place, safe because `Backends` copies, is not modelled.
- DispatchFailover.FailoverNeverRevisits: requires that the pool is left alone and that nobody revives a backend; `RevivedIsRevisited` is a run in which it goes back because one is revived.
- `ServeHTTP` is a machine on values, not a class: frames of one request and of different requests interleave, which one method body cannot show.
- `Registry.Remove` is proved, but no code of the repository calls it, so no dispatch step does: the breaker of a removed backend stays.
