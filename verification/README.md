# A verified model of goRawrSquirrel

goRawrSquirrel is a gRPC middleware toolkit. This project models the parts of it that carry state or order, in
Dafny, and proves what they promise. `dafny verify dfyconfig.toml` checks everything.

## What is modelled

**Caches** (`cache/l1.go`, `cache/tiered.go`), three times, because three different things can go wrong.

- `Singleflight.dfy` is the concurrent protocol. Any number of goroutines run `GetOrSet`, `Get` and `Set`; a
  goroutine is a program counter, and each atomic region of the code is one step: the L1 look, the L2 look, the
  locked join-or-create, the loader's return, the L2 store, the L1 store, `wg.Done`, the locked delete, the wake-up
  of a waiter. Between any two steps either store may lose an entry, and any store access may fail in the way the
  code tolerates. One flag chooses between `L1` and `Tiered`. `SharedCache.dfy` is the object with its mutable
  fields, one method for each region, each proved to take exactly the protocol's step. `SingleflightSafety.dfy`,
  `SingleflightLiveness.dfy`, `SingleflightAccounting.dfy` and `SingleflightCoherence.dfy` hold the theorems about all
  runs, and
  `SingleflightSolo.dfy` ties the protocol to the sequential cache below.
- `Tiered.dfy` is the sequential two-tier cache on a clock, with TTLs, expiry, eviction and failing Redis calls;
  `Freshness.dfy` bounds the age of served values, `Coherence.dfy` relates hits to the last writes.
- `Buffers.dfy` has the byte buffers themselves, on the heap: which buffer is a copy of which.

**Circuit breaker** (`breaker/breaker.go`). `Breaker.dfy` is the object; a ghost field records every locked call
with its clock reading, and every method is proved to leave the fields at the value of a function of that history.
`BreakerHistory.dfy` says what the state means in terms of the history.

**Policy and rate limits** (`policy/`, `interceptors/ratelimit.go`). `Policy.dfy` is the nested best-match search,
`PolicyPriority.dfy` its answer in terms of the patterns alone, `PolicyReorder.dfy` the exact condition under which registration order is irrelevant, `RateLimit.dfy` the
interceptor's lazily created per-group buckets, as objects and as a function on values.

**Pipeline** (`internal/core/middleware.go`, `interceptors/chain.go`, `options.go`, `server.go`). `Middleware.dfy` is
the builder, `Chain.dfy` the closure-building loop, `Pipeline.dfy` the toolkit's own interceptors as stages over a
shared world with answers, errors and panics, `Options.dfy` the option closures, the server's assembly and the
end-to-end guarantees, `Gates.dfy` what an empty bucket and a refusing authentication keep away from a server,
`OptionOrder.dfy` when the order of options matters. `ServerChain.dfy` writes the chain of a server out, for every list
of options. `ServerMeaning.dfy` says what a server does with a request in terms of its options alone, without stages,
priorities or closures, and proves that the chain it builds does just that. `Debits.dfy` counts the tokens that one
request, and any sequence of requests to both sides of one server, take from its limiters.

**Retry** (`retry/`). `Retry.dfy` is the loop with its exits and the arithmetic of its delays.

## Where the code and its documentation differ

The model follows the code. Each difference comes with its exact condition, and most with a concrete run.

- `cache/cache.go:19-20` and `docs/architecture.md:253` promise one loader call for a miss. The code does not look into
  the cache again under the lock, so a goroutine that missed earlier can lead a second load after the first has
  finished (`LoaderCanRunTwice`). `LoadedOnceIff` says when it loads once, `LoadsNoMoreIff` from which states on it loads no more,
  `LoadStartsBounded` how often at most in any run, and `TurnsLoadOnce` that it takes overlapping callers to load twice.
- `retry/backoff.go:12-14` says the delay is capped at MaxDelay. The cap is applied before the jitter
  (`JitterCanExceedCap`, `CapHoldsIff`).
- `retry/retry.go:38-39` says the context is checked before every retry. When timer and context are both ready, the
  `select` may pick the timer, at every attempt (`RetriesWithDoneContext`); a done context is sure to stop the retries
  exactly where the timer is not ready (`DoneContextStopsIff`).
- `docs/architecture.md:141-143` says that the order of options is irrelevant. `WithRateLimitGlobal` reads the
  resolver at the moment it is applied (`OrderCanMatter`, `OptionOrderIrrelevantIff`).
- `docs/architecture.md:132` and line 114 of the repository's own README say that recovery is outermost. Tracing,
  at 5, is outside it (`ServerPanicsIff`).
- `breaker/breaker.go:70-72` describes `Allow` as true in HalfOpen with remaining probe slots. The code counts
  recorded successes, not outstanding probes: one HalfOpen phase admits any number of polls, unless it admits none
  at all (`ProbesBoundedIff`). With a success limit below 1 HalfOpen admits nobody (`AllowMeansNotOpenIff`).
- `interceptors/ratelimit.go:17-18` and `interceptors/ratelimit.go:27-29` speak of a limiter for each group. Limiters
  are kept by group name, so groups that share a name share one bucket (`BucketForEachGroupIff`, `IsolatedIff`,
  `SameRuleStillShares`), made from the rule of whichever was asked for first (`OwnRulesIff`).
- `Tiered.Get` promotes with TTL zero, which drops the expiry of the L2 entry (`GetKeepsBoundIff`).
- `cache/tiered.go:46` says that `Set` writes the value to both tiers. It holds no lock between the two writes, so two
  overlapping `Set`s can both return and leave one value in L1 and the other in L2 (`OverlappingSetsDisagree`). A step
  leaves a value other than the last supplied one exactly when the value it writes was overtaken (`StepStaleIff`,
  `StepAgreesIff`); without such writes the tiers agree once all calls have returned (`TiersAgreeUnlessOvertaken`), and
  for calls that take turns every answer is the value last supplied (`AnswersAreLastSupplied`).
- A loader's buffer is not copied when the loader returns it. What the loader writes to it later is in every copy made
  after that: what goes to L2, what L1 stores, what the leader gets and what each waiter gets. Two of these agree
  exactly if the writes between them leave every byte as it was (`LoaderKeepsWriting`, `TieredLoaderKeepsWriting`). Once
  L1 has taken its copy, no write reaches it.

## Reading the model

Strings and keys are sequences of bytes. Times and durations are whole nanoseconds, unbounded; fractions and rates
are exact reals. The clock, the loader's result, the success of each store access, the regular-expression engine,
the address check, the authentication function and the random draws are parameters, universally quantified in every
theorem. In the pipeline a panic is a reply on its way up the stack. A function named in a contract is part of the
specification; what the source promises of it is proved in the lemmas beside it. Each `WithRateLimitGlobal` makes a
limiter of its own, so the numbers that name them in a list of options are distinct where a theorem says so. Limiters
are private to the interceptors, so the theorems that count tokens speak of handlers that leave them alone.

## Model

| member | source | states |
|---|---|---|
| Singleflight.Next | cache/tiered.go:54-98 | every step of every goroutine, every arrival and every lost entry keeps the protocol's invariant |
| Singleflight.StepKeepsInv | cache/l1.go:63-97 | one atomic region, by any enabled goroutine, keeps the invariant that ties `loads`, the calls, their owners and the stores together |
| Singleflight.StepOnlyTouches | cache/l1.go:63-97 | a step changes no other goroutine, no call but its own, no other key's registration, and never an outcome or a release already made |
| Singleflight.LookTargets | cache/tiered.go:54-75 | a look writes no store; it ends in a hit only if the store holds the key, and it waits exactly if a call is registered |
| SingleflightSafety.LoadsExact | cache/l1.go:68-91 | in every run, `loads` holds a call for a key exactly when one goroutine is between its insert and its delete on that key, and it is that goroutine's own call |
| SingleflightSafety.AtMostOneLoaderPerKey | cache/tiered.go:66-92 | in every run, two goroutines that are inside a loader for one key are the same goroutine |
| SingleflightSafety.DeleteRemovesOwnCall | cache/l1.go:89-91 | the locked delete removes the deleter's own, already released, call and no other registration |
| SingleflightSafety.OutcomesAreFinal | cache/tiered.go:82-88 | over any continuation of a run, written outcomes, releases, owners and returned results never change |
| SingleflightSafety.CohortAgrees | cache/tiered.go:67-97 | leader and waiters of one call return the same value or the same error, namely the loader's, and there is only one leader |
| SingleflightSafety.StoresChangeOnlyByWriters | cache/tiered.go:61-87 | a step writes a store exactly if its goroutine carries a value to write there: L1 then holds that value or nothing for the goroutine's key, L2 that value or what it held; no other key changes |
| SingleflightSafety.LookFindsWhatIsThere | cache/tiered.go:29-64 | each look finds what its tier holds: a value in L1 is returned, a readable value in L2 is promoted, and `L1` alone never looks further |
| SingleflightSafety.ErrorsAreNotStored | cache/l1.go:83-87 | a leader whose loader failed never changes a store and goes straight to the release |
| SingleflightSafety.ProducedByAnEvent | cache/tiered.go:82-87 | the record of supplied values holds only what some earlier event of the run supplied |
| SingleflightSafety.Provenance | cache/tiered.go:54-98 | every value that `GetOrSet` or `Get` returns for a key was supplied earlier in the run, by a `Set` or a loader, for that same key |
| SingleflightLiveness.SomeoneCanMove | cache/l1.go:68-97 | no deadlock: if a goroutine is unfinished, it or the live leader it waits for can move |
| SingleflightLiveness.StepDecreases | cache/tiered.go:54-98 | every step of every goroutine decreases one measure of the whole system |
| SingleflightLiveness.WorkIsBounded | cache/tiered.go:54-98 | under any schedule, losses and loader results, the goroutines take at most eight steps each |
| SingleflightLiveness.StuckMeansFinished | cache/l1.go:69-76 | in every run, nobody can move exactly when every goroutine has finished |
| SingleflightLiveness.CanFinish | cache/l1.go:68-97 | from every reachable state, whatever the loaders return and the stores lose from there on, some schedule finishes every goroutine |
| SingleflightAccounting.LoadersMatchLeaders | cache/tiered.go:77-88 | over any continuation, loader starts and returns correspond one for one to the goroutines that lead and to the calls registered |
| SingleflightAccounting.LoaderRunsEqualLeaders | cache/tiered.go:54-98 | in a finished run the loader of a key ran exactly once for each goroutine that led |
| SingleflightAccounting.LoadStartsBounded | cache/tiered.go:61-88 | over every run, under all losses, failures and `Set`s: a loader for a key starts at most once, once more for each failed load, dropped L1 write or loss of that key, and once more for each call registered while L1 held the key |
| SingleflightAccounting.WarmIffLoadedBefore | cache/l1.go:68-81 | where nothing goes wrong for a key and nobody sets it, and with no call in flight, L1 holds it exactly when a loader for it started before, whatever happens to other keys and to L2 |
| SingleflightAccounting.LoadedOnceIff | cache/cache.go:19-21 | where no load of the key fails, L1 neither drops nor loses it and nobody sets it, its loader starts at most once exactly when nobody registers a call for it while L1 already holds it |
| SingleflightAccounting.LoadsNoMoreIff | cache/l1.go:64-76 | seen from any state in which L1 holds the key, no way to go on without such mishaps starts its loader again, exactly when no goroutine has missed the key and is still to take the lock |
| SingleflightAccounting.TurnsLoadOnce | cache/l1.go:64-81 | callers of one key that never overlap start its loader at most once, plus once for each mishap, however goroutines on other keys interleave |
| SingleflightAccounting.LoaderCanRunTwice | cache/l1.go:64-76 | a run of that kind in which the loader of one key runs twice |
| SingleflightCoherence.StepStaleIff | cache/tiered.go:47-87 | a step makes a tier stale for a key, or leaves it so, exactly when it writes a value there that another has overtaken, or leaves alone what was stale |
| SingleflightCoherence.StepAgreesIff | cache/tiered.go:47-87 | from tiers that hold the value last supplied or nothing, a step spoils that exactly when it writes an overtaken value |
| SingleflightCoherence.AnswersAreLastSupplied | cache/tiered.go:29-98 | over every concurrent run in which calls for a key take turns and no L2 write for it is dropped over another value, each value returned for the key is the one last supplied for it, whatever other keys do and either tier loses |
| SingleflightCoherence.TiersAgreeBetweenTurns | cache/tiered.go:47-87 | in such a run, between the turns, each tier holds the value last supplied or nothing |
| SingleflightCoherence.TiersAgreeUnlessOvertaken | cache/tiered.go:47-87 | however calls for a key overlap: if no write took effect after its value was overtaken, and none was dropped over another value, then once they have all returned each tier holds the value last supplied or nothing |
| SingleflightCoherence.OverlappingSetsDisagree | cache/tiered.go:47-50 | a run of two overlapping `Set`s with every access succeeding, after which L1 holds the first value and L2 the second |
| SingleflightSolo.SoloIsSequential | cache/tiered.go:29-98 | a goroutine that is left alone, from arrival to return, leaves the stores and returns the result of the sequential two-tier cache, for each operation and each pattern of failing accesses |
| SingleflightSolo.SoloIsReached | cache/tiered.go:54-98 | its steps are a run of the protocol |
| SingleflightSolo.SequentialRunsAreRuns | cache/tiered.go:29-98 | every sequential run on a clock that does not go back, with expiry and losses, is a run of the protocol with the same replies and the same live entries |
| SharedCache.Cache.Enter | cache/tiered.go:29-54 | a goroutine enters one of the three operations: the protocol's arrival |
| SharedCache.Cache.LookIntoL1 | cache/tiered.go:56-58 | the L1 look takes exactly the protocol's step |
| SharedCache.Cache.LookIntoL2 | cache/tiered.go:61-64 | the L2 look takes exactly the protocol's step, a failed read being a miss |
| SharedCache.Cache.JoinOrCreate | cache/l1.go:68-81 | the locked region joins the registered call or registers a new one never registered before, and tells which |
| SharedCache.Cache.LoaderReturned | cache/tiered.go:82-83 | the loader's return takes exactly the protocol's step: the outcome is written, and an error skips the stores |
| SharedCache.Cache.StoreInL2 | cache/tiered.go:84-86 | the L2 store takes exactly the protocol's step and drops a write that fails |
| SharedCache.Cache.StoreInL1 | cache/l1.go:54-58 | the L1 store of a leader, a `Set` or a promotion takes exactly the protocol's step: the new value or nothing |
| SharedCache.Cache.ReleaseWaiters | cache/l1.go:87 | the release takes exactly the protocol's step |
| SharedCache.Cache.DeleteCall | cache/l1.go:89-96 | the locked delete takes exactly the protocol's step and returns the leader's result |
| SharedCache.Cache.WakeUp | cache/l1.go:71-75 | a waiter wakes only after the release, and returns the call's outcome |
| SharedCache.Cache.GetFromL1 | cache/tiered.go:31-33 | the first look of `Get` takes exactly the protocol's step |
| SharedCache.Cache.GetFromL2 | cache/tiered.go:35-38 | the second look of `Get` takes exactly the protocol's step |
| Buffers.L1.Get | cache/l1.go:45-51 | a hit is a fresh copy of the stored bytes, in no store |
| Buffers.L1.Set | cache/l1.go:54-58 | the store holds a copy of its own, or nothing for the key; no other key changes; the caller's buffer stays outside |
| Buffers.L1.Result | cache/l1.go:93-96 | leader and waiter each get the error or a fresh copy |
| Buffers.L1.Finish | cache/l1.go:83-87 | a value is stored as a copy before the release, an error is not stored |
| Buffers.L1.Complete | cache/l1.go:78-96 | what the leader returns is a fresh copy of what its loader brought, and the store holds another |
| Buffers.L1.FinishAndReturn | cache/l1.go:84-96 | from the loader's return on: store, release, and a copy or the error |
| Buffers.L1.GetOrSet | cache/l1.go:63-97 | hit or load, the caller gets a fresh buffer outside the store, with the stored or the loaded bytes; on an error nothing changes |
| Buffers.L1.CallerWrites | cache/l1.go:50-55 | a write to any buffer a caller holds changes no later hit and no other caller's buffer |
| Buffers.CohortGetsSeparateCopies | cache/l1.go:75-96 | two goroutines of one cohort get separate buffers, and a write by one reaches neither the other nor the store |
| Buffers.LoaderKeepsWriting | cache/l1.go:83-96 | a loader that keeps writing to its buffer after returning it: the store, the first copy of the cohort and a second one each show the writes before them; the store equals what was loaded, the first copy the store, and the second the first, exactly if the writes in between leave every byte as it was |
| Buffers.TieredLoaderKeepsWriting | cache/tiered.go:82-97 | the same with L2, which takes the bytes before L1 does |
| Buffers.Tiered.Get | cache/tiered.go:29-44 | hit in either tier: fresh bytes for the caller, a separate copy promoted, no other key touched; a failed L2 read is a miss |
| Buffers.Tiered.Set | cache/tiered.go:47-50 | L2 holds the bytes, or what it held if its write fails; L1 holds them in a buffer of its own, or nothing |
| Buffers.Tiered.Promote | cache/tiered.go:61-64 | the L2 hit of `GetOrSet` gives the caller a buffer that neither tier holds |
| Buffers.Tiered.Lead | cache/tiered.go:82-97 | the leader writes L2, dropping a write that fails, and then L1, or nothing on an error, and returns a fresh copy |
| Buffers.Tiered.GetOrSet | cache/tiered.go:54-98 | in each of the four outcomes, under failing reads and writes of either tier, the exact bytes, both tiers, and who holds which buffer |
| Tiered.Cache.DoGet | cache/tiered.go:29-44 | the method on the two maps computes the specified state and reply, promotion with TTL zero included |
| Tiered.Cache.DoSet | cache/tiered.go:47-50 | the method computes the specified state, with a failed L2 write dropped |
| Tiered.Cache.DoGetOrSet | cache/tiered.go:54-98 | the method computes the specified state and reply |
| Tiered.LoadedOnceThenServed | cache/tiered.go:54-98 | the loader runs exactly when neither tier answers; its value is served from L1, and after an L1 loss from L2, within the TTL; an error leaves the tiers alone |
| Tiered.SetThenServed | cache/tiered.go:47-50 | a `Set` is served from L1, and after an L1 loss from L2, until its TTL is over; what other keys are served with does not change |
| Tiered.WriteExpires | cache/tiered.go:47-50 | and no longer: right after a `Set` that L2 took, or a load, the key is a miss once the TTL is over |
| Tiered.PromotionExpires | cache/tiered.go:61-63 | a promoted entry lives for the TTL of the `GetOrSet` that promoted it |
| Tiered.UnreadableIsEmpty | cache/tiered.go:36-64 | while L2 cannot be read, replies and L1 are those of a cache whose L2 is empty, and `Get` changes nothing |
| Tiered.GetWritesOnlyPromotions | cache/tiered.go:31-44 | `Get` never writes L2, and L1 only at its own key and only to promote it |
| Tiered.PromotionServesFromL1 | cache/tiered.go:41-42 | after a promotion the key is served although L2 loses it |
| Freshness.DatedKept | cache/tiered.go:47-87 | any operation on a key with a TTL in (0, T], and any at all on other keys, keeps its L2 entry within T and its L1 entry within 2T of birth, unless a `Get` promotes it |
| Freshness.NeverOlderThanTwoTtls | cache/tiered.go:61-87 | over every run in which one key's TTLs are in (0, T] and no `Get` promotes it, none of its values is served more than 2T after it was supplied, whatever is lost, whatever fails, and whatever is done to other keys |
| Freshness.TwoTtlsIsReached | cache/tiered.go:61-64 | the bound is attained |
| Freshness.GetKeepsBoundIff | cache/tiered.go:42 | the age of what later `Get`s serve stays bounded exactly when this `Get` does not promote |
| Freshness.OutlivesTtlByPromotionOnly | cache/tiered.go:41-42 | over every run, until the key is first promoted, a value is served only within the TTL of the write that supplied it: only a promotion lets a value outlive its own TTL |
| Coherence.CoherentIff | cache/tiered.go:47-87 | an operation keeps both tiers in agreement with the value last written for a key exactly when it does not leave a different value of that key in L2 by a dropped write |
| Coherence.HitsAgreeWithLastWrites | cache/tiered.go:29-98 | over every sequential run without such a write for one key, each hit on it returns the value last written, under any eviction and expiry, whatever becomes of other keys |
| Coherence.DroppedWriteResurfaces | cache/redis.go:42-47 | a dropped L2 write and a lost L1 entry bring an overwritten value back |
| Breaker.Breaker.CurrentState | breaker/breaker.go:63-68 | the reported state is that of the history including this poll |
| Breaker.Breaker.Allow | breaker/breaker.go:73-87 | the answer and the new fields are those of the history including this poll |
| Breaker.Breaker.OnSuccess | breaker/breaker.go:90-105 | the new fields are those of the history with this success |
| Breaker.Breaker.OnFailure | breaker/breaker.go:108-121 | the new fields are those of the history with this failure |
| Breaker.Breaker.CheckOpenTimeout | breaker/breaker.go:125-130 | Open becomes HalfOpen when the timeout has passed, and nothing else changes |
| Breaker.Breaker.ToOpen | breaker/breaker.go:132-136 | the breaker opens now, with the failure count kept |
| BreakerHistory.StateDescribesHistory | breaker/breaker.go:73-136 | for every history: in Closed, `failures` is the failure run since the last success or closing, below the threshold; in HalfOpen, `successes` counts those since a poll entered it in time, with no failure since; in Open and HalfOpen, `failures` is the threshold |
| BreakerHistory.TransitionsExactly | breaker/breaker.go:90-136 | the exact event and count, in terms of the current phase's history, at which each change of phase happens, and that no other does |
| BreakerHistory.AllowMeansNotOpenIff | breaker/breaker.go:83 | `Allow` answers "not Open" after every history exactly when HalfOpenMaxSuccess is at least 1 |
| BreakerHistory.AllowExactly | breaker/breaker.go:79-86 | for every configuration and state: Closed admits, Open does not, HalfOpen admits while successes are below the limit |
| BreakerHistory.ProbesBoundedIff | breaker/breaker.go:82-83 | over all histories, the number of polls admitted in one HalfOpen phase is bounded exactly when HalfOpenMaxSuccess is below 1 |
| BreakerHistory.ThresholdTrips | breaker/breaker.go:112-117 | that many failures in a row open a fresh breaker, and no fewer |
| BreakerHistory.OpenHolds | breaker/breaker.go:107-130 | from a trip on, no call of any kind before the timeout changes the state |
| BreakerHistory.NoneAdmittedBeforeTimeout | breaker/breaker.go:76-86 | with a clock that does not go back, no `Allow` between a trip at t and t + OpenTimeout answers true |
| BreakerHistory.LateResultsChangeNothing | breaker/breaker.go:90-121 | a result reported while Open changes neither the state nor anything after it |
| BreakerHistory.ClosedAgainOnlyByProbes | breaker/breaker.go:97-103 | Closed is reached again only from HalfOpen, on exactly the required number of successes with no failure since a poll that came at least OpenTimeout after the trip |
| BreakerHistory.TripsAndClosingsArePaidFor | breaker/breaker.go:90-136 | over every history, trips from Closed exceed closings by 0 or 1, failures cover threshold times trips plus HalfOpen trips, and successes cover the limit times closings |
| Policy.Resolver.Resolve | policy/resolver.go:23-47 | the nested search returns the best of all matching rules as specified |
| Policy.ResolveIsFirstBest | policy/resolver.go:14-22 | the answer is the one candidate that beats all earlier and is beaten by no later: lower kind, longer match, earlier registration; not ok exactly when there is none |
| PolicyPriority.ResolveByPriority | policy/resolver.go:14-22 | by patterns alone: if a rule names the method exactly, the first such group answers; otherwise the first group with the longest prefix of it; otherwise the first with the longest regular-expression match; otherwise none |
| Policy.FirstBestIsUnique | policy/resolver.go:14-22 | the documented priority determines the answer |
| Policy.OkIffSomeRuleMatches | policy/resolver.go:22-46 | `ok` exactly when some rule of some group matches |
| Policy.CombineAssociative | policy/resolver.go:33-44 | keeping the better of two answers is associative, with "no match" as unit |
| Policy.ResolveIsHomomorphic | policy/resolver.go:27-45 | resolving against two lists of groups is keeping the better of the two answers |
| PolicyReorder.ReorderingIsHarmlessIff | policy/resolver.go:19-22 | the answer for a method survives every permutation of the groups, and of the rules within each, exactly when all unbeaten matches agree on group name and policy; trying each group at the front is enough to tell |
| Policy.AnsweringGroup | policy/resolver.go:27-46 | the group that answers for a method is one, exists exactly if the method resolves, and gives the answer's name and policy |
| PolicyReorder.DistinctPatternsAreOrderFree | policy/resolver.go:33-44 | with pairwise distinct exact and prefix patterns, one of which matches, order is irrelevant |
| PolicyReorder.SamePattern | policy/matcher.go:9-16 | two exact or two prefix matches of one length on one method are one pattern |
| RateLimit.RateLimitState.LimiterFor | interceptors/ratelimit.go:30-37 | the limiter is the one of the bucket the method is charged to, made if it was missing |
| RateLimit.RateLimitState.GroupLimiter | interceptors/ratelimit.go:41-54 | a name that has a limiter keeps it; a new name gets one made from the rule; no two names share one |
| RateLimit.RateLimitState.Admit | interceptors/ratelimit.go:67-69 | decision and all buckets after a request are as specified |
| RateLimit.Limiter.Allow | ratelimit/limiter.go:20-22 | an abstract bucket takes one token for each request it admits, and none otherwise |
| RateLimit.DebitsOneBucket | interceptors/ratelimit.go:30-54 | a request touches exactly one bucket, takes exactly the token it is admitted on, and leaves every other bucket as it was |
| RateLimit.BucketMadeOnce | interceptors/ratelimit.go:45-53 | over every run, a group's bucket is made by the first request charged to it, from that request's rule, and never replaced |
| RateLimit.TokensConserved | interceptors/ratelimit.go:67-72 | over every run, admissions by a bucket plus its remaining tokens are at most its initial tokens plus refills, and equal without refills |
| RateLimit.NewTokensConserved | interceptors/ratelimit.go:48-53 | the same for a group's bucket that the run itself makes, which starts with the burst of the first charged request's rule; if the run makes none, it admits nothing |
| RateLimit.NewGlobalAdmitsBurst | ratelimit/limiter.go:13-17 | a new global limiter admits as many requests at once as its burst, whatever its rate |
| RateLimit.NewGroupAdmitsRate | interceptors/ratelimit.go:48-53 | a group whose bucket is still to be made admits as many at once as its rule's rate |
| RateLimit.AdmitsWhatItHolds | ratelimit/limiter.go:19-22 | without refills a bucket admits one request for each token it holds |
| RateLimit.RefillFills | ratelimit/limiter.go:13-17 | a refill adds its tokens to one existing bucket, up to its burst |
| RateLimit.ChargedTo | interceptors/ratelimit.go:30-37 | a method is charged to the bucket of the group that the resolver answers with, if that group limits it, and otherwise to the global one |
| RateLimit.OwnRulesIff | interceptors/ratelimit.go:39-54 | after every run each limited method is charged to a bucket made from its own group's rule exactly when no group name carries two rules |
| RateLimit.BucketForEachGroupIff | interceptors/ratelimit.go:39-54 | methods limited by different groups are charged to different buckets exactly when no two groups that answer limited methods share a name |
| RateLimit.IsolatedIff | interceptors/ratelimit.go:48-53 | over every run, requests limited by one group change nothing for another group's methods, exactly when no two such groups, of which one admits anything, share a name |
| RateLimit.SameRuleStillShares | interceptors/ratelimit.go:48-50 | two groups of one name and one rule: all buckets follow their own group's rule, and the one group's only token is gone after a request for the other |
| RateLimit.UniqueNameKeepsItsRule | interceptors/ratelimit.go:45-53 | over every run, the bucket of a group whose name no other group has is made from that group's own rule, whatever the other groups are called |
| RateLimit.UniqueNamesDoNotConflict | policy/group.go:67-69 | group names used once never carry two rules |
| Middleware.MiddlewareBuilder.Add | internal/core/middleware.go:26-32 | appends one entry |
| Middleware.MiddlewareBuilder.Build | internal/core/middleware.go:36-54 | sorts the entries in place by the stable sort and splits them |
| Middleware.SplitKeepsPlaces | internal/core/middleware.go:44-51 | each entry contributes its interceptors at its own place in both lists, and a nil one contributes nothing |
| Middleware.SortIsStable | internal/core/middleware.go:37-39 | sorted, a permutation, and in registration order within each priority |
| Middleware.StableSortIsUnique | internal/core/middleware.go:34-39 | no other list is sorted and keeps registration order within each priority |
| Middleware.SameChainIff | internal/core/middleware.go:36-54 | two registrations build the same chain exactly when they agree on the order within each priority |
| Middleware.BuildingEarlyIsHarmless | internal/core/middleware.go:36-39 | building, adding and building again gives what building once would have; building is idempotent |
| Middleware.SameSide | internal/core/middleware.go:44-51 | one side of the chain depends on nothing but the order of that side's interceptors within each priority |
| Chain.Invoke | interceptors/chain.go:25-33 | the downward loop that rebinds the handler computes what the chained interceptor is specified to |
| Chain.ChainIsFold | interceptors/chain.go:11-35 | for zero, one and many interceptors alike, serving through the chain is the right fold around the handler |
| Chain.FoldOfAppend | interceptors/chain.go:25-33 | the fold of a concatenation is the fold of the first part around the fold of the second |
| Chain.ChainOfChains | interceptors/chain.go:39-63 | chaining two chains is chaining the concatenation, for interceptors that can only call their handler |
| Chain.Onion | interceptors/chain.go:19-34 | the effect log: entries in order up to the first rejection, the handler only if there is none, exits in reverse |
| Chain.HandlerRunsIffNoneRejects | interceptors/chain.go:19-34 | the handler runs once if no interceptor rejects, and otherwise not at all |
| Pipeline.GateLaw | options.go:17-25 | in a chain in order of priority, a stage is entered only after every stage of lower number let the request pass, and the handler only after all |
| Pipeline.RunEvaluates | interceptors/chain.go:19-34 | state and reply of the chained closures are those of direct evaluation |
| Pipeline.BlockedChangesNothing | interceptors/ipblock.go:18-31 | a denied request changes no state at all, and stops no later than at the address checks |
| Pipeline.BlockedIsDenied | interceptors/ipblock.go:26-28 | it is answered with PermissionDenied unless a check or tracing panics |
| Pipeline.StoppedBeforeAuth | interceptors/ratelimit.go:67-72 | a request stopped at or before the rate limit runs no user code and gets ResourceExhausted, PermissionDenied or the panic's reply according to the stage |
| Pipeline.StoppedEarlyAnswers | interceptors/auth.go:18-60 | whichever of the toolkit's stages stops a request, its own answer and its own state are what comes out, except that a panic behind recovery comes out as Internal |
| Pipeline.EmptyBucketStops | interceptors/ratelimit.go:67-69 | in a chain in order, a request gets no further than a rate limit whose bucket is empty when the request arrives |
| Pipeline.RefusalStops | interceptors/auth.go:34-40 | nor further than an authentication that refuses it |
| Pipeline.PanicLaw | interceptors/recovery.go:11-28 | a panic behind the recovery slot comes out as Internal if recovery is installed, a panic in tracing as a panic, everything else unchanged |
| Pipeline.PanicEscapesIff | interceptors/recovery.go:20-26 | exactly when a panic leaves the chain |
| Options.Config.Apply | options.go:31-119 | what each option registers, and at which priority; a rate limit captures the resolver set so far |
| Options.NewServer | server.go:42-54 | applying the options in turn and building gives the specified chains |
| Options.ServerChainsInOrder | options.go:17-25 | for every list of options both chains are in order of priority |
| Options.ServerGates | docs/architecture.md:130-137 | for every list of options: no rate limit, authentication or user code before the address checks pass, none of the latter two before the rate limits, no user interceptor before authentication, no handler before all |
| Options.ServerBlocks | docs/architecture.md:133 | for every list of options, a request denied by a stage debits no bucket, changes no state, enters nothing behind the checks, and gets PermissionDenied |
| Gates.LimitsAreInstalled | options.go:111-119 | the rate limits of a server are those its options configure, each with the resolver set before it |
| Gates.AuthsInOrder | options.go:92-96 | a server authenticates with its configured functions, in the order of their options, on both sides |
| Gates.ServerThrottles | docs/architecture.md:134 | for every list of options: while a configured rate limit holds no token for the method, no request for it reaches authentication, user code or the handler, and the users' state stays; it gets ResourceExhausted unless tracing or an address check stops it before |
| Gates.ServerAuthenticates | options.go:76-96 | for every list of options: a request that the first configured function refuses, or any that refuses everybody, reaches no user interceptor and no handler and is not answered; stopped by authentication, it gets the refusal's own status, or Unauthenticated if that has none |
| ServerChain.ServerChainIsDocumented | docs/architecture.md:126-137 | for every list of options, each side's chain is: tracing, recovery, address checks, rate limits with the resolver set before them, authentication, request identifiers, user interceptors of that side, each kind in the order of its options |
| ServerChain.UsersInOrder | options.go:30-42 | the user stages of a chain are the non-nil interceptors given for its own side, in order, and no others |
| Options.InstallsExactly | options.go:30-119 | which option puts which stage on which side, for stages of every kind; authentication passes its context on, and a request identifier is drawn, on unary calls only |
| ServerMeaning.ServerDoesWhatItsOptionsMean | options.go:16-119 | for every list of options, request and handler: the built chain leaves the state and gives the reply that the options mean, told without it - tracing may crash; the first check that objects; each limit takes its token until one has none; each authentication sees what the one before granted, on unary calls; a missing identifier is drawn, on unary calls; the first user interceptor of the side outermost around the handler; with a recovery a panic behind tracing is Internal |
| Debits.StageDebits | interceptors/ratelimit.go:67-72 | a rate limit passes a request on unchanged exactly if the charged bucket, or the one it has to make, has a token, and takes it |
| Debits.RunDebits | interceptors/ratelimit.go:60-73 | in a request through a chain, each rate limit that is entered lets it pass exactly if its bucket held a token when the request arrived, and takes exactly that token |
| Debits.RunKeepsOthers | interceptors/ratelimit.go:60-90 | every bucket that no entered limit charges keeps its tokens: other groups, limiters not reached, the groups of the other side |
| Debits.ServerHasOneOfEach | options.go:111-119 | either side of a server uses each of its limiters once |
| Debits.ServerConserves | options.go:98-119 | over every sequence of unary and stream requests to one server, what a bucket let pass and what is left of it make up what it held |
| Debits.ServerConservesNew | interceptors/ratelimit.go:48-53 | for a group's bucket that is still to be made, they make up the rate of the rule that the first request found; if none comes, nothing passes |
| Options.RegistrationOrder | internal/core/middleware.go:36-51 | stages of one priority stand in a server's chain in the order in which the options registered them |
| Options.StagesAreInstalled | options.go:31-119 | apart from rate limits, the stages of a server are those its options install, no more and no fewer |
| Options.RecoveryInstalledIff | options.go:47-52 | a server recovers exactly if some option asks for it |
| Options.TracingCrashesIff | options.go:208-216 | a chain's tracing panics exactly if some configured tracing does |
| Options.DeniedRequestsAreHarmless | options.go:61-74 | whatever the options and their order, a request that a configured blocker denies debits nothing and reaches no handler |
| Options.ServerPanicsIff | options.go:44-52 | with `WithRecovery` among the options, a panic leaves the chain exactly when tracing panics |
| OptionOrder.SameServerIff | options.go:111-119 | any two lists of options build the same server exactly when they register the same stages, in the same order, at each priority on each side |
| OptionOrder.OptionOrderIrrelevantIff | options.go:111-119 | two lists with the same registering options, those of one kind in the same relative order (unary and stream interceptors are two kinds), build the same server exactly when each rate limit reads the same resolver in both |
| OptionOrder.OptionOrderIrrelevant | docs/architecture.md:141-147 | with the resolvers set before the rate limits, any two orders that keep the order within each kind of registering option, and end with the same resolver, build the same server |
| OptionOrder.OrderCanMatter | options.go:115-116 | swapping `WithResolver` and `WithRateLimitGlobal` builds another server |
| OptionOrder.ChainShowsCaptures | options.go:111-119 | the rate-limit stages of a server hold, in order, the resolver in force when each was applied |
| Retry.Do | retry/retry.go:40-73 | at most max(MaxAttempts, 1) calls, all but the last failed with a status whose code is in RetryCodes and were followed by a won timer, the exact reason for stopping and the reply for it, and the delays of attempts 0, 1 and so on; the trailing return is never reached |
| Retry.CallsDetermined | retry/retry.go:44-69 | that specification fits exactly one number of calls |
| Retry.DoneContextStopsIff | retry/retry.go:38-39 | at a retry's wait with a done context, every choice of the `select` stops there exactly when the timer is not ready |
| Retry.RetriesWithDoneContext | retry/retry.go:63-68 | for any number of attempts, a run that makes them all although the context is done throughout |
| Retry.Backoff | retry/backoff.go:15-28 | the stepwise computation gives the specified delay |
| Retry.DelayWithoutJitter | retry/backoff.go:12-22 | without jitter the delay is the exponential, capped, and never negative |
| Retry.DelaysDouble | retry/backoff.go:16-19 | without jitter the first delay is BaseDelay and each next one twice the one before, or MaxDelay if that is less |
| Retry.JitterIsProportional | retry/backoff.go:20-22 | the jittered delay is (1 - Jitter) times the delay at draw 0, the delay itself at one half, and in proportion in between and beyond |
| Retry.DelayAtLeast | retry/backoff.go:20-27 | the lower side: the delay is at least (1 - Jitter) times the capped exponential, rounded down |
| Retry.DelayBounded | retry/backoff.go:20-27 | for any configuration, the delay is within the size of the capped exponential times one plus the jitter |
| Retry.TotalWaitBounded | retry/retry.go:60-68 | with n attempts the waits sum to at most min(Base*(2^(n-1)-1), (n-1)*Max) times 1 + Jitter; with a negative Base or Max, sizes count, and of the two bounds the other one, or their sum, holds |
| Retry.CapHoldsIff | retry/backoff.go:16-22 | for any configuration, every draw keeps the delay within MaxDelay exactly when MaxDelay is not negative and the capped delay with all its jitter stays under the next nanosecond |
| Retry.JitterCanExceedCap | retry/backoff.go:20-22 | a delay above MaxDelay |

## Left out

- Ristretto and Redis themselves: both are maps that may lose entries at any time; an L1 write leaves the new value or
  nothing, a Redis access may fail silently. One process writes to Redis.
- Loaders that panic or call `GetOrSet` for their own key: the code has no handling for them, and loaders are taken
  to return.
- Coherence.HitsAgreeWithLastWrites: speaks of runs whose dropped L2 writes leave no different live value in L2, the
  exact condition of `CoherentIff`.
- SingleflightAccounting.LoadedOnceIff: speaks of keys that L1 keeps, whose loads succeed and that nobody sets; with a lost
  entry a second load is what the cache is meant to do. `LoadStartsBounded` counts those too.
- Negative TTLs, and the difference between a nil and an empty byte slice. An entry is live up to and including its
  expiry instant, in both tiers.
- RateLimit.Limiter.Allow: does not refill by the time that has passed, because `golang.org/x/time/rate` is not part of
  this model. A bucket holds whole tokens, starts full, and is refilled by events of any size at any
  time; the refill rate is kept as the rule it comes from and is not computed, so zero windows and infinite rates have
  no special meaning.
- Debits.ServerConserves: has no refills between the requests; `RateLimit.TokensConserved` counts those in, for one
  interceptor.
- OptionOrder.OptionOrderIrrelevantIff: compares lists that keep the order of registering options of one kind, because two
  interceptors, two blockers or two authentications are meant to run in the order given; `SameServerIff` has no such
  condition.
- User interceptors are given by what they do before and after: they call their handler at most once, and what they do
  after sees the result but not the request. `Chain.ChainIsFold` and `Chain.ChainOfChains` hold of interceptors that
  call it any number of times.
- Regular expressions: an arbitrary function from pattern and method to a match length.
- `net/netip` and the header rules of the address check: a request is allowed, denied or makes the check panic.
- Tracing: a stage that may panic on entry and otherwise passes the request on; spans are not modelled.
- Request identifiers: drawn in advance. Metadata is part of the request's context. The `auth` package's helper types.
- The library's stable sort is modelled by its specification, an insertion sort on values; in-place movement and
  aliasing of the slice are not.
- Streams: one request through the chain stands for the opening of the stream, and messages on it are not modelled.
- Floating point: reals are exact; NaN, infinities and overflow of 64-bit integers and durations do not arise.
- The circuit breaker does not limit outstanding probes, and no such claim is made. Its clock is a parameter of
  every call.
- Ping, metrics, server lifecycle, cache construction and the other options: no state beyond one assignment.
