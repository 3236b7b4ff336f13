# Key pool system: verified model

A Dafny 4.11 model of the stateful core of the key pool proxy: the two key selection strategies,
key acquisition with its leases and rate limits, the circuit breaker, the preemptive priority queue
with its dispatcher goroutine, and the life of a request through workers and retries.
`dafny verify dfyconfig.toml` checks everything.

## How it is organised

| file | models | main results |
|---|---|---|
| `WeightedRR.dfy`, `SmoothRounds.dfy`, `WeightedFairness.dfy` | smooth weighted round robin | exact shares per period, period W, every window, lead below one pick, harmonic lag |
| `WeightedVarying.dfy` | the same on changing lists | floor of the accumulators, conservation over the map, few nils in a row |
| `RoundRobin.dfy` | plain rotation on a uint64 counter | floor/ceiling balance, and when it survives the wrap |
| `Strategies.dfy` | both strategies as objects | the loops compute the functions above |
| `CircuitBreaker.dfy` | the three-state breaker | it refines a stateless rule on its event history, and on which histories on any clock |
| `RateLimit.dfy` | the two fixed windows | sliding-interval bound for both windows at once; the exact worst case of a minute for all limits |
| `PoolKey.dfy`, `Manager.dfy` | key objects, GetKey, reload, strategy switch | GetKey is exactly a bounded search; a reload keeps runtime state |
| `Acquisition.dfy` | GetKey's retry loop on values | the exact guarantee for both strategies, its tightness, when the comments' promise holds, and nil among concurrent calls |
| `Leases.dfy` | workers, rollback and reload interleaved | lease conservation, round trips |
| `PriorityQueue.dfy`, `Queue.dfy` | container/heap over item objects, Enqueue, drain | refinement of a multiset with least-first removal; which item an eviction takes |
| `TopK.dfy` | preemption over a run | streaming top-k |
| `Dispatcher.dfy` | Enqueue, Close and the dispatch loop interleaved | no lost wakeup, one inversion at most, capacity, true records, an ending shutdown, what Close can lose |
| `Backoff.dfy`, `Lifecycle.dfy` | retries and the life of a request | one location, bounded attempts, final status, total backoff, nothing stuck |
| `Worker.dfy` | processItem and what it calls, branch by branch | one call is a path of the steps that `Lifecycle.dfy` reasons about |
| `Arithmetic.dfy`, `Wrappers.dfy` | integer division, real products, Option | used by the others |

Objects whose methods change fields are classes, proved against functions on values; protocols are
step machines with an enabling condition and an effect per step, and their theorems speak of every
run. Items are objects with immutable request ID, priority and creation time and a mutable heap index.

## Hypotheses

- Weights: the fairness theorems take any list with distinct IDs, non-negative weights and a positive
  total; the theorems on changing lists take weights of at least 1. The weight endpoint enforces
  at least 1 (internal/api/handlers.go:318); key creation only replaces 0.
- The breaker threshold is at least 1, and so is RetryMaxAttempts, which stays fixed in the attempts
  and backoff theorems. Database writes succeed there.
- Clock readings are parameters and never run backwards. GetKey takes one reading for the whole call.
- Key IDs are distinct (primary key), and so are request IDs.

## Where the code and its comments or documentation differ

- GetKey's loop guard (internal/keypool/manager.go:88) compares a growing counter with a shrinking
  length, so with rotation nil means that half of the admitted keys, rounded up, were refused, not that
  none can be taken; with weights a nil selection can end the call with fewer refused or none. The
  promise of the comments is kept in all states exactly when no key is admitted, or one that the
  strategy offers (`PromiseKeptIff`): for rotation, at most one key (`PromiseKeptIffAtMostOneKey`);
  with weights, at most one, whose accumulator its weight brings to 0 or more (`WeightedPromiseKeptIff`).
  `HalfIsTight` and `WeightedNilWithFreeKey` are states in which it fails.
- A key can exceed its per-minute limit within a minute. The most that a closed minute can hold is
  `MostInAMinute`, a function of the two limits that is reached and never exceeded (`MostIsExact`): with m
  a minute and d a day, both positive, 2d - 1 if that is at most m; otherwise 2d - 2 if d <= m; otherwise
  2m if 2m <= d < 1440m, and 2m - 1 for all other d. So the limit holds in every minute exactly when
  m <= 0, 2d <= m + 2, or m = 1 and d >= 1440 (`MinuteLimitHoldsIff`).
- Close promises that the remaining items are drained. `CloseLosesIff`: once it has set closed, an
  accepted item can still be lost exactly when one is in the heap or in the dispatcher's hand.
- Rotation is balanced across the wrap of its counter exactly when the number of keys divides 2^64
  (`BalancedAcrossWrapIff`), and the breaker follows the history rule on a clock that is set back exactly
  when `RefinesHistoryIff` says so.
- README.md of the repository promises eviction of the oldest low-priority item. The code evicts a newest
  item of the lowest priority, which is an oldest one exactly when all items of that priority have the
  same creation time (`EvictsOldestIff`, and `NewerIsEvicted` for two items). The model follows the code.

## Model

| member | source | states |
|---|---|---|
| WeightedRR.CallSettles | internal/keypool/weightedrr.go:44-66 | one call on distinct IDs: every listed key gains its weight, the pick alone pays the total, other accumulators stay |
| WeightedRR.CallChooses | internal/keypool/weightedrr.go:51-63 | nil exactly when every credited accumulator is at most -1, otherwise the first of the largest |
| WeightedRR.BestMeans | internal/keypool/weightedrr.go:52-59 | the scan finds the first maximum above -1, or nothing exactly when there is none |
| WeightedRR.DocumentedPattern | internal/keypool/weightedrr.go:11-14 | the documented A, A, B, A pattern, after which all accumulators are 0 again |
| SmoothRounds.Conserved | internal/keypool/weightedrr.go:44-66 | the accumulators of a fixed list always add up to 0 |
| SmoothRounds.BoundedBelow | internal/keypool/weightedrr.go:54-66 | no accumulator ever falls below W/n - W, for any tie-breaking |
| SmoothRounds.AlwaysLagBounded | internal/keypool/weightedrr.go:44-66 | no group of k keys is ever owed more than W * k * (1/(k+1) + ... + 1/n) |
| SmoothRounds.OwedAtMost | internal/keypool/weightedrr.go:44-66 | each accumulator stays at or below W * (1/2 + ... + 1/n) |
| WeightedFairness.SelectRuns | internal/keypool/weightedrr.go:36-75 | repeated Selects from Reset form a run, so the fairness theorems apply to the code |
| WeightedFairness.NeverNil | internal/keypool/weightedrr.go:61-63 | a fixed list with positive total weight never gets nil |
| WeightedFairness.Lead | internal/keypool/weightedrr.go:54-66 | after any number of calls no key is more than 1 - 1/n picks ahead of its share |
| WeightedFairness.Lag | internal/keypool/weightedrr.go:44-66 | no key is more than 1/2 + ... + 1/n picks behind its share |
| WeightedFairness.Proportional | internal/keypool/weightedrr.go:30-68 | W calls pick key i exactly w_i times and return every accumulator to 0 |
| WeightedFairness.Periodic | internal/keypool/weightedrr.go:36-69 | the selection sequence has period W |
| WeightedFairness.EveryWindow | internal/keypool/weightedrr.go:36-69 | every window of W calls, aligned or not, contains exactly w_i picks of key i |
| WeightedVarying.OfferedIsWithin | internal/keypool/manager.go:68-75 | any sublist of a pool weighs at most what the pool weighs |
| WeightedVarying.NeverBelowPool | internal/keypool/weightedrr.go:45-66 | on changing lists no accumulator drops below minus the pool's total weight |
| WeightedVarying.SumIsNilWeight | internal/keypool/weightedrr.go:45-66 | the whole map adds up to exactly the weight credited by calls that returned nil |
| WeightedVarying.FewNilsInARow | internal/keypool/weightedrr.go:53-63 | one list gets nil at most Wmax - 1 times in a row |
| RoundRobin.SelectsAreBalanced | internal/keypool/roundrobin.go:26-37 | m repeated Selects, each on the counter that the one before left, return each of n keys floor(m/n) or ceil(m/n) times, while the counter does not wrap |
| RoundRobin.RotationIsBalanced | internal/keypool/roundrobin.go:26-37 | the positions of m consecutive counters are balanced, while the counter does not wrap |
| RoundRobin.WrapSkips | internal/keypool/roundrobin.go:32-33 | across the uint64 wrap the balance fails, on concrete numbers |
| RoundRobin.BalancedAcrossWrapIff | internal/keypool/roundrobin.go:26-37 | over every counter and any number of calls and wraps, balance holds exactly when n divides 2^64 |
| Strategies.RoundRobinStrategy.Select | internal/keypool/roundrobin.go:26-37 | nil only for the empty list, otherwise the key at counter modulo length, and the uint64 counter goes up by one |
| Strategies.WeightedRoundRobinStrategy.CreditAll | internal/keypool/weightedrr.go:45-49 | the first loop credits every key and totals the weights |
| Strategies.WeightedRoundRobinStrategy.FindHighest | internal/keypool/weightedrr.go:51-59 | the second loop returns the first maximum above -1 |
| Strategies.WeightedRoundRobinStrategy.Select | internal/keypool/weightedrr.go:36-69 | one call is exactly one step of the scheduler on the accumulators |
| CircuitBreakers.ReplayMeaning | internal/keypool/circuitbreaker.go:19-29 | what state, count and time mean in terms of the event history |
| CircuitBreakers.BreakerRefinesHistory | internal/keypool/circuitbreaker.go:44-88 | a request is allowed exactly when trailing failures are below the threshold or the last failure is old enough |
| CircuitBreakers.RefinesHistoryIff | internal/keypool/circuitbreaker.go:44-65 | on any clock the decision is the rule's exactly unless a late question has left the breaker half-open while the last failure is too recent |
| CircuitBreakers.AskingChangesNoDecision | internal/keypool/circuitbreaker.go:44-65 | erasing all earlier AllowRequest calls changes no later decision |
| CircuitBreakers.OpensAtThreshold | internal/keypool/circuitbreaker.go:44-88 | after k failures in a row a request is refused exactly when k reaches the threshold, and for openDuration |
| CircuitBreakers.SuccessCloses | internal/keypool/circuitbreaker.go:68-112 | after a success or a reset every request is let through |
| CircuitBreakers.HalfOpenFailureReopens | internal/keypool/circuitbreaker.go:78-88 | a failure in half-open always reopens |
| CircuitBreakers.ClockSetBack | internal/keypool/circuitbreaker.go:53-60 | without a monotone clock the refinement fails, on concrete numbers |
| CircuitBreakers.CircuitBreaker.AllowRequest | internal/keypool/circuitbreaker.go:44-65 | answers by the history rule, and records the question |
| CircuitBreakers.CircuitBreaker.RecordSuccess | internal/keypool/circuitbreaker.go:68-74 | the stored state is the replay of the history with one success more |
| CircuitBreakers.CircuitBreaker.RecordFailure | internal/keypool/circuitbreaker.go:78-88 | the stored state is the replay of the history with one failure more |
| CircuitBreakers.CircuitBreaker.Reset | internal/keypool/circuitbreaker.go:105-112 | the stored state is the replay of the history with a reset |
| RateLimits.SlidingBound | internal/keypool/types.go:59-63 | one window, whatever the other does: at most limit * (ceil(d / length) + 1) grants in any closed interval of length d |
| RateLimits.LimiterSlidingBound | internal/keypool/types.go:53-82 | both windows obey that bound at the same time, from any state |
| RateLimits.AtMostDoubleInAMinute | internal/keypool/types.go:53-82 | any 60 seconds, in nanoseconds, hold at most twice the per-minute limit |
| RateLimits.AtMostDoubleInADay | internal/keypool/types.go:53-82 | any 24 hours, in nanoseconds, hold at most twice the per-day limit |
| RateLimits.WindowEdgeBurst | internal/keypool/types.go:59-63 | for every limit k >= 2 with 2k within the day limit, a new key grants 2k - 1 calls within a nanosecond |
| RateLimits.DoubleIsAttained | internal/keypool/types.go:53-82 | the bound of twice the limit in a minute is reached from a new key, for every limit k with 2k <= perDay < 1440k |
| RateLimits.AtMostTheMost | internal/keypool/types.go:53-82 | no closed minute of any run of a new key holds more grants than MostInAMinute of the limits |
| RateLimits.MostIsReached | internal/keypool/types.go:53-82 | for all limits some run of a new key reaches that number in some minute |
| RateLimits.MostIsExact | internal/keypool/types.go:53-82 | so that number is the exact worst case of a minute, for all limits |
| RateLimits.MinuteLimitHoldsIff | internal/keypool/types.go:53-82 | for which limits every minute of every run of a new key keeps the per-minute limit, both directions |
| PoolKeys.PoolKey.TryConcurrentAcquire | internal/keypool/types.go:30-39 | takes a slot exactly when the count is below the limit, as the lease protocol's acquire |
| PoolKeys.PoolKey.ConcurrentRelease | internal/keypool/types.go:42-49 | gives one slot back, never below zero, as the lease protocol's release |
| PoolKeys.PoolKey.TryRateLimit | internal/keypool/types.go:53-82 | in the fields: granted exactly when both counters, reset if their windows are over, are below their limits; one more in each then; as the limiter of the sliding bound |
| Acquisition.TryIsBoundedSearch | internal/keypool/manager.go:88-117 | the loop is a search of the first ceil((n - attempts)/2) keys of the probing order |
| Acquisition.GetKeyServesIffReachable | internal/keypool/manager.go:77-117 | a key is returned exactly when one of the first ceil(n/2) probes can be taken; on nil exactly those were refused |
| Acquisition.TakenIsAcquirable | internal/keypool/manager.go:88-114 | for both strategies the returned key is a listed one that both limits allow |
| Acquisition.RotationProbesAll | internal/keypool/manager.go:88-112 | with rotation the probing order is a permutation of the admitted keys |
| Acquisition.RotationNilMeansHalfRefused | internal/keypool/manager.go:88-117 | with rotation nil means ceil(n/2) of n admitted keys were refused, once each |
| Acquisition.NilAmongOthers | internal/keypool/manager.go:80-117 | both strategies, whatever other calls do meanwhile: nil means that a selection gave no key, or exactly ceil(n/2) distinct keys refused, each when it was tried |
| Acquisition.TryIsOneOfThem | internal/keypool/manager.go:80-117 | for both strategies an undisturbed call is one of those interleavings, so the two models of the loop agree |
| Acquisition.MajoritySuffices | internal/keypool/manager.go:88-117 | more than floor(n/2) acquirable keys always suffice, from any counter |
| Acquisition.HalfIsTight | internal/keypool/manager.go:88 | for every pool and counter, floor(n/2) acquirable keys can still give nil |
| Acquisition.PromiseKeptIff | internal/keypool/manager.go:63-92 | for any strategy state: nil means that no admitted key can be taken, over all states of the keys, exactly when none is admitted or one that the strategy offers |
| Acquisition.PromiseKeptIffAtMostOneKey | internal/keypool/manager.go:63-88 | nil means that no admitted key can be taken, over all states, if and only if at most one key is admitted |
| Acquisition.WeightedPromiseKeptIff | internal/keypool/manager.go:63-92 | with weights: exactly when none is admitted, or one whose credited accumulator is not negative |
| Acquisition.GuardOnLengthIsComplete | internal/keypool/manager.go:87-88 | with the guard on the remaining length, nil would mean exactly that no admitted key can be taken |
| Acquisition.WeightedNilWithFreeKey | internal/keypool/manager.go:89-92 | with weights, nil for a free key that was not tried, on concrete numbers |
| Managers.RemoveKey | internal/keypool/manager.go:346-354 | the list without the target, in order |
| Managers.WithoutIsRemoveAt | internal/keypool/manager.go:346-354 | on distinct keys that removes exactly one position |
| Managers.TryKey | internal/keypool/manager.go:95-112 | in the fields: succeeds exactly when a slot is free and both windows have room; a refusal by the rate limit restores the slot, one for want of a slot changes nothing |
| Managers.AdmittedAreKeys | internal/keypool/manager.go:69-75 | the list holds exactly the pool keys that their breakers let through |
| Managers.Manager.AskBreakers | internal/keypool/manager.go:69-75 | asks every breaker once and keeps, in order, the keys whose history admits them |
| Managers.Manager.SelectKey | internal/keypool/manager.go:82-92 | rotation by the counter, or the key with the highest credited accumulator when weights are active; the other strategy is untouched; rotation for unknown names |
| Managers.Manager.SelectAndTry | internal/keypool/manager.go:88-114 | one iteration: the strategy's choice, taken exactly when both limits allow, dropped from the list otherwise |
| Managers.Manager.Attempt | internal/keypool/manager.go:88-114 | one iteration: what is left to do is the rest of the search, and no other key is touched |
| Managers.Manager.AttemptTracked | internal/keypool/manager.go:88-114 | one iteration keeps the account of the loop: which keys are untouched, and that refused ones hold what they held |
| Managers.Manager.SearchKeys | internal/keypool/manager.go:82-117 | the loop is the search, and what every listed key went through |
| Managers.Manager.TryKeys | internal/keypool/manager.go:77-117 | in the fields: the returned key had a slot and room in both windows, is charged once in each and holds one lease more; no other listed key's count changes |
| Managers.Manager.ListAdmitted | internal/keypool/manager.go:69-75 | exactly the keys without a breaker or whose history admits them, each once |
| Managers.Manager.GetKey | internal/keypool/manager.go:64-118 | in the fields: the returned key was let through by its breaker, had a slot and room in both windows; its lease count and counters rise by one, no other count changes; keys without a slot are untouched |
| Managers.Manager.Existing | internal/keypool/manager.go:267-270 | the index of the pool by ID |
| Managers.KeyFor | internal/keypool/manager.go:275-302 | a known ID keeps its object with the new configuration; otherwise a new key with no leases, fresh windows and a fresh breaker with the given settings |
| Managers.BuildKeys | internal/keypool/manager.go:272-303 | one object per row in row order, with breakers of their own |
| Managers.Manager.ReloadKeys | internal/keypool/manager.go:252-305 | known keys keep their object and all runtime state and take every column of their row; new ones start fresh, breaker included; a failed read changes nothing |
| Managers.Manager.UpdateStrategy | internal/keypool/manager.go:308-325 | switches to a known other strategy from a clean state, otherwise changes nothing |
| Leases.StepConserves | internal/keypool/manager.go:94-114 | every step keeps: currentConcurrent of every key object is the number of workers holding a lease on it |
| Leases.LeasesConserved | internal/keypool/manager.go:64-123 | that conservation in every reachable state, including objects that a reload removed from the pool |
| Leases.NoReleaseSaturates | internal/keypool/types.go:42-49 | the zero guard of the release never takes effect in any run |
| Leases.AcquireWithinLimit | internal/keypool/types.go:30-39 | an acquire ends at or below the limit then in force |
| Leases.AcquireSucceedsIff | internal/keypool/types.go:30-39 | an acquire takes a slot exactly when fewer leases are held than the limit allows, and otherwise changes nothing |
| Leases.LeaseRoundTrip | internal/keypool/manager.go:94-123 | a free listed key can be taken, and released later, or rolled back and given up, everything is as before |
| Leases.ReloadTakesLimits | internal/keypool/manager.go:272-302 | after a reload every listed key has the limit of its row and the leases it had |
| Leases.ReloadWaitsForReaders | internal/keypool/manager.go:263-264 | a reload is possible exactly when no worker is inside GetKey, and takes no lease away |
| Leases.QuietMeansZero | internal/worker/worker.go:121-159 | when no worker is busy all counts are zero |
| PriorityQueues.RootIsLeast | internal/queue/priority_queue.go:9-20 | the heap root is least by (Priority, CreatedAt) |
| PriorityQueues.PriorityQueue.Less | internal/queue/priority_queue.go:15-20 | lower priority number first, then older |
| PriorityQueues.PriorityQueue.Swap | internal/queue/priority_queue.go:22-26 | exchanges two items and keeps every item's index |
| PriorityQueues.PriorityQueue.Append | internal/queue/priority_queue.go:29-33 | appends and sets the index |
| PriorityQueues.PriorityQueue.CutLast | internal/queue/priority_queue.go:36-44 | removes the last item and marks it |
| PriorityQueues.PriorityQueue.Up | internal/queue/queue.go:91 | sifting up restores the heap, keeps the items and their indexes |
| PriorityQueues.PriorityQueue.Down | internal/queue/queue.go:149 | sifting down restores the heap, or leaves the item in place with only its parent to check |
| PriorityQueues.PriorityQueue.Init | internal/queue/queue.go:50 | any indexed slice becomes a heap of the same items |
| PriorityQueues.PriorityQueue.Push | internal/queue/queue.go:91 | the heap gains exactly that item |
| PriorityQueues.PriorityQueue.Pop | internal/queue/queue.go:149 | the heap loses exactly one item, and nothing was ahead of it |
| PriorityQueues.PriorityQueue.Remove | internal/queue/queue.go:88 | the heap loses exactly the item at that index |
| Queues.Queue.FindLowestPriority | internal/queue/queue.go:185-199 | an item that would leave last, the first such in the slice; nil only when empty |
| Queues.EvictsOldestIff | internal/queue/queue.go:183-199 | an eviction takes a newest item of the lowest priority, so an oldest one exactly when all items of that priority are of one age |
| Queues.NewerIsEvicted | internal/queue/queue.go:68-91 | of two items of one priority the newer one always goes |
| Queues.Queue.MakeRoom | internal/queue/queue.go:68-89 | refuses unless preempting a strictly lower priority, and then evicts exactly the worst item |
| Queues.Queue.Enqueue | internal/queue/queue.go:60-101 | the whole decision: closed, full, accepted, or accepted by evicting; contents and notify token afterwards |
| Queues.Queue.TakeNext | internal/queue/queue.go:144-150 | takes one item that nothing is ahead of, or nothing when empty |
| Queues.Queue.Close | internal/queue/queue.go:118-126 | closed and done both hold afterwards, done never before closed; a second call changes nothing and does not close the channel again; items stay |
| Queues.Queue.DrainRemaining | internal/queue/queue.go:165-180 | the drain is a sorted permutation of the contents, each item sent or dropped by whether a worker waits |
| Queues.SentOrDropped | internal/queue/queue.go:171-178 | every drained item is sent or dropped, exactly once |
| Queues.AllSent | internal/queue/queue.go:171-173 | with a worker always waiting nothing is dropped |
| TopK.KeepsLowestPriorities | internal/queue/queue.go:68-91 | over any offers a preemptive queue of size k keeps k items of the lowest priority numbers offered |
| TopK.KeepsMostUrgent | internal/queue/queue.go:68-91 | when items arrive in CreatedAt order it keeps the k least by (Priority, CreatedAt) |
| Dispatcher.KeepsInv | internal/queue/queue.go:60-180 | every step of every goroutine keeps all queue invariants |
| Dispatcher.NoLostWakeup | internal/queue/queue.go:91-98 | with items waiting and no Enqueue inside its critical section, a token is in the slot or the dispatcher is not parked |
| Dispatcher.DispatcherCanMove | internal/queue/queue.go:131-162 | with items waiting the dispatcher can wake, pop a least item, or waits only for a worker |
| Dispatcher.CapacityHolds | internal/queue/queue.go:68-91 | heap at most maxSize, with the held item at most maxSize + 1 |
| Dispatcher.RecordsAreTrue | internal/queue/queue.go:142-180 | in every run the recorded deliveries are exactly what was handed to workers, in order, and the recorded losses what was dropped |
| Dispatcher.NothingLostBeforeDone | internal/queue/queue.go:142-160 | until done is closed nothing is dropped: every accepted item waits, is held, was delivered or was evicted |
| Dispatcher.WakeupsArePaid | internal/queue/queue.go:131-151 | at most one wakeup per token sent, and at most one empty look at the heap per wakeup |
| Dispatcher.RestsOnlyWhenIdle | internal/queue/queue.go:131-151 | with the lock free the dispatcher is parked with an empty heap and no token, or can move |
| Dispatcher.DoneIsSeenOnce | internal/queue/queue.go:134-160 | once it has seen done, in either select, it never wakes, pops or sends outside the drain again |
| Dispatcher.AtMostOneInversion | internal/queue/queue.go:142-160 | between an item's admission and its delivery at most one less urgent item is delivered |
| Dispatcher.ShutdownIsFinal | internal/queue/queue.go:154-180 | after the dequeue channel closes: heap empty, no send, no second close, in every later state |
| Dispatcher.ClosesOnce | internal/queue/queue.go:138 | the dequeue channel is closed at most once |
| Dispatcher.DrainTerminates | internal/queue/queue.go:165-180 | during the drain no step grows the heap and each drain step shrinks it, and one is always possible |
| Dispatcher.ShutdownEnds | internal/queue/queue.go:154-180 | from then on exactly heap size plus three of its own steps close the channel; nobody changes that number, and the next one is never blocked |
| Dispatcher.NothingLeftBehind | internal/queue/queue.go:118-180 | at the end every accepted item was delivered, evicted or dropped |
| Dispatcher.CloseLosesIff | internal/queue/queue.go:116-180 | once closed is set, some continuation drops an item exactly when one is in the heap or in the dispatcher's hand; pending items were accepted, and all of them can be dropped |
| Dispatcher.HeldItemCanBeLost | internal/queue/queue.go:153-158 | a run in which the heap is empty when Close is called and the accepted item is lost all the same |
| Backoff.DelayDoubles | internal/worker/retry.go:21-24 | the delay before jitter starts at the base and doubles with every attempt, up to the cap |
| Backoff.DelaysGrowToCap | internal/worker/retry.go:21-24 | delays before jitter never shrink and never exceed the cap |
| Backoff.ExactBackoff | internal/worker/retry.go:25-29 | one delay is that plus the drawn part of half a base, truncated |
| Backoff.OneBackoff | internal/worker/retry.go:15-29 | one delay lies within truncation below and half a base above the capped exponential |
| Backoff.TotalIsBounded | internal/worker/retry.go:15-29 | m failure retries wait less than base * (2^m - 1) + m * base/2 and less than m * (max + base/2) |
| Workers.Worker.HandleFailure | internal/worker/worker.go:197-217 | a timer and one more recorded retry exactly while attempts are left, otherwise failed for good |
| Workers.Worker.Skip | internal/worker/worker.go:106-119 | an unreadable, missing or already final request is let go of, as the protocol's skip step |
| Workers.Worker.RequeueWithDelay | internal/worker/worker.go:232-235 | without a key the item goes to a timer and the row stays, as the protocol's step |
| Workers.Worker.MarkProcessing | internal/worker/worker.go:129-132 | the row is marked with one attempt more while the worker keeps the old count, as the protocol's step |
| Workers.Worker.DecryptFailed | internal/worker/worker.go:135-141 | a failed decryption is a failure retry, as the protocol's step |
| Workers.Worker.HandleResult | internal/worker/worker.go:161-187 | success, another try, or failed for good by the answer and the attempts; only that row changes |
| Workers.Worker.Settle | internal/worker/worker.go:161-187 | the same, as the protocol's finish step |
| Workers.Worker.ProcessItem | internal/worker/worker.go:99-188 | a whole call in the fields: which requests are let go of, go to a timer or are called for, what the row then says and where the item is; and it is the path of protocol steps that the answers of the world call for |
| Workers.RequestCanSucceed | internal/worker/worker.go:99-188 | the straight way of a request from submission to success is a run of the protocol |
| Lifecycle.KeepsInv | internal/worker/worker.go:99-255 | every step of workers, timers, handlers and queue keeps uniqueness and the row invariants |
| Lifecycle.OneLocation | internal/worker/worker.go:99-255 | every submitted request is in exactly one place in every reachable state |
| Lifecycle.NoSharedRequest | internal/worker/worker.go:74-91 | no two workers ever process the same request |
| Lifecycle.OfferedItemIsNotQueued | internal/worker/worker.go:239-255 | an item that is about to be enqueued is never already in the heap or in the dispatcher's hand |
| Lifecycle.FinalStatusStays | internal/worker/worker.go:116-119 | once success or failed, a row never changes again |
| Lifecycle.ColumnsCount | internal/worker/worker.go:129-159 | the row's columns count what happened in the run: calls made for the request, passes with a key, and pending exactly before the first of these |
| Lifecycle.AtMostMaxCalls | internal/worker/worker.go:197-216 | at most RetryMaxAttempts HTTP calls are made for a request over its whole life |
| Lifecycle.KeyedPassUsesAnAttempt | internal/worker/worker.go:121-132 | a pass with a key uses one of the remaining attempts, a pass without leaves them |
| Lifecycle.AnswerDecides | internal/worker/worker.go:161-217 | which answers succeed, retry and fail for good, in terms of the stored attempts |
| Lifecycle.DecryptionDecides | internal/worker/worker.go:135-141 | a failed decryption retries exactly while the stored attempts are below the maximum, and makes no call |
| Lifecycle.WorkerGoesOn | internal/worker/worker.go:99-188 | in every reachable state no worker is stuck, whatever the world answers |
| Lifecycle.OfferGoesOn | internal/queue/queue.go:60-101 | an offered item gets a verdict as soon as the lock is free |
| Lifecycle.QueueStepLifts | internal/worker/worker.go:74-91 | every step the queue can take the whole system can take, with a worker waiting for what is handed over |
| Lifecycle.CancelFreesAll | internal/worker/worker.go:239-248 | after a cancellation every timer can be stopped and every idle worker can end |
| Lifecycle.EndedStays | internal/worker/worker.go:74-91 | a worker that has ended takes nothing any more |
| Lifecycle.BackoffOfARequest | internal/worker/worker.go:197-207 | the failure retries of a request are fewer than RetryMaxAttempts and their total delay is below both bounds |
| Lifecycle.QueueInv | internal/queue/queue.go:60-180 | the queue inside the whole system keeps all its invariants |

## Left out

- HTTP handlers, router, middleware, metrics, logging, key events, health reports, start-up and warm-up: plumbing around the modelled state.
- MarkSuccess and MarkFailed: they forward to the breaker and write to the database best effort.
- Database, encryption and the HTTP client: their results are nondeterministic choices of the steps; failing writes of UpdateRequestStatus are not modelled.
- Key name and encrypted value of a pool key: never decided on.
- Managers.Manager.GetKey: stated for one call without interference and with one clock reading; interleavings of several calls are in the lease protocol, which abstracts the strategies and the limiter to arbitrary choices.
- Leases.LeasesConserved: does not carry the requests that the workers process; the life of requests abstracts GetKey to found or not found.
- Workers.Worker.ProcessItem: what the database, the pool, the decryption and the HTTP call answer are inputs, and no other goroutine moves during the call; interleavings are in the steps of Lifecycle.
- Acquisition.NilAmongOthers: says nothing of which selections give no key while other calls are in flight; that depends on the weights at that moment.
- RateLimits.MostIsExact: for a new key with fixed limits on a clock past Go's zero time, as a real clock is.
- Queues.Queue.DrainRemaining: whether a worker is waiting at each pop is an input.
- Backoff.OneBackoff: reals stand in for floats, and the int64 overflow of a duration is not modelled.
- RoundRobin.RotationIsBalanced: for calls during which the counter does not wrap; BalancedAcrossWrapIff is about the others.
- Delivery order of items with equal priority and creation time: the heap is not stable.
- Hot reload of breaker thresholds, queue size and retry limits: the values are fixed per object or per run, as the code fixes the first two at creation.
- Worker goroutines that panic, and the sync.Once of Close, which appears as Close happening once.
