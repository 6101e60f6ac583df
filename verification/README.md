# A verified model of dm_simulator

`dm_simulator` replays the memory requests of several compute nodes, each with a private cache, against one memory
node that serves its channels first come, first served. This Dafny project models it and proves what a run promises.

The model has two layers.

* **Specification.** Functions on values: the event queue (`Scheduling`), the five replacement
  policies (`Policies`), the cache with its placement records (`Cache`), the counters
  (`Statistics`) and the event handlers of memory and compute nodes (`Protocol`). A handler either gives the next state
  or a `Fault` for the exception that the program would throw.
* **Program.** Classes with the fields of the program and methods that update them: `Scheduler`, `Stats`, the policies,
  `LocalCache`, `MemoryNode`, `WorkloadCursor`, `ComputeNode` and `Simulator`, and the loops of the workload generator
  (`HotSets`, `Generator`) and of the replica plan (`ReplicaPlans`). Each method is proved against the specification
  through a `View()`; `Simulators.Simulator.Run` ends in the state `Final(cfg)`, and `EndToEnd.RunSynthetic` joins
  generator, plan and simulator.

The theorems are about every reachable state `Run(cfg, k)` of every valid configuration. They rest on one invariant
(`Invariants.Core`): each pending event belongs to exactly one request, channel or node that waits for it; every time
recorded is the one that the server order prescribes; and events handled, events to come and requests to issue add up.
Some fields of the specification (`phase`, `event`, `logs`, `generating`, `issued`, `releases`, `refused`) are
bookkeeping for the proofs; no handler's decision depends on them, and in the classes they are ghost.

| modules | content |
|---|---|
| `Totals`, `Model` | sums, shared data types |
| `Scheduling`, `Policies`, `Cache`, `Statistics`, `Protocol` | specification |
| `CacheLaws`, `Placements`, `Histories`, `Windows`, `Scoring`, `Oracle`, `Choices` | laws of cache, policies and replica plan |
| `Invariants`, `TokenLaws`, `HandlerTokens`, `HandlerTimes`, `HandlerChannels`, `HandlerStreams`, `HandlerCounts`, `HandlerCaches`, `Releases`, `Steps` | the invariant, and that every step keeps it |
| `Runs`, `EventOrder`, `RequestLog`, `Barriers`, `Telemetries`, `PolicyTraces`, `Smoothing`, `Accounts`, `StatsLaws`, `Bounds`, `CacheRuns`, `Overlaps`, `OracleRuns` | theorems about whole runs |
| `Services`, `Departures`, `Recency`, `Admissions`, `Scores`, `Tallies`, `Peaks` | what single figures of a run mean, in the terms of its requests and settings: service and issue times, last accesses, records, admissions and victims, scores, counters, peaks |
| `Workloads`, `HotSets`, `Generator`, `Drifts`, `ReplicaPlans` | workload generator, what its workloads look like, and plan builder |
| `Schedulers`, `Recorders`, `CachePolicies`, `LocalCaches`, `MemoryNodes`, `ComputeNodes`, `Simulators`, `EndToEnd` | the program's classes |

`dafny verify dfyconfig.toml` checks everything.

## Where the model takes sides

* `docs/implementation_map.md:167-168` has RequestComplete decrement the outstanding count. The code decrements it when
  the answer arrives (`src/nodes/compute_node.cpp:176-179`, `204-207`); the model follows the code.
* Admission does not test whether the object is already resident (`src/cache/local_cache.cpp:97-107`). Counted occupancy
  can therefore exceed the resident bytes. `CacheLaws.OverlappingMissesBreakExactness` gives the input,
  `Overlaps.OverlappingRunIsInexact` the runs that produce it, `CacheLaws.AdmitKeeps` the exact condition, and `CacheRuns.CachesHold` shows that completion-driven runs meet it.
* A hotness window of zero epochs prunes an epoch only at the next start and so still counts current lookups
  (`src/cache/hotness_policy.cpp:93-105`). `Windows.EmptyWindowCounts` gives the input and
  `Windows.WindowMustNotBeEmpty` the exact condition.
* The confirmation counts of the contention policy and the windowed hotness counts part where lookups are not announced
  by epoch starts (`src/cache/contention_policy.cpp:23-25`). `Windows.UnannouncedLookupsDiffer` gives the input and
  `Windows.ConfirmationAgreesWhen` the exact condition.
* The oracle plan takes objects greedily by demand, which is not always best for objects of several sizes.
  `Choices.UnevenIsNotOptimal` gives the input and `Choices.InstalledIsOptimalWhen` the exact condition.
* Maps and hash sets are visited in an arbitrary order: each scan picks any element that is left, and its result is
  proved not to depend on the choice.

## Model

| member | source | states |
|---|---|---|
| `Runs.RunEnds` | src/sim/simulator.cpp:185-192 | For every valid configuration the event loop empties the queue, within 7 turns per request. |
| `Runs.FinalIsFinished` | src/sim/simulator.cpp:355-384 | At the end every request is finished, every stream exhausted and every outstanding count zero. |
| `Runs.EventsPerRequest` | src/nodes/compute_node.cpp:96-226 | At the end requests, responses and hits plus misses all equal the length of all streams, and exactly 4 events were handled per hit and 7 per miss. |
| `RequestLog.RequestsLogged` | src/sim/simulator.cpp:306-308 | At any time the log has, for each request, as many entries as stages it has come through, and the entries that issued requests stand in the order of the request numbers, with their nodes and times. |
| `RequestLog.EventsOfEachRequest` | src/nodes/compute_node.cpp:96-226 | At the end each request that hit has caused its issue and 3 more events, each that missed its issue and 6 more. |
| `Runs.ExactlyOneResponse` | src/nodes/compute_node.cpp:158-211 | Each request of each stream is answered by exactly one response, for its own object. |
| `Runs.NothingThrown` | src/sim/simulator.cpp:306-322 | In every reachable state no handler throws, and the scheduler has never refused an event. |
| `Runs.ResponseLatency` | src/nodes/compute_node.cpp:158-211 | At any time every response reports its own share: the hit latency, or two links plus its wait plus its service time; its completion time is its issue time plus that. |
| `Runs.LatencyAddsUp` | src/metrics/stats.cpp:9-26 | At the end total latency = hits * hit latency + misses * 2 * link latency + total memory wait + all service times recorded per object. |
| `Runs.ChannelsAreFifo` | src/nodes/memory_node.cpp:35-122 | In every reachable state each channel has started arrival i at max(arrival i, completion i-1) and completed it one service time later, in arrival order; a nonempty queue has a start pending or a service in progress, never both; at the end all arrivals are completed. |
| `Runs.RunKeeps` | src/sim/simulator.cpp:185-192 | The whole invariant that ties pending events, channels, nodes, streams, counters and caches together holds after any number of turns. |
| `Runs.Stays` | src/sim/simulator.cpp:185-192 | A run that has ended does not change any more. |
| `Steps.Addressed` | src/sim/simulator.cpp:306-322 | The next event of a reachable state is addressed to a node that handles its kind. |
| `Steps.DispatchKeeps` | src/sim/simulator.cpp:306-322 | Handling the next event never faults and keeps the invariant, whichever event it is. |
| `Steps.StepKeeps` | src/sim/simulator.cpp:188-191 | One turn (pop, dispatch, perhaps release) succeeds and keeps the invariant. |
| `Releases.Silence` | src/sim/simulator.cpp:324-332 | An empty queue means that every request is finished, every node is idle, and no node is stuck inside the released epoch. |
| `Releases.NextEpochLeast` | src/sim/simulator.cpp:365-384 | The epoch picked is the least that some node has still to start, and there is none exactly when no node has one. |
| `Releases.ReleaseKeeps` | src/sim/simulator.cpp:324-353 | A release keeps the invariant, and leaves the queue empty only when all streams are exhausted: a run cannot get stuck. |
| `Releases.QueuedIsPending` | src/nodes/memory_node.cpp:35-57 | A request that waits at a channel is never forgotten: some event is pending. |
| `EventOrder.EventsAscend` | src/sim/scheduler.cpp:26-51 | Of any two events handled in a run the earlier turn has the lesser (time, sequence), whatever handlers schedule meanwhile. |
| `CacheRuns.TimeGoesForward` | src/sim/scheduler.cpp:36-45 | Simulated time never decreases over a run. |
| `Barriers.EpochBarrier` | src/sim/simulator.cpp:324-353 | Once a request of an epoch has been issued, every request of every earlier epoch on every node is complete. |
| `Barriers.ReleasesStand` | src/sim/simulator.cpp:324-353 | Epochs are released in increasing order, and a recorded release time never changes. |
| `Barriers.BurstyOnTime` | src/sim/simulator.cpp:343-350 | In a bursty run every request is issued exactly at the release of its epoch plus its planned offset. |
| `Telemetries.TelemetryFrozen` | src/metrics/stats.cpp:52-114 | From any point of a run on, the telemetry of the epochs before the released one never changes. |
| `Telemetries.SnapshotsHold` | src/cache/contention_policy.cpp:35-72 | In every reachable state each contention policy holds the weighted telemetry of the epochs before the one it is in. |
| `Telemetries.SnapshotsAreFinal` | src/cache/contention_policy.cpp:35-72 | That snapshot equals the one computed from the telemetry at the end of the run, so it is the same for every node. |
| `Accounts.TelemetryAccounts` | src/metrics/stats.cpp:52-114 | Throughout a run each (epoch, object) bucket is the sum over its own requests: arrivals, distinct sources, waits, services begun, service times, bytes. |
| `Accounts.FinalTelemetry` | src/metrics/stats.cpp:52-114 | At the end a bucket counts exactly the misses on its object in its epoch, their bytes, waits and services, and its requesters are exactly the nodes that missed. |
| `StatsLaws.StatsConsistent` | src/metrics/stats.cpp:19-114 | Throughout a run each channel bucket is the sum over the objects of that channel; the global wait is the sum, and peak depth and longest wait the maxima, over all channels and epochs. |
| `StatsLaws.RemoteAccessesAreMisses` | src/metrics/stats.cpp:39-70 | At the end the remote accesses of all channels are the cache misses. |
| `Bounds.WaitingNodesBound` | src/nodes/compute_node.cpp:213-226 | With N completion-driven nodes every node has at most one outstanding request, every channel queue at most N entries, and no request waits longer than N-1 times the longest service. |
| `Bounds.FewAtChannel` | src/nodes/memory_node.cpp:35-86 | With N completion-driven nodes at most N requests are queued or in service at one channel. |
| `Bounds.FreeSoon` | src/nodes/memory_node.cpp:59-122 | A server with k-d arrivals left, each at most `most` long, is free within (k-d) * most. |
| `CacheRuns.CachesHold` | src/cache/local_cache.cpp:67-107 | In every reachable state resident bytes <= counted occupancy <= capacity and the placement books balance; in completion-driven runs the first is an equality. |
| `CacheRuns.MissedStaysAbsent` | src/nodes/compute_node.cpp:135-211 | In completion-driven runs the object of a miss is absent until its response is admitted. |
| `CacheRuns.LruCachesEveryFittingMiss` | src/nodes/compute_node.cpp:185-211 | In completion-driven runs under LRU a returned object is resident afterwards if and only if it is no larger than the capacity. |
| `CacheRuns.LruAdmitsFitting` | src/cache/local_cache.cpp:32-108 | LRU admits an absent object into an exactly counted cache if and only if it fits the capacity, and the count stays exact. |
| `OracleRuns.OracleHits` | src/cache/hotness_policy.cpp:129-143 | Under the oracle policy the local hits of an epoch over all nodes are exactly the requests covered by the installed objects. |
| `OracleRuns.OracleHitsBest` | src/sim/simulator.cpp:50-110 | Wherever the installed objects dominate, no set of objects that fits covers more requests of an epoch than the oracle run had hits. |
| `OracleRuns.OracleHitsMost` | src/sim/simulator.cpp:50-110 | With objects of one size no other set of objects that fits covers more requests of an epoch than the oracle run had hits. |
| `Scheduling.LeastUnique` | src/sim/scheduler.cpp:5-12 | Of events with distinct sequence numbers exactly one comes first, so the order inside the queue does not matter. |
| `Scheduling.ScheduleKeeps` | src/sim/scheduler.cpp:26-34 | Scheduling keeps the queue orderly and is refused exactly for an event in the past. |
| `Scheduling.PopKeeps` | src/sim/scheduler.cpp:36-45 | Popping keeps the queue orderly and never moves time back. |
| `Scheduling.PoppedAscending` | src/sim/scheduler.cpp:26-51 | Over any interleaving of schedule and pop, popped events strictly increase in (time, sequence). |
| `Schedulers.Scheduler.constructor` | src/sim/scheduler.cpp:14-24 | A new scheduler is empty, at time zero. |
| `Schedulers.Scheduler.Schedule` | src/sim/scheduler.cpp:26-34 | The event is stamped with the next number and added, unless it lies in the past; the result says which. |
| `Schedulers.Scheduler.PopNext` | src/sim/scheduler.cpp:36-45 | The least event is removed and becomes the current time; nothing changes when there is none. |
| `Schedulers.Scheduler.Top` | src/sim/scheduler.cpp:5-12 | A scan in any order finds the least pending event. |
| `Model.ChannelOf` | src/sim/types.hpp:22-28 | Every object, including the reserved identifier 0, has a channel below the channel count. |
| `HandlerTimes.StartOnTime` | src/nodes/memory_node.cpp:59-86 | A start event finds its own request at the head of its channel, at the time the server order prescribes. |
| `HandlerChannels.FreeByNow` | src/nodes/memory_node.cpp:35-57 | A channel that is not busy is free by now, so an arrival starts at once. |
| `MemoryNodes.MemoryNode.constructor` | src/nodes/memory_node.cpp:9-17 | All channels start empty and idle. |
| `MemoryNodes.MemoryNode.HandleForwardToMemory` | src/nodes/memory_node.cpp:35-57 | Appends the request to its channel, records access and depth, and schedules a start only for an idle channel. |
| `MemoryNodes.MemoryNode.HandleMemoryServiceStart` | src/nodes/memory_node.cpp:59-86 | Pops the head, records its wait, marks the channel busy and schedules the completion one service time later (what that is: `Services.ServiceCarries`); false for an unknown request, an empty queue or another head. |
| `MemoryNodes.MemoryNode.HandleMemoryServiceComplete` | src/nodes/memory_node.cpp:88-114 | Records the service time, sends the response back and schedules the next start; false for an idle channel. |
| `MemoryNodes.MemoryNode.HandleEvent` | src/nodes/memory_node.cpp:19-33 | Hands each of the three kinds to its handler; any other kind is an exception. |
| `MemoryNodes.RequestTable.Enter` | src/nodes/compute_node.cpp:103-116 | A request enters the table under the next number. |
| `MemoryNodes.RequestTable.Update` | src/nodes/memory_node.cpp:40-46 | A request that has been changed is written back; no other row changes. |
| `MemoryNodes.RequestTable.Respond` | src/nodes/compute_node.cpp:165-173 | One response is appended. |
| `HandlerStreams.IssuerOk` | src/nodes/compute_node.cpp:96-133 | After issuing, a node stands one further in its stream, counts one more outstanding request, and in a bursty run has the next arrival of the epoch planned. |
| `HandlerTokens.FollowUpInFuture` | src/nodes/compute_node.cpp:249-266 | The planned arrival that follows an issue is never in the past. |
| `Steps.StillCounted` | src/nodes/compute_node.cpp:176-179 | When a request is answered its node still counts it, so the outstanding count cannot underflow. |
| `ComputeNodes.WorkloadCursor.constructor` | src/workloads/workload.cpp:8-9 | A cursor starts at the first request. |
| `ComputeNodes.WorkloadCursor.Next` | src/workloads/workload.cpp:27-34 | Returns the current request and advances by one; there is none exactly when the stream is exhausted. |
| `ComputeNodes.ComputeNode.constructor` | src/nodes/compute_node.cpp:10-33 | A node starts idle, before its first epoch, with an empty cache. |
| `ComputeNodes.ComputeNode.StartEpochIfNeeded` | src/nodes/compute_node.cpp:228-247 | For a new epoch the cache is told and, if there is a plan, refilled from it; otherwise nothing happens. |
| `ComputeNodes.ComputeNode.HandleGenerateRequest` | src/nodes/compute_node.cpp:96-133 | Issues the next request of the stream with the next number, starts its epoch, schedules its lookup and plans the next arrival. |
| `ComputeNodes.ComputeNode.HandleLocalCacheLookup` | src/nodes/compute_node.cpp:135-156 | Counts a hit or a miss and schedules the completion or the way to memory. |
| `ComputeNodes.ComputeNode.HandleLocalCacheHitComplete` | src/nodes/compute_node.cpp:158-183 | Answers from the local tier, records the latency, decrements the outstanding count; false at zero. |
| `ComputeNodes.ComputeNode.HandleReturnResponse` | src/nodes/compute_node.cpp:185-211 | Answers from memory, records the latency, offers the object to the cache, decrements the outstanding count; false at zero. |
| `ComputeNodes.ComputeNode.HandleRequestComplete` | src/nodes/compute_node.cpp:213-226 | Only a completion-driven node whose next request is of the same epoch schedules it now. |
| `ComputeNodes.ComputeNode.ScheduleNextIfDriven` | src/nodes/compute_node.cpp:219-225 | The next issue is scheduled exactly under that condition. |
| `ComputeNodes.ComputeNode.ScheduleNextBurstyRequestIfReady` | src/nodes/compute_node.cpp:249-266 | Only a bursty node whose next request is of the current epoch plans it, at the epoch start plus its offset. |
| `ComputeNodes.ComputeNode.TakeNext` | src/nodes/compute_node.cpp:98-124 | Takes the next request and starts its epoch; nothing changes if there is none. |
| `ComputeNodes.ComputeNode.EnterRequest` | src/nodes/compute_node.cpp:103-131 | Enters the request and schedules its lookup at the same time. |
| `ComputeNodes.ComputeNode.SendOn` | src/nodes/compute_node.cpp:141-155 | Updates the counter and schedules the event that a hit or a miss calls for. |
| `ComputeNodes.ComputeNode.RecordResponse` | src/nodes/compute_node.cpp:160-174 | Appends the response and records its latency. |
| `ComputeNodes.ComputeNode.Answered` | src/nodes/compute_node.cpp:176-182 | The count goes down by one and the completion is scheduled; false at zero. |
| `ComputeNodes.ComputeNode.HandleEvent` | src/nodes/compute_node.cpp:35-55 | Hands each of the five kinds to its handler; any other kind is an exception. |
| `Simulators.Simulator.constructor` | src/sim/simulator.cpp:115-183 | A simulator built for a valid configuration is in the initial state of the run. |
| `Simulators.Simulator.BuildNodes` | src/sim/simulator.cpp:164-182 | There is one fresh node per configured stream, under its identifier. |
| `Simulators.Simulator.DispatchEvent` | src/sim/simulator.cpp:306-322 | Logs the event and lets its target handle it; false exactly when the handler throws or there is no such target. |
| `Simulators.Simulator.DispatchToMemory` | src/sim/simulator.cpp:316-319 | Memory handles the event; no node changes. |
| `Simulators.Simulator.HandleAt` | src/sim/simulator.cpp:310-314 | One node handles the event; no other node changes. |
| `Simulators.Simulator.AllComputeNodesIdle` | src/sim/simulator.cpp:355-363 | True exactly when no node has a request outstanding. |
| `Simulators.Simulator.NextUnreleasedEpoch` | src/sim/simulator.cpp:365-384 | Finds the least epoch still to be started, in whatever order the nodes are visited. |
| `Simulators.Simulator.ReadyEpoch` | src/sim/simulator.cpp:324-332 | There is an epoch to release exactly when nothing is pending, all nodes are idle and some node has one to start. |
| `Simulators.Simulator.StartNode` | src/sim/simulator.cpp:336-351 | A node whose next request is of the released epoch gets its first event, at now plus its offset. |
| `Simulators.Simulator.ReleaseEpoch` | src/sim/simulator.cpp:334-352 | Marks the epoch released and starts every node that has requests in it. |
| `Simulators.Simulator.ReleaseNextEpochIfReady` | src/sim/simulator.cpp:324-353 | Performs the release that the specification prescribes, or nothing. |
| `Simulators.Simulator.PopEvent` | src/sim/scheduler.cpp:47-51 | Takes out the first pending event. |
| `Simulators.Simulator.HandleNext` | src/sim/simulator.cpp:188-191 | One pass of the loop takes the objects from the state after k turns to the state after k+1, without a throw. |
| `Simulators.Simulator.Run` | src/sim/simulator.cpp:185-192 | The loop over the mutable objects terminates and ends in the final state, about which the theorems above speak. |
| `Cache.NewCacheIsSound` | src/cache/local_cache.cpp:5-6 | An empty cache is sound and exactly counted. |
| `Cache.LookupKeeps` | src/cache/local_cache.cpp:14-30 | A lookup keeps books and residents, and hits exactly when the object is resident. |
| `Cache.EvictKeeps` | src/cache/local_cache.cpp:197-216 | An eviction removes one object, its bytes and its open placement, and keeps the books balanced. |
| `Cache.PlaceKeeps` | src/cache/local_cache.cpp:97-107 | Entering an object keeps the books; the count stays exact if and only if the object was absent or empty. |
| `Cache.RejectKeeps` | src/cache/local_cache.cpp:294-312 | A rejection record keeps the books, whatever victims it lists. |
| `Policies.ColdestExists` | src/cache/lru_policy.cpp:74-97 | A nonempty cache has a coldest resident under every policy key. |
| `Policies.ColdestUnique` | src/cache/lru_policy.cpp:74-97 | There is only one coldest resident, so the order of the map cannot change the victim. |
| `CacheLaws.PlanIsGreedy` | src/cache/local_cache.cpp:71-91 | The planned victims are residents in the order of the policy key, each of which yields to the newcomer, and if they make room none could be spared. |
| `CacheLaws.ShortestPrefixUnique` | src/cache/local_cache.cpp:71-91 | The shortest cold prefix that makes room is unique. |
| `CacheLaws.AdmitEvictsShortestPrefix` | src/cache/local_cache.cpp:71-107 | A successful admission evicts exactly that prefix, enters the object, keeps all other entries and moves occupancy and byte counters accordingly; every victim yields (lower count; score plus margin below). |
| `CacheLaws.FailedAdmitIsAtomic` | src/cache/local_cache.cpp:61-91 | A failed admission changes nothing but one appended, unadmitted record. |
| `CacheLaws.AdmitKeeps` | src/cache/local_cache.cpp:32-108 | An admission keeps the books; an exact count stays exact if and only if the object does not survive among the residents or is empty. |
| `CacheLaws.OverlappingMissesBreakExactness` | src/cache/local_cache.cpp:97-107 | Two overlapping misses on one object make the counted occupancy exceed the resident bytes by the object. |
| `Overlaps.OverlappingRunIsInexact` | src/cache/local_cache.cpp:97-107 | So does every bursty run of a node that asks twice at once, over a link, for an object that fits twice: it ends with twice its bytes counted and at most once resident. |
| `Overlaps.SomeoneAsksTwice` | src/nodes/compute_node.cpp:249-266 | There is a valid configuration of that kind. |
| `CacheLaws.LruPlanFindsRoom` | src/cache/local_cache.cpp:71-91 | Under LRU the plan finds room if and only if the bytes that no resident accounts for leave enough. |
| `CacheLaws.LruAdmitsExactly` | src/cache/local_cache.cpp:32-108 | Under LRU an admission succeeds exactly then; with an exact count, exactly when the object fits the capacity. |
| `CacheLaws.CloseAllSums` | src/cache/local_cache.cpp:218-234 | Closing all placements adds exactly the resident bytes to the evicted bytes and changes no hit or admitted byte. |
| `CacheLaws.ClearKeeps` | src/cache/local_cache.cpp:218-234 | A cleared cache is sound and exactly counted, whatever it was before. |
| `CacheLaws.InstallKeeps` | src/cache/local_cache.cpp:119-154 | An installation is sound and exactly counted, and changes neither policy, capacity, hits nor misses. |
| `CacheLaws.AdmitSamePolicy` | src/cache/local_cache.cpp:32-108 | Admission changes neither the policy state nor the capacity. |
| `LocalCaches.MakeCachePolicy` | src/sim/simulator.cpp:23-43 | Builds a fresh policy object of the configured kind. |
| `LocalCaches.PolicyOnLookup` | src/cache/lru_policy.cpp:5-11 | Every policy observes a lookup as its kind prescribes; three kinds ignore it. |
| `LocalCaches.PolicyOnEpochStart` | src/cache/lru_policy.cpp:13-15 | Every policy observes an epoch start as its kind prescribes; three kinds ignore it. |
| `LocalCaches.PolicyAdmits` | src/cache/lru_policy.cpp:17-23 | Always-remote and oracle never admit, LRU always, hotness by count, contention by score. |
| `LocalCaches.PolicySelectVictim` | src/cache/lru_policy.cpp:56-97 | Always-remote and oracle give up nothing; the others give up the coldest resident that yields. |
| `LocalCaches.LocalCache.constructor` | src/cache/local_cache.cpp:5-6 | A new cache is empty. |
| `LocalCaches.LocalCache.Lookup` | src/cache/local_cache.cpp:14-30 | Tells the policy, then counts a hit, credits the placement and touches the entry, or counts a miss; what touching leaves is stated by `Placements.LookupContinues`. |
| `LocalCaches.LocalCache.RecordHit` | src/cache/local_cache.cpp:236-245 | One future hit is credited to the active placement of the object, to no other. |
| `LocalCaches.LocalCache.Evict` | src/cache/local_cache.cpp:197-216 | Removes entry, bytes and active placement, and closes the record. |
| `LocalCaches.LocalCache.PlanRoom` | src/cache/local_cache.cpp:71-91 | The loop on the copy computes exactly the specified plan, whether or not room is found. |
| `LocalCaches.LocalCache.RecordAttempt` | src/cache/local_cache.cpp:294-312 | One record of the attempt is appended, with the victims planned so far. |
| `LocalCaches.LocalCache.EvictPlanned` | src/cache/local_cache.cpp:93-95 | Evicts the planned victims one by one. |
| `LocalCaches.LocalCache.Admit` | src/cache/local_cache.cpp:32-108 | Admits or rejects as specified, and reports which. |
| `LocalCaches.LocalCache.Enter` | src/cache/local_cache.cpp:97-107 | Makes the object resident, by the placement recorded last. |
| `LocalCaches.LocalCache.OnEpochStart` | src/cache/local_cache.cpp:110-112 | Only the policy observes the epoch. |
| `LocalCaches.LocalCache.CloseActive` | src/cache/local_cache.cpp:203-211 | Closes the record of an object that leaves. |
| `LocalCaches.LocalCache.CloseResidents` | src/cache/local_cache.cpp:218-229 | Closing the residents in any order adds up to the same records and bytes. |
| `LocalCaches.LocalCache.ClearEntries` | src/cache/local_cache.cpp:218-234 | Empties the cache and closes all placements. |
| `LocalCaches.LocalCache.InstallReplicas` | src/cache/local_cache.cpp:119-154 | Clears, then installs in list order, skipping what is too large or present and stopping at the first replica that no longer fits. |
| `CachePolicies.SelectOldest` | src/cache/lru_policy.cpp:74-97 | The scan finds the least (last access, id), in any order of the map. |
| `CachePolicies.HotnessOnlyPolicy.constructor` | src/cache/hotness_policy.cpp:7-8 | No counts at first. |
| `CachePolicies.HotnessOnlyPolicy.OnLookup` | src/cache/hotness_policy.cpp:10-19 | Increments the aggregate and, with a window, the epoch bucket. |
| `CachePolicies.HotnessOnlyPolicy.OnEpochStart` | src/cache/hotness_policy.cpp:21-31 | Epoch mode clears, window mode prunes, cumulative mode keeps; what the counts are worth then is stated by `Windows.EpochCount`, `WindowedCount` and `CumulativeCount`. |
| `CachePolicies.HotnessOnlyPolicy.PruneWindow` | src/cache/hotness_policy.cpp:93-105 | Removing the expired epochs one by one, in any order, leaves the recount of the epochs retained. |
| `CachePolicies.HotnessOnlyPolicy.SelectVictim` | src/cache/hotness_policy.cpp:43-78 | The scan finds the least (count, last access, id), and gives it up only to a strictly hotter object. |
| `CachePolicies.SubtractEpochCounts` | src/cache/hotness_policy.cpp:107-122 | Subtracts count by count, dropping what reaches zero. |
| `CachePolicies.SubtractionIsExact` | src/cache/hotness_policy.cpp:107-122 | The saturation never applies: what is left is the recount of the remaining epochs. |
| `CachePolicies.ContentionAwarePolicy.constructor` | src/cache/contention_policy.cpp:8-14 | No epoch, counts or snapshot at first. |
| `CachePolicies.ContentionAwarePolicy.OnLookup` | src/cache/contention_policy.cpp:16-33 | Starts the epoch if it is new, then counts the lookup locally and for confirmation. |
| `CachePolicies.ContentionAwarePolicy.OnEpochStart` | src/cache/contention_policy.cpp:35-72 | A repeated start does nothing; a new one resets, prunes, snapshots and normalises. |
| `CachePolicies.ContentionAwarePolicy.PruneLocalConfirmation` | src/cache/contention_policy.cpp:327-349 | Leaves the confirmation counts of the window that ends with this epoch. |
| `CachePolicies.ContentionAwarePolicy.TakeSnapshot` | src/cache/contention_policy.cpp:48-71 | The loop over ages computes the specified snapshot. |
| `CachePolicies.ContentionAwarePolicy.AdmissionDecision` | src/cache/contention_policy.cpp:84-123 | Decides by gate, score and confirmation as specified; what is let in is stated by `Admissions.ContentionLetsIn`. |
| `CachePolicies.ContentionAwarePolicy.SelectVictim` | src/cache/contention_policy.cpp:125-176 | The scan finds the least (score, last access, id), and gives it up only if its score plus the margin is below the newcomer. |
| `CachePolicies.AddContentionSnapshots` | src/cache/contention_policy.cpp:368-383 | Adds one epoch of telemetry in any order of its objects. |
| `CachePolicies.RefreshNormalizationMaxima` | src/cache/contention_policy.cpp:385-400 | The scan in any order finds the maxima. |
| `Windows.WindowedCount` | src/cache/hotness_policy.cpp:10-31 | Along any trace with epochs that do not go back, the windowed count of an object is the number of its lookups in the epochs retained. |
| `Windows.WindowMustNotBeEmpty` | src/cache/hotness_policy.cpp:93-105 | This holds on all traces if and only if the window spans at least one epoch. |
| `Windows.EmptyWindowCounts` | src/cache/hotness_policy.cpp:93-105 | A concrete trace on which a window of zero epochs still counts a lookup. |
| `Windows.HotnessAggregated` | src/cache/hotness_policy.cpp:10-31 | After any trace whatever, the aggregate is the recount of its buckets. |
| `Windows.ConfirmationIsAnnounced` | src/cache/contention_policy.cpp:16-47 | Along any trace with epochs that do not go back, announced or not, the contention policy confirms by the very window that the hotness policy would hold if every lookup were preceded by a start of its epoch. |
| `Windows.ConfirmationCount` | src/cache/contention_policy.cpp:327-349 | So the confirmation count of an object is the number of its lookups in the window that ends with the last access, for any configured window (zero counts as one). |
| `Windows.ConfirmationAgreesWhen` | src/cache/contention_policy.cpp:16-33 | Over the same window of at least one epoch it equals the hotness count if and only if no lookup of the object lies in an epoch that the last access has moved out of the window but no start has. |
| `Windows.UnannouncedLookupsDiffer` | src/cache/contention_policy.cpp:16-33 | A concrete trace without starts on which hotness counts 2 and the contention policy 1. |
| `Windows.ConfirmationAgrees` | src/cache/contention_policy.cpp:35-47 | In particular, where every lookup follows the start of its epoch, as in every run, both hold the same window. |
| `PolicyTraces.PoliciesTraced` | src/nodes/compute_node.cpp:124-156 | In every reachable state the policy of each node is in the state that a trace of starts and lookups leads to; the trace is in order, announces every epoch, and has exactly the lookups of that node. |
| `PolicyTraces.WindowsCountLookups` | src/cache/hotness_policy.cpp:10-31 | In every reachable state a windowed hotness count is the number of requests for the object that the node itself has looked up in its last W epochs. |
| `PolicyTraces.ConfirmationsCountLookups` | src/cache/contention_policy.cpp:16-47 | So is the confirmation count of the contention policy, for its own window. |
| `Scoring.SnapshotMeans` | src/cache/contention_policy.cpp:48-71 | Each of the five signals of an object is the decay^age-weighted sum of its telemetry over the prior epochs. |
| `Scoring.MaximaAreLargest` | src/cache/contention_policy.cpp:385-400 | Each maximum is attained or zero, and bounds all objects. |
| `Scoring.MaximaUnique` | src/cache/contention_policy.cpp:385-400 | So the order in which the snapshot is scanned does not matter. |
| `Scoring.ScoreWithin` | src/cache/contention_policy.cpp:220-294 | All components lie in [0, 1], and the score between minus the size weight and the sum of the other weights. |
| `Scoring.OneWeightRanks` | src/cache/contention_policy.cpp:220-279 | With weight on one signal alone, objects rank exactly as that signal of the snapshot does. |
| `Scoring.HotnessAndSizeRank` | src/cache/contention_policy.cpp:226-264 | Local hotness alone ranks by lookups up to the threshold, the size penalty alone by size up to the capacity, reversed. |
| `Smoothing.SmoothingAway` | src/cache/contention_policy.cpp:48-71 | After any trace of starts and lookups, whatever telemetry was read, Smoothed with a history of one epoch or without decay scores, admits and picks victims exactly as V1 does. |
| `Smoothing.SmoothedRunIsPlain` | src/cache/contention_policy.cpp:35-176 | A whole run under such a policy is, state by state, the run under V1; only the policies' own states may differ. |
| `Smoothing.SmoothedOutcomeIsPlain` | src/sim/simulator.cpp:185-192 | Both runs end with the same log, responses, statistics, residents and placement records. |
| `Statistics.PutSum` | src/metrics/stats.cpp:465-484 | A write to one bucket moves the sum over the table by the change of that bucket. |
| `StatsLaws.MatchesPut` | src/metrics/stats.cpp:52-114 | An object bucket and its channel bucket that move alike keep the channel sums. |
| `StatsLaws.MaxPut` | src/metrics/stats.cpp:29-36 | Raising one bucket to a value raises the maximum over the table to it. |
| `Recorders.Stats.constructor` | src/metrics/stats.cpp:9-16 | All counters start at zero. |
| `Recorders.Stats.RecordLatency` | src/metrics/stats.cpp:9-16 | Adds one latency globally and for the node. |
| `Recorders.Stats.RecordMemoryWait` | src/metrics/stats.cpp:19-26 | Adds one wait and keeps the longest. |
| `Recorders.Stats.ObserveMemoryQueueDepth` | src/metrics/stats.cpp:29-36 | Keeps both peaks. |
| `Recorders.Stats.RecordCacheHit` | src/metrics/stats.cpp:39-42 | Counts a hit globally and for the node. |
| `Recorders.Stats.RecordCacheMiss` | src/metrics/stats.cpp:45-48 | Counts a miss globally and for the node. |
| `Recorders.Stats.RecordRemoteAccess` | src/metrics/stats.cpp:52-70 | Counts the access, requester and depth in the object and channel buckets of the epoch; no other bucket changes. |
| `Recorders.Stats.RecordObjectQueueWait` | src/metrics/stats.cpp:74-98 | Adds the wait to both buckets. |
| `Recorders.Stats.RecordObjectService` | src/metrics/stats.cpp:102-114 | Adds service time and bytes to both buckets. |
| `ReplicaPlans.TallyDemand` | src/sim/simulator.cpp:61-71 | The loops group all requests by epoch and object. |
| `ReplicaPlans.TallyMeans` | src/sim/simulator.cpp:61-71 | A cell of the table is the number of requests and their largest size; an object is listed if and only if it is requested. |
| `ReplicaPlans.InsertRanked` | src/sim/simulator.cpp:91-104 | A replica takes its place by demand, then identifier. |
| `ReplicaPlans.RankEpoch` | src/sim/simulator.cpp:76-107 | All objects of an epoch, read in any order, end up ranked. |
| `ReplicaPlans.BuildGlobalReplicaPlan` | src/sim/simulator.cpp:50-110 | The plan lists for every epoch the requested objects in order of demand, then identifier, with their largest sizes. |
| `ReplicaPlans.PlanFor` | src/sim/simulator.cpp:149-158 | There is a plan exactly for the oracle policy. |
| `Oracle.RankingUnique` | src/sim/simulator.cpp:89-104 | There is one such ranking, so the order of the hash map cannot change the plan. |
| `Oracle.CoveredUnion` | src/sim/simulator.cpp:61-71 | Disjoint sets of objects cover separate requests. |
| `Oracle.InstallReplaces` | src/cache/local_cache.cpp:119-154 | What an installation leaves resident depends only on the list and the capacity, not on what was resident before. |
| `Oracle.EqualSizesPrefix` | src/cache/local_cache.cpp:129-153 | Of replicas of one size the longest prefix that fits is installed. |
| `Choices.PrefixIsOptimal` | src/sim/simulator.cpp:89-104 | No set of at most n objects covers more than the n hottest. |
| `Choices.OracleIsOptimal` | src/sim/simulator.cpp:50-110 | With objects of one size no set that fits the capacity covers more requests of the epoch than what plan and installation leave resident. |
| `Choices.DominantIsOptimal` | src/sim/simulator.cpp:89-104 | Objects of any sizes: chosen objects that have at least as many of every leading part of the ranking as any set that fits cover as many requests as any set that fits. |
| `Choices.InstalledIsOptimalWhen` | src/cache/local_cache.cpp:128-153 | What is installed of a list is optimal for all demands that the list ranks if and only if it dominates in that sense, which depends on the list, its sizes and the capacity alone. |
| `Choices.FavouredNotOptimal` | src/cache/local_cache.cpp:128-153 | Where a set that fits has more of the first k objects, there is a stream, ranked by the same list with the same sizes, that it covers better. |
| `Choices.OneSizeDominates` | src/cache/local_cache.cpp:128-153 | Of objects of one size, what is installed always dominates. |
| `Choices.UnevenIsNotOptimal` | src/cache/local_cache.cpp:128-134 | A concrete stream with objects of two sizes whose plan installs one large object although two small ones fit, are more of the three, and cover more. |
| `Workloads.SharedCount` | src/workloads/generators.cpp:24-35 | Never more objects are shared than a hot set has. |
| `Workloads.ReplacementCount` | src/workloads/generators.cpp:58-68 | Never more than the segment; none if and only if the segment is empty or nothing churns. |
| `Workloads.ReplacementBounds` | src/workloads/generators.cpp:58-68 | A partial churn replaces at least one object, and the least whole number no smaller than the fraction. |
| `Workloads.EligibleHotObjectCount` | src/workloads/generators.cpp:101-114 | The loop counts the objects on the hot channels. |
| `Workloads.ClosedFormCounts` | scripts/run_matrix.py:1646-1659 | The closed form floor(N/C)*L + min(N mod C, L) is that count. |
| `Workloads.MatrixCheckAgrees` | scripts/run_matrix.py:1660-1684 | The script accepts exactly the combinations whose overlap and churn capacity checks the generator accepts. |
| `Workloads.OffsetsAscending` | src/workloads/generators.cpp:395-410 | If bursts do not overlap, later requests of an epoch are never due earlier. |
| `Workloads.OverlappingBurstsGoBack` | src/workloads/generators.cpp:509-525 | The check on burst timing holds if and only if no request is due before its predecessor. |
| `HotSets.NextObjects` | src/workloads/generators.cpp:147-159 | A contiguous run of the list from the cursor, wrapping around. |
| `HotSets.NextUnusedObject` | src/workloads/generators.cpp:165-180 | The first object from the cursor that is neither used nor disallowed; it fails if and only if there is none. |
| `HotSets.AllTaken` | src/workloads/generators.cpp:165-180 | If every object is taken, at least as many are taken as there are objects (the pigeonhole of the capacity check). |
| `HotSets.KeepPrefixes` | src/workloads/generators.cpp:184-190 | Every private segment keeps its prefix. |
| `HotSets.AppendReplacements` | src/workloads/generators.cpp:195-207 | Extends the segment to its final size by the next objects of the list that are not taken; it cannot fail while enough objects are untaken. |
| `HotSets.InsertSegments` | src/workloads/generators.cpp:210-226 | Collects exactly the objects of all segments. |
| `HotSets.AllocateHotSetSegments` | src/workloads/generators.cpp:231-247 | The shared and the private segments are consecutive runs of the list. |
| `HotSets.LaidOutNoRepeats` | src/workloads/generators.cpp:231-247 | If the layout fits the list once around, all segments are duplicate-free and disjoint. |
| `HotSets.FillSegment` | src/workloads/generators.cpp:283-299 | Filling one segment keeps the layout disjoint, and cannot fail if there is enough for all replacements. |
| `HotSets.FillCount` | src/workloads/generators.cpp:283-299 | Each filled segment takes no more objects than it replaces. |
| `HotSets.ChurnHotSetSegments` | src/workloads/generators.cpp:253-302 | Each segment keeps size and prefix, replacements are eligible and were not hot before, and all segments stay duplicate-free and disjoint; the replacements are the next ones from the cursor on, segment by segment; it fails only if there are not enough objects. |
| `HotSets.HotSetsMeetInShared` | src/workloads/generators.cpp:306-315 | The hot sets of two nodes have exactly the shared segment in common. |
| `Generator.EligibleHotObjects` | src/workloads/generators.cpp:119-138 | Exactly the objects on the hot channels, each once, in the order of the shuffle. |
| `Generator.ChurnHasEnough` | src/workloads/generators.cpp:527-547 | The capacity check leaves enough objects for every partial churn. |
| `Generator.NextLayout` | src/workloads/generators.cpp:587-611 | The layout of the next epoch (kept, allocated anew or churned) is well formed and never fails after validation; a partial churn resumes at the cursor. What is kept when is stated by `Drifts.StaticStays`, `ShiftsPartly` and `ShiftsByStride`. |
| `Generator.ColdObjectsForNode` | src/workloads/generators.cpp:318-332 | Exactly the objects that are not hot. |
| `Generator.ObjectSizes` | src/workloads/generators.cpp:352-374 | One configured size per object. |
| `Generator.GenerateRequests` | src/workloads/generators.cpp:617-646 | The requests of a node in an epoch: their number, objects, sizes and offsets as drawn and configured. |
| `Generator.GenerateEpoch` | src/workloads/generators.cpp:612-649 | Every stream grows by the requests of the epoch, drawn from its own hot set. |
| `Generator.GenerateSyntheticWorkload` | src/workloads/generators.cpp:560-652 | Generation fails if and only if the configuration is not acceptable; the churn exception is unreachable. |
| `Generator.StreamIsValid` | src/workloads/generators.cpp:617-646 | A generated stream is sorted by epoch and its offsets do not go back within one. |
| `Generator.GeneratedIsAccepted` | src/sim/simulator.cpp:386-415 | The simulator accepts every generated workload. |
| `Generator.HotSetsKept` | src/workloads/generators.cpp:306-315 | In every epoch a hot set has the configured size, no repeats, only eligible objects, and meets any other in exactly the shared objects. |
| `Generator.ReplacementsAreNew` | src/workloads/generators.cpp:253-302 | Under partial churn a new hot object of a node was hot for no node in the previous epoch. |
| `EndToEnd.RequestsSorted` | src/sim/simulator.cpp:407-413 | True exactly when the epochs of a stream do not go back. |
| `EndToEnd.ValidateConfig` | src/sim/simulator.cpp:386-415 | Accepts exactly the streams with distinct identifiers, none of them the memory node, that are sorted by epoch. |
| `EndToEnd.Simulate` | src/sim/simulator.cpp:185-192 | A checked configuration is run to the final state, with all totals. |
| `EndToEnd.RunExplicit` | src/sim/simulator.cpp:115-192 | Explicit streams are rejected exactly without channels or bandwidth, under the oracle policy, or if not valid; otherwise they run completion-driven with every parameter of the machine, and every request is answered. |
| `EndToEnd.RunSynthetic` | src/sim/simulator.cpp:115-192 | Generation, planning and simulation together: rejected exactly if not runnable, otherwise the generated streams are run with every parameter of the machine, under the plan if and only if the policy is the oracle, every request of every node and epoch is answered, and the totals add up. |
| `EndToEnd.FinalFinished` | src/sim/simulator.cpp:185-192 | What a finished run promises, in one place. |
| `Services.ServiceCarries` | src/nodes/memory_node.cpp:116-122 | A service takes the base latency, and after it the least whole number d of time units with d * bandwidth >= size. |
| `Services.CarriesOnce` | src/nodes/memory_node.cpp:116-122 | There is only one such number. |
| `Services.ServicesTakeTheirTime` | src/nodes/memory_node.cpp:59-114 | In every reachable state a request is served by channel (object - 1) mod channels, and each service that has ended took the base latency plus the least time in which the bandwidth carries the bytes requested. |
| `Services.MissesTakeTheirTime` | src/nodes/compute_node.cpp:185-211 | In every reachable state the latency of a memory response is two links, the wait, the base latency, and the least time that carries its bytes. |
| `Departures.IssuedWhenDue` | src/nodes/compute_node.cpp:213-226 | In a completion-driven run every request was issued when due: the first of an epoch at its release plus its offset, every other one at the moment the request before it completed. |
| `Departures.ReleasedOnCompletion` | src/sim/simulator.cpp:324-353 | In every reachable state each epoch released was released at the very moment at which the last request of the earlier epochs completed, or at time zero if there was none. |
| `Departures.StagesAreKept` | src/nodes/compute_node.cpp:96-211 | In every reachable state a request is in the stage that its progress calls for, its answer is not later than now, and its last event comes with the answer. |
| `EventOrder.TurnLogsItsEvent` | src/sim/simulator.cpp:306-308 | Each turn appends exactly the event it handles to the log: time, kind, target and request. |
| `Placements.LookupContinues` | src/cache/local_cache.cpp:14-30 | A lookup refreshes the last access of the object it hits, unless the policy caches nothing, and of no other; no record is added, and closed ones stay. |
| `Placements.AdmitContinues` | src/cache/local_cache.cpp:32-108 | An attempt leaves exactly one record, of this request at this time, closes the placements of the victims now, and brings the object in now; all other entries stay. |
| `Placements.InstallContinues` | src/cache/local_cache.cpp:119-154 | An installation closes what was open now and leaves records of replicas only, for nothing but what it brought in, now. |
| `Recency.AccessesAreTheLatest` | src/cache/local_cache.cpp:14-30 | In every reachable state each resident was last accessed at the latest of the times at which its node hit it, read from the request table, and at which it was brought in, read from the records. |
| `Recency.LruEvictsTheOldest` | src/cache/lru_policy.cpp:64-99 | Under LRU the residents evicted for an admission are those that the node had not hit or brought in for the longest time, ties by identifier; a failed attempt changes no resident. |
| `Recency.RecordsTellMisses` | src/cache/local_cache.cpp:247-290 | In every reachable state a node has exactly one record per answered miss, made when the response came, and none for other requests; the other records are of replicas; only admitted placements are evicted or hit. |
| `Recency.HitsAreCredited` | src/cache/local_cache.cpp:236-245 | In every reachable state the hits credited to all placements of an object are the hits of the node on it. |
| `Recency.RecordsStand` | src/cache/local_cache.cpp:197-245 | Along a run a record keeps what it says; it may gain hits until it is closed, and is then final. |
| `Recency.ClosedWhenEvicted` | src/cache/local_cache.cpp:197-234 | A record that a turn closes is closed at the time of that turn. |
| `Windows.EpochCount` | src/cache/hotness_policy.cpp:21-26 | Along any trace the epoch-only count of an object is the number of its lookups since the last epoch start. |
| `Windows.CumulativeCount` | src/cache/hotness_policy.cpp:10-31 | Along any trace the cumulative count of an object is the number of all its lookups. |
| `Windows.LocalCount` | src/cache/contention_policy.cpp:16-45 | Along any trace with epochs that do not go back, the local count of the contention policy is the number of lookups in the epoch of the last access, or of all lookups if there is no reset. |
| `Windows.RetainsTheLast` | src/cache/hotness_policy.cpp:93-105 | A window retains epoch e if and only if e + window > epoch. |
| `Windows.ConfirmsByTheLast` | src/cache/contention_policy.cpp:327-345 | The confirmation window retains epoch e if and only if e >= epoch or e + window > epoch, so it spans at least one epoch. |
| `PolicyTraces.CountsAreLookups` | src/cache/hotness_policy.cpp:10-31 | In every reachable state, without a window, the hotness count is the number of requests for the object that the node itself has looked up: in its current epoch in epoch mode, in all epochs in cumulative mode. |
| `PolicyTraces.LocalCountsLookups` | src/cache/contention_policy.cpp:27-44 | So is the local count of the contention policy, with or without a reset at each epoch. |
| `Admissions.SucceedsWhen` | src/cache/local_cache.cpp:32-108 | An admission succeeds if and only if the policy wants the object, it is no larger than the capacity, and some list of residents in the order of the policy, all of which it would give up, makes room. |
| `Admissions.ContentionLetsIn` | src/cache/contention_policy.cpp:84-123 | Where no space is lacking an absent object becomes resident if and only if its score reaches the minimum and, under ReuseGated, its local count the gate, and, under SmoothedReuseGated, its confirmations the gate or its score the minimum plus the bypass margin. |
| `Admissions.HotnessLetsIn` | src/cache/hotness_policy.cpp:37-41 | Where no space is lacking an absent object becomes resident if and only if its count reaches the minimum. |
| `Admissions.OthersLetNothingIn` | src/cache/lru_policy.cpp:49-62 | The remote-only and the oracle policy change no resident on a response. |
| `Admissions.ContentionCachesTheDeserving` | src/cache/contention_policy.cpp:84-123 | In runs, a returned object that there is room for becomes resident if and only if its score, and the lookups that its node has made in the epochs that count and confirm, meet those conditions. |
| `Admissions.ResidentExactlyWhen` | src/cache/local_cache.cpp:32-108 | In runs under any caching policy, a returned object is resident afterwards if and only if it was before, or the policy wants it by lookups or score, it fits the capacity, and residents give way: first in the order of lookups or score and of recency, each outranked (by the eviction margin where the variant has one), and large enough. |
| `Admissions.EvictedGiveWay` | src/cache/local_cache.cpp:71-108 | The residents that an admission evicts are such residents, none of which could be spared; a failed attempt evicts nothing. |
| `Admissions.RemoteNeverHits` | src/cache/lru_policy.cpp:44-62 | Under the remote-only policy no cache ever holds anything and no lookup ever hits. |
| `Scores.SnapshotBlends` | src/cache/contention_policy.cpp:52-71 | The snapshot of an epoch is what the epoch before showed plus the decay times the snapshot that this epoch could have taken with one epoch of history less; without prior epochs or history it is empty. |
| `Scores.ScoreAddsUp` | src/cache/contention_policy.cpp:220-279 | A score is the weighted sum of the fractions (at most one) that local count, four signals and cost are of the threshold and the maxima, less the weighted fraction that the size is of the capacity. |
| `Scores.CostMeans` | src/cache/contention_policy.cpp:247-252 | Cost density times the bytes fetched is the wait and service time times the number of accesses. |
| `Scores.ScoresByTheEpochBefore` | src/cache/contention_policy.cpp:52-71 | In every reachable state a node of a variant that does not smooth holds exactly what the final telemetry of the epoch before its own shows, and nothing in the first epoch. |
| `Scores.ScoresByItsHistory` | src/cache/contention_policy.cpp:52-71 | A node of a variant that smooths holds the blend of the configured number of epochs before its own, and the maxima over it. |
| `Tallies.NodesTally` | src/metrics/stats.cpp:9-48 | In every reachable state each node has counted its own hits and misses and keeps the latencies of its own responses in order; all samples are the latencies of all responses in order. |
| `Peaks.LongestWaits` | src/metrics/stats.cpp:74-98 | In every reachable state the longest wait in the bucket of an object, and of a channel, is the longest of its own requests. |
| `Peaks.DepthsAreSeen` | src/nodes/memory_node.cpp:41-46 | The greatest depth in the bucket of an object is the longest queue that any of its requests has joined, itself included. |
| `Peaks.ChannelDepthsAreSeen` | src/nodes/memory_node.cpp:41-46 | The greatest depth in the bucket of a channel is the longest queue that any request of the epoch has joined there. |
| `Oracle.LongestFitIsInstalled` | src/cache/local_cache.cpp:119-154 | Of distinct replicas of any sizes, those larger than the capacity are passed over, and of the others exactly the longest prefix that fits is installed. |
| `Drifts.StaticStays` | src/workloads/generators.cpp:45-53 | A static workload has equal hot sets in all epochs, for every node, whatever churn is configured. |
| `Drifts.ShiftsPartly` | src/workloads/generators.cpp:253-302 | Under a shifted workload with 0 < churn < 1 every segment keeps exactly its size less the least whole number no smaller than churn * size, and what replaces the rest was hot for no node before. |
| `Drifts.ChurnGoesOn` | src/workloads/generators.cpp:165-208 | What a partial churn brings in are the next candidates in the list that had not been hot, segment by segment, from behind the first layout on and then from wherever the last churn stopped. |
| `Drifts.ShiftsByStride` | src/workloads/generators.cpp:589-611 | Under churn 1 the layout of epoch e starts e strides into the candidates, a stride being the shared objects and those of all nodes; object i of a hot set is found at its own place there, and the first epoch is laid out so in every mode. |
| `Drifts.OverlapMeans` | src/workloads/generators.cpp:24-35 | Two hot sets of an epoch have nothing, half of the objects rounded down, or all in common. |
| `Drifts.HotOnHotChannels` | src/workloads/generators.cpp:94-138 | Where hot objects are restricted to h channels, every hot object o has (o - 1) mod channels < h. |
| `Drifts.SizesAsDrawn` | src/workloads/generators.cpp:352-374 | Every request has the positive size of its object: the fixed one, or the large or small one as drawn for the object. |
| `Drifts.NothingPlanned` | src/workloads/generators.cpp:395-401 | A completion-driven stream has no offsets. |
| `Drifts.ArrivalsInBursts` | src/workloads/generators.cpp:395-412 | The arrivals of an epoch start after the jitter, which is no more than configured, follow each other by the gap within a burst, and by the interval from burst to burst. |
| `Drifts.AnyMayBeDrawn` | src/workloads/generators.cpp:336-347 | Any hot object may be drawn if hot was chosen or nothing is cold, and any cold one otherwise. |
| `Recency.CachesCount` | src/cache/local_cache.cpp:14-30 | In every reachable state a cache has counted the lookups of its own node that hit, and those that missed. |
| `Admissions.RejectedVictims` | src/cache/local_cache.cpp:61-91 | A failed attempt records no victims if the policy does not want the object or it exceeds the capacity, and otherwise the residents it would have given up, in order, up to the first it would not. |
| `Generator.NodesUnique` | src/workloads/generators.cpp:420-427 | The loop over the identifiers finds whether any is repeated. |
| `Generator.ValidateSyntheticWorkload` | src/workloads/generators.cpp:414-556 | The checks, one after the other, accept exactly the acceptable configurations. |

## Left out

- Machine integers and floating point: times, sizes and counts are unbounded naturals, scores and fractions are reals;
  overflow and rounding are not modelled.
- Random numbers: the shuffle is an arbitrary permutation of the objects, each choice an arbitrary member of the
  candidates it is drawn from, each object's bimodal size either of the two, and jitter an arbitrary function of node
  and epoch. All theorems hold for every such draw.
- The inside of the priority queue and of the hash maps: the queue is a set of events searched for its least element;
  maps are scanned in arbitrary order; the library sort of the plan is an insertion into a ranked list.
- Exceptions: a method returns false where the program throws; what the state is after a throw is not modelled, since no
  run throws. The constructor's and the generator's exceptions are told apart only as accepted or rejected.
- Simulators.Simulator.constructor: takes a valid configuration as given; which ones the program rejects is stated by
  `EndToEnd.RunSynthetic` and `EndToEnd.RunExplicit`, which check before they build.
- ReplicaPlans.PlanFor: plans for whatever streams it is given; that the oracle policy is refused for explicit streams
  is stated by `EndToEnd.RunExplicit`.
- Recorders.Stats.RecordObjectQueueWait: keeps the total and the number of waits, not their quotient, which the program
  refreshes with every sample.
- CacheRuns.CachesHold: claims equality of occupancy and resident bytes for completion-driven runs only, as it fails
  for overlapping misses.
- MemoryNodes.RequestTable.Enter: the request table, the response list and the next request number, which the program
  passes by reference one by one, are one object here.
- The per-node getters, and the sorted listings of the most contended objects.
- Reason strings and the policies' own diagnostics: admission records keep who, when, what, the planned victims, and
  the placement's hits and end.
- Configuration loading, command line, experiment runner, histogram and plotting, and the rest of the matrix script.
- Event kinds that no handler uses (shared cache, queue enqueue, epoch advance) and the placeholder classes for shared
  cache, links and queue models.
