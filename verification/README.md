# Verification of the event-audit runtime

A Dafny model of the protocols that the event-audit runtime builds for itself on top of Redis, Kafka, a SQL database,
Temporal and asyncio. Each component is modelled as the code runs it and proved against an independent statement: a
specification over the full history, an invariant of every run, or a declarative characterisation of what an algorithm
returns. Where the code does not do what its own comments say, the model follows the code, a lemma gives the input that
shows it, and another says exactly when the promise does hold.

One module per component, in files of the same name:

- `AuditWorker`, `AuditPq`, `AuditDrain`, `AuditRouting`, `AuditFates`: a submitted job goes to a bounded in-memory
  queue, spills to the Redis priority queue, then to the Kafka overflow topic, then to a local deque; workers interleave
  queue and deque; the drain loop brings jobs back. The first three model the objects; `AuditRouting` models all of them
  together as one transition system whose steps are the stretches between two awaits (each Redis command is a step of
  its own), and `AuditFates` says what becomes of a job in it.
- `RateLimit`, `SigmaWindows` (with `TimeWindow`): sliding windows with lazy cleanup, proved equal to a window over the
  whole history.
- `CooldownLru`, `AuditStatus`: two bounded ordered maps.
- `EventBus`: numbered events, the ring of the last 500, one bounded queue per subscriber, and the reconnect endpoint.
- `SlidingWindow`: a session's message window and its evicted list, over the Redis and the in-memory backend.
- `LlmLimiter`: admission to the language model with slots reserved for P0.
- `EventStore`: batch insert with rollback and fallback against one-by-one idempotent insert.
- `MemoryTree`: a forest of leaves and groups, and its budgeted depth-first expansion.
- `AuditTrail`: the hash-linked log with its offline buffer, any number of writes and flushes in flight.
- `Correlation`, `CorrelationShipped`, `TemporalGroups`, `ChainDedup`: kill-chain matching, in general and as the shipped
  patterns run it, grouping by time, chain deduplication.
- `Grounding`: the seven layers and the weighted score of a claim.
- `Baseline`: hourly counters with decay, deviation and anomaly score.
- `CaseLifecycle`: status table, automatic steps, aggregation, deadline, on the copy of one database session;
  `CaseSessions`: one row under any number of overlapping sessions.
- `Triage`: lane choice and admission under the budget.
- `CircuitBreaker`: trends, trips, cooldown.

Conventions. Times and scores are integers or reals. Stretches of code without an await are atomic. Settings are constant
during a run. What Redis, Kafka, Temporal, the database and unseen modules answer is a parameter of the step. Hashing,
text normalisation, square root and rendering are uninterpreted functions. A clock that does not run backwards is assumed
only where a statement says so (`Monotone`, `Timed`, `ClockAdvances`). Objects whose methods update fields are classes;
every method states its whole new state through the specification functions the lemmas are about.

Where the code and its documentation disagree:

- The score of the priority queue pops the newest of equal priorities first; its comment says the earliest
  (`AuditPq.SamePriorityNewestFirst`).
- "P0/P1 never dropped" holds for every interleaving in which no removal from the sorted set is stale, and that is exact
  (`AuditRouting.LossMeansStale`, `AuditRouting.StaleRemovalCanLose`). A worker that waits on an empty queue does not see
  a job that reaches the local deque (`AuditRouting.StrandsIff`, with a run in `AuditRouting.StrandedReachable`).
- The reconnect endpoint reports a complete replay although its replay limit of 200 cut it
  (`EventBus.CompleteFlagWrongIff`), and a client that resumes with a number from before a restart is sent nothing
  until the numbers pass it (`EventBus.StaleResumeSkipsIff`).
- The in-memory message backend never evicts by age (`SlidingWindow.BackendsAgreeIff`).
- "Dequeued after the commit" holds for a flush exactly while nothing else moves the front of the audit buffer: two
  flushes that overlap write entries twice and delete unwritten ones (`AuditTrail.OnceEachIff`,
  `AuditTrail.LoneDropsIff`, with a run in `AuditTrail.TwoFlushesLose`). Writers that overlap fork the chain
  (`AuditTrail.ChainedIff`), and chain verification checks rows but not links (`AuditTrail.AcceptedIffNoDigestError`,
  `AuditTrail.GapsPass`).
- Kill-chain matching is documented to find steps that occur in order with gaps within the limit. It looks at one
  selection of events only, and `CorrelationShipped.TightHiddenIff` says when that hides an occurrence, for every shipped
  pattern with distinct steps (inputs in `CorrelationShipped.EarlyLastStepHidesChain`,
  `CorrelationShipped.LateStepHidesChain` and `CorrelationShipped.EarlyFirstStepHidesChain`). For the others, which
  require all steps, look-ahead can lose a complete chain (`Correlation.SkippingReportsIff`,
  `Correlation.SkippingSafeIff`, with an input in `Correlation.SkippingLosesChain`).
- The truncation marker is no sign of truncation: it can be missing and it can stand without one
  (`MemoryTree.CutUnmarkedIff`, `MemoryTree.MarkedUncutIff`, with inputs in `MemoryTree.CutWithoutMarker` and
  `MemoryTree.MarkerWithoutCut`).
- Sigma rules that share an id share windows, and counts are exact only if their timeframes agree
  (`SigmaWindows.ChecksExactIff`).
- Wake-ups at the model gate carry no order (`LlmLimiter.OvertakesIff`, with a run in `LlmLimiter.NewcomerMayOvertake`).
- With everything in flight a normal budget is tighter than a soft one (`Triage.CostMonotoneIff`).
- The transition table of a case holds for its row only while sessions do not overlap and approvals fit: an approved work
  order writes the status past the table, and a session decides on the copy it once read (`CaseSessions.TrailIsPathIff`,
  `CaseSessions.QuietPathIff`, with a run in `CaseSessions.SlaReopensClosed`). Events that join one case in two sessions
  can be lost (`CaseSessions.RowGrowsIff`, with a run in `CaseSessions.JoinsLoseEvent`). A pending approval does not hold
  back automatic resolution (`CaseLifecycle.PendingApprovalIgnored`).
- The deviation has a cap of 10 that one branch misses (`Baseline.DeviationUncappedIff`).
- Audits without a claim shorten the breaker's warm-up, "consecutive" bad audits need not be consecutive, and a reset
  clears no trend (`CircuitBreaker.WarmupCountsNoClaims`, `CircuitBreaker.TripsIff`, `CircuitBreaker.ResetRetrips`).

## Model

| member | source | states |
|---|---|---|
| `AuditWorker.QueueMax` | backend/audit_worker.py:56-57 | the bound on the queue is the configured one, 2000 when unset, and at least one |
| `AuditWorker.PushOrdered` | backend/audit_worker.py:175-186 | the heap stays ordered by priority and then by submission, for any push of a fresh sequence number |
| `AuditWorker.AppendCapped` | backend/audit_worker.py:162-169 | the local deque keeps the newest jobs up to its cap; what it drops is the oldest part |
| `AuditWorker.SubmitKeepsPool` | backend/audit_worker.py:103-186 | whatever the two stores answer, queue bound, deque cap and queue order survive a submit |
| `AuditWorker.SubmitAnswerMeaning` | backend/audit_worker.py:103-186 | when each of the five answers is given: queued with room; else refused if the tier may be dropped, and otherwise the first of Redis, Kafka (not for a replayed job) and the local deque that takes it |
| `AuditWorker.ChoicesInterleave` | backend/audit_worker.py:243-282 | with both stores busy a worker takes exactly two deque jobs for each queue job, from any streak on: neither starves |
| `AuditWorker.HeadIsBest` | backend/audit_worker.py:243-282 | the queue yields the highest priority, the earliest submission among equals |
| `AuditWorker.AuditWorkerPool.constructor` | backend/audit_worker.py:26-35 | an empty pool with the configured bound |
| `AuditWorker.AuditWorkerPool.Defer` | backend/audit_worker.py:162-171 | the deque after the loop that evicts down to the cap; evicted jobs and deque together are everything deferred, in order |
| `AuditWorker.AuditWorkerPool.Submit` | backend/audit_worker.py:103-186 | answer and new pool for every answer of the two stores; no job leaves except the oldest deferred ones beyond the cap |
| `AuditWorker.AuditWorkerPool.TakeNext` | backend/audit_worker.py:243-282 | which store the next job comes from, that it is the head of that store, and the next streak |
| `AuditWorker.AuditWorkerPool.Finish` | backend/audit_worker.py:284-304 | a finished job leaves the set of running ones; the busy counter stays exact |
| `AuditPq.ClampPriority` | backend/audit_pq.py:48-54 | a priority in 0..100 counts as it is, one outside as the nearer end |
| `AuditPq.ScoreExact` | backend/audit_pq.py:48-54 | scores fit a double exactly for every realistic timestamp |
| `AuditPq.ScoreOrder` | backend/audit_pq.py:48-54 | the exact order two scores have, in terms of both priorities and both times |
| `AuditPq.HigherPriorityFirst` | backend/audit_pq.py:48-54 | of two priorities in 0..100 the higher is popped first whenever the times are less than 10^12 ms apart |
| `AuditPq.AgeBeatsPriority` | backend/audit_pq.py:48-54 | beyond that many ms per step of priority the newer one goes first |
| `AuditPq.PopIsBest` | backend/audit_pq.py:108-135 | popping the head leaves no live payload of a higher priority in 0..100 behind |
| `AuditPq.SamePriorityNewestFirst` | backend/audit_pq.py:48-54 | within one priority the newest entry is popped first |
| `AuditPq.ZAddKeeps` | backend/audit_pq.py:56-106 | adding keeps the set sorted with one member per id |
| `AuditPq.WithoutKeeps` | backend/audit_pq.py:171-214 | removing one member keeps order and uniqueness, and removal by position is removal by id |
| `AuditPq.SortedUnique` | backend/audit_pq.py:48-54 | the order of the set is determined by its members alone |
| `AuditPq.AuditPriorityQueue.Enqueue` | backend/audit_pq.py:56-106 | the id is live afterwards with this payload and score, an older entry of the id is replaced, nothing else changes; without Redis nothing happens |
| `AuditPq.AuditPriorityQueue.PopHighest` | backend/audit_pq.py:108-135 | the least score is always removed, its payload returned if it is still there, and then nothing live left behind has a higher priority |
| `AuditPq.AuditPriorityQueue.PopMatching` | backend/audit_pq.py:171-214 | exactly the first live match of the window is removed, all others keep their order; none is returned only if none matches |
| `AuditPq.AuditPriorityQueue.PopFirstRunnable` | backend/audit_pq.py:216-228 | the head, or with the agent slots full the first live job of the window that is not for the agent lane, and none only if there is none |
| `AuditPq.AuditPriorityQueue.PurgeStale` | backend/audit_pq.py:230-246 | exactly the members without a payload among the first 201 are removed; no live one is |
| `AuditDrain.AuditScheduler.Requeue` | backend/scheduler.py:762-779 | the job is live in the priority queue again with the given retry count |
| `AuditDrain.AuditScheduler.SubmitLocal` | backend/scheduler.py:723-747 | below nine tenths of the bound a local submit is always accepted into the queue |
| `AuditDrain.AuditScheduler.RouteOne` | backend/scheduler.py:647-756 | one popped job: submitted and counted, put back with its retry count, started, or closed, each exactly when its age, retries, tier, lane, the answer of Temporal and the room say so; no place loses an id |
| `AuditDrain.AuditScheduler.NextJob` | backend/scheduler.py:634-646 | the head, or while the agent slots are full the first live job that is not for the agent lane |
| `AuditDrain.AuditScheduler.DrainStep` | backend/scheduler.py:634-756 | one pop and routing: a live fresh head with room goes to the workers and is counted, an empty queue ends the round, no id is lost, and while the slots are full no agent-lane job is taken but the first other one is |
| `AuditDrain.AuditScheduler.DrainOnce` | backend/scheduler.py:623-760 | a whole round loses no id and counts at most the batch; when nothing holds it back it moves the best members, a whole batch or all there are, to the workers and counts just these |
| `AuditRouting.RouteMeaning` | backend/scheduler.py:647-756 | when the drain submits, starts a workflow, closes or requeues a job, exactly, by age, retries, tier, lane, the answer of Temporal and the room in the worker queue, and with which retry count it requeues |
| `AuditFates.SubmissionIsSubmit` | backend/audit_worker.py:103-186 | a submission that meets no other step ends as the pool's submit and puts the job in the store its answer names |
| `AuditFates.ClosedOnlyBy` | backend/scheduler.py:660-696 | an id is closed by a worker that is done with it or by the drain that gives it up, and by nothing else |
| `AuditFates.StartedOnlyBy` | backend/scheduler.py:707-732 | a workflow is started by a worker that hands its job over, or for a fresh P0 agent-lane job that Temporal accepts, and by nothing else |
| `AuditFates.RunsKeepJobs` | backend/audit_worker.py:103-304 | over every interleaving each job held anywhere is one that was submitted, with its id, tier and priority |
| `AuditRouting.StepKeepsInv` | backend/audit_worker.py:103-304 | every step but a stale removal keeps each answered or handled id in some place, and keeps the shape of all stores |
| `AuditRouting.InitInv` | backend/audit_worker.py:26-35 | the initial state satisfies the invariant |
| `AuditRouting.RunsNeverDrop` | backend/audit_worker.py:103-304 | over every interleaving without a stale removal each answered id is held, running, finished or evicted by the deque cap; never-drop tiers are never refused; the queue bound holds |
| `AuditRouting.StepKeepsLive` | backend/audit_pq.py:108-135 | unless an id is written to the set while the drain takes it out, every member has its payload and no removal is stale |
| `AuditRouting.NoOverlapNeverDrops` | backend/scheduler.py:623-777 | hence without such overlaps never-drop holds for every run |
| `AuditRouting.LossMeansStale` | backend/audit_pq.py:230-246 | a step loses an id if and only if it is a stale removal of an id that no other place holds |
| `AuditRouting.TopicGrowsOnlyByFirstSpill` | backend/audit_worker.py:158-161 | only a job that does not come from the overflow topic can enter it |
| `AuditRouting.EvictionNeedsFullDeque` | backend/audit_worker.py:162-169 | an id is evicted only when the local deque was full |
| `AuditRouting.StrandedUntilNextPut` | backend/audit_worker.py:243-282 | through every run in which nothing is put on the queue: when all workers wait on it, they keep waiting, and no deque job is taken |
| `AuditRouting.StrandsIff` | backend/audit_worker.py:103-282 | a step strands the deque if and only if it defers a job (Redis and Kafka failed, or Redis failed for a replayed job) while the queue is empty and every worker already waits |
| `AuditRouting.StaleRemovalCanLose` | backend/audit_pq.py:108-135 | a run in which an answered P0 id ends in no place |
| `RateLimit.IsForced` | backend/http_guards.py:180-195 | a path is forced exactly when some rule applies; the longest-prefix bookkeeping does not change the answer |
| `RateLimit.Decide` | backend/http_guards.py:175-207 | forced beats exempt, everything else is counted in the standard bucket |
| `RateLimit.UnderIff` | backend/http_guards.py:171-172 | a path is under a prefix when it is that prefix or goes on with a slash right behind it |
| `RateLimit.RuleAppliesIff` | backend/http_guards.py:180-195 | a rule without methods applies to all of them, one with methods to just those |
| `RateLimit.CleanupIs` | backend/app.py:500-509 | when a request cleans up, and that just the buckets without an admission in the last 60 seconds go |
| `RateLimit.BucketKeyInjective` | backend/app.py:480-489 | bucket keys determine namespace and client |
| `RateLimit.RunMatchesSpec` | backend/app.py:492-523 | for every run on a clock that does not go back, pruning and periodic deletion never change an answer of the full-history rule |
| `RateLimit.SpecWindowBound` | backend/app.py:480-523 | the full-history rule admits at most the limit in any (a, a+60] |
| `RateLimit.WindowBound` | backend/app.py:480-523 | so does the middleware, per bucket, for any traffic |
| `RateLimit.AdmittedIff` | backend/app.py:480-523 | a request is admitted if and only if fewer than the limit of its bucket were admitted in the 60 seconds before it |
| `RateLimit.NoLimitAdmitsAll` | backend/app.py:492-498 | without a positive limit everything is admitted |
| `RateLimit.BucketsIsolated` | backend/app.py:480-523 | a bucket gets the answers it would get if no other bucket existed |
| `RateLimit.RateLimiter.DeleteStale` | backend/app.py:505-509 | exactly the stale buckets are deleted |
| `RateLimit.RateLimiter.Handle` | backend/app.py:492-523 | one request: the answers so far are those of a run of the model |
| `SigmaWindows.MaxTimeframe` | backend/sigma_detector.py:425-451 | the cleanup cutoff covers every rule |
| `SigmaWindows.FiresIff` | backend/sigma_detector.py:394-411 | when a rule fires, by function, operator and threshold |
| `SigmaWindows.RunAgrees` | backend/sigma_detector.py:372-451 | over every run the windows answer every question within a rule's timeframe as the history of checks does |
| `SigmaWindows.CleanupInvisible` | backend/sigma_detector.py:372-411 | the window a check counts is exactly the history of its rule and group within the timeframe, whenever cleanups ran |
| `SigmaWindows.CleanupsDoNotMatter` | backend/sigma_detector.py:425-462 | runs that differ only in cleanups give every later check the same window |
| `SigmaWindows.CleanupTidies` | backend/sigma_detector.py:425-451 | after a cleanup every surviving group is non-empty and recent, and no rule is left without groups |
| `SigmaWindows.ChecksExactIff` | backend/sigma_detector.py:372-451 | no check of any run ever miscounts if and only if rules that share an id have the same timeframe |
| `SigmaWindows.SigmaDetector.CheckAggregation` | backend/sigma_detector.py:372-411 | the window after appending and dropping from the front, and whether the threshold fires on its length |
| `SigmaWindows.SigmaDetector.CleanRule` | backend/sigma_detector.py:425-451 | the groups of one rule after cleanup |
| `SigmaWindows.SigmaDetector.CleanOne` | backend/sigma_detector.py:425-451 | one more rule of a partial cleanup is done |
| `SigmaWindows.SigmaDetector.CleanupWindows` | backend/sigma_detector.py:425-451 | the windows after a full cleanup |
| `SigmaWindows.SigmaDetector.MaybeCleanup` | backend/sigma_detector.py:453-462 | a cleanup happens exactly when the interval has passed |
| `EventBus.OfferKeeps` | backend/event_bus.py:88-104 | delivery to one queue, with a drop when it is full, keeps it an unbroken run that ends at the last event |
| `EventBus.OfferIs` | backend/event_bus.py:94-103 | only a full queue gives up an event, one, its oldest |
| `EventBus.SubscribersAre` | backend/event_bus.py:106-150 | who is subscribed after each operation, and that no other queue is touched |
| `EventBus.PublishedAre` | backend/event_bus.py:88-104 | what was published, in order, is what the publish calls were given |
| `EventBus.StepKeepsInv` | backend/event_bus.py:88-208 | every operation keeps ring and queues |
| `EventBus.RunsKeepStreams` | backend/event_bus.py:88-208 | in every reachable state the ring is the last 500 events, each queue an unbroken run within its bound that ends at the last event, and received, waiting and dropped events add up |
| `EventBus.RecentExact` | backend/event_bus.py:202-208 | a replay with a positive limit is exactly the unbroken run from the latest of its three starts |
| `EventBus.RecentOddLimits` | backend/event_bus.py:202-208 | what limits of zero and below return |
| `EventBus.ReplayCompleteIff` | backend/event_bus.py:202-224 | a replay has no gap if and only if the ring reaches back far enough and the limit covers all |
| `EventBus.ResumeExact` | backend/routers/chat.py:54-106 | after a reconnect without drops the client has exactly the numbers from the replay's start on, each once |
| `EventBus.ResumeGapFreeIff` | backend/routers/chat.py:54-98 | a reconnect misses nothing if and only if at most 200 events were published since the last one it had, or its queue was open by then |
| `EventBus.CompleteFlagWrongIff` | backend/routers/chat.py:54-98 | a resumed client is told it missed nothing although it ends up with a gap exactly when 201 to 500 events were published since its last one and its queue was opened after the first of them; told of a gap it does not have exactly when more than 500 were and its queue was there before |
| `EventBus.StaleResumeSkipsIff` | backend/routers/chat.py:69-100 | a client that resumes is sent nothing at all, neither replayed nor live, if and only if the numbers have not passed its own; it is then told that the replay is complete |
| `EventBus.EventQueue.PutNowait` | backend/event_bus.py:94-104 | a put fails exactly on a full bounded queue |
| `EventBus.EventQueue.GetNowait` | backend/event_bus.py:94-104 | the head is taken |
| `EventBus.EventStream.Publish` | backend/event_bus.py:88-104 | the new event is numbered, kept in the ring and offered to every subscriber |
| `EventBus.EventStream.Subscribe` | backend/event_bus.py:180-196 | a full bus refuses the newcomer and evicts nobody |
| `EventBus.EventStream.Unsubscribe` | backend/event_bus.py:198-200 | the queue is removed wherever it stands, an unknown one is ignored |
| `EventBus.EventStream.Consume` | backend/routers/chat.py:93-99 | a subscriber takes the head of its own queue; no other queue changes |
| `EventBus.EventStream.RecentEvents` | backend/event_bus.py:202-208 | the replay of the model |
| `CooldownLru.CacheMirrors` | backend/log_ingestion.py:69-80 | over every run the map holds exactly the most recently asked keys up to its size, each with the time it was last let through |
| `CooldownLru.AnswerExact` | backend/log_ingestion.py:69-80 | a call is refused exactly when its key is among those and was let through less than the cooldown ago |
| `CooldownLru.NewerAreOthers` | backend/log_ingestion.py:69-80 | whatever stands behind a key in the map was asked about after it |
| `CooldownLru.AnswerByTime` | backend/log_ingestion.py:69-80 | while fewer than the maximum of other keys intervene, the answer depends on elapsed time alone |
| `CooldownLru.CooldownHolds` | backend/log_ingestion.py:69-80 | two passes of one key are a cooldown apart unless at least the maximum of distinct other keys were asked about in between |
| `CooldownLru.CooldownMap.Put` | backend/log_ingestion.py:76-79 | insert or overwrite, move to the end, then the eviction loop |
| `CooldownLru.CooldownMap.FastpathAllow` | backend/log_ingestion.py:69-80 | one call of the model |
| `CooldownLru.CooldownMap.RedisRecentlySeen` | backend/event_bus.py:71-81 | the same map asked the other way round |
| `AuditStatus.EvictKeeps` | backend/log_ingestion.py:223-233 | eviction gives up no in-flight entry while at most the maximum are in flight |
| `AuditStatus.TrackIs` | backend/log_ingestion.py:203-233 | one report: the new entry is the newest, and if that is one too many the oldest finished one goes, or the oldest of all when none is finished |
| `AuditStatus.RunIsCurrent` | backend/log_ingestion.py:203-233 | over every run the cache has distinct ids with their last status and never exceeds its size |
| `AuditStatus.InFlightVisible` | backend/log_ingestion.py:203-233 | every audit in flight stays visible as long as no more than the maximum ever were at once |
| `AuditStatus.FinishedNewcomerDropped` | backend/log_ingestion.py:223-233 | a finished report of a new id is dropped at once when the cache is full of in-flight entries |
| `AuditStatus.AuditStatusCache.TrackAuditStatus` | backend/log_ingestion.py:203-233 | the cache after the two nested loops |
| `LlmLimiter.Limit` | backend/llm_limiter.py:38-39 | the configured number of slots, 8 when unset, and at least one |
| `LlmLimiter.Reserve` | backend/llm_limiter.py:41-44 | the configured reserve, never negative, and leaving at least one slot to the others |
| `LlmLimiter.StepCounts` | backend/llm_limiter.py:71-110 | every step keeps the three counters equal to the holders, the P0 holders and the waiters |
| `LlmLimiter.RunsAreSafe` | backend/llm_limiter.py:61-110 | over every interleaving of arrivals, retries, timeouts and leaves: exact counters, at most the limit of holders, non-P0 holders outside the reserve, and no waiter asleep that could enter |
| `LlmLimiter.AdmittedIff` | backend/llm_limiter.py:61-95 | in every reachable state a task that arrives or looks again gets a slot if and only if one is free and, unless it is P0, fewer than the unreserved slots are held by others than P0 |
| `LlmLimiter.GoneAndWoken` | backend/llm_limiter.py:78-110 | a task that leaves wakes every waiting one and disturbs no holder; one that gives up just goes |
| `LlmLimiter.ReserveServesP0` | backend/llm_limiter.py:61-69 | P0 enters whenever it uses less than the reserve; a sleeping P0 task means all slots are used and the reserve is full of P0 |
| `LlmLimiter.GuardsNeverBind` | backend/llm_limiter.py:61-110 | the clamps at zero never change a value |
| `LlmLimiter.OvertakesIff` | backend/llm_limiter.py:71-110 | in every reachable state an arrival passes a waiting task of its class if and only if that task has been woken, has not looked again, and would enter if it looked now |
| `LlmLimiter.Limiter.TryAdmit` | backend/llm_limiter.py:61-95 | entry exactly when the class may enter, and the counters afterwards |
| `LlmLimiter.Limiter.Arrive` | backend/llm_limiter.py:71-95 | from the call to the slot or the first wait |
| `LlmLimiter.Limiter.LookAgain` | backend/llm_limiter.py:76-95 | from a wake-up to the slot or the next wait |
| `LlmLimiter.Limiter.LeaveSlot` | backend/llm_limiter.py:101-108 | the slot given back |
| `SlidingWindow.RangesAgreeIff` | backend/sliding_window.py:120-125 | the in-memory range query agrees with LRANGE exactly when the range reaches past the end or is empty; ranges to -1 always agree |
| `SlidingWindow.RunsConserve` | backend/sliding_window.py:180-264 | over every run evicted list and window are what was added and not cleared, in order, losing only evicted records beyond 10000; the window never exceeds its size |
| `SlidingWindow.AddIs` | backend/sliding_window.py:180-231 | a message that finds room evicts nothing but what is too old, one that does not, a quarter of the size more |
| `SlidingWindow.NothingStale` | backend/sliding_window.py:204-220 | with Redis and a clock that does not go back nothing older than the cutoff remains after an add |
| `SlidingWindow.BackendsAgreeIff` | backend/sliding_window.py:204-231 | the backends leave the same window exactly when the head is fresh, or the window was full and just as many messages are stale as a count eviction pops |
| `SlidingWindow.DequeKeepsStale` | backend/sliding_window.py:120-125 | the in-memory backend keeps a message of any age |
| `SlidingWindow.Window.AddMessage` | backend/sliding_window.py:180-202 | push, then eviction by age, then by count |
| `SlidingWindow.Window.EvictByTime` | backend/sliding_window.py:204-220 | exactly the stale front moves to the evicted list, or nothing under the in-memory backend |
| `SlidingWindow.Window.EvictByCount` | backend/sliding_window.py:222-231 | a quarter of the size, at least one, moves to the evicted list |
| `SlidingWindow.Window.RecordEvicted` | backend/sliding_window.py:233-248 | appended in order and cut to the last 10000 |
| `SlidingWindow.Window.GetEvicted` | backend/sliding_window.py:255-259 | the last evicted messages up to the limit; zero returns all, a negative limit drops that many of the oldest |
| `EventStore.StoreLinearizes` | backend/event_store.py:187-285 | whatever other writers commit between lookup and insert, a store acts as one step on the later table |
| `EventStore.BatchIsFold` | backend/event_store.py:287-421 | without a conflict the batch leaves the very table that storing one by one leaves, ids included |
| `EventStore.BatchRefinesSequential` | backend/event_store.py:287-421 | for every table and batch, whatever other writers commit between lookup and commit and in every gap of the fallback: the rows, up to surrogate ids, and the results of storing one by one among those writers |
| `EventStore.FallbackLinearizes` | backend/event_store.py:366-381 | the fallback among other writers leaves the rows and returns the results of storing everybody's items one by one in the order of their commits |
| `EventStore.FoldIgnoresIds` | backend/event_store.py:187-285 | gaps in the id sequence change nothing but ids |
| `EventStore.AnalyzedFlag` | backend/event_store.py:437-461 | the only difference: the analyzed flag is reported exactly by an unconflicted batch for a row that already was analyzed |
| `EventStore.RunKeepsRows` | backend/event_store.py:187-421 | over every run no upstream id ever has two rows and no row is lost or changed |
| `EventStore.RunsStoreGiven` | backend/event_store.py:216-237 | over every run each row that was added holds an item some call handed in, whole and under its event id |
| `EventStore.StoredOnce` | backend/event_store.py:208-215 | storing an event id again leaves the table alone and returns the first one's content |
| `EventStore.BatchAnswers` | backend/event_store.py:287-421 | every result of a batch shows the row the table has for its item's event id, with that row's content; a new row holds just what was handed in |
| `EventStore.Store.StoreItem` | backend/event_store.py:187-285 | lookup, insert, and second lookup after a conflict |
| `EventStore.Store.CommitFails` | backend/event_store.py:364-373 | when the single commit violates the unique index |
| `EventStore.Store.StoreOneByOne` | backend/event_store.py:374-381 | the fallback calls store item by item, other writers acting in every gap |
| `EventStore.Store.InsertAll` | backend/event_store.py:336-414 | the committed inserts and one result per item |
| `EventStore.Store.StoreAll` | backend/event_store.py:287-421 | one batch of the model |
| `MemoryTree.LinkKeepsForest` | backend/memory_tree.py:82-116 | a link keeps parents younger than children exactly when it does not name its own group |
| `MemoryTree.RunsBuildForests` | backend/memory_tree.py:50-116 | every run over pre-existing ids builds a forest |
| `MemoryTree.FullMembers` | backend/memory_tree.py:164-209 | the depth-first list below a node has exactly the content leaves that descend from it |
| `MemoryTree.FullDistinct` | backend/memory_tree.py:164-209 | no node appears twice in it |
| `MemoryTree.FullContextMeaning` | backend/memory_tree.py:118-162 | a session's list has, once each, exactly the content leaves whose root belongs to the session |
| `MemoryTree.TakeBounds` | backend/memory_tree.py:164-209 | what the budget allows is a prefix, overruns by less than its last leaf, and is shorter only when the budget is spent |
| `MemoryTree.TakeAppend` | backend/memory_tree.py:164-209 | expanding one subtree after another is expanding their concatenation |
| `MemoryTree.CutUnmarkedIff` | backend/memory_tree.py:147-209 | something is cut and nothing marks it exactly when the leaves before the last top-level node leave part of the budget and that node's own leaves do not fit into it |
| `MemoryTree.MarkedUncutIff` | backend/memory_tree.py:147-209 | the marker stands although nothing is cut exactly when the last top-level node has no leaves and those before it are all taken and spend the budget |
| `MemoryTree.MemoryTreeStore.AddLeafNode` | backend/memory_tree.py:50-80 | a leaf is appended |
| `MemoryTree.MemoryTreeStore.LinkLeaves` | backend/memory_tree.py:82-116 | a group is appended and the existing ids are re-parented to it |
| `MemoryTree.MemoryTreeStore.ExpandNode` | backend/memory_tree.py:164-209 | the recursion appends what the budget allows of the subtree |
| `MemoryTree.MemoryTreeStore.ExpandChildren` | backend/memory_tree.py:164-209 | so does its loop over the children |
| `MemoryTree.MemoryTreeStore.ExpandTops` | backend/memory_tree.py:147-160 | the loop over the top-level nodes, and whether it was cut |
| `MemoryTree.MemoryTreeStore.ReconstructContext` | backend/memory_tree.py:118-162 | the context is the budgeted prefix of the session's full list, plus the marker |
| `AuditTrail.ChainedIff` | backend/audit_trail.py:78-338 | over every interleaving of writes and flushes the table is one unbroken chain from genesis if and only if each commit found the hash it had read still the latest and no hash failed |
| `AuditTrail.TipStays` | backend/audit_trail.py:78-104 | a hash that was read stays the latest as long as nothing commits, so commits that do not overlap link on |
| `AuditTrail.TableIs` | backend/audit_trail.py:231-327 | over every run the table holds just what was committed, entry by entry, in the order of the commits |
| `AuditTrail.WriteKeepsEntry` | backend/audit_trail.py:180-234 | a direct write in flight carries the entry it began with |
| `AuditTrail.LinkedPrev` | backend/audit_trail.py:313-325 | within a batch each row links to the one before, or past it to what that one linked to when its hash failed |
| `AuditTrail.VerifyChain` | backend/audit_trail.py:341-365 | verification accepts exactly tables whose every row matches its own hash, and otherwise names the first that does not |
| `AuditTrail.AcceptedIffNoDigestError` | backend/audit_trail.py:91-104 | verification accepts the table of a run exactly when no committed row's hash failed, whatever forks overlapping writers left |
| `AuditTrail.GapsPass` | backend/audit_trail.py:341-365 | verification still accepts a chain with a row taken out of its middle |
| `AuditTrail.EnqueueAllIsLastN` | backend/audit_trail.py:254-258 | the buffer is always the last 500 of what it was given since |
| `AuditTrail.RunsAccount` | backend/audit_trail.py:254-338 | over every interleaving, any number of flushes in flight: buffer and batches are stretches of everything deferred, the flushes wrote just the entries recorded, and what left the buffer was written, pushed out past 500, or deleted unwritten |
| `AuditTrail.WritesTwiceIff` | backend/audit_trail.py:300-338 | a commit writes an entry again exactly when another flush committed one of them, since the copy or without having deleted by then |
| `AuditTrail.DropsIff` | backend/audit_trail.py:300-338 | a deletion takes an unwritten entry exactly when it reaches past what the flushes in flight have committed |
| `AuditTrail.LoneDropsIff` | backend/audit_trail.py:300-338 | with no other commit awaiting its deletion: exactly when the front moved since the copy (another flush deleted, or batch and arrivals exceed 500), the buffer is not empty and something arrived after the copy |
| `AuditTrail.OnceEachIff` | backend/audit_trail.py:300-338 | over every run: no deferred entry is written twice and none deleted unwritten if and only if no commit and no deletion was of those kinds |
| `AuditTrail.QuietRunsSettle` | backend/audit_trail.py:300-338 | when no other flush commits or deletes between copy and deletion and batch and arrivals fit 500, entries are written at most once, in order, and none is deleted unwritten |
| `AuditTrail.TwoFlushesLose` | backend/audit_trail.py:300-338 | a run in which two flushes write one entry twice, fork the chain and delete an unwritten entry, with one entry in the buffer |
| `AuditTrail.FailedFlushInvisible` | backend/audit_trail.py:330-338 | a flush that does not commit is invisible, wherever its steps fall: table, buffer and other flights are those of the run without it |
| `AuditTrail.AuditLog.LatestRowHash` | backend/audit_trail.py:78-88 | the hash the next row links to, the genesis hash when the table is empty or the query fails |
| `AuditTrail.AuditLog.PersistEntry` | backend/audit_trail.py:231-251 | the commit of one row linked to the hash that was read |
| `AuditTrail.AuditLog.PersistFails` | backend/audit_trail.py:168-175 | a write that raises leaves its entry in the buffer |
| `AuditTrail.AuditLog.EnqueueFallback` | backend/audit_trail.py:254-258 | append and cut to 500 |
| `AuditTrail.AuditLog.BeginFlush` | backend/audit_trail.py:306-308 | the batch is a copy of the buffer; an empty buffer ends the flush |
| `AuditTrail.AuditLog.LinkBatch` | backend/audit_trail.py:312-326 | the rows of a batch, each linked to the one before |
| `AuditTrail.AuditLog.CommitFlush` | backend/audit_trail.py:312-327 | the linked rows are committed |
| `AuditTrail.AuditLog.DequeueFlushed` | backend/audit_trail.py:328-330 | as many entries as were written leave the front of the buffer, whatever it holds by then |
| `Correlation.GreedyWitness` | backend/correlation_engine.py:490-518 | the match is an ordered occurrence of steps, and every step passed over may be skipped |
| `Correlation.ChainMeaning` | backend/correlation_engine.py:463-565 | a reported chain has enough steps, increasing positions and steps of equal types, every gap bounded and so the whole span |
| `Correlation.FailsIff` | backend/correlation_engine.py:520-538 | the matcher raises exactly when nothing matched and nothing was required |
| `Correlation.StrictEarliest` | backend/correlation_engine.py:490-518 | without skipping the match ends each prefix of the steps as early as any occurrence |
| `Correlation.StrictCompleteIff` | backend/correlation_engine.py:490-521 | without skipping k steps are matched if and only if they occur in order at all |
| `Correlation.LeastLongestIs` | backend/correlation_engine.py:490-518 | without skipping the matcher selects the one occurrence of the longest prefix of the steps that occurs, each event as early as in any such occurrence |
| `Correlation.SkippingCompletesIff` | backend/correlation_engine.py:490-518 | all steps occur: the matcher takes all of them if and only if no event between two of the least occurrence is of a later step that skipping reaches from there |
| `Correlation.SkippingReportsIff` | backend/correlation_engine.py:463-529 | for a pattern that requires all its steps: a complete chain goes unreported exactly when such an event intrudes or the least occurrence has a gap over the limit |
| `Correlation.SkippingSafeIff` | backend/correlation_engine.py:490-518 | a pattern never loses a complete chain to skipping, whatever the events, if and only if skipping reaches from each step only steps of its own type |
| `CorrelationShipped.ShippedCovered` | backend/correlation_engine.py:181-256 | every shipped pattern allows all skips, and has distinct steps or requires all of them |
| `CorrelationShipped.SelectedIff` | backend/correlation_engine.py:490-518 | with all skips allowed and distinct steps an event is selected if and only if it is of a step behind the steps of all earlier events that are of a step |
| `CorrelationShipped.ReportsIff` | backend/correlation_engine.py:463-529 | a chain is reported exactly when these advancing events are enough, not none, and have no gap over the limit, whatever part of the steps is required |
| `CorrelationShipped.TightHiddenIff` | backend/correlation_engine.py:463-529 | an ordered occurrence of enough steps with all gaps within the limit goes unreported if and only if the advancing events are too few or have a gap over the limit |
| `CorrelationShipped.RisingReported` | backend/correlation_engine.py:463-529 | on events within the limit of each other whose steps only rise, every such occurrence leads to a report |
| `CorrelationShipped.EarlyLastStepHidesChain` | backend/correlation_engine.py:189-196 | at the classic kill chain: scan, brute force and lateral movement are reported, with one exfiltration before them nothing is |
| `CorrelationShipped.LateStepHidesChain` | backend/correlation_engine.py:189-196 | nor with one command-and-control event three hours later |
| `CorrelationShipped.EarlyFirstStepHidesChain` | backend/correlation_engine.py:219-224 | at data exfiltration: an old file access hides a tight pair after it |
| `Correlation.LookAhead` | backend/correlation_engine.py:497-518 | the look-ahead loop finds the first step of the type, if all before it may be skipped |
| `Correlation.FindMatches` | backend/correlation_engine.py:490-518 | the loop over the events is the greedy match |
| `Correlation.MatchPattern` | backend/correlation_engine.py:463-565 | the whole matcher |
| `TemporalGroups.SegmentsAre` | backend/correlation_engine.py:567-612 | the groups are the events cut exactly at the long gaps |
| `TemporalGroups.SegmentationUnique` | backend/correlation_engine.py:567-612 | and no other cutting is |
| `TemporalGroups.TemporalGrouping` | backend/correlation_engine.py:567-612 | the loop reports the groups of at least two events, in order |
| `ChainDedup.SortIsStable` | backend/correlation_engine.py:646-646 | the sort is a stable permutation into descending length |
| `ChainDedup.DedupCovers` | backend/correlation_engine.py:641-657 | no event is lost, each kept chain adds one, and each event of a chain is in a kept chain at least as long |
| `ChainDedup.SubsumedDropped` | backend/correlation_engine.py:641-657 | a chain inside a longer one is dropped |
| `ChainDedup.DedupIdempotent` | backend/correlation_engine.py:641-657 | deduplicating twice changes nothing more |
| `ChainDedup.DedupChains` | backend/correlation_engine.py:641-657 | the loop with its set of used ids |
| `Grounding.ClampsNeverBind` | backend/grounding_verifier.py:326-334 | every layer lies in 0..1, so the clamps on the score and on the chain layer change nothing |
| `Grounding.FabricatedIsUngrounded` | backend/grounding_verifier.py:253-374 | a quoting claim that cites only missing events scores at most 0.35 and is ungrounded, whatever else it says |
| `Grounding.FabricatedBoundTight` | backend/grounding_verifier.py:253-374 | that bound is reached |
| `Grounding.GroundedNeedsQuotes` | backend/grounding_verifier.py:326-342 | a grounded verdict needs a quote ratio of at least 0.499875 |
| `Grounding.OccursIff` | backend/grounding_verifier.py:452-482 | a quote that is not blank is found exactly when it stands somewhere in a field of a cited event |
| `Grounding.UnquotedNeverGrounded` | backend/grounding_verifier.py:405-449 | a claim none of whose quotes stands in a cited event has ratio 0 and is never grounded, whatever else is in order |
| `Grounding.VerdictIff` | backend/grounding_verifier.py:326-342 | grounded exactly when the weighted layers reach 0.8 up to the rounding, ungrounded below 0.4 |
| `Grounding.WeightsAre` | backend/grounding_verifier.py:326-333 | the share each layer has in the score |
| `Grounding.CitedAre` | backend/grounding_verifier.py:267-275 | missing ids, cited events and stale ids as filters of the cited ids |
| `Grounding.IdLayersAre` | backend/grounding_verifier.py:295-310 | the share of cited ids that exist, and of those that are fresh |
| `Grounding.KnowledgeLayerIs` | backend/grounding_verifier.py:288-302 | knowledge counts only beside cited events that all exist |
| `Grounding.SeverityConsistentIff` | backend/grounding_verifier.py:612-677 | a named severity is borne out by a cited event of the same or a higher level |
| `Grounding.EntityScoreIs` | backend/grounding_verifier.py:679-717 | addresses count three fifths and the severity two, or whichever is named counts alone |
| `Grounding.ConflictsOfIs` | backend/grounding_verifier.py:940-964 | two events of one source conflict by severity or by kind, each counted once |
| `Grounding.BreaksAre` | backend/grounding_verifier.py:994-1029 | reversals of time and jumps between ids, counted by position |
| `Grounding.ScoreMonotone` | backend/grounding_verifier.py:326-334 | doing no worse in any layer never lowers the score |
| `Grounding.SourceClampIdle` | backend/grounding_verifier.py:939-966 | the clamp on the source layer is idle unless some source has exactly two events that conflict both ways |
| `Grounding.SourceClampBindsIff` | backend/grounding_verifier.py:911-966 | the value of the source layer is below zero before its clamp if and only if the sources show more conflicts than pairs of events; `SourceClampBinds` is such an input |
| `Grounding.RawIntegrity` | backend/grounding_verifier.py:994-1029 | chain integrity is in 0..1 before its clamp |
| `Grounding.TotalsAddUp` | backend/grounding_verifier.py:218-225 | the verdict totals add up to the claims, the scores to at most that |
| `Grounding.VerifyIdExistence` | backend/grounding_verifier.py:380-399 | the missing ids in order |
| `Grounding.VerifyFieldGrounding` | backend/grounding_verifier.py:405-449 | the unfound quotes are just those that stand in no cited event, and the ratio is that of the others |
| `Grounding.VerifyEvidenceFreshness` | backend/grounding_verifier.py:872-905 | exactly the evidence older than a day is stale |
| `Grounding.GroupBySource` | backend/grounding_verifier.py:934-940 | events by source, in order of first appearance |
| `Grounding.VerifyCrossSource` | backend/grounding_verifier.py:911-966 | conflicts and pairs over all sources |
| `Grounding.VerifyChainIntegrity` | backend/grounding_verifier.py:972-1029 | reversals in time and jumps between ids |
| `Grounding.VerifyClaim` | backend/grounding_verifier.py:253-374 | score and verdict of one claim |
| `Grounding.VerifyChunk` | backend/grounding_verifier.py:168-248 | one report per claim in order, totals that add up, and a mean score in 0..1 |
| `Baseline.CountersWithinTotal` | backend/anomaly_detector.py:193-226 | over every run of updates and decays by any factors the hourly counters sum to at most the total |
| `Baseline.CountsExact` | backend/anomaly_detector.py:193-203 | between decays the hour's counter goes up by the events of that hour and the total by all |
| `Baseline.DriftBound` | backend/anomaly_detector.py:205-226 | with the default factor the two differ by at most 23 |
| `Baseline.DriftBoundTight` | backend/anomaly_detector.py:205-226 | a run that reaches 23 |
| `Baseline.DeviationUncappedIff` | backend/anomaly_detector.py:228-261 | the deviation is never negative and exceeds 10 exactly when more than 10 events were counted, all in the current hour |
| `Baseline.DeviationIs` | backend/anomaly_detector.py:228-261 | the deviation: how far the hour is above the mean of the other 23, in units of the root of that mean |
| `Baseline.ScoreIs` | backend/anomaly_detector.py:332-392 | the score, share by share, and when it is an anomaly |
| `Baseline.RarityIs` | backend/anomaly_detector.py:264-291 | how rare a type is by its share of all events |
| `Baseline.AnalyzeConsistent` | backend/anomaly_detector.py:306-392 | analysing keeps every baseline within its total and every type within the global count |
| `Baseline.AnalyzeAdds` | backend/anomaly_detector.py:306-392 | an event adds one to the counts of its hour and type and to the baselines of its type and addresses, and to no other |
| `Baseline.OnlyDeviationAlarms` | backend/anomaly_detector.py:332-392 | no event scores above 0.86, an anomaly needs more than 9/7 sigma, and more than 3 sigma always make one |
| `Baseline.NoSourceNoAnomaly` | backend/anomaly_detector.py:306-392 | an event without a source address is never an anomaly |
| `Baseline.AnomalyDetector.DecayEntity` | backend/anomaly_detector.py:205-226 | decay scales one known entity and neither creates nor deletes any |
| `Baseline.AnomalyDetector.AnalyzeEvent` | backend/anomaly_detector.py:306-405 | new state and report of one event |
| `CaseLifecycle.StepFollows` | backend/case_manager.py:247-336 | on its own copy every operation but the approval follow-up moves along the transition table |
| `CaseLifecycle.AllowedByTarget` | backend/case_manager.py:32-40 | which statuses lead to each: none to open, all but closed to closed |
| `CaseLifecycle.StagesRank` | backend/case_manager.py:48-61 | types of one kill-chain stage rank alike, later stages higher |
| `CaseLifecycle.JoinDispatches` | backend/case_manager.py:779-780 | an event that joins starts the automatic dispatch when it leaves a high or critical priority or changed it |
| `CaseLifecycle.StepGrows` | backend/case_manager.py:731-808 | on its own copy no operation loses an event or lowers severity or kill-chain stage, and the event list stays duplicate-free with an exact count |
| `CaseSessions.AloneIsApply` | backend/case_manager.py:247-923 | a session that works on the row as it stands and meets no other carries out the whole operation |
| `CaseSessions.CopyAsAlone` | backend/models.py:47-48 | whatever other sessions commit, a session's copy ends where its operation alone would take it |
| `CaseSessions.CommitOnRow` | backend/models.py:47-48 | a commit on the row as it stands leaves row and copy equal |
| `CaseSessions.TrailIsPathIff` | backend/case_manager.py:247-298 | over every interleaving of any number of sessions, the statuses of the row form a path in the table if and only if each committed status was allowed from the one the row had by then |
| `CaseSessions.FreshFitsIff` | backend/work_order_service.py:262-272 | a session whose copy has the row's status breaks the path only by an approval follow-up that does not fit; all other breaks come from stale copies |
| `CaseSessions.QuietPathIff` | backend/work_order_service.py:262-272 | while no status is committed as long as another session holds the case, the statuses form a path if and only if each approval follow-up found a fitting status |
| `CaseSessions.ClosedStaysIff` | backend/case_manager.py:32-40 | over every interleaving a closed case stays as it is if and only if no session commits another status, be it by approval or on a copy from before the closing |
| `CaseSessions.ApprovalReopens` | backend/work_order_service.py:262-272 | an approval follow-up reopens a closed case, which keeps its closing time |
| `CaseSessions.ReopenedClosesIff` | backend/scheduler.py:388-419 | in every reachable state a reopened case can be closed again without a new manual change if and only if a session had already decided to close it |
| `CaseSessions.ClosingWaits` | backend/scheduler.py:403-415 | such a decision waits for its commit whatever other sessions do |
| `CaseSessions.ClosingTimeIff` | backend/case_manager.py:267-268 | all along a run the row carries a closing time exactly while it is closed, if and only if nothing reopens it |
| `CaseLifecycle.DispatchReaches` | backend/case_manager.py:678-729 | what automatic dispatch reaches from each status |
| `CaseLifecycle.AutoResolveReaches` | backend/case_manager.py:868-923 | automatic resolution, when it applies, always ends in resolved |
| `CaseLifecycle.ResolvesIff` | backend/case_manager.py:868-899 | it applies to an active case that is overdue, or that an automatic response has reached and that has been idle long enough, and to no other |
| `CaseLifecycle.OperationsReach` | backend/case_manager.py:307-336 | where assignment, a finished order and an approval lead from each status |
| `CaseLifecycle.ResolvedWaits` | backend/scheduler.py:388-415 | a resolved case is closed automatically only so many hours after it was resolved |
| `CaseLifecycle.PendingApprovalIgnored` | backend/case_manager.py:888-899 | a pending approval never changes what automatic resolution does |
| `CaseLifecycle.SlaCheckMarks` | backend/scheduler.py:361-380 | on its own copy an active overdue case is marked and no longer open; one with a pending approval is left alone |
| `CaseSessions.RowGrowsIff` | backend/case_manager.py:731-808 | over every interleaving the row never loses an event or lowers severity or stage if and only if no event joins on a copy that misses what the row has gained: another event, a higher severity, a later stage |
| `CaseSessions.CurrentRunsGrow` | backend/case_manager.py:731-808 | when every event joins on a current copy, whatever else overlaps, severity and stage only rise and the event list only grows at its end |
| `CaseSessions.CurrentStays` | backend/case_manager.py:527-543 | a copy stays current until another session's event joins |
| `CaseSessions.RunsCounted` | backend/case_manager.py:734-738 | whatever overlaps, the event list stays duplicate-free with an exact count |
| `CaseSessions.DeadlinePutOffIff` | backend/case_manager.py:752-769 | the deadline of the row is put off exactly when an event joins that sets a later one, worked out from the deadline its session read |
| `CaseSessions.CurrentDeadlineTightens` | backend/case_manager.py:752-769 | on a current copy a deadline that has not passed is never postponed |
| `CaseSessions.BreachClearedOnly` | backend/case_manager.py:762-769 | a breach mark is taken off only by an event that upgrades a case its session read as overdue |
| `CaseSessions.SlaReopensClosed` | backend/scheduler.py:361-378 | a run in which the deadline check reopens a case closed meanwhile, off the table and without any approval |
| `CaseSessions.JoinsLoseEvent` | backend/case_manager.py:731-773 | a run in which two sessions' events join one case, and the second commit takes the first event and its severity away |
| `CaseLifecycle.PriorityDropsIff` | backend/case_manager.py:745-751 | aggregation lowers a priority exactly when a critical one meets an upgrade of the severity to high |
| `CaseLifecycle.AbsorbIs` | backend/case_manager.py:731-773 | what an event does to the case it joins, field by field |
| `CaseLifecycle.UpgradeDeadline` | backend/case_manager.py:752-769 | an upgrade sets the deadline its priority asks for unless a sooner one has not passed, and takes off the mark of one that has |
| `CaseLifecycle.SecurityCase.constructor` | backend/case_manager.py:613-664 | a case opened for one event |
| `CaseLifecycle.SecurityCase.UpdateStatus` | backend/case_manager.py:247-298 | a change happens exactly when the table allows it |
| `CaseLifecycle.SecurityCase.MaybeAutoDispatch` | backend/case_manager.py:678-729 | the status after dispatch, also when creating the order raises |
| `CaseLifecycle.SecurityCase.AddEventToCase` | backend/case_manager.py:731-808 | the case after aggregation, or the exception on an unknown severity |
| `CaseLifecycle.SecurityCase.RaiseSeverity` | backend/case_manager.py:745-769 | severity, priority, deadline and breach mark after an upgrade |
| `CaseLifecycle.SecurityCase.TryAutoResolve` | backend/case_manager.py:868-923 | when resolution applies and where it ends |
| `CaseLifecycle.SecurityCase.OrderCompleted` | backend/work_order_service.py:84-104 | a finished disposition order pushes the case towards resolved |
| `CaseLifecycle.SecurityCase.MarkBreached` | backend/scheduler.py:371-378 | what the deadline check does to a case it has selected |
| `Triage.SigmaCriticalReachesLlm` | backend/audit_triage.py:94-313 | an event with a critical Sigma result is P0 and stays on a model lane under every budget and in-flight state |
| `Triage.ScoreEventShapes` | backend/audit_triage.py:173-235 | the combinations of tier, lane and skip flag a scored event can have |
| `Triage.TierIff` | backend/audit_triage.py:173-217 | exactly when an event is P0, P1 or P3, and its lane and depth |
| `Triage.PriorityIs` | backend/audit_triage.py:120-171 | the priority as 20 and the points of each signal, at most 100 |
| `Triage.FusedIs` | backend/audit_triage.py:71-91 | the fused confidence is the greatest of what speaks for the event, at most 1 |
| `Triage.AdmissionTable` | backend/audit_triage.py:248-313 | what admission does to a scored event, tier by tier |
| `Triage.SkipMatchesLane` | backend/audit_triage.py:248-326 | after admission the skip flag is set exactly on lanes without a model call |
| `Triage.CostMonotoneIff` | backend/audit_triage.py:248-313 | cost never rises as the budget tightens if and only if there is room in flight or the event is below P1 |
| `Triage.FullNormalIsTighterThanSoft` | backend/audit_triage.py:271-299 | with everything in flight a P1 event is skipped on a normal budget and sent on a soft one |
| `Triage.AdmitLowers` | backend/audit_triage.py:248-313 | admission never raises the cost, keeps tier and priority, forgets the strong count, and is idempotent |
| `Triage.AnomalyMonotone` | backend/audit_triage.py:94-236 | with signals fixed a higher anomaly score never lowers priority, tier or cost |
| `Triage.FusedConfidence` | backend/audit_triage.py:71-91 | the fused confidence over all hits |
| `Triage.ScoreLog` | backend/audit_triage.py:94-236 | priority, tier, lane and demotion as accumulated |
| `Triage.AddPoints` | backend/audit_triage.py:122-171 | the points of all signals, clamped |
| `Triage.AdmitEvent` | backend/audit_triage.py:248-313 | admission as the code branches |
| `CircuitBreaker.TrendsAreRecent` | backend/cad.py:379-417 | over every run the trends are the last 100 audits and the counter counts all audits |
| `CircuitBreaker.TripsIff` | backend/cad.py:419-470 | a closed breaker trips exactly when warm-up is over and the last ten audits of the whole history are alarming |
| `CircuitBreaker.AlarmingIff` | backend/cad.py:447-470 | the three trip conditions as sums over the stretch and as a number of bad audits |
| `CircuitBreaker.ReleasedIff` | backend/cad.py:419-487 | a trip is released by a reset or by an audit more than the cooldown after it, and by nothing else |
| `CircuitBreaker.TripNeedsRecord` | backend/cad.py:403-443 | nothing but a recorded audit trips it, and none before warm-up is over |
| `CircuitBreaker.StaysTripped` | backend/cad.py:419-434 | a tripped breaker stays tripped until a reset or an audit after the cooldown |
| `CircuitBreaker.WarmupCountsNoClaims` | backend/cad.py:403-439 | audits without a claim shorten the warm-up |
| `CircuitBreaker.ResetRetrips` | backend/cad.py:479-487 | after a reset even a perfect audit trips again when the last nine were bad enough |
| `CircuitBreaker.Breaker.RecordAuditResult` | backend/cad.py:379-401 | trends, counter and trip after one audit |
| `CircuitBreaker.Breaker.Check` | backend/cad.py:419-470 | recovery after cooldown, or the three trip conditions |
| `TimeWindow.DropFrontIsSince` | backend/sigma_detector.py:390-393 | on ascending times dropping from the front is filtering by the cutoff |
| `TimeWindow.SinceTwice` | backend/app.py:510-513 | pruning at an earlier cutoff does not change what a later one keeps |
| `EventBus.EventStream.Deliver` | backend/event_bus.py:94-103 | one queue gets the event; when full it loses its oldest one |
| `CooldownLru.CooldownMap.EvictOldest` | backend/log_ingestion.py:78-79 | the oldest entries beyond the maximum are dropped |
| `Grounding.CompareSource` | backend/grounding_verifier.py:940-964 | conflicts and pairs of one source |
| `Grounding.CollectTimes` | backend/grounding_verifier.py:996-1006 | the known times in the order cited |
| `Grounding.CountReversals` | backend/grounding_verifier.py:1006-1016 | how often the next known time is earlier |
| `Grounding.Tally` | backend/grounding_verifier.py:218-220 | the number of claims per verdict |
| `CaseLifecycle.SecurityCase.TakeIn` | backend/case_manager.py:731-773 | the case after one event is taken in, before any dispatch |
| `MemoryTree.MemoryTreeStore.ExpandLeaf` | backend/memory_tree.py:181-201 | a childless node adds its content and its length |
| `Baseline.AnomalyDetector.CheckSource` | backend/anomaly_detector.py:337-353 | the deviation is taken before the source is counted |
| `CircuitBreaker.Breaker.Append` | backend/cad.py:386-394 | the audit is appended to both trends, which are cut to 100 |
| `CircuitBreaker.Breaker.Totals` | backend/cad.py:447-465 | sums and number of bad audits of the recent stretch |
| `AuditRouting.RouteGood` | backend/scheduler.py:647-756 | every routing decision of the drain leaves the drained id in some place |

## Left out

- AuditRouting: payload expiry in Redis, cancellation and exceptions of a worker are excluded, and event ids are positive; the drain's own re-enqueue is assumed to succeed.
- AuditRouting: the purge of members without a payload may run whenever the drain is idle, in the code only after a round that handled nothing; every run of the code is among the runs here.
- AuditRouting: the order inside the sorted set is left to `AuditPq`; a drain step may take any member, which covers every order.
- AuditPq: members with equal scores are ordered by numeric id, Redis orders them by the text of the id.
- AuditWorker: start, stop and cancel of the pool, and the gauges.
- RateLimit: how the client address is found, and allow lists.
- SigmaWindows: which events a rule matches, parsing of the timeframe text, private address checks.
- EventBus: the Redis broadcast, whose duplicate filter is in `CooldownLru`; the client's buffer and its restart marker.
- CooldownLru.CooldownHolds: distinct calls between two passes are counted up to the second one; keys asked about after it do not matter.
- LlmLimiter: cancellation while a slot is given back, which would leak the slot, and changes of the settings during a run.
- LlmLimiter: the set of waiting tasks belongs to the event loop, so the class has the counters only; the runs hold the waiting ones too.
- SlidingWindow.Window.AddMessage: one step, where the code awaits between push, each look at the head, each pop and the length; two adds to one session that overlap can both see the same stale head, and the second pop then evicts a fresh message.
- SlidingWindow: the marks put on evicted messages, and other keys of the same backend.
- EventStore: other writers only add rows here; a worker that sets `analyzed` on a row while a call runs is not followed, so `AnalyzedFlag` speaks of the flag as the batch's lookup saw it.
- EventStore: the hot cache and its invalidation between processes; a failure of the database other than the unique index.
- Correlation.SkippingReportsIff: for patterns that require all their steps; those that require a part have distinct steps and are the subject of `CorrelationShipped`.
- MemoryTree.MemoryTreeStore.ReconstructContext: one step on one tree, where the code awaits a query at every node; links that commit in between can move a node, which is then listed twice (first alone, then under a group that was created before the walk) or not at all.
- MemoryTree: `created_at` order is the order of insertion, tokens are the length of the rendered text, and embeddings and statistics are not modelled.
- AuditTrail: a commit that takes effect although the call reports an error, after which a flush or a write would store its entries again; and rows that a caller's own session commits along with an entry.
- AuditTrail: truncation of the fields, and the digest itself, an uninterpreted function that is never empty.
- Correlation: confidence, alert text, hub patterns and entity links.
- ChainDedup.SortIsStable: the library sort is a specification function, proved to be the stable descending sort.
- Grounding: rounding is half to even over exact reals, the code rounds binary floats; extraction of addresses and severities from text, and warning texts.
- Grounding: severities carry no surrounding blanks, where one layer strips them and another does not.
- Baseline: persistence to Redis and the hourly pruning of idle entities.
- CaseLifecycle: choice of the case an event joins, titles, tags, address lists, metadata, post-mortem drafts and feedback.
- CaseSessions: a commit that raises, after which the session reads the row again, is a session that ends here and another that begins; an exception on an unknown severity ends the operation with nothing committed.
- CaseSessions: creation of cases, so two sessions that open a case each for one attack are not followed; which case an event joins.
- Triage: the reason texts, and `extract_non_llm_signals`, whose answer is an input.
- CircuitBreaker: updates of thresholds during a run, and the statistics on overridden decisions.
- Network, Kafka, Redis, SQL and Temporal mechanics, metrics, logging and routing appear only as abstract state or as answers; prompts, agents, retrieval and the frontend not at all.
