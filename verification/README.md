# jxt-core: verified models of its concurrent core

This project models five parts of jxt-core in Dafny and proves what they are for. Each part that the
code runs as several goroutines is a step machine: one event is one atomic step, a schedule is any
sequence of events, an event that is not enabled does nothing, and `Exec` runs a schedule. A theorem
about `Exec(Init(...), schedule)` therefore covers every interleaving. Where the code updates an
object in place, a class beside the machine does the same with loops and fields, and its methods are
proved against the machine or against a direct description of the new state.

## The parts

**Partition consumption pipeline** (`pipeline_*.dfy`, `partition_pipeline.dfy`). Up to a window of
messages of one Kafka partition is in flight; completions arrive in any order; failed envelopes go to
an asynchronous dead-letter queue (DLQ); only the highest message of the committable prefix is marked.
The machine keeps a ledger that forgets nothing and recomputes the frontier from it; the class
`Pipeline` prunes `inflight` and advances `frontier` in place and is proved to compute exactly the
machine's runs. Proved: no goroutine can ever block on either channel; nothing below the committed
offset is unaccounted for, over any sequence of claims cut off anywhere; the frontier refines the
longest ready prefix; a poisoned entry stalls the claim for good; flush is bounded; a claim over n
messages takes at most 7n + 4 steps; runs with the same answers end in the same state. For a canceled
claim: exactly the results taken before the cancellation count, flush drains unless it times out, and it
needs its timeout exactly if a bridge has given up.

**ACK registry** (`ack_registry*.dfy`). Senders, `RegisterTenant`, `UnregisterTenant`, `Close` and other
operations under `mu` for the Kafka, NATS and memory bus, as threads over `mu`, `tenantChannelsMu` and
a heap of channels, with the background loops that Close joins: the health check of the memory bus,
which takes `mu` itself and is joined after Close has released it, and the ACK senders of the other
two, which take `tenantChannelsMu` and are joined while Close holds `mu`. The Kafka and NATS bus have a
health loop besides, which takes `mu` to reconnect, and which `StopHealthCheck` and `StartHealthCheck`
join while they hold `mu`. Proved for all three: nobody sends on a closed channel or closes one twice;
Close leaks no channel; all callers of Close get the one stored error; results are conserved; a call
that starts after the freeze accepts nothing; every rejection has its reason in the state it met; at
most one health loop runs. In the memory bus there is no circular wait. In the other
two there is one exactly in two situations, which the code can reach and which last for good; in every
other state some call moves.

**Redis stream consumer** (`redis_stream_*.dfy`, `stream_consumer.dfy`). Poll, reclaim and work over the
server's pending list and its clock, for any number of processes, with lost replies, shutdowns and
crashes at any step. Proved: conservation; with a cutoff M, R reclaiming processes and a visibility
timeout of V ms, M + min(R, 1 + 5000 / V) is the least bound on the deliveries of an entry; without a
cutoff there is no bound; after any run every unacknowledged entry that is not past the cutoff can
still be handled.

**Keyed dispatch** (`keyed_dispatch.dfy`, `actor_pool.dfy`, `claim_dispatch.dfy`, `claim_answers.dfy`,
`policy_mux.dfy`, `decimals.dfy`). Items go by key to one sequential worker each. Proved once for any routing function,
and used for the actor pool (FNV-1a hash, inboxes that may drop, one reply per message), for the pool
together with all the claims that share it over time (what a claim knows are the answers of the calls on
its own messages, and it commits nothing that no handler has seen), and for the Casbin mux (eight queues,
tenant numbers read from channel names, Go's truncated remainder).

**Two exact algorithms** (`nats_subjects.dfy`, `excel_columns.dfy`). NATS wildcard matching with the
subject lists it guards, and spreadsheet column names with the wrap-around of 64-bit integers.

## What the models show about the code

- The frontier looks up exactly the next offset, so a gap in the offsets (a compacted topic, transaction
  markers) stalls a claim even when every handler succeeds. `RunCommitsAllIffContiguous` shows that this
  happens exactly when there is a gap, and `GapStallsForever` gives the smallest one.
- The comment on `RegisterTenant` in the Kafka and NATS bus (sdk/pkg/eventbus/kafka.go:3614-3617) says that
  Close sets `closed` while it holds `tenantChannelsMu`; the code sets it before it takes any lock
  (sdk/pkg/eventbus/kafka.go:1951). The model follows the code. The second check under the lock is what
  makes it safe.
- `StopHealthCheck`, and `StartHealthCheck` when a loop runs already, hold `mu` while they wait for the
  health loop to end (sdk/pkg/eventbus/kafka.go:2566-2576, sdk/pkg/eventbus/kafka.go:2634-2650,
  sdk/pkg/eventbus/nats.go:1734-1744, sdk/pkg/eventbus/nats.go:1797-1820), and that loop takes `mu` to
  reconnect (sdk/pkg/eventbus/kafka.go:2113-2115, sdk/pkg/eventbus/nats.go:2146-2148). Canceling its
  context does not free it from there, so both hang for good, and with them every call that wants `mu`,
  Close included (`StopHealthCheckHangs`, `JamsAreForGood`). A stop or restart can end so exactly if the
  loop has not ended by itself by the time the call gets `mu` (`StopCanJamIff`).
- A NATS reconnect keeps `mu` and, once connected, calls `Subscribe` for each subscription, which locks
  `mu` again (sdk/pkg/eventbus/nats.go:2147, sdk/pkg/eventbus/nats.go:2284, sdk/pkg/eventbus/nats.go:819).
  It can hang exactly if the bus has a subscription and is not closed (`ReconnectCanJamIff`,
  `ReconnectHangs`). These two are the only circular waits (`CircularWaitIff`, `NoDeadlock`).
- `MaxDeliveries` = M bounds deliveries by M + 1 exactly if there is one reclaimer for the group or the
  visibility timeout is longer than the five seconds a reclaim pass may take (`OneExtraIff`). Otherwise
  several reclaimers may claim on surveys that are stale by then, one per timeout that fits the five
  seconds. With the default timeout of 60 s the bound is M + 1 for any number of processes.
- With a cutoff an entry can be discarded that no handler has ever seen, when the replies to all its
  deliveries were lost; without one that cannot happen (`AckedWereCalledIff`).
- A policy channel such as `/casbin/tenant/007` or `/casbin/tenant/+7` belongs to tenant 7
  (`TenantChannels`).
- The list check of `ensureTopicInJetStream` finds exactly the overlaps the server would refuse if and
  only if the topic is literal (`CheckIsExactIff`; `WildcardTopicOverlaps` is the smallest instance).
- `ConvertNumToChars` returns the empty string for negative numbers and for the largest integer.

## How the steps are cut

- A bridge's receive from `Done` and its look at the context are one step. An unlock belongs to the last
  step made under its lock. A DLQ send's return and its report to `dlqDoneCh` are one step.
- Kafka offsets increase within a claim (contiguity is assumed only where a theorem says so), and the
  window is positive, as the configuration demands.
- Timers, tickers and timeouts are events that may fire at any time; replies of the broker, Redis and
  the NATS server, and answers of handlers and of the DLQ, are parameters of events.
- A handler answers a message once (the actor pool's part proves that it cannot answer twice) or never.
- Locks of the ACK registry follow from program counters. For the absence of deadlock a waiting writer
  also blocks new readers, as Go's RWMutex does. Apart from Close, `StopHealthCheck`, `StartHealthCheck`
  and the reconnect, an operation that holds `mu` waits at most for the broker, or for loops that take
  no lock of the bus (`StopHealthCheckPublisher` and `StopHealthCheckSubscriber` of the Kafka and NATS
  bus); its end under `mu` is one step. The memory bus calls these two after it has released `mu`.
- A health check may fail at any time, and the failures may have reached the threshold.
- The clock of the Redis model is the server's, in whole milliseconds. A request reaches the server at
  most once: a client that repeats an XCLAIM within the five seconds of a pass could exceed the bound on
  deliveries. It takes effect within the context it was sent in, and not after its process has crashed.
- The NATS server refuses to create a stream under a name in use, unless the request asks for exactly
  what is there.

## Model

| member | source | states |
|---|---|---|
| `PipelineInvariants.ExecKeeps` | sdk/pkg/eventbus/partition_pipeline.go:268-364 | Every schedule keeps the invariant: at most one completion and one DLQ result per message, marks strictly increasing and just below the frontier, everything passed by the frontier justified, the window respected. |
| `PipelineTheorems.RunUnderWayFits` | sdk/pkg/eventbus/partition_pipeline.go:148-194 | In every run waiting bridges, bridges about to send and buffered completions together never exceed the unsettled entries, and running DLQ sends plus buffered results are as many as the DLQ-pending ones. |
| `PipelineTheorems.NoSendEverBlocks` | sdk/pkg/eventbus/partition_pipeline.go:118-130 | In every reachable state, also after the loop returned, all of these fit the window, so no send on either channel can block. |
| `PipelineTheorems.RunFrontierIsReadyPrefix` | sdk/pkg/eventbus/partition_pipeline.go:134-146 | In every run over contiguous offsets the frontier is the first offset plus the length of the longest ready prefix, the tracked offsets are exactly those from the frontier to the next offset, the last mark is just below the frontier, and a restart replays at most a window. |
| `PipelineTheorems.RunCleanExit` | sdk/pkg/eventbus/partition_pipeline.go:296-298 | Returning because the claim is closed and nothing is tracked means that every received message was justified and the last one was marked. |
| `PipelineTheorems.RunPoisonStalls` | sdk/pkg/eventbus/partition_pipeline.go:277-278 | An entry that is settled, not DLQ-pending and not committable stays tracked under every later schedule, flush included; the frontier never passes it and nothing at or above it is marked. |
| `PipelineTheorems.RunFlushStep` | sdk/pkg/eventbus/partition_pipeline.go:230-265 | In every run a receive of flush resolves exactly one entry; no other step changes what is unresolved; none starts a DLQ send. |
| `PipelineTheorems.RunFlushIsBounded` | sdk/pkg/eventbus/partition_pipeline.go:203-266 | Receives of flush plus what is still unresolved always equal what was unresolved at its start. |
| `PipelineClaims.RunFlushCommitsNoFailedEnvelope` | sdk/pkg/eventbus/partition_pipeline.go:238-261 | In every run, whatever flush does, an envelope whose handler failed is committed only if its DLQ send was started before flush and returned nil. |
| `PipelineConfluence.EveryRunIsShort` | sdk/pkg/eventbus/partition_pipeline.go:291-363 | At most 7n + 4 steps of a claim over n messages take effect, canceled or not. |
| `PipelineConfluence.EveryRunCanRest` | sdk/pkg/eventbus/partition_pipeline.go:291-363 | Every run can be continued by what given handler and DLQ answers allow until it comes to rest. |
| `PipelineConfluence.Confluence` | sdk/pkg/eventbus/partition_pipeline.go:291-350 | Two uncanceled runs with the same messages and answers that are at rest agree in ledger, frontier, tracked offsets and last mark. |
| `PipelineConfluence.RunCommitsAllIffContiguous` | sdk/pkg/eventbus/partition_pipeline.go:136-140 | When every answer allows a commit, a run at rest has marked the last message if and only if the offsets have no gap. |
| `PipelineConfluence.GapStallsForever` | sdk/pkg/eventbus/partition_pipeline.go:136-140 | Offsets 0 and 2 with two successful handlers: the claim rests with only offset 0 marked. |
| `PipelineClaims.NothingIsLost` | sdk/pkg/eventbus/partition_pipeline.go:196-364 | Over any claims, each restarting at the committed offset and cut off anywhere, every message below the committed offset had a handler success, or is a regular message whose handler failed, or an envelope whose DLQ send returned nil; the committed offset never moves back. |
| `PipelineCanceled.RunCanceledIffLate` | sdk/pkg/eventbus/partition_pipeline.go:154-175 | A completion says it was canceled if and only if its bridge took the result after the cancellation. |
| `PipelineCanceled.RunSettledAfterCancel` | sdk/pkg/eventbus/partition_pipeline.go:315-335 | After a cancellation an entry once settled is committable if and only if its result was taken before, and is a success, a regular failure, or an envelope failure whose DLQ send returned nil. |
| `PipelineCanceled.RunFlushSettles` | sdk/pkg/eventbus/partition_pipeline.go:233-250 | What flush settles is committable if and only if its result was taken before the cancellation and is a success or a regular failure. |
| `PipelineCanceled.RunReturnsDrained` | sdk/pkg/eventbus/partition_pipeline.go:230-265 | A claim that returns without a timeout of flush leaves nothing unsettled and no DLQ send under way. |
| `PipelineCanceled.RunAnsweredIsCarried` | sdk/pkg/eventbus/partition_pipeline.go:166-174 | A result that was there while its bridge waited is never lost, whatever is canceled later. |
| `PipelineCanceled.RunFlushCanFinishIff` | sdk/pkg/eventbus/partition_pipeline.go:203-266 | A claim in flush can end without the timeout if and only if no bridge has given up on an entry still unsettled. |
| `PipelineCanceled.RunTakesAndGivesUpIff` | sdk/pkg/eventbus/partition_pipeline.go:291-301 | The loop takes the next message exactly while it runs, the channel is open and the window has room, canceled or not; a bridge gives up exactly on a canceled session and an unanswered handler. |
| `PartitionPipeline.Pipeline.AdvanceFrontier` | sdk/pkg/eventbus/partition_pipeline.go:134-146 | The pruning loop stops at the first offset that is not ready, keeps exactly the rest of the ledger, and returns the last message passed. |
| `PartitionPipeline.Pipeline.Unresolved` | sdk/pkg/eventbus/partition_pipeline.go:215-223 | The counting loop yields the number of unresolved tracked offsets. |
| `PartitionPipeline.Pipeline.TakeMessage` | sdk/pkg/eventbus/partition_pipeline.go:301-313 | The receive branch takes the machine's step. |
| `PartitionPipeline.Pipeline.TakeCompletionInRun` | sdk/pkg/eventbus/partition_pipeline.go:315-335 | The completion branch of the loop, without a settled test, takes the machine's step. |
| `PartitionPipeline.Pipeline.TakeCompletionInFlush` | sdk/pkg/eventbus/partition_pipeline.go:233-250 | The completion branch of flush takes the machine's step. |
| `PartitionPipeline.Pipeline.TakeDlqResult` | sdk/pkg/eventbus/partition_pipeline.go:337-350 | The DLQ branch clears the pending flag, alerts on failure, advances and marks as the machine does. |
| `PartitionPipeline.Pipeline.Run` | sdk/pkg/eventbus/partition_pipeline.go:273-364 | Under any schedule the object with its pruned map and moving frontier ends in exactly the state of the machine. |
| `AckRegistryInvariants.ExecKeeps` | sdk/pkg/eventbus/eventbus.go:493-552 | Every interleaving keeps the lock discipline, the ownership of detached channels and the progress of Close, and only moves forward: no accepted result is withdrawn, closed stays closed. |
| `AckRegistryTheorems.NobodyPanics` | sdk/pkg/eventbus/eventbus.go:1466-1596 | In no interleaving, for any of the three buses, is there a send on a closed channel or a second close. |
| `AckRegistryTheorems.CloseLeaksNothing` | sdk/pkg/eventbus/kafka.go:3613-3657 | Once Close has finished, every tenant channel ever made is closed exactly once and the registry is empty, now and after any later calls. |
| `AckRegistryTheorems.CloseReturnsOneError` | sdk/pkg/eventbus/eventbus.go:493-564 | All callers of Close return the same stored error, only after the one teardown has finished. |
| `AckRegistryTheorems.AcksAreConserved` | sdk/pkg/eventbus/eventbus.go:1548-1596 | An accepted result is in exactly one place of exactly one channel, its own tenant's (the global one exactly for tenant 0); a rejected one is nowhere; no channel is over capacity. |
| `AckRegistryTheorems.ListenersReadInOrder` | sdk/pkg/eventbus/nats.go:3401-3439 | Between any two states accepted results are only appended and the reader only moves forward. |
| `AckRegistryTheorems.RejectionChangesNothing` | sdk/pkg/eventbus/kafka.go:3572-3610 | A whole send, through any number of its steps, either puts its result at the end of the one channel of its tenant that has room, or changes nothing but its own call. |
| `AckRegistryTheorems.FrozenMeansFrozen` | sdk/pkg/eventbus/kafka.go:3613-3691 | A call that starts after the freeze is rejected: a send as frozen, a registration or unregistration with an error. |
| `AckRegistryDeadlock.CircularWaitIff` | sdk/pkg/eventbus/kafka.go:2566-2650 | In every reachable state calls wait for each other in a circle, over `mu`, `tenantChannelsMu`, `closeDone` and the joins of the loops, if and only if StopHealthCheck or StartHealthCheck holds `mu` and joins a health loop that wants it, or a NATS reconnect wants `mu` twice. |
| `AckRegistryDeadlock.NoCircleInMemory` | sdk/pkg/eventbus/eventbus.go:474-552 | In the memory bus, which joins its loops after it has released `mu`, there is no such circle in any reachable state. |
| `AckRegistryDeadlock.NoDeadlock` | sdk/pkg/eventbus/eventbus.go:466-564 | In every other reachable state, behind every unfinished call or loop that does not just wait for the broker or its next tick, however deep the waiting, there is one that nobody blocks and that can take its next step; for the memory bus in every reachable state, with Close joining the health check that re-enters `mu` through Publish. |
| `AckRegistryDeadlock.JamsAreForGood` | sdk/pkg/eventbus/nats.go:1797-1820 | From such a circle, whatever runs later, neither of the two nor any call that wants `mu` ever moves, and unless the teardown had stored its error before, no call of Close returns. |
| `AckRegistryDeadlock.StopCanJamIff` | sdk/pkg/eventbus/kafka.go:2634-2650 | When a stop or restart gets `mu`, some continuation jams it with the loop it stops if and only if that loop has not ended by itself. |
| `AckRegistryDeadlock.StopHealthCheckHangs` | sdk/pkg/eventbus/kafka.go:2055-2118 | The smallest instance for Kafka and NATS: a failed check, StopHealthCheck, Close; the three threads stand still in every continuation. |
| `AckRegistryDeadlock.ReconnectCanJamIff` | sdk/pkg/eventbus/nats.go:2146-2291 | A reconnect under `mu` can block itself if and only if it is the NATS bus, open, with a subscription to restore. |
| `AckRegistryDeadlock.ReconnectHangs` | sdk/pkg/eventbus/nats.go:2273-2289 | The smallest instance: one subscription and a failed check. |
| `AckRegistryOneLoop.OneLoopRuns` | sdk/pkg/eventbus/kafka.go:2566-2586 | In every run of the Kafka and NATS bus at most one health loop has not ended, it is the one that StopHealthCheck would stop, and only a canceled loop ends. |
| `AckRegistryOneLoop.StopLeavesNone` | sdk/pkg/eventbus/nats.go:1797-1820 | When StopHealthCheck finds no loop or has joined it, it returns with no loop running and forgets it; StartHealthCheck gets to its last step the same way. |
| `AckRegistryOneLoop.StartLeavesOne` | sdk/pkg/eventbus/nats.go:1734-1750 | When StartHealthCheck returns, its own loop is the one that runs and the only one. |
| `AckRegistryOneLoop.AttemptsReleaseMu` | sdk/pkg/eventbus/kafka.go:2055-2107 | A Kafka reconnect releases `mu` after each attempt and may want it again without another health check; a NATS reconnect with nothing to restore goes back to its ticker. |
| `AckRegistryOutcomes.OutcomesHaveReasons` | sdk/pkg/eventbus/eventbus.go:1421-1596 | In every run the step with which a send, a registration, an unregistration or an ACK sender ends has the outcome that the state it meets asks for: which rejection for which reason, the channel and its size for a registration, the one close for an unregistration. |
| `AckRegistryOutcomes.CloseReturnsItsError` | sdk/pkg/eventbus/eventbus.go:553-564 | The error that the teardown stores is the one every call of Close returns, in every continuation. |
| `AckRegistryOutcomes.ListenersTakeTheOldest` | sdk/pkg/eventbus/eventbus.go:1503-1520 | A listener can take a result exactly if its channel's buffer holds one, takes the oldest, and leaves every other channel alone. |
| `AckRegistryOutcomes.ClosedTakesNoSubscription` | sdk/pkg/eventbus/nats.go:815-825 | Once the bus is closed no continuation adds a subscription for a reconnect to restore. |
| `AckRegistry.AckChannel.TrySend` | sdk/pkg/eventbus/eventbus.go:1569-1581 | The non-blocking send queues the result exactly if there is room. |
| `AckRegistry.Registry.SendResult` | sdk/pkg/eventbus/eventbus.go:1548-1596 | The outcome for every combination of freeze, tenant, registration and room; an admitted result is the last one accepted by its own tenant's channel, the global one only for tenant 0, and no other channel changes. |
| `AckRegistry.Registry.RegisterTenant` | sdk/pkg/eventbus/eventbus.go:1421-1463 | Succeeds exactly for an unfrozen bus, a valid tenant and a free entry; then adds a fresh empty channel of the requested size, or the default one of 10000 or 100000, and nothing else. |
| `AckRegistry.Registry.UnregisterTenant` | sdk/pkg/eventbus/eventbus.go:1466-1502 | Detaches and closes exactly that tenant's channel; buffered results stay readable. |
| `AckRegistry.Registry.Sweep` | sdk/pkg/eventbus/kafka.go:2025-2030 | The loop of detaching and closing under the lock closes every registered channel once and empties the table. |
| `AckRegistry.Registry.DetachThenClose` | sdk/pkg/eventbus/eventbus.go:502-552 | The same for the memory bus, which detaches all first and closes later. |
| `AckRegistry.Registry.Close` | sdk/pkg/eventbus/nats.go:1359-1456 | The first call tears down and stores its error, later ones return it; every channel ever made is closed and still holds what was buffered. |
| `RedisStreamInvariants.ExecKeeps` | storage/queue/redis.go:230-472 | Every schedule keeps the bookkeeping between deliveries, copies on their way, handler calls and reclaimers that may still claim; entries only move forward. |
| `RedisStreamTheorems.EntriesAreConserved` | storage/queue/redis.go:230-306 | Every entry is unread, pending or acknowledged, split by the cursor; acknowledged only after a handler success or the poison rule; nothing disappears or goes back. |
| `RedisStreamTheorems.AckedWereHandled` | storage/queue/redis.go:423-451 | An entry acknowledged as handled had, earlier in the run, a handler call that returned nil. |
| `RedisStreamTheorems.ShutdownWindsUp` | storage/queue/redis.go:230-452 | From a shutdown on a process only winds up: nothing new reaches it, it begins no handler call and no reclaim pass. |
| `RedisStreamTheorems.ProcessesKeepLimits` | storage/queue/redis.go:150-168 | In every run a process has at most as many handler calls under way as workers, and its channel and its last read hold no more than the buffer size. |
| `RedisStreamTheorems.DeliveriesAreBounded` | storage/queue/redis.go:363-396 | With a cutoff M, R processes and a visibility timeout of V ms no entry is delivered more than M + min(R, 1 + 5000 / V) times, no handler sees it more often than it was delivered, and n entries cost at most n times that. |
| `RedisStreamTheorems.OneReclaimer` | storage/queue/redis.go:363-384 | With one reclaimer the bound is M + 1 per entry and n(M + 1) in all. |
| `RedisStreamTheorems.BoundIsExact` | storage/queue/redis.go:333-414 | For every cutoff, every number of reclaimers and every visibility timeout some run reaches the bound. |
| `RedisStreamTheorems.LeastBound` | storage/queue/redis.go:333-414 | A number bounds the deliveries of every entry in every run if and only if it is at least that. |
| `RedisStreamTheorems.OneExtraIff` | storage/queue/redis.go:334-394 | M + 1 is a bound if and only if there is one reclaimer or the visibility timeout exceeds the five seconds of a pass. |
| `RedisStreamTheorems.NoCutoffNoBound` | storage/queue/redis.go:46-46 | Without a cutoff an entry can be delivered any number of times. |
| `RedisStreamTheorems.AckedWereCalledIff` | storage/queue/redis.go:367-378 | Every acknowledged entry was handed to a handler, in all runs, if and only if there is no cutoff. |
| `RedisStreamRecovery.AnyRunCanSettle` | storage/queue/redis.go:333-452 | After any run as many of the oldest pending entries as one survey reports can be disposed of, as handled or as poison by the cutoff, and no other entry changes. |
| `RedisStreamRecovery.NothingIsLost` | storage/queue/redis.go:91-92 | After any run every entry that is neither acknowledged nor past the cutoff can still be handled and acknowledged. |
| `RedisStreamPass.ReportsExactly` | storage/queue/redis.go:344-350 | A survey reports exactly the pending entries with fewer than `Count` pending ones before them. |
| `StreamConsumers.StreamConsumer.Poll` | storage/queue/redis.go:260-303 | One read gives exactly the next k entries their first delivery and passes them on in stream order until the channel is full. |
| `StreamConsumers.StreamConsumer.ScanReports` | storage/queue/redis.go:363-384 | The loop over the reports acknowledges poison and collects the rest. |
| `StreamConsumers.StreamConsumer.DoReclaim` | storage/queue/redis.go:333-414 | What one pass does to every entry (acknowledged as poison, delivered once more, or untouched) when its requests succeed, fail, come too late or are cut off by a shutdown; which messages reach the channel in which order; and that it is a run of the machine. |
| `StreamConsumers.StreamConsumer.Work` | storage/queue/redis.go:423-451 | A worker's turn acknowledges the message exactly if the handler and the XACK succeed, drops it after a shutdown, and changes no other entry. |
| `KeyedDispatch.OrderPerKey` | sdk/pkg/casbin/watcher_mux.go:131-139 | For any items that share a worker, the calls are an initial part of the accepted ones and a subsequence of the submitted ones. |
| `KeyedDispatch.OneAtATime` | sdk/pkg/casbin/watcher_mux.go:336-357 | The call in progress on such items is the last one begun, on their one worker. |
| `ActorPool.AggregateOrder` | sdk/pkg/eventbus/hollywood_actor_pool.go:106-133 | Handler calls for an aggregate are a subsequence of its submissions, and an initial part of them if no inbox drops. |
| `ClaimDispatch.CallsFollowOffsets` | sdk/pkg/eventbus/partition_pipeline.go:301-313 | In every run of all claims with the shared pool, the handler calls for an aggregate of a claim are made in offset order, on messages the claim has received. |
| `ClaimDispatch.CallsAreReceived` | sdk/pkg/eventbus/kafka.go:1062-1103 | If no inbox has dropped anything they are an initial part of the messages of that aggregate as received; the rest waits in one inbox. |
| `ClaimDispatch.ClaimsArePipelines` | sdk/pkg/eventbus/kafka.go:1164-1204 | Each claim in that system is in a state its pipeline reaches alone, so every theorem about runs of the pipeline applies. |
| `ClaimAnswers.AnswersAreOwn` | sdk/pkg/eventbus/hollywood_actor_pool.go:190-254 | What a claim knows of its handlers are exactly the answers of the ended calls on its own messages, each with its own outcome, and the calls of an aggregate are answered one by one in their order, all but the one in progress. |
| `ClaimAnswers.CommittedWereHandled` | sdk/pkg/eventbus/partition_pipeline.go:315-350 | For every message at or below a mark of its claim a handler call on it has ended, with success or with a failure that its kind and the DLQ allow. |
| `ClaimAnswers.RoundRobinSpreads` | sdk/pkg/eventbus/kafka.go:1076-1081 | No two messages without an aggregate, of whatever claims, get the same routing key. |
| `ActorPool.OneByteMatters` | sdk/pkg/eventbus/hollywood_actor_pool.go:152-156 | In a pool of 256 actors keys that differ in one byte go to different actors. |
| `ActorPool.KnownHashes` | sdk/pkg/eventbus/hollywood_actor_pool.go:152-156 | The indices of the keys "", "a" and "foo" are those of their published FNV-1a hashes, for every pool size. |
| `ActorPool.NoOverlap` | sdk/pkg/eventbus/hollywood_actor_pool.go:18-21 | Two handler calls for one aggregate never run at the same time. |
| `ActorPool.Pool.ProcessMessage` | sdk/pkg/eventbus/hollywood_actor_pool.go:106-133 | Only an empty key is refused; any other message goes to the end of its key's inbox or is dropped, and the depth counter moves either way. |
| `ActorPool.Pool.Receive` | sdk/pkg/eventbus/hollywood_actor_pool.go:190-316 | The oldest message gets exactly one reply, nil exactly when the handler returned nil, also when the handler panics; nobody else gets one. |
| `PolicyMux.ChannelRoundTrip` | sdk/pkg/casbin/watcher_mux.go:76-102 | Parsing a tenant's channel name gives back the tenant, for every 64-bit number. |
| `PolicyMux.TenantChannels` | sdk/pkg/casbin/watcher_mux.go:89-102 | A name parses to a tenant exactly if it is the prefix followed by some way to write that number. |
| `Decimals.AtoiExactly` | sdk/pkg/casbin/watcher_mux.go:97-100 | The conversion succeeds exactly on an optional sign, leading zeros and digits of a number that fits. |
| `PolicyMux.ShardForTenant` | sdk/pkg/casbin/watcher_mux.go:141-143 | The shard is a valid index congruent to the tenant number, also for negative ones under Go's remainder. |
| `PolicyMux.TenantOrder` | sdk/pkg/casbin/watcher_mux.go:324-391 | What is applied to a tenant's enforcer is, in order, an initial part of the messages received for it minus undecodable and self-published ones; the next ones wait in the tenant's own queue; at most the one message held at a shutdown is missing. |
| `PolicyMux.UnreadableChannels` | sdk/pkg/casbin/watcher_mux.go:322-330 | Messages on channels that name no tenant go to the first of the eight workers, in order, and concern no enforcer. |
| `PolicyMux.SingleWriter` | sdk/pkg/casbin/watcher_mux.go:343-357 | Only one worker ever touches a tenant. |
| `PolicyMux.CasbinWatcherMux.SubscribeOnce` | sdk/pkg/casbin/watcher_mux.go:309-333 | The subscriber's loop extends each queue by its share of what arrived, in order, and stops only at a full queue or, anywhere, after a shutdown, which may drop the message it holds. |
| `PolicyMux.CasbinWatcherMux.DispatchOne` | sdk/pkg/casbin/watcher_mux.go:343-391 | A worker takes the head of its own queue and names the tenant exactly if the message is relevant to it. |
| `NatsSubjects.SubjectMatches` | sdk/pkg/eventbus/nats.go:393-430 | The loop with its shortcut decides exactly the recursive token definition. |
| `NatsSubjects.MatchesPointwise` | sdk/pkg/eventbus/nats.go:393-430 | That definition means: token by token up to the first `>`, which stands for one or more tokens, or to the end of both. |
| `NatsSubjects.CheckIsExactIff` | sdk/pkg/eventbus/nats.go:3009-3018 | For every subject, being matched by it and overlapping with it are the same for a topic if and only if the topic is literal. |
| `NatsSubjects.WildcardTopicOverlaps` | sdk/pkg/eventbus/nats.go:3009-3018 | The smallest instance of the other case. |
| `NatsSubjects.StreamNames` | sdk/pkg/eventbus/nats.go:3025-3033 | A configured stream name wins; otherwise the name is STREAM_ and the topic with its dots replaced. |
| `NatsSubjects.EnsureCalls` | sdk/pkg/eventbus/nats.go:2992-3105 | Any sequence of ensure calls on literal topics, whatever the server answers, also when its answer about an existing stream fails and the code goes on to create it, leaves every topic served whose call succeeded, keeps subject lists free of overlap, and removes nothing. |
| `NatsSubjects.NatsEventBus.EnsureTopicInJetStream` | sdk/pkg/eventbus/nats.go:2992-3022 | The two branches, the loop over the subjects and the update have exactly the effect of one such call. It succeeds if the stream is found and the server accepts, and without that exactly if a subject covers the topic; then a literal topic is served, by a subject added behind the others if need be; otherwise, and in all other streams, nothing changes. |
| `ExcelColumns.ConvertNumToChars` | tools/utils/excel.go:58-70 | The result is a name whose bijective base-26 value is the number plus one, and empty exactly for negative numbers and the largest integer. |
| `ExcelColumns.NamesAreColumns` | tools/utils/excel.go:58-70 | Naming and evaluation are inverse to each other: a bijection between the positive numbers and the non-empty strings over A to Z. |
| `ExcelColumns.OrderOfNames` | tools/utils/excel.go:58-70 | Number order is length order, then alphabetical order. |

## Left out

- AckRegistry.Registry.Close: as one uninterrupted call; its interleavings with other calls are in the machine.
- Wall-clock behaviour: the stall warning, backoff, tickers, latency metrics and logging. Timeouts are events.
- Claims of inactive topics (sdk/pkg/eventbus/kafka.go:1170-1183), which mark without calling a handler, and the legacy serial `ConsumeClaim` loop, which by its own comment may skip a failed envelope.
- The actor pool's `Stop`, its metrics and Hollywood's restarts; inboxes are first-in first-out and sequential by assumption. The depth counter's 32-bit wrap-around is not modelled.
- Pool indices on 32-bit platforms, where the conversion of the hash to `int` may be negative.
- Teardown of the other components in `Close` (consumers, producers, clients) and the error each contributes: the joined error is one number.
- The global result channel is never closed by the code and is not one of the channels Close accounts for. The background loops that Close joins are a fixed set from the start.
- Callbacks and error handlers that an ACK sender or a reconnect runs are assumed not to take `mu`. What a reconnect does to the connection, and the ACK senders it replaces, are not part of this model; only its use of `mu` is.
- Topic reconciliation against the admin client, and idempotent stream updates (sdk/pkg/eventbus/nats.go:3107-3171).
- JSON encoding: a policy message either decodes to a publisher or does not. Which enforcer exists, and what an operation does to it, is left to the enforcer lookup; messages missed while the subscription is down were never received.
- Stream trimming by the Redis producer, and consumer names. A Redis request that fails either had no effect or its effect with a lost reply.
- Cross-stream overlaps in JetStream: each stream's own list is kept free of overlap; a refusal by the server is a parameter.
- The in-memory cache, configuration, formatters, captcha, JWT and HTTP helpers, rate adaptation.
