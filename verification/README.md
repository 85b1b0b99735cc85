# go-task-orbit: a verified model of the in-process runtime

go-task-orbit moves messages from a transport through a timer wheel, a ring buffer, a dispatcher with an idempotency
filter and a worker pool to one settlement: Ack, Nack or the dead-letter queue. This project models that runtime in
Dafny and proves what it keeps over every interleaving of its threads.

`dafny verify dfyconfig.toml` checks everything.

## How it is built

The pipeline is a step machine (`Pipeline.dfy`). A `State` holds every queue, every thread's position and the history
of calls and handler runs; a `Label` is one lock- or channel-level action of one thread; `Run` is any interleaving.
Handler results, transport failures, scheduling, the clock (monotone, in nanoseconds) and the store's errors are
nondeterministic. Each theorem about the machine has its own file:

- `PipelineControl`: the order of shutdown and the batch barrier.
- `PipelineFlow`: one accounting identity for an arbitrary valuation of deliveries at places. `PipelineConservation`,
  `PipelineTermination`, `PipelineBudget`, `PipelineDeadlock`, `PipelineFate`, `PipelineDelay` and `PipelineContent`
  instantiate it.
- `PipelineEvents`, `PipelineCalls`: what each step adds to the history, and what the labels of a run alone say about
  its state.
- `PipelineDedup`, `PipelineDedupLimits`, `PipelineFilter`, `PipelineAcks`, `PipelineStoreErrors`: deduplication, exactly
  by the live marks, and why each acked delivery may be acked.
- `PipelineDelay`, `PipelineTimer`, `PipelineNacks`, `PipelineContent`, `PipelineBounds`: when and in which order delayed
  messages run, the delay every nack carries, a message's content, and how much is held at most.
- `PipelineOrder`: end-to-end order.
- `PipelineProgress`, `PipelineDeadlock`: when a batch can move on, and exactly which configurations can deadlock.
- `PipelineAlive`, `PipelineQuiesce`, `PipelineTrail`, `PipelineFate`: no message is stranded, every message gets done,
  and an always-retried one gets exactly its runs and then the dead-letter queue.
- `PipelineShutdown`: from which states `Run` can still return.
- `PipelineReach`, `PipelineQuiet`: reachable states and the steps of concrete runs; steps that leave dispatcher and
  workers alone.

The data structures below it are imperative where the source is. `RingArray` is the ring's masked array as a value, for
any capacity, and `RingBuffer.Buffer` the class over it. `RingBuffer.Buffer`, `WheelBuckets.Wheel`,
`MemoryStore.Store` and `MemoryTransport.Transport` are classes whose methods are proved against `RingSpec`,
`TimerWheel`, `IdemStore` and plain sequences; each has a `Replay` over arbitrary histories. `RingWait` (condition
variable), `RingLen` (lock-free `Len`), `WorkerPool` and `PubSub` are step machines for the concurrent parts. `Bits`
and `Retry` hold the arithmetic.

## What is false of the code, and exactly when it holds

- `nextPowerOfTwo` yields a power of two if and only if the request is at most 2^62 and the request minus one has no run
  of 32 clear bits below its leading bit (`Bits.NextPowerOfTwoExact`). Every request up to 2^32 qualifies and 2^n + 1
  with n >= 32 does not; above 2^62 and without such a run the last increment wraps and the result is negative
  (`Bits.LargestRequest`).
- A ring answers every history as a bounded FIFO sequence if and only if its capacity is a power of two, that is exactly
  for those requests (`RingArray.RingExact`, `RingArray.RequestExact`). With any other capacity items that fit overwrite
  each other: at request 2^32 + 1 the second item overwrites the first (`RingArray.SmallestMissOverwrites`). Making the
  slots panics exactly when the rounded capacity is negative or above what the platform can allocate
  (`RingBuffer.New`).
- The documented backoff holds for all attempts if and only if the largest product fits a 64-bit integer
  (`Retry.BackoffExact` states the one-nanosecond corner as well).
- A worker that re-inserts into a full ring deadlocks the pipeline for good (`PipelineDeadlock.DeadlockForever`). This
  is reachable if and only if some registered coordinator can answer with an immediate retry
  (`PipelineDeadlock.DeadlockIff`); for the two shipped coordinators `Retry.DefaultAvoidsRing` and
  `Retry.ConfiguredUsesRing` say exactly when that is.
- `Run` need not return. From a reachable state it still can if and only if no more workers must re-insert than the ring
  has free slots and, once the dispatcher has left, the poller and the timer hold no more messages for the ring than it
  has free slots (`PipelineShutdown.FinishIff`). For every configuration, also one that cannot deadlock on its ring, a
  state is reachable from which it cannot (`PipelineShutdown.HangReachable`).
- Deduplication holds in all runs if and only if a store is configured that cannot fail
  (`PipelineDedupLimits.DeduplicationIff`).
- An ack may be unjustified if and only if a store is configured that can fail (`PipelineStoreErrors.AcksJustifiedIff`).
- `Len` can exceed the capacity if and only if the policy is DropOldest (`RingLen.LenExceedsIff`), and can be any
  negative number (`RingLen.LenBelowZero`).
- A Pub/Sub callback can still return if and only if its message ID was not delivered again while its entry was in the
  table (`PubSub.CanReturnIff`); single settlement holds if and only if the consume handler cannot fail
  (`PubSub.SettledOnceIff`).

Where the documentation and the code disagree the model follows the code:

- docs/retries.md:26 calls the first retry immediate; the code delays it by the base delay, and a `Retry` whose delay
  is positive becomes `RetryWithDelay`, contrary to docs/retries.md:12.
- README.md:197 speaks of a crash between Mark and Ack; the code acks first and marks afterwards.
- docs/architecture.md:19 has the shutdown flush the timer; the ring is closed before the wheel is drained, so every
  drained message is refused (`PipelineControl.FinalDrainRejects`).

## Model

| member | source | states |
|---|---|---|
| `PipelineConservation.Conservation` | ringq/ringq.go:205-345 | In every state of every run, shutdown included, each uid ever issued occurs exactly once over queue, poller, wheel, timer, ring, batch, pool, worker, final drain and settlements, and no other uid occurs. |
| `PipelineConservation.SettledOnce` | ringq/ringq.go:311-345 | A delivery is settled at most once in a run, and once settled, refused or dropped it is in no live place. |
| `PipelineFlow.Flow` | ringq/ringq.go:205-406 | For any valuation of deliveries at places, one step of any thread changes the total by exactly its stated gain; uids are issued only by a publish or a redelivered nack. |
| `PipelineContent.MessageIntact` | ringq/ringq.go:205-345 | In any continuation of a publish, whatever stands for the message on a worker, and whatever is acked, given up or lost of it, is the message as published but for Attempts. |
| `PipelineDelay.NeverEarly` | ringq/ringq.go:214-215 | Once the poller hands over a delayed message, no handler starts on it before its delay has passed, in any continuation. |
| `PipelineDelay.ReleasedWhenDue` | internal/timerwheel/wheel.go:28-96 | It is filed under exactly that instant, and of every later tick a slot of it still in the wheel leaves exactly when the instant is past and not in a second after the tick. |
| `PipelineTimer.ReleasedInOrder` | ringq/ringq.go:224-242 | In every run the n-th delayed message that runTimer hands to the ring is the n-th the wheel released. |
| `PipelineNacks.NackDelay` | ringq/ringq.go:333-335 | In every run each nack follows a decision about the same delivery with one attempt less, and carries exactly the delay the coordinator's rules prescribe for that decision. |
| `PipelineEvents.StepAdds` | ringq/ringq.go:178-406 | Every step of every thread adds exactly the listed calls and handler runs to the history. |
| `PipelineCalls.RunHeeds` | ringq/ringq.go:146-180 | Over the labels of any run: the clock shows the time passed, the batch number the batches taken, and the shutdown can begin, and has begun, only if the context was cancelled or Subscribe failed. |
| `PipelineCalls.SweepExact` | idempotency/store_memory.go:77-86 | A sweep drops exactly what had expired when it read the clock, whatever happened since, and leaves all other entries as they are. |
| `PipelineBounds.Limits` | ringq/ringq.go:244-269 | In every reachable state: the ring within its capacity, at most 64 batches in the timer channel, at most poolSize tasks buffered, a batch of at most ten, or a hundred once the dispatcher was cancelled; an empty store after Run returned. |
| `PipelineBounds.TickerBlocks` | internal/timerwheel/wheel.go:42-61 | The ticker blocks exactly when 64 batches wait in its channel. |
| `PipelineBounds.BatchIsOldest` | ringq/ringq.go:249-258 | A new batch is the oldest items of the ring, as many as there are up to ten, or up to a hundred while draining. |
| `PipelineBounds.DrainedBeforeLeaving` | ringq/ringq.go:247-262 | Whatever is in the ring while the dispatcher has not yet found it empty is taken out, oldest first, before the dispatcher is gone. |
| `PipelineAcks.AckJustified` | ringq/ringq.go:284-345 | With a store that does not fail, every Ack in every run follows that delivery's handler Ack, its accepted dead-letter send, or its being found a duplicate at an instant when a mark of its key, made by an earlier handler Ack, still lasted. |
| `PipelineStoreErrors.AcksJustifiedIff` | ringq/filter.go:43-50 | Acks are justified in every run exactly when no configured store can fail; otherwise a run acks a message that was never processed. |
| `PipelineStoreErrors.UnfoundedAck` | ringq/filter.go:44-49 | The run in which a store error makes the filter ack a fresh message. |
| `PipelineDedup.Deduplication` | ringq/ringq.go:271-327 | Once a message with key k has an Ack outcome, no later batch starts a handler on k until the TTL has passed, whatever the transport's Ack did. |
| `PipelineDedupLimits.DeduplicationIff` | ringq/filter.go:43-65 | With a non-negative TTL and a handler, deduplication holds in all runs exactly when a store is configured that cannot fail. |
| `PipelineDedupLimits.RunsAgain` | ringq/filter.go:56-65 | The run in which a missing store or a failed Mark lets a key run again in the next batch. |
| `PipelineDedup.DeleteIsHarmless` | idempotency/store_memory.go:28-45 | Although Exists reads and deletes in two lock sections, the delete never removes a live mark in a running pipeline. |
| `PipelineFilter.CheckExact` | ringq/filter.go:43-51 | In every reachable state with an error-free store, the check of a message finds a duplicate exactly when some mark of its key still lasts; otherwise the message is kept, so a key runs again once its TTL has passed. |
| `PipelineDedup.DedupStep` | ringq/filter.go:32-65 | Every step of every thread keeps the invariant relating marks, the store, the filter's probe and the messages past the filter. |
| `PipelineControl.ControlRun` | ringq/ringq.go:178-200 | In every run: two batches never overlap; no enqueue is refused before the final drain, no insert ignored, no submit after the channel close, no mark in a closed store, and no transport call after transport.Close. |
| `PipelineControl.ControlStep` | ringq/ringq.go:205-345 | Each step keeps the barrier, the phase order and the safety of the history. |
| `PipelineControl.BusyMeansServing` | ringq/ringq.go:289-308 | A busy worker implies a batch past its filter, and an open transport, pool, store and ring. |
| `PipelineControl.FinalDrainRejects` | ringq/ringq.go:190-196 | Each message drained from the wheel at shutdown is refused by the closed ring. |
| `PipelineTermination.MeasureStep` | ringq/ringq.go:205-406 | Every step except a publish keeps a natural-number measure, and every working step lowers it. |
| `PipelineTermination.Termination` | transport/memory/memory.go:36-78 | From any reachable state, without further publishes, every interleaving makes at most Measure working steps, however often handlers ask for retries; Quiescence and NoStranded say what is left when they stop. |
| `PipelineAlive.NoStranded` | ringq/ringq.go:205-309 | In every reachable serving, uncancelled, not deadlocked state with anything left to do, where what is still queued counts only while the poller is subscribed, some step takes a delivery further at once, after the dispatcher looks again, or after time has passed for the wheel. |
| `PipelineAlive.AttendedStep` | ringq/ringq.go:224-269 | Dispatcher, ticker and timer leave only when cancelled. |
| `PipelineQuiesce.Quiescence` | ringq/ringq.go:205-345 | With coordinators that never re-insert, from every reachable serving, uncancelled state and for any answers of the handlers, a continuation without publishes ends with every live place empty, the transport too unless the poller had left, and the pipeline still serving. |
| `PipelineQuiesce.CalmDown` | ringq/ringq.go:244-345 | Whatever is held, in the ring or in a batch can be worked off, handlers answering as told. |
| `PipelineBudget.RetryBudget` | ringq/ringq.go:311-345 | In every run each handler run is the (Attempts - born + 1)-th of its message and within the budget; a retry request is dead-lettered exactly at run maxRetries - born + 1. That the last run is reached is AlwaysRetried. |
| `PipelineBudget.RunsSoFar` | ringq/ringq.go:366-387 | While a handler runs, Attempts counts exactly the earlier runs of the message, across ring retries and redeliveries. |
| `PipelineFate.RetriedToTheEnd` | ringq/ringq.go:311-345 | In any run, a keyless message that always asked for a retry, was always redelivered and never dropped, and is itself no longer on its way, has run exactly maxRetries - Attempts + 1 times and was sent to the dead-letter queue, whatever other messages are in flight. |
| `PipelineFate.AlwaysRetried` | transport/memory/memory.go:36-78 | Published into any reachable serving state, with coordinators that never re-insert, such a message does get there: maxRetries + 1 runs from zero and a dead-letter send, whatever the other handlers answer. |
| `PipelineTrail.TrailRun` | ringq/ringq.go:320-345 | In every run acks follow their handler Ack or dead-letter send, only keyed messages are acked as duplicates, every outcome is acted upon, and nothing logged is taken back. |
| `PipelineTrail.NothingLost` | ringq/ringq.go:205-242 | While the pipeline is up no message has been refused, ignored or dropped. |
| `PipelineOrder.EndToEndOrder` | ringq/ringq.go:205-307 | In any run the immediate first deliveries submitted to the pool are a subsequence of what was published. |
| `PipelineOrder.OrderStep` | transport/memory/memory.go:24-69 | Each step keeps the line pool, batch, ring, poller, transport ordered by publish. |
| `PipelineProgress.BatchProgressExact` | ringq/ringq.go:271-335 | In every reachable state with an unfinished batch, some step of that batch is enabled if and only if the pipeline is not deadlocked on its ring. |
| `PipelineDeadlock.DeadlockForever` | ringq/ringq.go:329-331 | A deadlock lasts: no step, new message or cancellation ends it, no dispatcher or worker moves again, and Run does not return. |
| `PipelineDeadlock.BatchProgress` | ringq/ringq.go:289-335 | With coordinators that never re-insert, every reachable state with an unfinished batch has an enabled step of that batch. |
| `PipelineDeadlock.DeadlockIff` | ringq/ringq.go:308-335 | For every ring capacity, pool size and store, a deadlock is reachable if and only if a registered coordinator may answer with an immediate retry. |
| `PipelineShutdown.FinishIff` | ringq/ringq.go:178-202 | From any reachable state some continuation lets Run return exactly when no more workers must re-insert than the ring has room for and, once the dispatcher is gone, poller and timer hold no more for the ring than it has room for. |
| `PipelineShutdown.HopelessForever` | ringq/ringq.go:178-190 | Otherwise no step of any thread ends that state, and Run never gets to closing the ring. |
| `PipelineShutdown.HangReachable` | ringq/ringq.go:205-221 | For every configuration such a state is reachable with the dispatcher gone. |
| `PipelineShutdown.DeadlockIsJam` | ringq/ringq.go:329-331 | The deadlock on the ring is one of these states. |
| `PipelineQuiet.QuietStep` | ringq/ringq.go:205-242 | Poller, wheel, timer and shutdown steps leave dispatcher, pool, workers and store alone. |
| `Retry.CoordinatorContract` | ringq/ringq.go:361-395 | Both coordinators ack exactly Ack results, retry exactly a retry request inside the budget with Attempts raised by one, dead-letter everything else without a delay and change nothing else. |
| `Retry.DefaultDelay` | ringq/ringq.go:366-387 | In range, a retry of the default coordinator waits as long as the handler asked, or else min(base * 2^Attempts, 5 min), as RetryWithDelay. |
| `Retry.DelaysExact` | ringq/ringq.go:366-387 | The outcome delays are the documented ones for all results and all Attempts in the budget exactly when the largest product fits, or the base is 1 ns and the conversion saturates. |
| `Retry.NegativeAttempts` | ringq/ringq.go:377-387 | With a negative Attempts and no delay of its own a retry has no backoff. |
| `Retry.ConfiguredDelay` | retry/retry.go:41-73 | A retry of the configurable coordinator is of the kind asked for; a delayed one waits as long as asked, or else the base delay. |
| `Retry.NewCoordinator` | retry/retry.go:18-34 | A zero field takes its default, 3 retries or 5 seconds, and every other field is kept. |
| `Retry.BackoffInRange` | ringq/ringq.go:377-383 | While base times 2^(attempt-1) fits 64 bits, the computed delay is min(base * 2^(attempt-1), 5 min) and positive. |
| `Retry.BackoffExact` | ringq/ringq.go:377-383 | The computed delay is the documented one for all attempts if and only if the largest product fits, or the base is 1 ns and the platform's conversion saturates. |
| `Retry.BackoffMonotone` | ringq/ringq.go:377-383 | In range, delays are positive and never shrink from attempt to attempt. |
| `Retry.TotalBackoffBound` | ringq/ringq.go:377-383 | The first n delays total at most min(base * (2^n - 1), n * 5 min). |
| `Retry.DefaultAvoidsRing` | ringq/ringq.go:366-387 | The default coordinator turns every retry into a delayed one exactly when its budget is empty or its backoff stays positive, with the condition on base and maxRetries. |
| `Retry.ConfiguredUsesRing` | retry/retry.go:41-54 | The configurable coordinator re-inserts for some result exactly when its budget is positive. |
| `Bits.NextPowerOfTwo` | ring/buffer.go:38-50 | The line-by-line computation with 64-bit wrap-around yields the least power of two exactly for requests up to 2^62 without a gap of 32 clear bits in v - 1, a negative number exactly above 2^62 without such a gap, and 1 for requests up to 1. |
| `Bits.CascadeBits` | ring/buffer.go:43-47 | Bit i of the cascade is set exactly when the input has a set bit among i to i + 31. |
| `Bits.NextPowerOfTwoExact` | ring/buffer.go:38-50 | Over the whole int range the result is the least power of two not below v exactly when v is at most 2^62 and v - 1 has no gap of 32 clear bits; otherwise it is no power of two, and negative exactly above 2^62 without such a gap. |
| `Bits.CascadeInRange` | ring/buffer.go:43-48 | Only the last increment can leave the int range, and does so exactly above 2^62 without a gap. |
| `Bits.LargestRequest` | ring/buffer.go:48 | The request 2^63 - 1 yields -2^63. |
| `Bits.SmallestMiss` | ring/buffer.go:43-48 | The least failing request, 2^32 + 1, yields 2^33 - 1. |
| `Bits.CascadeCovers32` | ring/buffer.go:38-50 | Every request from 2 to 2^32 gets the least power of two not below it. |
| `Bits.CascadeMisses` | ring/buffer.go:43-47 | Every request 2^n + 1 with n from 32 to 62 gets a capacity that is no power of two. |
| `Bits.MaskIsMod` | ring/buffer.go:61 | Masking any cursor with 2^n - 1 is reduction modulo 2^n. |
| `Bits.MaskExact` | ring/buffer.go:26-36 | Masking with capacity - 1 is reduction modulo the capacity for all cursors exactly when the capacity is a power of two. |
| `RingSpec.OfferAllClosedForm` | ring/buffer.go:104-111 | Run alone on an open ring, EnqueueBatch leaves the last `capacity` of old and new items under DropOldest and the first otherwise; count and error tell exactly how many were refused. |
| `RingSpec.OfferAll` | ring/buffer.go:104-111 | The count equals the batch length exactly when no item was refused or had to wait. |
| `RingSpec.TakeBatch` | ring/buffer.go:134-141 | The longest prefix max allows: min(max, count) items, all when max is negative, none when it is zero, and the rest stays. |
| `RingBuffer.Buffer.constructor` | ring/buffer.go:28-35 | A new ring of any capacity is empty, open and all its slots nil. |
| `RingBuffer.New` | ring/buffer.go:26-36 | On any int request: making the slots panics exactly when the rounded capacity is negative or above the allocation limit; otherwise the ring is empty, and its capacity is the least power of two exactly for requests up to 2^62 without a gap. |
| `RingArray.RingExact` | ring/buffer.go:52-153 | Under every policy, all histories on a new ring of capacity c answer as the bounded FIFO sequence exactly when c is a power of two. |
| `RingArray.RequestExact` | ring/buffer.go:26-50 | In terms of the request: exactly up to 2^62 without a gap of 32 clear bits in the request minus one. |
| `RingArray.Overwrites` | ring/buffer.go:61-63 | When a cursor n below the capacity is masked to slot 0, n + 1 puts that fit and a get answer with the newest item instead of the oldest. |
| `RingArray.SmallestMissOverwrites` | ring/buffer.go:60-66 | At request 2^32 + 1 two puts and a get answer with the second item. |
| `RingArray.RunRefines` | ring/buffer.go:52-153 | Any history on a ring that is a queue keeps it one and answers as the bounded FIFO sequence. |
| `RingArray.PutRefines` | ring/buffer.go:52-102 | A put on a ring that is a queue is Offer, under every policy. |
| `RingArray.GetRefines` | ring/buffer.go:113-153 | A get on a ring that is a queue takes from its front exactly min(max, count) items, all when max is negative, none when it is zero. |
| `RingBuffer.Buffer.Enqueue` | ring/buffer.go:52-102 | In place as on the value for any capacity; on a ring that is a queue it is Offer, under every policy. |
| `RingBuffer.Buffer.EnqueueBatch` | ring/buffer.go:104-111 | In place as on the value for any capacity; on a ring that is a queue the loop is OfferAll. |
| `RingBuffer.Buffer.Dequeue` | ring/buffer.go:113-128 | In place as on the value for any capacity; on a ring that is a queue it returns the oldest item, if any. |
| `RingBuffer.Buffer.DequeueBatch` | ring/buffer.go:130-153 | In place as on the value for any capacity; exactly min(max, count) items, all when max is negative, none when it is zero; on a ring that is a queue they are its oldest, in order, and the rest stays. |
| `RingBuffer.Buffer.Close` | ring/buffer.go:165-170 | Closes the ring and keeps its contents. |
| `RingArray.PushLayout` | ring/buffer.go:60-66 | Writing at the head slot appends, whatever the wrap-around. |
| `RingArray.PopLayout` | ring/buffer.go:121-126 | Clearing the tail slot and advancing removes exactly the oldest item. |
| `RingArray.ReplaceLayout` | ring/buffer.go:87-94 | DropOldest on a full ring replaces exactly the oldest item. |
| `RingBuffer.Replay` | ring/buffer.go:52-153 | Any sequence of operations in place follows the value for any capacity; on a ring that is a queue it answers as the bounded FIFO sequence does. |
| `RingWait.NoLostWakeup` | ring/buffer.go:69-82 | In every interleaving, while a producer is parked the producers already woken are at least as many as the free slots; the ring is closed exactly after a Close and then nobody is parked; the items of all Enqueue calls are stored in order, refused or waiting. |
| `RingWait.Moves` | ring/buffer.go:52-153 | Each critical section stores its item unless the ring is full or closed, or takes the oldest items: one, or as many as asked for, or all. |
| `RingWait.WakesOne` | ring/buffer.go:60-66 | Storing or taking one item wakes exactly one parked producer, if there is one. |
| `RingWait.WakesAll` | ring/buffer.go:149-170 | Taking a batch, or closing, wakes all parked producers. |
| `RingWait.WakeStep` | ring/buffer.go:52-153 | Each critical section keeps the wake-up invariant. |
| `RingWait.WakeupsSettle` | ring/buffer.go:71-73 | Letting woken producers run ends within a bound, with nobody parked or a full ring. |
| `RingLen.LenBound` | ring/buffer.go:155-159 | For every interleaving of the two loads Len is at most the capacity, or one more under DropOldest. |
| `RingLen.LenExact` | ring/buffer.go:155-159 | Len is the item count at the first load, less an insertion not yet published then, less all removals in between that are published by the second load. |
| `RingLen.LenQuiescent` | ring/buffer.go:155-159 | Len is the item count when no operation is in its critical section. |
| `RingLen.LenExceedsIff` | ring/buffer.go:87-94 | Some interleaving makes Len exceed the capacity exactly under DropOldest. |
| `RingLen.LenBelowZero` | ring/buffer.go:155-159 | For every n some interleaving makes Len return -n. |
| `WheelBuckets.Wheel.Insert` | internal/timerwheel/wheel.go:28-39 | Adds exactly the slot (now + delay, item) to the flat multiset, or nothing once closed. |
| `WheelBuckets.Wheel.Expire` | internal/timerwheel/wheel.go:70-96 | Removes and returns exactly the due slots of the flat multiset. |
| `WheelBuckets.SplitSlots` | internal/timerwheel/wheel.go:81-88 | A bucket is split into what is due by the clock and what is not, with nothing lost. |
| `WheelBuckets.Wheel.Len` | internal/timerwheel/wheel.go:98-107 | The sum over the buckets is the size of the flat multiset. |
| `WheelBuckets.Wheel.Drain` | internal/timerwheel/wheel.go:109-123 | Hands over the whole flat multiset and leaves the wheel empty and closed. |
| `WheelHistory.WheelConserves` | internal/timerwheel/wheel.go:28-96 | At any moment of any history, inserted slots are released plus pending ones, as multisets. |
| `WheelHistory.TickExact` | internal/timerwheel/wheel.go:54-96 | A tick releases nothing before its target and everything due when the ticker fired. |
| `WheelHistory.ReleaseLatency` | internal/timerwheel/wheel.go:54-63 | With positive delays and ticks at most `gap` apart, the releasing tick comes less than `gap` after the target. |
| `WheelHistory.Replay` | internal/timerwheel/wheel.go:28-96 | The bucketed wheel follows such a history under any commands with monotone clock readings. |
| `MemoryStore.Store.Exists` | idempotency/store_memory.go:28-45 | True exactly while the last mark of the key lasts. |
| `MemoryStore.Store.Mark` | idempotency/store_memory.go:47-54 | Records the new expiry of the key and nothing else. |
| `MemoryStore.Store.Evict` | idempotency/store_memory.go:77-86 | Keeps exactly the entries not expired at a possibly stale clock reading, unchanged, and stays invisible to Exists. |
| `MemoryStore.Replay` | idempotency/store_memory.go:28-86 | Over any history with a monotone clock, any TTLs and stale sweeps, Exists is true exactly when now is no later than the last mark plus its TTL. |
| `MemoryStore.Store.FilterDuplicates` | ringq/filter.go:32-54 | Splits a batch into messages without and with a live mark, leaving all marks as they were. |
| `MemoryStore.SplitIsPartition` | ringq/filter.go:36-53 | Kept and duplicate messages together are the batch. |
| `MemoryStore.SplitIsSubsequence` | ringq/filter.go:36-53 | Each side keeps the batch order and holds exactly its class. |
| `MemoryStore.SameKeyKept` | ringq/filter.go:37-51 | Inside a batch, once a message with a key is kept so is every later one with that key. |
| `MemoryStore.Store.MarkMessage` | ringq/filter.go:56-65 | Marks the key for the TTL, and leaves no trace of a message without one. |
| `WorkerPool.PoolBounds` | executor/pool.go:14-47 | In every interleaving at most `size` tasks run and `size` are buffered; the tasks picked up are the first sent, in order, the buffered ones the rest, and each task picked up is running or finished, once. |
| `WorkerPool.PoolFollowsCalls` | executor/pool.go:23-71 | Over the labels alone: the channel is closed exactly after a StopDispatching that follows a Start, the tasks sent are those of every Submit before that and of every TrySubmit that found room, and each later send or close panics. |
| `WorkerPool.WaitMeansDone` | executor/pool.go:62-75 | When Wait returns in a started pool, StopDispatching was called and every task sent by the calls before it has run exactly once. |
| `WorkerPool.WaitProgress` | executor/pool.go:38-43 | After a StopDispatching call on a started pool some worker step is enabled until the wait group is zero. |
| `WorkerPool.WaitIsReached` | executor/pool.go:62-75 | After such a call the worker steps of any continuation are bounded by the work left, and the workers alone can reach the point where Wait returns. |
| `MemoryTransport.Transport.Publish` | transport/memory/memory.go:24-34 | Appends while open, and drops silently once closed. |
| `MemoryTransport.Transport.Nack` | transport/memory/memory.go:76-78 | Publishes the message again, whatever the delay. |
| `MemoryTransport.Transport.Collect` | transport/memory/memory.go:37-62 | With its context done a turn of Subscribe leaves the queue alone; otherwise it takes everything queued, waits on an empty open queue, and ends only on an empty closed one. |
| `MemoryTransport.Replay` | transport/memory/memory.go:24-90 | Over any history the handler gets exactly what was sent before Close, once and in order. |
| `PubSub.SettledOnce` | transport/pubsub/pubsub.go:99-167 | With a handler that does not fail, in every interleaving no delivery is settled twice, no done channel closed twice, and a callback returns only after its own settlement. |
| `PubSub.SettledAsCalled` | transport/pubsub/pubsub.go:120-167 | Over any run a settled delivery was acked exactly when the call that took its entry was Ack, and nacked when it was Nack or SendToDLQ. |
| `PubSub.SettledOnceIff` | transport/pubsub/pubsub.go:108-114 | Single settlement holds in all runs exactly when the handler cannot fail. |
| `PubSub.FailureOrphans` | transport/pubsub/pubsub.go:108-114 | The run in which a failing callback deletes the entry of a redelivery, which is then orphaned. |
| `PubSub.RedeliveryOrphans` | transport/pubsub/pubsub.go:103-106 | Redelivery of an ID in flight orphans the earlier callback. |
| `PubSub.OrphanStepExact` | transport/pubsub/pubsub.go:103-106 | A step orphans a callback exactly by replacing its table entry. |
| `PubSub.OrphanForever` | transport/pubsub/pubsub.go:103-118 | An orphaned callback is never settled and never returns. |
| `PubSub.CanReturnIff` | transport/pubsub/pubsub.go:99-167 | Over any run a callback can still return, and is not orphaned, exactly when its ID was never delivered again while its entry was in the table. |

## Left out

- SQS, Redis Pub/Sub and Redis Streams transports, the Redis store and the Pub/Sub client: calls into other systems.
  The pipeline sees a transport only through the outcomes of Ack, Nack and SendToDLQ; a nacked message is redelivered
  or not, nondeterministically.
- `idempotency/idempotency.go`: the same algorithm as `ringq/filter.go`.
- Custom retry coordinators: only the two shipped ones are modelled.
- Concurrent receive callbacks of the Pub/Sub transport inside the pipeline machine, which has one poller; `PubSub`
  treats the in-flight table by itself.
- The platform's allocation limit is a parameter of `RingBuffer.New`, not computed from the size of a slot.
- 64-bit wrap-around of `Attempts`, of clock readings and of the ring cursors: these are unbounded integers. The
  backoff product does wrap.
- PipelineDedupLimits.DeduplicationIff: requires a non-negative TTL; a negative one expires before it is set, so there is
  nothing to deduplicate.
- Fairness of the scheduler: progress is stated as enabled steps, bounded runs and existing continuations.
- PipelineOrder.EndToEndOrder: is about first deliveries without delay; retried and delayed messages may overtake.
- Hooks, error texts, the JSON codec, typed wrappers, builder setters and message attributes other than the
  idempotency key: plumbing.
- Real time and goroutine scheduling: a monotone integer clock, interleaved steps and a cancellation flag.
