# Verified models of a partitioned Convex backend

A Dafny model of the parts of the backend where correctness depends on many steps working together:
the single-flight cache and the CoDel queue under it, the bounded thread pool, two-phase commit across
partitions, the batch timestamp oracle, the function log and its top-k report, the deleted bitset and
its file format, the scheduler's worker slots, and a few smaller pieces.

Concurrent code is a state machine over values: every lock region, channel operation and await is one
step, a run is any sequence of legal steps, and the main results hold of every run from the start.
Code that updates an object in place is a class whose methods are proved against functions on a value
(`Model()`); those functions are the ones the state machines use.  Clocks, generators, schedulers and
the network are parameters or events, so nothing is assumed about timing beyond a clock that does not
run backwards where the code uses a monotonic one.

| file | models |
|---|---|
| `CoDelQueue.dfy`, `CoDelChannel.dfy` | the queue with adaptive expiration; its channel and wake-ups |
| `LruCache.dfy`, `AsyncLru.dfy`, `AsyncLruHistory.dfy`, `AsyncLruRuns.dfy` | the cache's accounting, its protocol, what it evicts, broadcasts and answers, and what it does and does not promise |
| `ThreadPool.dfy`, `ThreadPoolHistory.dfy` | the dispatcher and its workers; what becomes of each job |
| `TwoPhaseCommit.dfy`, `TwoPhaseRuns.dfy`, `TwoPhaseDecision.dfy`, `TwoPhaseProgress.dfy` | coordinator, participants, decision record and watchers; the runs that break atomicity; what is decided, and how it can always be carried out |
| `TimestampOracle.dfy` | nodes that share one timestamp counter |
| `FunctionLog.dfy`, `TopK.dfy` | the execution log with its consumers; the busiest functions |
| `DeletedBitset.dfy` | the bitset and its file |
| `WorkerSlots.dfy` | starting, stopping and shutting down two workers |
| `ValidJson.dfy`, `SearchPrefixes.dfy`, `ClientPool.dfy`, `MultipartUpload.dfy` | field renaming, prefix search, client sharing, part numbering |
| `Common.dfy` | options, index sets, the pigeonhole principle |

## Where the code does less than its comments say

Each of these has a run or an input in the project and a theorem that says when the promise does hold.

- A cached value is not always "calculated exactly once": an update can take the slot of a key whose
  request is still running, by evicting it (`AsyncLruRuns.EvictionRepeatsWork`) or by an error that
  another request's map holds for the key (`AsyncLruRuns.PrepopulatedErrorRepeatsWork`), and the next
  get starts another request.  Whatever the generators return, it is once when every update keeps the
  slots of the keys that other requests are computing (`AsyncLruRuns.ComputedOnce`), and any update
  that does not lets the key be computed twice (`AsyncLruRuns.UnsparedRepeats`).
- A generator that leaves out the requested key leaves a marker behind
  (`AsyncLruRuns.IncompleteMapStrandsKey`).  While the marker is there, every get of the key finds its
  channel closed and changes nothing (`AsyncLruRuns.StrandedGetFails`).  The comment that an evicted
  waiting entry causes channel errors is wrong for this code: only this case does
  (`AsyncLru.ListenersAreAnswered`).
- An error for a key whose value is cached removes the value but keeps counting its size.  What leaks
  this way never exceeds the limit, so eviction never runs out of entries, but once it reaches the
  limit nothing is cached again (`AsyncLru.LeakedOutForever`, `AsyncLruRuns.ErrorDisablesCache`).
- With several receivers of a CoDel queue, one can sleep on beside a queued item
  (`CoDelChannel.SleeperOverlooked`).  It takes a receiver that polls and takes an item while its own
  listener still waits (`CoDelChannel.ASleeperIsWoken`, `CoDelChannel.StealOverlooks`); a single
  receiver, which is all the cache and the thread pool have, never does.
- A job that panics takes its thread's place in the pool with it (`ThreadPool.OpenJobsBounded`).  When
  all are gone, submissions are accepted and never run or expired (`ThreadPool.ExhaustedForever`); as
  long as one is left, an unserved job can always be served (`ThreadPool.ServesUnlessExhausted`).
- Two-phase commit is atomic as long as two things never happen: a decision record is deleted while the
  coordinator can still commit, or a repeated prepare fails at a partition that holds the intent of a
  live transaction.  The code excludes neither; it relies on a grace period of sixty seconds for the
  first and undoes an acknowledged prepare in the second.  After either, one partition can commit what
  another has lost (`TwoPhaseRuns.CarelessSplits`), and an acknowledged transaction can be lost
  altogether (`TwoPhaseRuns.SomeAckLost`).
- The oracle's demand to read the committed floor again after a leadership change is cleared by a floor
  that was read before the change.  A grant can then lie at or below the floor of the change exactly if
  the next timestamp the node could reserve was not above it at the change
  (`TimestampOracle.FencedByFloor`, `TimestampOracle.OvertakenFloorIsStale`).  This cannot happen while
  only timestamps below the shared counter are published as committed, which holds for those the oracle
  granted (`TimestampOracle.FencedByOwnFloor`), and grants are above everything granted before the
  change in any case (`TimestampOracle.LeadersStartAbove`).
- Log cursors increase only if at least one completion may be kept (`FunctionLog.IncreaseIffRoom`).
- Shrinking a deleted bitset does not recount it (`DeletedBitset.ResizeKeepsCount`).
- A stop that overlaps a start can leave one of two workers running (`WorkerSlots.StopLeavesHalf`).
  After a shutdown workers can run again exactly if a start was in progress
  (`WorkerSlots.StartOutlivesShutdown`, `WorkerSlots.RunsAgainIffStarting`).
- Two imported fields that slugify alike become one (`ValidJson.CollidingFieldsLoseData`), and repeated
  prefixing can make a name longer than the limit (`ValidJson.LongSlugGrowsTooLong`), so that converting
  a second time changes the value again (`ValidJson.IdempotentIffNamesFit`).
- Part number 10000 is never used, although `PartNumber` allows it (`MultipartUpload.Upload.NextPartNumber`),
  and a failed upload leaves a gap (`MultipartUpload.Upload.Complete`).

## Model

| member | source | states |
|---|---|---|
| `CoDelQueue.CoDelQueue.TryPush` | crates/common/src/codel_queue.rs:120-133 | a push at capacity changes nothing; any other appends the item, with the long expiration exactly if the queue was empty less than that ago, an empty queue counting as empty now |
| `CoDelQueue.CoDelQueue.TryPop` | crates/common/src/codel_queue.rs:151-170 | hands out the newest item if the oldest has not expired and the queue has not been empty for the idle expiration, else the oldest, marked expired by its own deadline; a queue that becomes empty is idle again |
| `CoDelQueue.PopByClock` | crates/common/src/codel_queue.rs:151-170 | which item comes out, by deadlines and clock alone: the oldest if expired or idle, else the newest |
| `CoDelQueue.PopRemovesOne` | crates/common/src/codel_queue.rs:135-170 | a pop of a queue of different values hands out one of them and keeps exactly the others |
| `CoDelQueue.ShapedRun` | crates/common/src/codel_queue.rs:96-170 | every reachable buffer is in arrival order, a block of idle-mode items before a block of congested-mode items |
| `CoDelQueue.BlockDeadlines` | crates/common/src/codel_queue.rs:120-133 | within a block, an earlier arrival has the earlier deadline |
| `CoDelQueue.IdleNeverExpires` | crates/common/src/codel_queue.rs:96-170 | on every run a pop while the queue is idle never yields an expired item |
| `CoDelQueue.ExactDelivery` | crates/common/src/codel_queue.rs:120-170 | on every run each accepted item is delivered or buffered, never both or twice, unchanged, and marked expired exactly when its deadline has passed; the buffer respects the capacity |
| `CoDelQueue.FirstInFirstOut` | crates/common/src/codel_queue.rs:135-170 | on runs where each pop that finds an unexpired item first comes less than the idle expiration after the queue was empty, deliveries followed by the buffer are all arrivals in order |
| `CoDelQueue.NewestWhenCongested` | crates/common/src/codel_queue.rs:151-170 | on every run a pop delivers the largest buffered arrival number when congested with an unexpired front, else the smallest |
| `CoDelQueue.EmptyTimeIsOfLastFill` | crates/common/src/codel_queue.rs:96-118 | on every run the time by which a queue judges itself is that of the push that last found it empty, and a pop that empties it starts afresh |
| `CoDelChannel.ClosedMeansDrained` | crates/common/src/codel_queue.rs:222-283 | a receiver sees the end only when every sender is gone and everything accepted was delivered, once |
| `CoDelChannel.PollGives` | crates/common/src/codel_queue.rs:251-283 | on every run a poll gives an item while one is queued, then the end exactly if every sender is gone, else sleep with a listener that waits |
| `CoDelChannel.SomeoneIsNotified` | crates/common/src/codel_queue.rs:222-283 | on every run, while an item is queued and a receiver sleeps, some listener was notified; once the last sender is gone, every sleeper was |
| `CoDelChannel.OneReceiverIsWoken` | crates/common/src/codel_queue.rs:240-283 | a single receiver that sleeps while an item is queued was notified, on every run |
| `CoDelChannel.ASleeperIsWoken` | crates/common/src/codel_queue.rs:240-283 | with any number of receivers, if none takes an item while its listener waits, a queued item always has a sleeper that was notified |
| `CoDelChannel.StealOverlooks` | crates/common/src/codel_queue.rs:240-283 | after any such taking on any run, a later item can find all sleepers without a notification |
| `CoDelChannel.SleeperOverlooked` | crates/common/src/codel_queue.rs:240-283 | for every positive capacity a run of two receivers on which it happens |
| `LruCache.Inner.TrimToSize` | crates/async_lru/src/async_lru.rs:309-335 | the eviction loop removes exactly the oldest slots that do not fit and never runs out of slots |
| `LruCache.Inner.UpdateValue` | crates/async_lru/src/async_lru.rs:272-302 | storing a value or an error gives the specified cache and keeps it valid |
| `LruCache.Inner.DropWaitingEntry` | crates/async_lru/src/async_lru.rs:264-270 | only a marker is removed, never a value |
| `LruCache.UpdateKeepsAccounts` | crates/async_lru/src/async_lru.rs:272-302 | every update keeps the counted size within the limit, and adds to the leak exactly the size an error throws away |
| `LruCache.EvictsJustEnough` | crates/async_lru/src/async_lru.rs:309-335 | after a store the longest most-recent suffix that fits survives; the new value survives exactly when it fits beside the leak, else the cache is emptied |
| `LruCache.SlotSurvivesIff` | crates/async_lru/src/async_lru.rs:272-335 | a slot of another key survives a store exactly when everything from it on fits beside the leak and the new value |
| `LruCache.LeakedOut` | crates/async_lru/src/async_lru.rs:272-335 | with the whole limit leaked, a value of positive size empties the cache and the leak stays |
| `AsyncLru.GetSync` | crates/async_lru/src/async_lru.rs:398-444 | a get finds a value, joins the running request or starts one; the slot it finds moves behind all others, which keep their order, and a new marker goes there too; a full queue rejects it and nothing changes |
| `AsyncLru.InvStep` | crates/async_lru/src/async_lru.rs:342-496 | every step of clients and worker keeps the protocol's invariant |
| `AsyncLru.MarkersAreServed` | crates/async_lru/src/async_lru.rs:378-496 | on every run a marker belongs to a request for its key that has not broadcast and, unless the generator left the key out, will |
| `AsyncLru.BroadcastsOnce` | crates/async_lru/src/async_lru.rs:466-496 | on every run no request broadcasts twice, and a finished one did once unless its generator left its key out |
| `AsyncLru.ListenersAreAnswered` | crates/async_lru/src/async_lru.rs:304-308 | on every run eviction, expiry and failure cut no listener off: it can receive as soon as its request has broadcast or finished, and a closed channel means the generator left the key out |
| `AsyncLru.ConcurrencyBounded` | crates/async_lru/src/async_lru.rs:466-496 | on every run the worker's open requests are exactly those in flight and at most its concurrency |
| `AsyncLru.SizeAccounted` | crates/async_lru/src/async_lru.rs:272-335 | on every run the counted size is the stored sizes plus exactly what errors leaked, and within the limit |
| `AsyncLru.LeakedOutForever` | crates/async_lru/src/async_lru.rs:272-335 | once the whole limit is leaked, on every further run it stays leaked and nothing of positive size is stored |
| `AsyncLru.CacheIsTheFunction` | crates/async_lru/src/async_lru.rs:342-464 | if generators report only values of a function, every successful get on every run returns the function's value at its key |
| `AsyncLruHistory.SlotsInOrderOfUse` | crates/async_lru/src/async_lru.rs:398-444 | on every run, at any time, the slots stand in the order in which their keys were last read, asked for or stored |
| `AsyncLruHistory.EvictsLeastRecentlyUsed` | crates/async_lru/src/async_lru.rs:309-335 | on every run, when a store evicts one key and keeps another, the one it keeps has been used since the evicted one was last used |
| `AsyncLruHistory.BroadcastsWhatWasMade` | crates/async_lru/src/async_lru.rs:466-496 | on every run a request broadcasts, once, the value or failure its generator made of its key; it broadcasts the expiry exactly if it was taken past its deadline, and then no generator ran |
| `AsyncLruHistory.AppliesAllThatWasMade` | crates/async_lru/src/async_lru.rs:478-494 | on every run a finished request has applied all its generator made, each entry once, in order |
| `AsyncLruHistory.ClientsAreTold` | crates/async_lru/src/async_lru.rs:342-376 | on every run each client gets a value the cache held at its get, what the request it joined or started broadcast, or a refusal because the queue was full |
| `AsyncLruRuns.ComputedOnce` | crates/async_lru/src/async_lru.rs:59-66 | on every run, whatever the generators return, on which each update keeps the slots of the keys that other requests are computing: a pending key is in the cache and no two pending requests have the same key |
| `AsyncLruRuns.SlotKeptIff` | crates/async_lru/src/async_lru.rs:272-335 | a slot outlasts an update exactly when a test on the cache before says so: an error for its key takes it, a value for its key keeps one if it fits beside the leak, a value for another key leaves it if everything from it on fits |
| `AsyncLruRuns.UnsparedRepeats` | crates/async_lru/src/async_lru.rs:272-335 | from every state of the protocol, an update that takes the slot of a key another request is computing lets the next get of that key compute it a second time |
| `AsyncLruRuns.LostMarkerRepeats` | crates/async_lru/src/async_lru.rs:398-444 | once a pending request has no marker, one get leaves two pending requests of its key |
| `AsyncLruRuns.EvictionRepeatsWork` | crates/async_lru/src/async_lru.rs:309-335 | for every size limit and key a run on which storing a value of that key makes another be computed twice at once |
| `AsyncLruRuns.PrepopulatedErrorRepeatsWork` | crates/async_lru/src/async_lru.rs:297-300 | for every size limit a run on which an error in another request's map makes a key be computed twice at once |
| `AsyncLruRuns.IncompleteMapStrandsKey` | crates/async_lru/src/async_lru.rs:447-496 | a run on which a finished request leaves its marker and a later get finds its channel closed |
| `AsyncLruRuns.StrandedGetFails` | crates/async_lru/src/async_lru.rs:342-376 | in every state whose marker names a finished request that never broadcast, a get of its key finds the channel closed, starts nothing and leaves the marker |
| `AsyncLruRuns.ErrorDisablesCache` | crates/async_lru/src/async_lru.rs:272-302 | for every size limit a run after which nothing of positive size is stored on any further run |
| `ThreadPool.Scheduler.DrainDone` | crates/common/src/bounded_thread_pool.rs:166-218 | draining the done channel stacks the finished indices in order |
| `ThreadPool.Scheduler.ReserveWorker` | crates/common/src/bounded_thread_pool.rs:166-218 | the last finisher first, then a new thread below the limit, else none |
| `ThreadPool.CollectThenReserve` | crates/common/src/bounded_thread_pool.rs:166-218 | the machine's drain and reserve steps make the scheduler's choice |
| `ThreadPool.IndicesArePartitioned` | crates/common/src/bounded_thread_pool.rs:129-218 | on every run each worker index is in exactly one of six places, no report is dropped and no hand-off fails |
| `ThreadPool.JobsEndOnce` | crates/common/src/bounded_thread_pool.rs:154-233 | on every run each job ends at most once: executed, expired or panicked |
| `ThreadPool.OpenJobsBounded` | crates/common/src/bounded_thread_pool.rs:129-218 | on every run the unfinished jobs taken and the threads lost to panics are together at most the number of threads |
| `ThreadPool.BlockedMeansBusy` | crates/common/src/bounded_thread_pool.rs:166-218 | the dispatcher waits for a report only when every worker is busy, about to report, or dead |
| `ThreadPool.ExhaustedForever` | crates/runtime/src/prod.rs:103-141 | once every thread the pool may have is lost, on every further run nothing more is executed or expired |
| `ThreadPool.ServesUnlessExhausted` | crates/common/src/bounded_thread_pool.rs:129-218 | no deadlock: whenever the dispatcher runs and a job is unserved, some continuation ends another job, unless all threads are lost, and then none does |
| `ThreadPool.OnePanicExhausts` | crates/common/src/bounded_thread_pool.rs:154-164 | a run on which one panic strands the job behind it |
| `ThreadPoolHistory.JobsEndAsTheyRan` | crates/common/src/bounded_thread_pool.rs:154-233 | on every run a job expires exactly if it was taken past its deadline and goes to a worker exactly if it was taken in time; it is executed or panicked exactly if a worker executing it finished or panicked |
| `ThreadPoolHistory.LateJobsNeverRun` | crates/common/src/bounded_thread_pool.rs:166-218 | on every run a job taken past its deadline is never handed to a worker |
| `ThreadPoolHistory.StopsOnlyWhenClosed` | crates/common/src/bounded_thread_pool.rs:166-218 | on every run the dispatcher has stopped only if every handle of the pool was dropped and every job was taken from the queue |
| `ThreadPoolHistory.ClosedStops` | crates/common/src/bounded_thread_pool.rs:166-218 | with an empty queue a dispatcher that has a worker stops exactly if the pool is closed |
| `ThreadPoolHistory.SubmittedIffRoom` | crates/common/src/bounded_thread_pool.rs:90-122 | a submission is taken exactly while the queue has room, and becomes the next job |
| `TwoPhaseCommit.InvPrepare` | crates/database/src/committer.rs:3583-3755 | a prepare that succeeds, first or repeated, keeps the invariant: whoever consented still holds its writes unless aborted |
| `TwoPhaseCommit.InvFailPrepare` | crates/database/src/committer.rs:6383-6604 | a prepare that fails keeps the invariant unless the partition holds the intent of a live transaction |
| `TwoPhaseCommit.InvParticipant` | crates/database/src/committer.rs:6682-7114 | starting, finishing or losing a commit or rollback keeps the invariant |
| `TwoPhaseCommit.CommitFindsIntent` | crates/database/src/committer.rs:6682-6725 | while the invariant holds, a commit request finds an intent, a commit under way or a finished one |
| `TwoPhaseCommit.InvDecide` | crates/database/src/two_phase_coordinator.rs:1032-1202 | the decision, in either mode and after any failures, keeps the invariant |
| `TwoPhaseCommit.InvCreate` | crates/database/src/two_phase.rs:959-974 | create-if-absent keeps the invariant, also when it lands after the coordinator gave up |
| `TwoPhaseCommit.InvTimeoutAbort` | crates/database/src/two_phase_watcher.rs:213-266 | a timeout abort keeps the invariant, also one based on an intent that is gone by the time it is written |
| `TwoPhaseCommit.InvRun` | crates/database/src/two_phase_coordinator.rs:946-1215 | every careful run keeps the invariant: one that deletes no record while the coordinator can commit, and on which no prepare fails at a holder of a live intent |
| `TwoPhaseCommit.Atomicity` | crates/database/src/two_phase_watcher.rs:207-212 | on careful runs, if one partition commits or is committing, all consented, none has given its writes up and each still holds them |
| `TwoPhaseCommit.ForgottenMeansDone` | crates/database/src/two_phase_watcher.rs:106-123 | on careful runs a commit record is gone, or replaced by an abort, only when every partition has committed |
| `TwoPhaseCommit.AcknowledgedIsKept` | crates/database/src/two_phase_coordinator.rs:738-779 | on careful runs what the client was told is committed is held by every partition, in either mode |
| `TwoPhaseCommit.ReportedMeansCommitted` | crates/database/src/two_phase_coordinator.rs:1113-1165 | without early acknowledgement, on every run whatsoever, reported means committed by every partition |
| `TwoPhaseRuns.CarelessSplits` | crates/database/src/two_phase_watcher.rs:106-266 | the condition is exact: with two partitions or more, any careless step on from a careful run can be followed by a split, and before it there is none |
| `TwoPhaseRuns.CarefulNeverSplits` | crates/database/src/two_phase_watcher.rs:207-212 | on careful runs no partition has committed what another does not hold |
| `TwoPhaseRuns.DeletionSplits` | crates/database/src/two_phase.rs:1138-1144 | from every state of the protocol where a record is deleted while the coordinator can commit, any partition can commit what any other loses |
| `TwoPhaseRuns.DropSplits` | crates/database/src/committer.rs:7000-7045 | from every live state where a prepare fails at a holder of the intent, any other partition can commit what that one has lost |
| `TwoPhaseRuns.DeletionLosesAck` | crates/database/src/two_phase_coordinator.rs:1166-1202 | after an early deletion in early-acknowledgement mode, the client can be told of a commit that no partition holds |
| `TwoPhaseRuns.SomeDeletionSplits` | crates/database/src/two_phase_watcher.rs:106-266 | in either mode and for any number of partitions from two, a run from the start that an early deletion splits |
| `TwoPhaseRuns.SomeRepeatSplits` | crates/database/src/committer.rs:6493-6604 | likewise a run that a failed repeat of an acknowledged prepare splits |
| `TwoPhaseRuns.SomeAckLost` | crates/database/src/two_phase_coordinator.rs:1166-1202 | for any number of partitions, a run from the start that acknowledges what no partition holds |
| `TwoPhaseDecision.AsksForWhatWasAnswered` | crates/database/src/two_phase_coordinator.rs:1032-1202 | on every run the record asked for follows from the answers of the run: after any failure an abort, which names everyone if an answer was lost and exactly those that agreed if none was; else everyone agreed and everyone is named |
| `TwoPhaseDecision.DecisionAsksUnlessNobodyHolds` | crates/database/src/two_phase_coordinator.rs:1042-1080 | a record is asked for unless something failed, no answer was lost and nobody agreed |
| `TwoPhaseDecision.LandedReachesHolders` | crates/database/src/two_phase_coordinator.rs:1042-1080 | on every run, once the coordinator's record has landed, everyone it has to reach can read it |
| `TwoPhaseDecision.AbortClears` | crates/database/src/committer.rs:7000-7114 | on every run, after a failure whose abort landed, every partition that may hold an intent can be cleared of it unless it is under a commit; every partition, if an answer was lost |
| `TwoPhaseDecision.IntentsAccountedFor` | crates/database/src/committer.rs:3583-3755 | on every run, careful or not, a partition that acknowledged a prepare has the intent, has committed it, or is known to have given one up; only such partitions have any |
| `TwoPhaseProgress.DecisionsCanBeCarriedOut` | crates/database/src/two_phase_watcher.rs:106-266 | from every state of every run a stored decision can be carried out by everyone it names and then forgotten; a commit commits whatever is held, an abort takes away whatever is not committed |
| `TwoPhaseProgress.CanAlwaysDecide` | crates/database/src/two_phase_coordinator.rs:1016-1049 | however many answers are missing, the coordinator can come to a decision |
| `TwoPhaseProgress.WrittenCommitCanBeReported` | crates/database/src/two_phase_coordinator.rs:1113-1165 | without early acknowledgement, from every careful state in which the commit is written, every partition can commit and the client be told |
| `TwoPhaseProgress.WrittenStageCanBeReported` | crates/database/src/two_phase_coordinator.rs:1166-1202 | with early acknowledgement, from every careful state in which the commit is staged and not aborted, whoever recovered it, the client can be told at once |
| `TwoPhaseProgress.DroppedCommitCanBeRetried` | crates/database/src/committer.rs:6682-6725 | a commit that was refused or lost on its way can be asked for again |
| `TwoPhaseProgress.FailedPrepareLeavesNothing` | crates/database/src/committer.rs:6383-6604 | a prepare that failed leaves no intent, unless it came under a commit |
| `TwoPhaseProgress.PreparedSurvivesRestarts` | crates/database/src/committer.rs:6234-6251 | after a prepare that succeeded, on every further run, the intent survives restarts until a later prepare at the partition fails |
| `TwoPhaseProgress.AbandonedNeverReports` | crates/database/src/two_phase_coordinator.rs:946-1215 | a coordinator that gave up before telling the client never does |
| `TimestampOracle.BatchState.TryAssign` | crates/database/src/timestamp_oracle.rs:357-373 | takes the least timestamp of the reservation at or above the floor and above what is known committed; fails exactly if a floor is demanded or there is none |
| `TimestampOracle.BatchState.DiscardReservedBatch` | crates/database/src/timestamp_oracle.rs:235-240 | after a discard no assignment succeeds, not even with a new floor, until a new batch is installed |
| `TimestampOracle.BatchState.RefreshCommittedFloor` | crates/database/src/timestamp_oracle.rs:242-247 | whatever is assigned next is above the new floor and above all that was known committed before |
| `TimestampOracle.BatchState.ObserveCommitted` | crates/database/src/timestamp_oracle.rs:476-481 | whatever is assigned next is above the observed commit and above all that was known before |
| `TimestampOracle.LocalOracle.Next` | crates/database/src/timestamp_oracle.rs:129-149 | the least timestamp at or above clock and floor and above everything assigned or committed; fails exactly at the maximum |
| `TimestampOracle.InvStep` | crates/database/src/timestamp_oracle.rs:307-409 | every step, lost answers and restarts included, keeps what nodes may still hand out disjoint and unused |
| `TimestampOracle.UniqueAndIncreasing` | crates/database/src/timestamp_oracle.rs:35-56 | on every run no two grants on any nodes are equal, and each node's grants increase |
| `TimestampOracle.RespectsFloors` | crates/database/src/timestamp_oracle.rs:231-233 | on every run a grant is at or above its caller's floor and above every commit its node had observed |
| `TimestampOracle.LeadersStartAbove` | crates/database/src/timestamp_oracle.rs:92-99 | on every run a grant is above everything any node granted before the granting node's last leadership change |
| `TimestampOracle.ObservedIsRespected` | crates/database/src/timestamp_oracle.rs:476-481 | on every run what a node has observed it never grants, nor anything below, until it restarts |
| `TimestampOracle.ReservesOnlyIfNeeded` | crates/database/src/timestamp_oracle.rs:375-409 | a call reserves exactly if its node cannot be served already, before and after the floor is read |
| `TimestampOracle.ChangeStartsOver` | crates/database/src/timestamp_oracle.rs:398-405 | a range reserved before a leadership change is not installed, and the call starts over with the floor |
| `TimestampOracle.GivesUpAtTheTenth` | crates/database/src/timestamp_oracle.rs:307-355 | whatever others do meanwhile, a reservation that is refused goes on until the tenth attempt and then gives up |
| `TimestampOracle.FencedByFloor` | crates/database/src/timestamp_oracle.rs:375-409 | unless a leadership change overtakes a floor that was read when the next timestamp the node could reserve is not above the floor of the change, every grant is above the committed floor of its node's last change |
| `TimestampOracle.FencedByOwnFloor` | crates/database/src/committer.rs:7683-7708 | if only timestamps below the counter are published as committed, every grant on every run is above the committed floor of its node's last change, overtaken or not |
| `TimestampOracle.OvertakenFloorIsStale` | crates/database/src/timestamp_oracle.rs:382-394 | the condition is exact: from any state in which a change does that, the node can go on to grant a timestamp at or below the floor of the change |
| `TimestampOracle.ForeignFloor` | crates/database/src/timestamp_oracle.rs:483-545 | such states are reached from the start by a published floor at or above the counter |
| `FunctionLog.Inner.LogExecution` | crates/application/src/function_log.rs:1862-1905 | appends at the least cursor that is not before the clock and above all entries, drops the shortest prefix that leaves the bound, and wakes all waiters; fails and changes nothing exactly if the clock is before the epoch |
| `FunctionLog.Inner.Evict` | crates/application/src/function_log.rs:1892-1900 | the loop ends and removes exactly the specified prefix |
| `FunctionLog.Inner.LogProgress` | crates/application/src/function_log.rs:1971-1992 | appends at the least such cursor without evicting, and wakes all waiters |
| `FunctionLog.Inner.StreamParts` | crates/application/src/function_log.rs:1574-1608 | returns exactly the parts after the cursor, unchanged except that completions of actions and HTTP actions have no lines, or registers a waiter when there are none |
| `FunctionLog.EvictsShortestPrefix` | crates/application/src/function_log.rs:1892-1900 | eviction drops the shortest prefix that leaves the bound, and it ends in a completion |
| `FunctionLog.WaitersHaveNothing` | crates/application/src/function_log.rs:1574-1608 | on every run, for every bound, a waiter has nothing newer than its cursor in the log |
| `FunctionLog.WaitsUntilAppend` | crates/application/src/function_log.rs:1574-1608 | a consumer that found nothing is among the waiters until the next append, which wakes everyone |
| `FunctionLog.IncreaseIffRoom` | crates/application/src/function_log.rs:2034-2048 | cursors increase on every run, whatever the clock does, if and only if the bound is positive |
| `FunctionLog.ConsumersMissOnlyEvicted` | crates/application/src/function_log.rs:1548-1608 | on every run a consumer gets the parts after its start in order, once each, and misses only evicted ones; an empty poll means it is up to date |
| `FunctionLog.PollDelivers` | crates/application/src/function_log.rs:1574-1608 | what a poll delivers is what was appended, except that completions of actions and HTTP actions have no lines |
| `TopK.TopListsLowRanks` | crates/application/src/function_log.rs:1410-1422 | a function is listed exactly when fewer than k come before it; every listed one has a larger total than every other, or an equal one and an earlier name; no repeats |
| `TopK.ListedAreBusier` | crates/application/src/function_log.rs:1410-1422 | every listed function has more calls than every other that has any, or as many and an earlier name |
| `TopK.SumTimeseries` | crates/application/src/function_log.rs:1794-1811 | every bucket is the sum of the values there, and absent exactly where all are absent; fails exactly on a misaligned series |
| `TopK.TotalCalls` | crates/application/src/function_log.rs:1350-1356 | exactly the functions with a value, each with the sum of its values |
| `TopK.CallCountTopK` | crates/application/src/function_log.rs:1339-1375 | the rows are those of the functions for which fewer than k have more calls, the busiest first and ties by name, then one for the rest with a value exactly where one of them has one; in every bucket they add up to all calls; fails exactly when an unlisted series is misaligned |
| `DeletedBitset.DeletedBitset.Delete` | crates/common/src/deleted_bitset.rs:86-94 | deletes exactly one id and keeps the count; fails on a deleted or unknown id and changes nothing |
| `DeletedBitset.DeletedBitset.Resize` | crates/common/src/deleted_bitset.rs:52-54 | an id is deleted afterwards exactly if it is past the new size, or was in range and deleted before |
| `DeletedBitset.ResizeKeepsCount` | crates/common/src/deleted_bitset.rs:52-84 | the count stays right exactly when no set bit is cut off |
| `DeletedBitset.DeletedBitset.Write` | crates/common/src/deleted_bitset.rs:104-125 | succeeds exactly for a right count of fewer than 2^32 bits, and then writes version 1, the two little-endian numbers, and bit i as bit i % 8 of byte 9 + i / 8, in whole blocks of eight bytes with clear padding |
| `DeletedBitset.WriteBlocks` | crates/common/src/deleted_bitset.rs:119-121 | little-endian blocks put bit i at bit i % 8 of byte i / 8, padded with clear bits |
| `DeletedBitset.IsFileFormat` | crates/common/src/deleted_bitset.rs:104-125 | the file, byte by byte |
| `DeletedBitset.Load` | crates/common/src/deleted_bitset.rs:138-178 | returns the bitset whose format the input has, whatever its padding, and fails exactly when there is none |
| `DeletedBitset.HoldsFormat` | crates/common/src/deleted_bitset.rs:138-178 | accepted input, byte by byte |
| `DeletedBitset.FileHolds` | crates/common/src/deleted_bitset.rs:104-178 | what was written is read back, and nothing else could be |
| `DeletedBitset.RewriteClearsPadding` | crates/common/src/deleted_bitset.rs:104-178 | reading and writing again keeps header and bits and clears the padding |
| `DeletedBitset.FileUnique` | crates/common/src/deleted_bitset.rs:26-33 | a bitset has one file |
| `WorkerSlots.HandlesHaveOnePlace` | crates/application/src/lib.rs:1078-1121 | on every run, however calls overlap, each worker handle is in one place: a slot, one stopping call, or the log of shutdowns, where it is once |
| `WorkerSlots.StartHoldsRunner` | crates/application/src/lib.rs:1078-1104 | on every run, while a start holds the runner's lock nobody else takes or fills its slot |
| `WorkerSlots.BothOrNone` | crates/application/src/lib.rs:1078-1121 | both workers run or neither, once no stop is halfway, if no start stored inside a stop |
| `WorkerSlots.StartInsideSplits` | crates/application/src/lib.rs:1107-1121 | any start that stores inside a stop can leave the runner alone |
| `WorkerSlots.StopLeavesHalf` | crates/application/src/lib.rs:1107-1121 | a run of completed calls that leaves one worker |
| `WorkerSlots.ShutdownIsFinal` | crates/application/src/lib.rs:3842-3845 | with starts forbidden, none in progress and empty slots, no worker ever runs again |
| `WorkerSlots.RunsAgainIffStarting` | crates/application/src/lib.rs:1078-1121 | on every run, once a shutdown has emptied the slots, workers can run again if and only if a start is in progress |
| `WorkerSlots.StartedAfterShutdown` | crates/application/src/lib.rs:1078-1104 | from any state a start past the flag fills both empty slots in at most two steps once the lock is free |
| `WorkerSlots.StartOutlivesShutdown` | crates/application/src/worker_handles.rs:73-80 | a run of completed calls that ends with workers running after a shutdown |
| `ValidJson.IsValidFieldName` | crates/convex/sync_types/src/identifier.rs:138-163 | the sixteen-at-a-time check accepts exactly names of at most 1024 printable ASCII characters that do not start with a dollar sign |
| `ValidJson.Choose` | crates/application/src/airbyte_import.rs:92-109 | a name that is accepted and does not start with an underscore stays; any other becomes its slug with the prefix `source_` once, twice or three times, whichever is first not a field; fails exactly if none is, or the first is no field name |
| `ValidJson.SearchFindsFirstFree` | crates/application/src/airbyte_import.rs:98-109 | a changed name is the first prefixed form that is no field; failure means none of the tries is free |
| `ValidJson.ChosenAvoidsFields` | crates/application/src/airbyte_import.rs:92-109 | an accepted field keeps its name, a changed one never takes the name of another field |
| `ValidJson.AcceptedFieldsStay` | crates/application/src/airbyte_import.rs:82-114 | an accepted field is in the result under its name with its value converted |
| `ValidJson.ArrayParts` | crates/application/src/airbyte_import.rs:82-90 | converting an array converts its items in place, and fails exactly if one fails |
| `ValidJson.ObjectParts` | crates/application/src/airbyte_import.rs:90-114 | converting an object fails exactly when a name cannot be chosen or a value converted; else it has exactly the fields that no later one replaces, under their chosen names with their values converted |
| `ValidJson.InsertKeepsPlace` | crates/application/src/airbyte_import.rs:110-111 | a field whose name is there already replaces the value and keeps its place |
| `ValidJson.OnlyChangedCollide` | crates/application/src/airbyte_import.rs:82-114 | two fields get one name only if both were changed |
| `ValidJson.NoneLostIffDistinct` | crates/application/src/airbyte_import.rs:110-111 | inserting fields one by one keeps their number exactly when their names differ |
| `ValidJson.FieldsKeptIffDistinct` | crates/application/src/airbyte_import.rs:82-114 | converting an object keeps its number of fields exactly when no two fields get one name |
| `ValidJson.ChosenAcceptedIffShort` | crates/application/src/valid_identifier.rs:15-33 | a chosen name is accepted exactly when it is not too long |
| `ValidJson.ChosenAcceptedIffFits` | crates/application/src/valid_identifier.rs:15-33 | a chosen name is accepted exactly when the field was, or its slug with the prefixes it takes to be free is not too long |
| `ValidJson.LongSlugGrowsTooLong` | crates/application/src/airbyte_import.rs:98-109 | a slug of 1011 characters beside a field of its prefixed form gets a name of 1025, which is not accepted |
| `ValidJson.FixedIffAccepted` | crates/application/src/airbyte_import.rs:82-114 | a value is left alone exactly when all names at every depth are accepted |
| `ValidJson.IdempotentIffNamesFit` | crates/application/src/airbyte_import.rs:82-114 | converting twice is converting once exactly when the names that go in fit, at every depth that comes out |
| `ValidJson.ShortSlugsIdempotent` | crates/application/src/airbyte_import.rs:82-114 | in particular when every name is accepted or its slug leaves room for all the prefixes tried |
| `ValidJson.CollidingFieldsLoseData` | crates/application/src/airbyte_import.rs:110-111 | two fields that slugify alike leave only the second one's value |
| `ClientPool.Pool.Get` | crates/common/src/client_pool.rs:38-56 | borrows the first client with room, or a new one |
| `ClientPool.ClientsMatchPeak` | crates/common/src/client_pool.rs:38-56 | on every run no client is over its limit and the peak lies between (n-1) and n times the limit for n clients |
| `ClientPool.LastClientNeeded` | crates/common/src/client_pool.rs:38-56 | the lower bound is strict if no borrower is dropped behind a scan that finds all clients ahead of it full |
| `ClientPool.WasteCreates` | crates/common/src/client_pool.rs:40-50 | the condition is exact: after any such drop the scan can create a client without which the peak could have been served |
| `ClientPool.DropBehindScan` | crates/common/src/client_pool.rs:40-50 | for every limit and every number of clients from two, a run on which it is not strict |
| `SearchPrefixes.CalculatePrefixes` | crates/common/src/document_index_keys.rs:188-206 | exactly the tokens and their non-empty prefixes, so that lookup of a search term is prefix matching |
| `MultipartUpload.Upload.NextPartNumber` | crates/aws_s3/src/storage.rs:575-579 | numbers in sequence, failing exactly at 10000 |
| `MultipartUpload.Upload.WriteParallel` | crates/aws_s3/src/storage.rs:621-643 | whatever order uploads finish in, all chunks are recorded in their order, or none when one fails or the numbers run out |
| `MultipartUpload.Upload.Write` | crates/aws_s3/src/storage.rs:644-650 | one more chunk is recorded, or nothing when its upload fails, which uses up its number, or the numbers have run out |
| `MultipartUpload.Upload.Complete` | crates/aws_s3/src/storage.rs:659-677 | the parts come out in the order the chunks were written, numbered from one without a gap exactly when no number was used up by a failure |
| `MultipartUpload.OrderUnique` | crates/aws_s3/src/storage.rs:674-675 | sorting by number leaves one order only |
| `MultipartUpload.GapFreeIffFull` | crates/aws_s3/src/storage.rs:575-579 | the recorded numbers have no gap exactly when as many parts are recorded as numbers were given out |

## Left out

- Next: the clock's own failure is not modelled.
- StreamParts: infinite and not-a-number cursors are not modelled; cursors are ranks of non-negative doubles.
- CallCountTopK: sums are exact reals; a function named like the rest row is not told apart by the code, here it is.
- TimestampOracle: the leadership epoch does not wrap around at 2^64; a published floor is one atomic maximum instead of a retried compare-and-swap.
- TwoPhaseCommit: one attempt with fixed participants; of Raft inside a partition only that a prepare, commit or rollback may fail there; a repeated prepare whose redo write fails loses the intent in memory only and still counts as prepared, since a commit stages it again from the earlier redo, and a commit whose staging is refused, because another transaction raised the floor meanwhile, is `DropCommit`; read validation contents, timestamp retries, and the text of an abort's reason are not modelled. Two aborts with the same participants count as the same record.
- AsyncLru: 64-bit overflow of the size counter, metrics and tracing are not modelled.
- ThreadPool: the dispatcher holds a sender of the done channel, so the channel never closes while it runs and the error branch for that is not modelled; a failed hand-off and a dropped report are flags proved false.
- CoDelChannel: listener wake-ups follow the contract of the event-listener library, which is not part of this model; dropping a notified listener passes the notification on.
- WorkerSlots: the other ten workers, and the order in which one call shuts its handles down.
- ValidJson: the slugifier is a parameter; the rest of an import record.
- Top k for rates, resampling of metrics, and latency histograms.
- Sharding of the runtime, the isolate, the search index, and everything outside the files cited above.
