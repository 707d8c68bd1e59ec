# A verified model of the bullmq-rs job queue

The Redis scripts of the queue are atomic steps over one queue's keys, taken by any number of
workers and clients in any order, while locks and the limiter key expire whenever they like. This
project writes the scripts down twice: as functions on the keys (`Queue.dfy`) and as methods that
change the keys command by command (`Scripts.dfy`, each method proved equal to its function). It
then proves what holds along every run of such steps, and, where something a reader would expect
does not hold, the exact condition under which it does.

| file | subject |
|---|---|
| `Redis.dfy`, `Decimals.dfy` | lists, sorted sets, decimal strings and their comparison |
| `Scores.dfy`, `Limiter.dfy`, `Batches.dfy`, `Metrics.dfy` | score arithmetic, rate limit key, chunk iterator, per-minute metrics |
| `Queue.dfy`, `Machine.dfy` | one queue's keys, every script as a function, runs of steps |
| `Scripts.dfy` | the scripts as methods of an object holding the keys, with their loops |
| `Partition.dfy`, `Stalled.dfy`, `Ranks.dfy`, `Frames.dfy` | every job in exactly one place; what the sweep finds; sorted sets in rank order; what scripts leave alone |
| `Fencing.dfy`, `ClaimBound.dfy`, `SharedToken.dfy` | locks and tokens, how often a job is claimed |
| `WakeUp.dfy`, `DelayMarker.dfy` | the markers that wake workers for waiting and for delayed jobs |
| `Dedup.dfy`, `OrphanedKey.dfy` | deduplication, keys that outlive their job |
| `Rates.dfy`, `Recording.dfy` | the rate limit and the metrics over runs of the queue |
| `Fifo.dfy`, `Order.dfy`, `Promotion.dfy`, `Filing.dfy`, `BulkMove.dfy` | the order of service, promotion, where jobs go, bulk moves |
| `Flow.dfy`, `FlowPlaces.dfy`, `FlowRuns.dfy`, `FlowIds.dfy` | trees of jobs over many queues, where their nodes go, what each queue sees of it, how they get their ids |
| `CleanList.dfy`, `LastChild.dfy`, `ForeignKey.dfy` | cleaning a list through tombstones, the parents in other queues, and the deduplication keys that go with it |
| `Scheduler.dfy` | job schedulers in `every` mode |
| `Worker.dfy` | one worker's main loop, tasks, channel and semaphore |

## Reading the model

A list's index 0 is its left end (LPUSH); RPOPLPUSH takes the last element. Ids, tokens and payloads
are opaque numbers; an id's number is its rank in Redis's byte order, so 0 is the empty string and
token 0 is the token "0" that bypasses locks. Time is an argument of each step. `ExpireLock` is a step
of its own that may happen at any time, and the limiter key carries its expiry instant.

Results that say where the code does not do what one would expect:

- The stalled sweep does not look at locks. A job locked while in the stalled set is requeued all the
  same, and its holder's finish then leaves it in two places (`Partition.SweepKeepsPartitionIff`,
  `Partition.LockedSweepThenFinishDuplicates`).
- A deduplication key outlives its job if and only if a sweep gives up on the job
  (`Dedup.SweepOrphansIff`, `Dedup.OrphanedIffGivenUp`, `OrphanedKey.KeyOutlivesJob`); adds with that id
  are then answered with the dead job for good (`Dedup.GivenUpJobBlocksForever`).
- `changePriority` does not look at the job's state (`Partition.ChangePriorityKeepsPartitionIff`).
- A rate-limited return of a prioritized job sets no marker (`WakeUp.ReturnHidesWorkIff`).
- The delay marker is never late but can be early: promoting the first delayed job by hand leaves it
  where it was (`DelayMarker.WakesInTime`, `DelayMarker.PromotionLeavesEarlyMarker`).
- The delay marker is lost when the worker that popped it claims a job, is rate limited, or finds the
  queue paused (`DelayMarker.FetchLosesMarkerIff`, `DelayMarker.ClaimLosesMarker`).
- Over a gap of more minutes than there are data points a metrics count lands in the wrong minute
  (`Metrics.CollectKeepsHistogramIff`).
- The worker uses one token for all its claims. The bound on claims holds all the same as long as no
  worker claims a job it is still working on; claiming a swept job again while its first handler still
  runs breaks exactly this, and the bound (`SharedToken.FourClaims`, `SharedToken.SecondClaimIsNotFresh`).
- When the priority counter passes a multiple of 2^32, insertion order is lost
  (`Order.CounterWrapMisorders`).
- Jobs waiting in a paused queue keep their turn if and only if no standard job falls due meanwhile; the
  first one that does overtakes them all (`Order.PausedLineKeepsTurnIff`, `Order.DueWhilePausedOvertakes`).
- Replacing a scheduler's pending job under a new `every` keeps the old offset
  (`Scheduler.UpsertKeepsPhaseIff`), and the "slots busy" error can come after the pending job was
  removed, which stops the scheduler until the next upsert (`Scheduler.UpsertStrandsIff`,
  `Scheduler.BusyCanStrandScheduler`).
- `cleanList` compares times as strings, so a cleaning goes by age if and only if every time reads right
  against the limit (`CleanList.CleansByAgeIff`, `CleanList.NewerJobIsDeleted`).
- Removing a job deletes the deduplication keys named by the chain of ancestors that go with it, whoever
  holds them (`CleanList.RemovalDropsKeyIff`, `ForeignKey.CleaningDropsForeignKey`).
- The comment at lua/retryJob-11.lua:82 says that RPUSH puts a retried job behind fresh jobs; it puts
  it in front of them (`Filing.RetriedJobIsNextIffRight`).
- The comment at src/worker.rs:350 says that the channel is large enough for prefetched jobs not to be
  dropped; it can be full at every capacity (`Worker.PrefetchedJobIsDropped`, `Worker.ChannelIsFullIff`).

## Model

| member | source | states |
|---|---|---|
| `Partition.RunKeepsPartition` | lua/moveToFinished-14.lua:90-108 | Over every run of safe steps, with locks expiring at any time, each stored job is in exactly one of the eight lists and sets (in none only if the sweep gave up on it), each lock and each stalled entry belongs to an active job, and a running queue has an empty paused list |
| `Partition.StepKeepsPartition` | lua/moveToActive-11.lua:59-126 | Each safe step keeps that invariant: adds, claims, finishes, releases, delays, retries, returns, renewals, expiries, pauses, promotions and bulk moves |
| `Partition.SweepKeepsPartitionIff` | lua/moveStalledJobsToWait-8.lua:54-117 | A sweep keeps the invariant if and only if no member of the stalled set is locked |
| `Partition.LockedSweepThenFinishDuplicates` | lua/moveStalledJobsToWait-8.lua:63-117 | If one is, the lock holder's finish still succeeds and the job is then in two places |
| `Stalled.SweepListsIff` | lua/moveStalledJobsToWait-8.lua:53-63 | A sweep handles exactly the members of the stalled set and the active jobs without a lock, once each |
| `Stalled.SweepLeavesLocked` | lua/moveStalledJobsToWait-8.lua:53-117 | After every sweep of a partitioned queue the jobs still active are those with a lock that were not in the stalled set, and that set is empty |
| `Stalled.StalledJobIsFiled` | lua/moveStalledJobsToWait-8.lua:70-117 | Every active job without a lock is back in the target list or at its priority with one more stall, or, stalled too often, failed and in no place |
| `Stalled.NoneLeftUnlocked` | lua/moveStalledJobsToWait-8.lua:53-60 | At the end of every safe run that ends in a sweep no job is active without a lock |
| `Stalled.SweepMarksIff` | lua/moveStalledJobsToWait-8.lua:99-108 | A sweep sets the marker if and only if it put a job back into line in a running queue |
| `Partition.ChangePriorityKeepsPartitionIff` | lua/changePriority-7.lua:49-85 | Changing a priority keeps the invariant if and only if the job is where its stored priority says, or nowhere |
| `Ranks.RunStaysRanked` | lua/includes/promoteDelayedJobs.lua:18-44 | Over every run all sorted sets stay in rank order |
| `Ranks.ReachablePromotion` | lua/includes/promoteDelayedJobs.lua:18-44 | After every safe run promotion takes exactly the first due jobs, at most 1000, and lines up the standard ones in score order behind what was waiting |
| `Promotion.PromotesFirstDueInOrder` | lua/includes/promoteDelayedJobs.lua:15-45 | A delayed job is promoted if and only if it is due and among the first 1000; standard jobs go to the left of the waiting list in score order, the others get consecutive tickets in score order, and every promoted hash has delay 0 |
| `Fencing.OnlyLastClaimerSucceeds` | lua/includes/removeLock.lua:11-28 | After every run a finish, delay, retry, return or renewal passes only with the token of the job's most recent claim |
| `Fencing.OneExitPerClaim` | lua/moveToActive-11.lua:106-110 | Over every run, successful exits with a token for a job number at most the claims of that job with that token |
| `Fencing.RunKeepsFence` | lua/extendLock-2.lua:26-31 | The invariant behind both, kept by every step whatever expires or is swept |
| `ClaimBound.ClaimsAreBounded` | src/worker.rs:310 | Over every run in which no worker claims a job it is still working on, however often it uses its one token, and which retries by the worker's own rule, a job is claimed at most max(1, attempts) + maxStalledCount times, sweeps of locked jobs and failing exits included |
| `ClaimBound.RunKeepsBounds` | src/worker.rs:1099-1128 | The invariant behind it: claims plus pending entries never exceed what attempts and stalls spent allow; a claim is worked on until its finish or delay was attempted, successfully or not, or it was abandoned |
| `SharedToken.FourClaims` | src/worker.rs:310 | A job with two attempts and one allowed stall that its own worker claims again while still working on it is claimed four times |
| `SharedToken.SecondClaimIsNotFresh` | lua/moveToActive-11.lua:106-110 | In that run every step up to the second claim meets the conditions of the bound, and that claim misses one only, which it would meet had the first been given up |
| `WakeUp.RunStaysAwake` | src/worker.rs:787-809 | Along every run of clients and workers, a running queue with work has its "0" marker, or some worker popped it and still has to claim or to put it back |
| `WakeUp.StepSignals` | lua/moveToActive-11.lua:119-127 | No script but the return of a prioritized job makes unannounced work |
| `WakeUp.FetchSignals` | lua/moveToFinished-14.lua:218-225 | A claim path that was not rate limited never leaves unannounced work behind |
| `WakeUp.ReturnHidesWorkIff` | lua/moveJobFromActiveToWait-9.lua:54-63 | A return leaves unannounced work if and only if it is that of a prioritized job to a running queue with no marker and nothing else to do |
| `DelayMarker.WakesInTime` | src/worker.rs:656-668 | After every run a worker that pops the delay marker does not sleep past the time a delayed job is due, and waking at the marker it finds one due if and only if marker and first delayed job lie in the same millisecond |
| `DelayMarker.RunNeverLate` | lua/includes/addDelayMarkerIfNeeded.lua:10-27 | Along every run of any steps the delay marker is at or before the first delayed job |
| `DelayMarker.StepMarks` | lua/moveToDelayed-8.lua:64-76 | Every step but popping either sets the marker to the first delayed job, or leaves it while jobs at most leave the delayed set |
| `DelayMarker.FetchMarks` | lua/moveToActive-11.lua:59-91 | A fetch sets the marker exactly if it finds a running queue with nothing to do, and otherwise leaves it; this repairs an early marker |
| `DelayMarker.PromotionLeavesEarlyMarker` | lua/promote-9.lua:46-71 | A run after which the marker is early: waking at it finds nothing due |
| `DelayMarker.FetchLosesMarkerIff` | lua/moveToActive-11.lua:64-91 | Without a marker, a fetch leaves delayed jobs unannounced if and only if some remain and the queue is paused or the fetch was limited or claimed a job |
| `DelayMarker.SilenceHasCause` | src/worker.rs:656-692 | Over every run, delayed jobs are unannounced only since some worker popped the marker and every fetch from then on was of a paused queue, limited, or claimed a job |
| `DelayMarker.ClaimLosesMarker` | lua/moveToActive-11.lua:74-127 | A run that ends so |
| `Dedup.OneOpenJobPerId` | lua/includes/deduplicateJob.lua:9-32 | After every safe run at most one waiting, delayed or running job carries a deduplication id, and an add of any kind of a new job with that id answers this job's id and changes nothing |
| `Dedup.RunHoldsKeys` | lua/includes/removeDeduplicationKeyIfNeededOnFinalization.lua:5-22 | Over every run each unfinished job with a deduplication id holds its key |
| `Dedup.SweepOrphansIff` | lua/moveStalledJobsToWait-8.lua:70-117 | A sweep, safe or not, leaves a job that carries a deduplication id in no list or set if and only if it gives up on the job |
| `Dedup.StepCounts` | lua/moveStalledJobsToWait-8.lua:76-91 | Among all safe steps only a sweep that gives up on a stored job takes it out of its place for good, and only a change of its priority brings back a job that is nowhere |
| `Dedup.OrphanedIffGivenUp` | lua/moveStalledJobsToWait-8.lua:76-91 | Along every safe run that leaves its priority alone, a carrier ends up nowhere if and only if some sweep of the run gave up on it |
| `OrphanedKey.KeyOutlivesJob` | lua/moveStalledJobsToWait-8.lua:76-91 | A safe run from an empty queue after which a job is nowhere and holds its key |
| `Dedup.SweptOutJobBlocksItsId` | lua/moveStalledJobsToWait-8.lua:76-91 | A job the sweep gives up on is in no place, and adds of any kind with its deduplication id are answered with it and change nothing |
| `Dedup.GivenUpJobBlocksForever` | lua/includes/deduplicateJob.lua:9-32 | The same after every later safe run that does not change that job's priority |
| `Fifo.FifoThroughPauses` | lua/addStandardJob-9.lua:76-85 | Over every run of standard adds, claims, pauses and resumes, the claimed jobs followed by the pending ones, oldest first, are the added jobs in order |
| `Fifo.ResumeUndoesPause` | lua/pause-7.lua:34-68 | Pause then resume restores a running queue except that it has the marker |
| `Order.ServesInOrder` | lua/moveToActive-11.lua:59-84 | After every run of any steps within one block of 2^32 tickets, a fetch hands out the one job a reference desk serves once the due jobs have joined it: the front of the line, or else the prioritized job first by priority and last draw, pushed-back jobs ahead; it finds nothing only if the desk is closed or empty |
| `Order.RunStaysInTurn` | lua/includes/getPriorityScore.lua:11-14 | Along every such run the prioritized set lists exactly the jobs with a turn, by priority and last draw, and no two jobs hold one ticket unless pushed back |
| `Order.RunShows` | lua/retryJob-11.lua:77-84 | Over every run whatsoever the waiting and paused lists are the desk's line, read from the right, and every prioritized job has the score of its turn |
| `Order.StepApplies` | lua/includes/moveJobToWait.lua:50-64 | Every script changes the lists and the scored set by the desk moves of its step alone: to the end or the front of the line, a draw, a push-back, a removal, a claim, closing, opening |
| `Order.PausedLineKeepsTurnIff` | lua/includes/promoteDelayedJobs.lua:18-35 | The next job after a resume is the one it would have been without a fetch during the pause if and only if all jobs due in that fetch are prioritized, or jobs due earlier are ahead already |
| `Order.DueWhilePausedOvertakes` | lua/pause-7.lua:49-61 | Otherwise it is the first standard one among the due jobs, whatever was waiting and whatever prioritized jobs are due before it |
| `Order.LowestIsFirst` | lua/moveToActive-11.lua:78-84 | ZPOPMIN yields the job whose turn is ahead of all others' |
| `Order.CounterWrapMisorders` | lua/includes/getPriorityScore.lua:11-14 | Across a multiple of 2^32 the second of two jobs of one priority is served first |
| `Scores.PriorityScoreBounds` | lua/includes/getPriorityScore.lua:11-14 | Priority and ticket can be read back from a score, and scores of priorities below 2^21 are exact doubles |
| `Scores.LowerPriorityFirst` | lua/includes/pushBackJobWithPriority.lua:4-9 | A numerically lower priority ranks before every job of a higher one, pushed back or not, whatever the counter does |
| `Scores.TicketOrderIff` | lua/includes/getPriorityScore.lua:11-14 | Within a priority, drawing order is rank order if and only if no multiple of 2^32 lies between |
| `Scores.DelayedScoreInBucket` | lua/includes/getDelayedScore.lua:16-31 | The score for a due time stays in the millisecond of that time, which is read back from it, and is exact below 2^41 |
| `Scores.DelayedScoreIsLastInBucketIff` | lua/includes/getDelayedScore.lua:18-31 | It exceeds every score of that millisecond if and only if the last of the 4096 slots is free |
| `Scores.EarlierDueFirst` | lua/includes/getDelayedScore.lua:14-31 | Jobs due in different milliseconds rank by due time, whatever slots they got |
| `Scores.BucketTopIsGreatest` | lua/includes/getDelayedScore.lua:18-20 | The bounded reverse range query yields the greatest score of the millisecond, or nothing if there is none |
| `Filing.StandardJobIsAdded` | lua/addStandardJob-9.lua:62-96 | A new standard job is stored with its options, stands behind all others in the target list, and is announced exactly if the queue runs |
| `Filing.PrioritizedJobIsAdded` | lua/addPrioritizedJob-9.lua:67-95 | A new prioritized job is stored with its options and filed under its priority with the next ticket |
| `Filing.DelayedJobIsAdded` | lua/addDelayedJob-6.lua:61-84 | A new delayed job is stored with its options, its only entry in the delayed set lies in the millisecond of its timestamp plus its delay, and the marker stands for the first delayed job |
| `Filing.AddedJobIsPromotedWhenDue` | lua/includes/promoteDelayedJobs.lua:18-22 | A promotion that gets as far as a job just added takes it out of the delayed set exactly from its timestamp plus its delay on |
| `Filing.ParentIsAdded` | lua/addParentJob-6.lua:51-60 | A new parent is stored with its options and waits for its children under its timestamp |
| `Filing.ClaimedJobIsFiled` | lua/moveToActive-11.lua:74-135 | A claimed job is active, locked with the token, in the stalled set, with one more start counted, and the marker stays exactly if work is left |
| `Filing.RenewedJobIsNotStalled` | lua/extendLock-2.lua:26-33 | A renewal by the holder of the lock takes exactly that job out of the stalled set; any other fails and changes nothing |
| `Filing.FinishedJobIsFiled` | lua/moveToFinished-14.lua:95-122 | A finished job has left active with its lock and is filed under its finish time in the set of its outcome only, with its result |
| `Filing.FinishedJobFreesItsId` | lua/includes/removeDeduplicationKeyIfNeededOnFinalization.lua:5-22 | A finished job frees its deduplication id exactly if it holds it, and no other id |
| `Filing.DelayedJobIsFiled` | lua/moveToDelayed-8.lua:61-76 | A delayed job lies in the millisecond it is due with its new attempt count, and the marker announces the head of the set |
| `Filing.RetriedJobIsFiled` | lua/retryJob-11.lua:56-93 | A retried job leaves active with its lock and stalled entry, is in line by the given priority, announced if the queue runs, and keeps its hash but for the attempt count |
| `Filing.RetriedJobIsNextIffRight` | lua/retryJob-11.lua:76-84 | A retried job is served next if and only if it is pushed to the right; pushed to the left it does not change who is next |
| `Filing.ReturnedJobIsNext` | lua/moveJobFromActiveToWait-9.lua:52-63 | A returned job without priority is served next and keeps its attempt count |
| `Filing.PushedBackRanks` | lua/moveJobFromActiveToWait-9.lua:59-60 | A returned prioritized job ranks at or before every job of its priority and strictly after every numerically lower one |
| `Filing.SweptJobIsNext` | lua/moveStalledJobsToWait-8.lua:92-108 | A requeued stalled job is served next, one stall is counted, and its lock stays |
| `Filing.ReleasedParentIsNext` | lua/includes/moveParentToWait.lua:16-34 | A released parent without delay and priority is announced and served next in its queue |
| `Filing.ReleasedParentIsFiled` | lua/includes/moveParentToWait.lua:16-34 | A released parent is due its delay after now if it has one, else in line by its priority, without one at the serving end |
| `Filing.ReleasedParentIsPromotedWhenDue` | lua/includes/promoteDelayedJobs.lua:18-22 | A promotion that gets as far as a released parent takes it exactly from then on |
| `Filing.ToldParentKeepsValue` | lua/includes/updateParentDepsIfNeeded.lua:5-15 | A parent told of a completed child keeps the child's value and waits for it no more |
| `Filing.ReprioritizedJobIsFiled` | lua/changePriority-7.lua:49-94 | A job whose priority is changed is in line by the new one, which its hash then says |
| `Filing.PromotedJobIsFiled` | lua/promote-9.lua:46-71 | A job promoted by hand has left the delayed set, has no delay, and is in line by its priority |
| `BulkMove.ChunkSizeDoesNotMatter` | src/queue.rs:361-388 | For every chunk size the client's loop ends with the outcome of one unbounded move |
| `BulkMove.MoveMatchingMoves` | lua/moveJobsToWait-8.lua:38-66 | That move takes a member out of a ranked set if and only if its score is within the bound, and puts the moved ones into the target list in score order |
| `BulkMove.CursorMeansProgress` | lua/moveJobsToWait-8.lua:68-72 | A non-zero cursor means that a whole chunk left the set, so the loop ends |
| `BulkMove.MovedJobsAreReset` | lua/moveJobsToWait-8.lua:41-51 | Each chunk removes finish time and result of exactly the jobs it moves, and changes nothing else of any job |
| `Scripts.MoveAllJobs` | src/queue.rs:361-388 | The loop over the script, 7000 ids at a time inside each call, equals one unbounded move of all matching jobs |
| `Rates.ClaimsAreLimited` | lua/moveToFinished-14.lua:171-209 | Over every run of the queue whose claims on both paths carry one limit, each limiter window counts at most max claims and any half-open interval of one duration sees at most 2 max - 1 |
| `Rates.FetchTries` | lua/moveToActive-11.lua:64-104 | A fetch moves the limiter as one claim attempt does, and claims exactly when the attempt does |
| `Rates.FetchIsLimitedIff` | lua/moveToActive-11.lua:64-68 | A fetch is limited if and only if the window is full and has not run out; it answers the time left and claims nothing |
| `Limiter.TtlIsTimeLeft` | lua/includes/getRateLimitTTL.lua:4-16 | Claims must wait exactly until the window runs out, however often they ask before |
| `Limiter.AtMostMaxPerWindow` | lua/includes/getRateLimitTTL.lua:4-16 | Every limiter window sees at most max successful attempts |
| `Limiter.AtMostTwiceMaxPerInterval` | lua/moveToActive-11.lua:97-104 | Any half-open interval of one duration sees at most 2 max - 1 of them |
| `Limiter.TwiceMaxMinusOneIsReached` | lua/moveToActive-11.lua:97-104 | For every limit and duration some attempts reach that bound |
| `Recording.MetricsAreHistograms` | lua/moveToFinished-14.lua:157-161 | Over every run whose finished jobs are recorded in order with gaps of at most maxDataPoints minutes, the completed metrics are the histogram of the completed jobs and the failed metrics that of the failed ones |
| `Recording.RecordCounts` | lua/moveToFinished-14.lua:158-160 | A finished job raises the total of its own outcome by one and leaves the other and all else alone |
| `Recording.FinishedJobIsCounted` | lua/moveToFinished-14.lua:90-235 | The whole of moveToFinished counts the finished job once, in its queue and outcome only |
| `Metrics.MetricsAreHistogram` | lua/includes/collectMetrics.lua:5-45 | Over every run of finish times in order with gaps of at most maxDataPoints minutes, every retained data point is the number of jobs finished in its minute, and the total splits into the flushed part and the current minute |
| `Metrics.CollectKeepsHistogramIff` | lua/includes/collectMetrics.lua:19-44 | One more finished job keeps the histogram right if and only if the gap is at most maxDataPoints minutes |
| `Metrics.MetricsStore.CollectMetrics` | lua/includes/collectMetrics.lua:5-45 | The script, with its array of points and its chunks, computes the histogram update |
| `Metrics.MetricsStore.PushAll` | lua/includes/collectMetrics.lua:31-33 | Pushing in chunks is pushing everything: the points end up reversed before the old data |
| `Batches.BatchCursor.Next` | lua/includes/batches.lua:6-17 | Ranges are consecutive, non-empty, of bounded size, and end only when all indices were handed out |
| `Flow.ChildrenAreSplit` | lua/includes/updateParentDepsIfNeeded.lua:5-15 | Over every run of flows and scripts on any queues, a job's dependencies are exactly its children that have not completed, its processed fields those that have, and it waits for children exactly as long as there is one left |
| `Flow.ClaimedAfterDescendants` | lua/moveToFinished-14.lua:124-149 | Over every run, all descendants of an active job have completed |
| `Flow.ReleasedByLastChild` | lua/includes/moveParentToWaitIfNoPendingDependencies.lua:4-9 | A waiting parent is released by the completion of its only child left and by nothing else |
| `Flow.ReleaseIsFinal` | lua/includes/moveParentToWaitIfNeeded.lua:4-9 | A job that has left waiting-children never enters it again |
| `Flow.InsertSound` | src/flow_producer.rs:405-519 | Inserting a tree stores exactly its keys, links each child to its parent, and blocks exactly the inner nodes |
| `Flow.AddSound` | src/flow_producer.rs:122-148 | Adding a flow, refused when a key repeats or exists, keeps the invariant of all flows |
| `FlowPlaces.AddedFlowIsPlaced` | src/flow_producer.rs:405-519 | Every node of every accepted flow has its attempts, priority, delay and timestamp in its hash; a leaf is due its delay after its timestamp, or without a delay in line by its priority and announced; a node with children waits for them |
| `FlowPlaces.LeafIsDelayedIff` | src/flow_producer.rs:417-455 | A leaf is in the delayed set if and only if it has a delay |
| `FlowRuns.EachQueueRuns` | lua/moveToFinished-14.lua:90-235 | At the end of every run of flows and scripts on any queues, each queue has gone through a safe run of its own steps from an empty queue, so what holds of all safe runs holds of every queue |
| `FlowRuns.FinishedRuns` | lua/moveToFinished-14.lua:90-235 | moveToFinished is, in the job's queue, finish, record and, if wanted, fetch, and in the parent's queue the release, in this order |
| `Flow.TellSound` | lua/moveToFinished-14.lua:129-147 | A completed child moves from dependencies to processed, and the parent is released exactly when none is left |
| `FlowIds.RangeIsUsedUp` | src/flow_producer.rs:208-264 | In every queue the ids handed out to a tree are, in walking order, the whole reserved range, and nothing of it is left |
| `FlowIds.EachIdOnce` | src/flow_producer.rs:220-234 | No id of a range is handed out twice |
| `FlowIds.AssignKeepsShape` | src/flow_producer.rs:208-288 | The prepared tree has the queues, children and own ids the caller gave, in the same order, and each node the key of its parent |
| `FlowIds.Draft.CountAutoIds` | src/flow_producer.rs:170-188 | The counting walk adds, for every queue, the number of nodes without an id |
| `FlowIds.Draft.TakeId` | src/flow_producer.rs:220-234 | A node keeps its own id or takes the next one of its queue |
| `FlowIds.Draft.PrepareNode` | src/flow_producer.rs:208-288 | Given the ranges, preparation succeeds if and only if no key repeats, and then yields the tree of the assignment and marks its keys as seen |
| `FlowIds.ReserveRanges` | src/flow_producer.rs:102-110 | One INCRBY per counted queue reserves the range right after the counter |
| `FlowIds.Draw` | src/flow_producer.rs:92-119 | The missing-range error cannot happen, the ids drawn are the range each counter advanced over, and the only failure is a repeated key |
| `FlowIds.ConcurrentDrawsDisjoint` | src/flow_producer.rs:103-110 | However reservations of several producers interleave on a counter, no id is drawn twice |
| `FlowIds.BulkIds` | src/queue.rs:287-321 | A bulk add reserves once and hands the range out in input order to the jobs without an id |
| `FlowIds.BulkIdsAreRange` | src/queue.rs:287-321 | The m-th job without an id of its own gets the m-th number of the range |
| `Decimals.DecimalInjective` | src/flow_producer.rs:230 | Different numbers print as different ids |
| `Decimals.TextOrder` | lua/includes/cleanList.lua:33 | Comparing two printed numbers as strings compares only as many leading digits of the longer one as the shorter one has |
| `Decimals.ReadsRightIff` | lua/includes/cleanList.lua:33 | That is the comparison of the numbers if and only if both have equally many digits or the shorter one is at most the leading digits of the longer |
| `CleanList.CleaningIsFiltering` | lua/includes/cleanList.lua:9-46 | A cleaned list is the original without exactly the deletable entries of its scanned tail, in order; at most `limit` entries go, they are what the script answers, and their hashes are gone |
| `CleanList.LockedIsKept` | lua/includes/cleanList.lua:23 | Cleaning never deletes a locked active job |
| `CleanList.DeletedIff` | lua/includes/cleanList.lua:22-34 | A scanned entry is deleted if and only if it is not an active job with a lock, and, if it is stored, no scheduler points at it and its finish time, or else the time it was added, passes the comparison |
| `CleanList.LeaveParentTrims` | lua/includes/removeParentDependencyKey.lua:18-84 | The recursive removal of ancestors leaves every list, lock and other sorted set of the cleaned queue as it is and drops only jobs that waited for children |
| `CleanList.RemovalDropsKeyIff` | lua/includes/removeJob.lua:5-13 | Removing a job deletes a stored deduplication key if and only if the job holds it, or the chain of ancestors that go with the job, each the only pending child of a stored waiting parent of the queue, passes through a job naming it |
| `CleanList.LeavingDropsKeyIff` | lua/includes/removeParentDependencyKey.lua:48-79 | Leaving the parent deletes a key if and only if that chain passes through a job naming it, whoever holds it, and changes no other key |
| `ForeignKey.CleaningDropsForeignKey` | lua/includes/removeParentDependencyKey.lua:68-70 | A run from an empty queue after which cleaning one job deletes the key another waiting job holds |
| `CleanList.RemoveJobTrims` | lua/includes/removeJob.lua:5-13 | Removing a job drops its hash and leaves every list of its queue as it is |
| `LastChild.RemovalFreesIff` | lua/includes/removeParentDependencyKey.lua:48-79 | Removing a job lets a waiting parent of another queue go if and only if the chain of ancestors that go with the job ends at its only pending child; then the parent is at the serving end of its queue, announced, and next if the queue runs |
| `LastChild.LeavingFreesOnly` | lua/includes/removeParentDependencyKey.lua:71-73 | In any other queue a removal frees one such parent at most and moves no other job |
| `LastChild.RemovalKeepsOthersPartitioned` | lua/includes/removeParentDependencyKey.lua:7-16 | Removing a job keeps every other queue partitioned |
| `LastChild.CleaningKeepsOthersPartitioned` | lua/includes/cleanList.lua:9-46 | So does cleaning a list |
| `LastChild.RemovedChildIsForgotten` | lua/includes/removeParentDependencyKey.lua:54-55 | A removed job is no dependency of its parent any more |
| `LastChild.RemovedJobVanishes` | lua/includes/removeJobKeys.lua:5-8 | Of a removed job and of each ancestor that goes with it no hash, dependencies or child results stay |
| `CleanList.PartitionedIsListed` | lua/cleanJobsInSet-3.lua:49-63 | In a partitioned queue every list meets what the filter result asks for |
| `CleanList.OldEnoughIff` | lua/includes/cleanList.lua:32-33 | A job passes as old enough by a comparison of leading digits, and this agrees with its time being at most the limit if and only if the two read right |
| `CleanList.CleansByAgeIff` | lua/includes/cleanList.lua:22-40 | A cleaning deletes exactly the scanned unlocked, unscheduled jobs that are not newer than the limit if and only if each of their times reads right against it |
| `CleanList.NewerJobIsDeleted` | lua/includes/cleanList.lua:33 | For every time above the limit that does not read right, cleaning a queue with one job added then deletes it |
| `CleanList.ShortLimitMisjudges` | lua/includes/cleanList.lua:33 | A job added at 1000 is deleted by a cleaning of the jobs up to 999 |
| `CleanList.Server.CleanJobsInList` | lua/cleanJobsInSet-3.lua:19-63 | The in-place loop, with tombstones set by index from the right end and an early stop at the limit, computes the cleaning |
| `Scheduler.NextSlot` | lua/includes/getJobSchedulerEveryNextMillis.lua:29-43 | A successor's timestamp is later than its predecessor's, not in the past, and in phase if the predecessor was; after missed slots it lies in (now, now + every + offset] |
| `Scheduler.FirstSlotInPhaseIff` | lua/includes/getJobSchedulerEveryNextMillis.lua:9-40 | The first timestamp is not before now or the start date, and in phase if and only if not both start date and offset are given or the later of start date and now fits the offset |
| `Scheduler.UpsertReplacesPending` | lua/addJobScheduler-11.lua:133-201 | An upsert makes one new pending iteration and removes the old one unless it takes its slot, leaving all other jobs; it fails only when the wanted slot and the next one are taken |
| `Scheduler.UpsertTakesSlot` | lua/addJobScheduler-11.lua:104-178 | An upsert takes the slot of the pending iteration if it replaces it and `every` stays, the first slot of a new or changed schedule, or else the one that follows the last; the next one if that is taken; and fails if both are |
| `Scheduler.UpsertFiles` | lua/addJobScheduler-11.lua:183-211 | The iteration an upsert makes is delayed exactly if it is not due yet, whatever its priority, else in line by its priority; the schedule is stored as asked for, the iteration count as it was |
| `Scheduler.UpsertKeepsUnfound` | lua/addJobScheduler-11.lua:133-144 | A pending job that is not where an upsert looks for it stays as it is |
| `Scheduler.HookFiles` | lua/updateJobScheduler-12.lua:100-133 | The same of a hook that makes one, which keeps the schedule and counts one more |
| `Scheduler.HookTakesSlot` | lua/updateJobScheduler-12.lua:74-103 | The slot follows that of the finished iteration in the stored schedule, was free, and no other job changes |
| `Scheduler.UpsertStrandsIff` | lua/addJobScheduler-11.lua:133-178 | An upsert removes the pending iteration and makes none if and only if one is where it looks, `every` changes, and both the slot computed from the options and the one after it are taken; it then answers "slots busy" |
| `Scheduler.StrandedStays` | lua/updateJobScheduler-12.lua:94-100 | From then on no hook of any stored job makes an iteration |
| `Scheduler.BusyCanStrandScheduler` | lua/addJobScheduler-11.lua:146-178 | A run from no scheduler at all that ends in such an upsert |
| `Scheduler.UpsertKeepsPhaseIff` | lua/addJobScheduler-11.lua:146-154 | The condition on options, clock and stored attributes under which an upsert leaves the next timestamp congruent to the stored offset |
| `Scheduler.UpsertStartsChain` | src/queue.rs:1017-1025 | Every upsert within the limit that makes an iteration starts a chain, in step if and only if it keeps the phase |
| `Scheduler.HookMakesSuccessor` | lua/updateJobScheduler-12.lua:91-133 | A finish hook makes an iteration only for the last one made, within the limit, and not in the past |
| `Scheduler.ChainStaysLinked` | src/worker.rs:1330-1335 | Whatever hooks run how often, one upsert yields consecutively numbered, strictly later iterations, at most `limit` of them, each with at most one successor; a chain in step stays in step |
| `Scheduler.HookIsIdempotent` | lua/updateJobScheduler-12.lua:94-100 | A second run of the same hook changes nothing |
| `Scheduler.JobScheduler.Add` | lua/addJobScheduler-11.lua:78-211 | The script computes the upsert |
| `Scheduler.JobScheduler.RemovePending` | lua/addJobScheduler-11.lua:108-144 | Looks for the pending iteration among the delayed, then the prioritized, then in the list of the stored paused state, removes it where it is, and says whether it did |
| `Scheduler.JobScheduler.Store` | lua/includes/storeJobScheduler.lua:7-69 | Writes the new attributes, keeping an old offset that is not given anew and the iteration count |
| `Scheduler.JobScheduler.Update` | lua/updateJobScheduler-12.lua:59-138 | The script computes the successor |
| `Worker.CapacityIsKept` | src/worker.rs:497-559 | In every interleaving at most `concurrency` handlers run and at most one job more is claimed and held, and the counter of prefetched jobs never falls below the channel's length |
| `Worker.PrefetchedJobsAreRenewed` | src/worker.rs:974-1005 | As long as no job is claimed again before its earlier task unregistered it, every prefetched job awaiting a permit and every running job is renewed, and nothing else is |
| `Worker.ChannelIsFullIff` | src/worker.rs:349-352 | A task finds the channel full if and only if one job more than the capacity is held, the main loop is between spawning a task and looking into the channel or has stopped, and no other task holds a job |
| `Worker.PrefetchedJobIsDropped` | src/worker.rs:991-1004 | For every capacity there is a run in which that happens and a claimed job is dropped, neither queued nor renewed |
| `Scripts.QueueStore.ScanActive` | lua/moveStalledJobsToWait-8.lua:53-60 | Exactly the active jobs without a lock join the stalled set |
| `Scripts.QueueStore.MoveInBatches` | lua/moveJobsToWait-8.lua:60-63 | Batches of 7000 move all given members as one push would |
| `Scripts.QueueStore.PromoteDelayedJobs` | lua/includes/promoteDelayedJobs.lua:15-45 | The loop computes the promotion |
| `Scripts.QueueStore.MoveToActive` | lua/moveToActive-11.lua:59-135 | Promotion, limiter, pause, pop, lock and markers compute the fetch, with its answer |
| `Scripts.QueueStore.MoveToFinished` | lua/moveToFinished-14.lua:90-235 | Finish, release of the parent in its own queue or this one, metrics and fetch, in this order, or the guard's code and no change |
| `Scripts.QueueStore.MoveStalledJobsToWait` | lua/moveStalledJobsToWait-8.lua:53-126 | Both loops compute the sweep for the order in which the stalled set is listed, and the count of requeued jobs |
| `Scripts.QueueStore.Pause` | lua/pause-7.lua:34-44 | The transfer loop ends and equals concatenation before the paused list |
| `Scripts.QueueStore.Resume` | lua/pause-7.lua:49-67 | The transfer loop ends and equals concatenation before the waiting list |
| `Scripts.QueueStore.MoveJobs` | lua/moveJobsToWait-8.lua:35-72 | Clearing the hashes and moving 7000 ids at a time compute one chunk, with its cursor |

## Left out

- Connections, script loading, reply parsing, JSON, key strings: a job is named by queue and id, so two
  (prefix, queue, id) triples that print as one key are different jobs here.
- The event stream, callbacks, logs and progress: output without effect on a queue's state.
- Cron patterns and time zones: only `every` mode is modelled.
- Deduplication keys with a TTL, and flows whose options ask for deduplication.
- `meta.concurrency`: claims do not enforce it.
- Rounding of doubles: scores are integers, with lemmas that bound them below 2^53; the delay marker is
  kept in 4096ths of a millisecond instead of as a quotient.
- `processedOn`, read by `cleanList`: no script of the repository writes it.
- `cleanSet` and the client's loop around a clean: the bound per call is proved, the total is not.
- Removal with children, `obliterate`, `drain`, getters, builders.
- Backoff: the delay is an argument.
- ClaimBound.ClaimsAreBounded: assumes that no worker claims a job it is still working on and that there
  is no manual retry, rate-limited return or bulk retry of finished jobs, because each of these lets a job
  back in without spending an attempt or a stall.
- Order.ServesInOrder: says nothing of runs whose counter passes a multiple of 2^32, where
  `Order.CounterWrapMisorders` shows the order lost.
- DelayMarker.WakesInTime: a worker sleeps at most five seconds for a marker, and without one tries again
  every five seconds; both sleeps only make it wake earlier, and they are not modelled.
- Rates.ClaimsAreLimited: assumes that all workers of a queue are given one limit.
- Dedup.GivenUpJobBlocksForever: assumes that nobody changes the dead job's priority, which would put it
  back into a list.
- Flow.ClaimedAfterDescendants: runs contain no removal of jobs, because removing a child releases or
  removes its parent.
- Worker.PrefetchedJobsAreRenewed: assumes that a job is not claimed again by the same worker before its
  earlier task has unregistered it; the worker does not check this.
- Worker.CapacityIsKept: the loop is a transition system over its awaits rather than methods of an object;
  handlers, shutdown of tasks and the renewal timer itself are not modelled.
- Scheduler.ChainStaysLinked: end dates are not modelled; they only stop a chain earlier.
- The `metrics` keys of `Scripts.QueueStore` are values updated by the function that
  `Metrics.MetricsStore` is proved against.
