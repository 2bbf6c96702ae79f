# ArdiQ's coordination core

A Dafny model of how ArdiQ queues, hands out, retries and ends tasks over Redis, and
proofs of what that coordination keeps.

- **The Redis task protocol.** `store.dfy` is the state Redis holds and the effect of each
  script and pipeline on it; `scripts.dfy` has the scripts as they run, command by command,
  proved to have those effects. `protocol.dfy` is the whole system as a state machine: any
  number of workers, each holding any number of messages with a program counter each, and
  crashes, reclaims, releases, expiries, aborts, purges and replays between any two of
  their steps. `stranding.dfy` and `progress.dfy` hold for every run. `tokens.dfy` holds for
  each task of which nothing is reclaimed while somebody still holds it and which is not
  staged with an expiry, whatever is done to other tasks, crashes and the reclaims that
  follow them included; `reclaims.dfy` shows that this condition is exact, task by task.
  `quiet.dfy` adds the try counts of a task that is never reclaimed, and `tries.dfy` those
  of one that is, after crashes. `aborts.dfy`, `dead_letters.dfy`, `status.dfy`,
  `running.dfy` (the running set, and what status answers before and after a finish) and
  `delays.dfy` (when a retry or a scheduled task fires) build on them. `batch.dfy` and `purge.dfy` are the two multi-chunk operations, and `links.dfy` ties
  an enqueued batch and the handling of one message to runs of single steps.
- **Lane scheduling.** `fairness.dfy` is the weighted round robin on its credit array;
  `read_batch.dfy` combines it with claims, room and the redistribution of unused shares;
  `takes.dfy` shows that a batch is a run of single reclaims and reads.
- **The worker.** `worker.dfy` interleaves the producer, the consumers, the channel and the
  stop at the grain of single atomic operations and of whole batch reads. `shutdown.dfy` shows that a send never
  blocks and that a stop ends, `serving.dfy` that a free worker does pick up waiting work
  and comes back for more, `drain.dfy` what becomes of every message taken, `burst.dfy`
  what is left when a burst worker leaves, and `world.dfy` ties the loop to the protocol both
  ways: whatever the protocol lets others do the loop allows for, and whatever the loop does
  to the lanes a run of the protocol does.
- **Cron.** `cron.dfy` is matching, the two searches and the one-entry cache;
  `timetable.dfy` says in closed form when a spec fires; `daylight.dfy` is once-per-wall-minute firing, for an arbitrary offset function. `fold` is that of PEP
  495, section "The fold attribute": set when the wall time was shown before.
- **Inline mode.** `inline.dfy` runs tasks in memory and is compared with the protocol.

Lanes are numbers in read order. Stream ids are numbers, unique within a lane. Payloads and
results are values; packing them is taken to be injective. Clocks, the calendar (each day's
month and day of the month), what a body does on each try, and what Redis finds idle are
parameters.

Four things the code does that a reader may not expect are proved as such, on a concrete input. A
worker whose message was reclaimed can delete the payload of a later staging
(`Reclaims.StaleHolderDropsFreshStaging`). A purge deletes payloads by id, so after such a
reclaim it can take that of a delivered entry (`Purge.SharedIdLosesPayload`). A task that is
aborted while its status is looked up can be reported as queued, which it never was
(`Status.QueuedThoughNever`). Inline mode and a worker differ when the executor's callback
itself raises, as for a result that cannot be packed: the worker stores a failure, inline
mode raises and stores nothing (`Inline.BrokenAtOnce`; `Inline.InlineAgrees` says exactly
when they agree).

## Model

| member | source | states |
|---|---|---|
| `Scripts.Redis.PublishTask` | core/src/scripts/publish_task.lua:19-40 | staging one task, command by command, has the effect of the step `Stage`: refused and nothing changed when the payload key exists, otherwise payload, result reset, and one place in the delayed set or the stream |
| `Scripts.Redis.PublishDelayed` | core/src/scripts/publish_delayed.lua:8-14 | removing the due range and then adding every entry is promoting the due tasks one by one, earliest first; the count returned is theirs |
| `Scripts.Redis.AbortTask` | core/src/scripts/abort_task.lua:23-51 | refused, with nothing changed, exactly when the task has a result or no payload; otherwise marked, and when not running and found in a delayed set, taken out of all of them and finished there, payload, marker and retry count with it |
| `Scripts.Redis.ReplayDead` | core/src/scripts/replay_dead.lua:17-26 | the dead entry goes with its index entry; the task is staged anew unless one with its id is live, which is left as it is |
| `Scripts.Redis.PurgeLane` | core/src/scripts/purge_lane.lua:21-59 | one chunk drops the `take` lowest delayed tasks and the first `chunk` entries after last-delivered-id up to `last`, with their keys, and returns how many of each |
| `Scripts.Redis.Claim` | core/src/queue.rs:369-397 | XAUTOCLAIM hands the first `count` idle messages to the caller and changes nothing else |
| `Scripts.Redis.ReadNew` | core/src/queue.rs:399-426 | XREADGROUP delivers exactly the oldest `count` unread entries, in order, or all there are |
| `Scripts.Redis.CompleteTask` | core/src/queue.rs:564-641 | the pipeline is the step `Complete`: acknowledged, payload, retry count, marker and running entry gone, result kept if asked, dead letter written if dead |
| `Scripts.Redis.RetryTaskLater` | core/src/queue.rs:745-772 | the pipeline is the step `RetryLater`: acknowledged and scheduled, with payload, retry count and marker kept |
| `Scripts.Redis.DiscardMsg` | core/src/queue.rs:801-824 | the pipeline is the step `Discard` |
| `Scripts.Redis.Release` | core/src/queue.rs:774-799 | each message is added again to its own stream with its id and time and its old entry dropped, in order |
| `RedisStore.PromoteInTwoPasses` | core/src/scripts/publish_delayed.lua:8-14 | take all due out, then add all, equals moving them one at a time |
| `RedisStore.PurgeScheduledTogether` | core/src/scripts/purge_lane.lua:26-35 | forgetting every id and one ZREM equals dropping the tasks one at a time |
| `RedisStore.PurgeWaitingTogether` | core/src/scripts/purge_lane.lua:49-57 | forgetting every id and one XDEL equals dropping the entries one at a time |
| `RedisStore.ZRangeByScore` | core/src/scripts/publish_delayed.lua:8-8 | the listing holds exactly the ids with a score from 0 to now, each once, lowest first |
| `Takes.BatchIsReads` | core/src/queue.rs:399-426 | a read of n entries is a run of n protocol reads, each of the oldest entry left |
| `Takes.BatchIsSteps` | core/src/queue.rs:269-347 | a whole batch, by claims, shares and spare from every lane, is a run of single protocol reclaims and reads that leaves the same lanes and the worker holding each of its messages, prefetched |
| `Links.BatchIsEnqueues` | core/src/queue.rs:221-247 | a batch leaves the state that a run of single enqueues leaves |
| `Links.RunTask` | core/src/worker.rs:302-373 | the commands of `run_task` and `execute_and_finish`, from INCR to the finish pipeline or the discard, are a run of the protocol steps of that attempt and leave its state |
| `World.StepIsOthers` | core/src/worker.rs:203-300 | every protocol step there is, reclaims from this worker included, is a step the loop allows for, so the accounting holds whatever others do |
| `World.ElsewhereIsCalm` | core/src/worker.rs:385-391 | a protocol step of somebody else that takes nothing pending under this worker meets what the drain theorems assume of others |
| `World.NoWorkIsBrought` | ardiq/app.py:791-796 | aborts, purges, expiries, crashes and the reads, reclaims, renewals and final finishes of other workers meet what the burst theorem assumes of others |
| `World.OwnStepIsRun` | core/src/worker.rs:203-300 | and whatever a step of the worker does to the lanes, a run of protocol steps does: a batch and what is released of it, a promotion, a finish, the handing back of the leftovers |
| `Stranding.StepInv` | core/src/worker.rs:302-373 | every step of any client, worker, crash, reclaim or expiry keeps the invariant that each payload has a place no worker is about to discard, and that delivered and pending mean the same |
| `Stranding.NoTaskIsStranded` | core/src/queue.rs:564-824 | in every reachable state a task with a payload is in a delayed set or has a live entry that no worker is about to discard and that is unread or pending, so a read or a reclaim can return it |
| `Progress.EveryTaskCanStillRun` | core/src/worker.rs:328-343 | from every reachable state, for every task with a payload, there is a continuation by promotion, reads and reclaims in which a given worker picks it up with that payload |
| `Tokens.TokenStep` | core/src/worker.rs:302-373 | for each task by itself: every step safe for it, that is, any but a reclaim of a message of it that somebody still holds or a staging of it with an expiry, keeps it in one place while its payload exists and held by at most one worker; whatever is done to other tasks, and crashes and the reclaims after them included |
| `Tokens.OnePlacePerPayload` | core/src/scripts/publish_task.lua:19-40 | after any run of steps safe for a task, over all lanes it is in exactly one stream entry or delayed set when its payload exists, and in none otherwise |
| `Tokens.HolderHasPayload` | core/src/worker.rs:334-343 | in runs of steps safe for a task (`Tokens.Safe`) each held message of it is live, pending, held once and its payload is there: no pickup finds it missing |
| `Tokens.AbsentStaysAbsent` | core/src/scripts/publish_task.lua:19-40 | only an enqueue or an accepted replay gives an id without a payload one |
| `Reclaims.SafeIsExact` | core/src/queue.rs:586-590 | safety is exact, task by task: after a run of steps safe for a task, a further step leaves it in one place however the run goes on safely for it, if and only if the step is safe for it |
| `Reclaims.UnsafeReclaimBreaks` | core/src/worker.rs:385-391 | after a reclaim of a message somebody holds, at whatever point of its attempt, there are safe steps that leave its task in two places or without its payload: the reclaimer finishes, the task is staged again, the first holder finishes or retries |
| `Reclaims.UnsafeEnqueueBreaks` | core/src/scripts/publish_task.lua:20-21 | after a staging with an expiry there is a step that leaves the task without its payload |
| `Reclaims.LostWorkIsTakenUp` | core/src/worker.rs:385-391 | after a crash or a lost connection the entry its holder had can be reclaimed, by a step safe for the task, and whoever does that holds the task with its payload |
| `Reclaims.HeartbeatTakesBack` | core/src/queue.rs:847-862 | when the holder was only slow, its next heartbeat takes a reclaimed entry back under its own name, though both hold the message |
| `Quiet.QuietStep` | core/src/worker.rs:302-373 | every step but a reclaim or an expiring enqueue of the task keeps its try count as well |
| `Quiet.TriesCountUp` | core/src/queue.rs:491-500 | for a task never reclaimed nor given an `expire_ms` the tries handed over since staging are 1, 2, 3 and so on, the next is at most `max_retries` + 1, and one that is equal to it ends the task whatever its body does; releases do not count |
| `Quiet.StagingStartsOver` | core/src/queue.rs:586-590 | such a task starts with no try counted whenever it is enqueued again or replayed |
| `Tries.TriesStep` | core/src/worker.rs:385-391 | every step safe for the task, a crash and the reclaim after it included, keeps its tries rising and counts the attempts lost |
| `Tries.TriesRise` | core/src/queue.rs:491-500 | through crashes, lost connections and the reclaims after them the tries handed over since a staging strictly increase, the next one is above them all, and there are at most `max_retries` + 1 of them plus one for each attempt lost after its body had run |
| `Reclaims.StaleHolderDropsFreshStaging` | core/src/queue.rs:586-590 | such a reclaim can happen: a run from the empty queue with one reclaim, after which a freshly staged task is queued unread and its payload is gone |
| `Aborts.MarkerNeedsPayload` | core/src/scripts/abort_task.lua:23-41 | a task without `expire_ms` has a marker only while it has its payload, reclaims and stale holders included and whatever expiry other tasks have, so no fresh run inherits one |
| `Aborts.MarkGoesWithPayload` | core/src/scripts/abort_task.lua:26-41 | a marker goes only with the payload, its TTL or a discard of its message |
| `Aborts.NoBodyAfterAbort` | core/src/queue.rs:514-525 | in runs of steps safe for the task, after an accepted abort and while its marker lasts, every later pickup of that staging, by a retry or after a crash and a reclaim, is told it was aborted, and whatever its body would do the attempt ends aborted (a failure if the callback itself breaks) |
| `Aborts.AbortEndsOrMarks` | core/src/scripts/abort_task.lua:26-51 | in runs of steps safe for the task an accepted abort of it, when it waits in a delayed set and is not running, leaves it nowhere, with no payload, retry count or marker, and the aborted result if results are kept; any other leaves it in its one place with the marker and changes nothing else |
| `DeadLetters.EachDeathReplayedOnce` | core/src/scripts/replay_dead.lua:17-26 | in every run dead entries and index name the same ids, and however many replays race, the accepted ones never outnumber the finishes of a dead attempt |
| `DeadLetters.LeavesByReplayOrDelete` | core/src/queue.rs:708-743 | an id leaves the dead letter queue only by a replay or a delete of that id |
| `DeadLetters.EntersByDying` | core/src/queue.rs:620-635 | an id enters it only when an attempt on it ends dead, and with the payload of that attempt |
| `DeadLetters.ReplayLeavesOne` | core/src/scripts/replay_dead.lua:17-26 | in runs of steps safe for the task an accepted replay leaves it out of the queue, with a payload and in exactly one place; a live task with the id keeps the place it had |
| `Status.StatusOf` | core/src/queue.rs:1122-1160 | one look at result, running and payload, then one delayed set after another, each as it is when asked: the first that applies decides, scheduled exactly when some lane has the task delayed at its look, and right of the first look if and only if the task was as scheduled then |
| `Status.SeenIsScheduled` | core/src/queue.rs:1150-1160 | in runs of steps safe for the task a delayed set that has it when asked is its only place, with its payload and in nobody's hands: scheduled is true when it is seen |
| `Status.QueuedThoughNever` | core/src/queue.rs:1142-1147 | a scheduled task aborted between the looks is reported as queued, though it was scheduled and is then nowhere |
| `Status.StatusIsPlace` | core/src/queue.rs:1142-1147 | as of one look, in runs of steps safe for the task: scheduled means one delayed set, no entry and no holder; queued means one entry and no delayed set |
| `Status.NotFoundIsNowhere` | core/src/queue.rs:1139-1141 | in runs of steps safe for the task, without a payload it is in no lane and in no hands |
| `Status.RestagedIsNotComplete` | core/src/scripts/publish_task.lua:27-39 | a call staged again with a reset does not report the last result: its status is scheduled or queued, as it was put |
| `Running.RunningIsUnderway` | core/src/worker.rs:302-326 | in any run that loses no attempt on the task to a crash or a Redis error, while it is in the running set an attempt on it is under way: every way of ending one takes it out |
| `Running.UnderwayIsRunning` | core/src/queue.rs:501-512 | in runs of steps safe for the task in which its SADDs get through, while an attempt on it is under way it is in the running set |
| `Running.StatusIsExact` | core/src/queue.rs:1122-1148 | in runs that are both, the answer about an unfinished task is exact: running if and only if an attempt is under way, scheduled if and only if it is in a delayed set, queued if and only if it is an entry and no attempt has got that far, not found if and only if it is nowhere |
| `Running.StatusWhenOver` | core/src/queue.rs:564-641 | after a finish that ends the task its status is complete if results are kept, with that outcome and try, and not found if not; no key and no place of it is left, and only a dead one has a dead letter, with its payload, lane and time |
| `Running.StatusWhenRetried` | core/src/queue.rs:745-772 | after a finish that retries it its status is scheduled, in its own lane, with payload, retry count and marker as they were |
| `Running.StatusWhenDiscarded` | core/src/queue.rs:801-824 | a message whose payload had expired leaves its task not found, with no running entry, retry count or marker |
| `Delays.EnqueuedThere` | core/src/scripts/publish_task.lua:20-39 | a new task is staged with its payload in one place: delayed until its score if that is positive, and otherwise the newest entry of its lane, unread; its last result goes exactly when a reset is asked for |
| `Delays.RaisedWaits` | ardiq/app.py:745-779 | one attempt whose body raises within `max_retries` leaves the task delayed in its lane until now plus the delay asked for if positive, the registered backoff if none was asked and it is positive, and otherwise the square of the try in seconds; its entry is gone, its try counted and its other keys kept |
| `Delays.RaisedWaitsAmidst` | core/src/worker.rs:368-371 | the same delay, from the moment of the finish, with anything else going on between the body and the finish |
| `Delays.MovedWhenDue` | core/src/scripts/publish_delayed.lua:8-14 | a promotion leaves a task that is not due by its clock where it is, and makes of one that is due an unread entry under its due time |
| `Delays.EarlierFirst` | core/src/scripts/publish_delayed.lua:8-14 | of two tasks one promotion moves, the one due earlier becomes the older entry |
| `Delays.NotBeforeItsTime` | core/src/scripts/publish_delayed.lua:8-14 | over any run of steps safe for the task it stays delayed under its score and in nobody's hands until a promotion by a clock that has reached it, or an abort or purge of the task |
| `Fairness.Credits.Shares` | core/src/queue.rs:350-367 | the loop computes the picks of smooth weighted round robin from the credits it finds, tallies them by lane, and leaves the credits charged; the shares sum to the count |
| `Fairness.Credits.Richest` | core/src/queue.rs:358-362 | scanning from the lowest lane with max takes the greatest credit, and the highest lane on a tie |
| `Fairness.CreditSettled` | core/src/queue.rs:354-365 | credits sum to 0 and each stays above minus the weight total, after any number of picks |
| `Fairness.SplitPicks` | core/src/queue.rs:350-367 | a call for a+b picks takes what a call for a and then one for b take |
| `Fairness.LedgerProduct` | core/src/queue.rs:354-365 | a credit is what the lane was due less what it was given, exactly |
| `Fairness.Periodic` | core/src/queue.rs:350-367 | the credit state repeats every W picks, W the weight total |
| `Fairness.EveryWindowIsExact` | core/src/queue.rs:350-367 | every window of W consecutive picks, wherever it starts, gives lane i exactly its weight |
| `Fairness.NeverFarFromDue` | core/src/queue.rs:350-367 | after n picks a lane has less than n*w/W + 1 of them, and is behind by a bounded amount |
| `ReadBatch.Queue.Read` | core/src/queue.rs:269-302 | without weights: at most `count` in all and `room` per lane; what is idle is claimed before anything new is read, all of it if there is room; fewer than `count` only if every lane is at its limit or has nothing unread; a new read from a lane only when every higher lane was |
| `ReadBatch.Queue.ReadWeighted` | core/src/queue.rs:304-347 | with weights: the same bounds, the same claims first and the same completeness, and what the claims leave is split by the round robin, each lane getting its share on top of its claims unless it has nothing left to take |
| `ReadBatch.Queue.ClaimPass` | core/src/queue.rs:304-321 | claims first, highest lane first, within count and room, all that is idle if both allow |
| `ReadBatch.Queue.SharePass` | core/src/queue.rs:323-336 | every lane gets its share or is full, what goes unused is counted, and every lane not full is noted |
| `ReadBatch.Queue.SparePass` | core/src/queue.rs:337-346 | the unused share goes to the noted lanes, until it is spent or all are full |
| `ReadBatch.Queue.ReadBlocking` | core/src/queue.rs:428-489 | one entry from each lane that has room and an unread one, and none from the others; beyond `count` the highest lanes are kept and the rest handed back |
| `ReadBatch.SomeRead` | core/src/queue.rs:269-347 | a batch meeting all these bounds exists from every state |
| `Batch.PublishTasks` | core/src/scripts/publish_tasks.lua:9-48 | walking the arguments in strides of nine stages exactly the tasks flattened into them, in order, and answers 1 or 0 for each |
| `Batch.ArgvAt` | core/src/scripts/publish_tasks.lua:15-24 | the nine positions read for task k are its nine fields |
| `Batch.EnqueueMany` | core/src/queue.rs:221-247 | for any list, in chunks of 1000, the state and the answers are those of staging the tasks one by one at the same clock |
| `Batch.FirstOfIdWins` | core/src/scripts/publish_tasks.lua:26-34 | a task of the batch is staged exactly when its id was not queued and none before it in the batch has it |
| `Batch.StagedIds` | core/src/scripts/publish_tasks.lua:26-34 | afterwards the queued ids are those of before and those of the batch |
| `Purge.PurgeAll` | core/src/queue.rs:976-1019 | with no interference the loop drops exactly the undelivered entries and the delayed tasks of the lane, deletes the keys of their ids and returns their counts; delivered entries, the other lanes and the keys of other ids stay |
| `Purge.DeliveredKeepPayloads` | core/src/queue.rs:973-1019 | after any run of steps safe for its task, a delivered entry of any lane, its holder alive or not, keeps its payload through a purge, whichever undelivered entries and delayed tasks it drops |
| `Purge.HeldKeepPayloads` | core/src/scripts/purge_lane.lua:2-4 | so does every message in a worker's hands through any purge step |
| `Purge.SharedIdLosesPayload` | core/src/scripts/purge_lane.lua:21-24 | a run from the empty queue with one reclaim, after which a delivered entry loses its payload to a purge of an unread entry with the same id |
| `Purge.PurgeEnds` | core/src/queue.rs:990-1016 | with any protocol steps between its chunks the loop makes at most one call more than there was to drop, and drops at most the entries and delayed tasks there were at the start |
| `Purge.ChunkSparesNewWork` | core/src/scripts/purge_lane.lua:37-57 | a chunk keeps every entry newer than `last` and every delivered one |
| `Purge.PurgeDrops` | core/src/scripts/purge_lane.lua:21-59 | one chunk in closed form |
| `WorkerLoop.StepAcct` | core/src/worker.rs:203-300 | every step of producer, consumers and shutdown keeps the accounts: permits, `held` per lane, what the producer last loaded, and the phase of the shutdown |
| `WorkerLoop.BatchFits` | core/src/worker.rs:211-254 | a batch within the count and room loaded earlier still fits the permits and limits when it is sent |
| `Shutdown.Accounting` | core/src/worker.rs:115-128 | over all interleavings, reclaims of this worker's messages by others included, permits + channel + running + one in a send equal prefetch, permits are never negative, held never exceeds a limit, and a send always finds room |
| `Shutdown.SendNeverBlocks` | core/src/worker.rs:250-256 | the channel is never full when the producer sends |
| `Shutdown.NeverStuck` | core/src/worker.rs:164-193 | short of the end the worker always has a step of its own to take |
| `Shutdown.StopsInTime` | core/src/worker.rs:164-193 | once stopping, the worker takes at most a computable number of further steps, whatever others do meanwhile |
| `Shutdown.StopIsReached` | core/src/worker.rs:164-193 | from any state of any run a stop leads to the end |
| `Shutdown.StopEndsTheRun` | core/src/worker.rs:164-193 | so does a stop request, made at any moment |
| `Shutdown.ErrorEndsTheRun` | core/src/worker.rs:152-162 | a Redis error in a read or a promotion leads to the end too, with no more reading on the way |
| `Serving.TopReads` | core/src/worker.rs:211-235 | a producer at its top, not stopping, with a permit free and some lane below its limit goes to read exactly as many as there are permits and of each lane exactly what its limit leaves |
| `Serving.ReadTakes` | core/src/worker.rs:222-244 | neither kind of read comes back empty while a lane with room has an unread entry |
| `Serving.HeldWorkIsRun` | core/src/worker.rs:276-300 | every message read or in the channel can be brought to any consumer still there, whatever that is busy with |
| `Serving.FreeWorkerTakesWork` | core/src/worker.rs:211-300 | so a free worker picks up waiting work: from its top, with an unread entry in a lane below its limit, its own steps bring a consumer to run an entry it read |
| `Serving.ComesFree` | core/src/worker.rs:203-300 | and it comes back for more: from any state of a worker that is not stopping its own steps lead to its top with every permit free, no lane held and an empty channel |
| `Drain.StepMine` | core/src/worker.rs:203-300 | without Redis errors or reclaim from it, the worker holds exactly what is pending under its name, and every message taken is held, finished or returned, once |
| `Drain.DrainConserves` | core/src/worker.rs:164-193 | when the worker has stopped, what its reads took is what its finishes acknowledged and its releases handed back: each message by one of them and once, its entry gone, and nothing pending under the worker |
| `Drain.LeftoversComeBack` | core/src/worker.rs:176-191 | each leftover is a new unread entry of its own lane with the same id and enqueue time, in order |
| `Drain.GivingBackIsRelease` | core/src/queue.rs:774-799 | handing back is the release pipeline |
| `Burst.BurstExit` | core/src/worker.rs:219-274 | a burst worker whose Redis calls succeed, while nobody else enqueues, replays, promotes, retries or releases, but clients may abort and purge and other workers may read, finish and reclaim, leaves only when every lane has no unread entry, it holds nothing, nothing is pending under it that was not before it started, and every delayed task was not due at the last promotion or was put there by a retry of its own since |
| `Burst.EmptyReadDrains` | core/src/worker.rs:216-235 | an empty read that looked at every lane leaves every lane without unread entries |
| `Serving.EveryRoundPromotes` | core/src/worker.rs:209-263 | a producer at its top, even with no permit free and every lane at its limit, promotes before it is there again: its own steps, whatever its consumers are doing, make an unread entry of any task due by its clock |
| `Serving.IdleBurstLeaves` | core/src/worker.rs:265-274 | a burst worker at its top with all permits back, and no unread entry or due task in any lane, leaves at its next check |
| `Cron.FiresAt` | ardiq/cron.py:97-115 | the loop over skipped wall minutes decides whether some matching wall minute is served by this UTC minute |
| `Cron.CronNext` | ardiq/cron.py:118-127 | the forward search is the first fire of its window, None where the source raises |
| `Cron.CronPrev` | ardiq/cron.py:130-140 | the backward search is the last fire of its window |
| `Cron.NextIsLeast` | ardiq/cron.py:118-127 | the result is the least fire time strictly after the argument and lies in the window; it fails exactly when the window holds none |
| `Cron.PrevIsGreatest` | ardiq/cron.py:130-140 | the result is the greatest fire time strictly before the argument and lies in the window; it fails exactly when the window holds none |
| `Cron.PrevOfNext` | ardiq/cron.py:118-140 | prev(next(t)) <= t < next(t) |
| `Cron.NextOfPrev` | ardiq/cron.py:118-140 | next(prev(f)) = f for every fire f with a predecessor in the window |
| `Cron.IntervalLaws` | ardiq/cron.py:178-196 | intervals obey the same laws on multiples |
| `Cron.SameAnswerUntilFire` | ardiq/cron.py:178-189 | every moment between an asked one and its answer has that answer |
| `Cron.CacheIsInvisible` | ardiq/cron.py:178-189 | for any sequence of calls, times going backwards included, each answer is the uncached one |
| `Cron.Recurrence.NextAfter` | ardiq/cron.py:178-189 | the cached method returns the uncached answer and keeps the cache true |
| `Cron.Recurrence.PreviousBefore` | ardiq/cron.py:191-196 | the previous fire or multiple |
| `Timetable.FiresOnItsDays` | ardiq/cron.py:85-103 | a minute fires exactly when its minute, hour and month are listed and its day is: either day field holding it if both are restricted, both otherwise; the weekday found from the day number alone, day 0 being a Thursday |
| `Timetable.WeeklyFires` | ardiq/cron.py:85-103 | a spec of one minute, hour and weekday fires at minute u of a clock c ahead of UTC if and only if u + c == (7n + d - 4) * 1440 + 60h + m for some n |
| `Timetable.NextWeekly` | ardiq/cron.py:118-127 | and its next fire after any moment is the one of these that lies at most a week ahead of it |
| `Daylight.ServedExactlyOnce` | ardiq/cron.py:97-115 | with transitions further apart than they jump, each wall minute is served by exactly one UTC minute |
| `Daylight.FixedSpecFiresOncePerWallMinute` | ardiq/cron.py:97-115 | a time-of-day spec fires at exactly one UTC minute for each matching wall minute |
| `Daylight.EveryFireServesItsOwn` | ardiq/cron.py:97-115 | and every fire serves a matching wall minute that no other UTC minute serves |
| `Daylight.CloseJumpsServeTwice` | ardiq/cron.py:97-115 | the spacing is needed: an offset with two close jumps that serves one wall minute twice |
| `Inline.InlineCore.Enqueue` | ardiq/testing.py:42-57 | refused while the id runs; otherwise the old result goes and the run leaves what `InlineFinal` says |
| `Inline.InlineCore.RunTask` | ardiq/testing.py:63-80 | the retry loop ends with the result, try count and dead letter of `InlineFinal`, and the id no longer running |
| `Inline.InlineCore.DeadReplay` | ardiq/testing.py:120-124 | a replay takes the dead entry out and runs the task again, once |
| `Inline.SameEnding` | core/src/worker.rs:328-373 | a task staged alone ends, in every run of one worker that keeps results, with the outcome, tries and dead letter of `Final` |
| `Inline.RunEndsByBodies` | core/src/worker.rs:328-373 | in every such run, by its bodies alone: after tries that raise within the limit, one that returns is a success under its number, one cancelled is aborted, one that raises past the limit is dead and leaves a dead letter with the payload, as an unknown name does at once, and a broken callback is a failure |
| `Inline.SameEndingAfterReplay` | core/src/scripts/replay_dead.lua:17-26 | the same after a replay |
| `Inline.StagedTaskFinishes` | core/src/worker.rs:328-373 | a task staged alone can be brought to its end by one worker, however far that worker has already taken it |
| `Inline.InlineAgrees` | ardiq/testing.py:63-80 | inline mode and the worker end a task alike if and only if no try breaks after nothing but tries that raised within the retry limit; otherwise the worker stores a failure and inline mode nothing |
| `Inline.FinalByBodies` | ardiq/app.py:640-787 | `Final` is that result and no other: the task ends on try k with outcome o if and only if its bodies say so |
| `Inline.InlineFinalByBodies` | ardiq/testing.py:63-80 | inline mode has that result if and only if no callback broke |
| `Inline.BrokenDiffers` | ardiq/testing.py:63-80 | whichever try it is that breaks so, the worker stores a failure under its number and inline mode has no result |
| `Inline.EndsWithinBudget` | ardiq/app.py:754-779 | the try a task ends on is at most `max_retries` + 1 |

## Left out

- Parsing cron fields and expressions (`ardiq/cron.py:24-82`): a spec is given as its sets of values.
- Scripts.Redis.Claim: which messages Redis finds idle, and in what order it scans for them, is a parameter; entries deleted while pending, which XAUTOCLAIM drops from the pending list, do not arise because every path here acknowledges what it deletes.
- ReadBatch.Queue.Read: the awaits inside one `read_batch` are not interleaved with other clients; in `worker.dfy` one read is one step.
- ReadBatch.Queue.ReadBlocking: which lanes wake it is what is there when it looks; the wait itself is not modelled.
- Purge.PurgeAll: purges one lane; the loop over several lanes repeats it.
- RedisStore.ZRangeByScore: Redis orders equal scores by name; here ties are in any order.
- Shutdown.StopsInTime: counts steps; that a body or a Redis call returns is assumed.
- Drain.DrainConserves: for runs without Redis errors and without a claim of this worker's messages by anyone, itself included, and for a worker whose name no earlier one left messages pending under.
- Quiet.TriesCountUp: for a task never reclaimed: after a crash the reclaimer counts a try whether or not the last one ran, and `Tries.TriesRise` says what is left.
- Tries.TriesRise: counts the attempts lost after their body had run, by a crash or a Redis error; tries numbered past the budget are not bounded by it when a message is reclaimed that somebody still holds.
- World.OwnStepIsRun: relates the lanes step by step; which token of the protocol stands behind a message the loop finishes or hands back is given, not tracked over a run.
- Burst.BurstExit: without Redis errors, and without work that others bring while it runs.
- Inline.SameEnding: timestamps, the result bytes and the abort of a running inline task are not compared.
- Key lifetimes: a TTL may pass at any moment, as a step, and is never measured; the abort theorems say which steps they exclude.
- `index:results` and its sweep, pub/sub wake-ups, `await_result`, heartbeats' timing and the metrics.
- Integer widths: counts, weights, credits and milliseconds are unbounded.
- Connections, the Python boundary, process and thread executors, middleware, hooks and the command line.
