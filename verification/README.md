# VoiceLink verification

A Dafny model of the parts of VoiceLink whose correctness depends on order, interleaving or two pieces of code agreeing,
with proofs about every run of them. `dafny verify dfyconfig.toml` checks everything.

- **Campaign dialing engine** (`CampaignDomain`, `DialEngine`, `Engine*`, `WorkerPool`, `CampaignService`). One
  dispatcher takes contacts from a queue, takes a slot and spawns dials; dials put retries back; `Pause`, `Resume` and
  `Stop` arrive at any time. `DialEngine` is the step system: an event is one section of the Go code that no other
  thread can see half done, and it carries the answers of the outside world (did the write succeed, is the number
  blocked, what did the provider report). Every theorem quantifies over all launches and all feasible event sequences,
  so over all interleavings, all failures and all provider answers. `WorkerPools.WorkerPool` is the same pool as a
  class whose methods change the fields in place; each method is proved to do exactly its step, and `Execute` any
  sequence of them, with the pool in order throughout.
- **Contact queues** (`ContactQueue`). The in-memory queue and the Redis queue (LPUSH, BRPOP, hash of decimal texts) as
  classes, and the proof that no sequence of operations tells them apart.
- **Token refresh** (`TokenRefresh`, `RefreshAnswers`). The interceptor that refreshes an expired session once for many
  failing requests; a step is the code between two awaits.
- **CSV in and out** (`CsvIngest`, `GoCsvParser`, `PhoneText`, `CsvExport`). The web backend's validator and its
  separately written insertion filter, the dialer service's own parser, and the export read back by section 2 of
  RFC 4180 with LF record ends.
- **Number cache** (`NumberCache`), **login codes** (`PhoneOtp`), **refresh tokens** (`RefreshTokens`) and **message
  templates** (`Templates`).

## Where the code does not do what one would expect

Each of these is proved, with the exact condition.

- A retry that is queued while the dispatcher waits for the last dials is never dialed: the dispatcher does not look at
  the queue again. A completed campaign is certain to have an empty queue if and only if retries are switched off
  (`EngineWitnesses.CompletionEmptiesQueue`); otherwise at most one retry per slot is left behind.
- `finish` writes the completed state without asking the lifecycle table. With a queue that serves a cancelled
  context, as the in-memory queue does, or with a dequeue already under way, a Stop is overwritten in some run if and
  only if it meets the dispatcher between its last look at the state and `finish`
  (`EngineCommands.StopOverwrittenExactly`). A queue that refuses calls begun on the cancelled context, as the Redis
  queue that `dialer-service/cmd/server/main.go` builds does, leaves one case: the dispatcher has already seen an
  empty queue (`EngineCommands.StopOverwrittenOnHonouredContext`). With either queue a Pause that no other command
  follows is overwritten in some run if and only if the dispatcher has seen an empty queue, or is past its last look
  with the queue empty (`EngineCommands.PauseOverwrittenExactly`). Both happen while a dial is in flight, with either
  queue (`OverwrittenWhileDialing`).
- With a queue that serves a cancelled context, or an enqueue already under way, a dial that ends after a Stop has
  cleared the queue queues its retry all the same, and the queue is certain to stay empty if and only if retries are
  switched off (`EngineCommands.StopKeepsQueueEmptyExactly`). With a queue that refuses calls begun on it the queue
  stays empty for every retry limit (`EngineCommands.ClearedForGood`).
- A start without upload queues all pending contacts behind what the queue still holds, so a pending contact that is
  still queued is queued twice, and in some runs dialed more often than its retries allow. The limit of a contact with
  a row holds in every run without Stop and failures if and only if it was queued at most once
  (`EngineRepeats.RedialBoundExactly`, `CampaignService.PreparedLimitsExactly`).
- `CreateAndStart` on a row that already has counters starts from zero in memory and adds to the old ones in the
  database. The two agree in every run without failed writes if and only if the row's counters were zero
  (`CampaignService.RestartAgreesExactly`).
- `dialed` counts retries, so a row can come to have more dials than contacts, and a pool that `ResumeCampaign`
  rebuilds from it has a negative remainder for ever. That cannot happen to a fresh campaign, however often its pool
  is rebuilt, if and only if retries are switched off (`CampaignService.ResumedRemainingExactly`).
- The cached progress is written outside the progress lock. Once all dials are gone it is certain to be the true
  progress if and only if the pool has one slot (`EngineWitnesses.CacheAgreesExactly`).
- `ResumeCampaign` without a pool in memory does not write the campaign's status: when every operation succeeds, the
  stored status follows the pool if and only if the row said running when the pool was launched
  (`EngineTiming.StoredStatusAgreesExactly`). There is a second way to differ. A Stop cancels the context with which
  `finish` writes the row: when nothing but operations on the cancelled context fails, and the row said running, it
  follows the pool exactly unless `finish` has overwritten a Stop; then it stays stopped
  (`EngineCommands.StoredStatusFollows`, `EngineCommands.RowStaysStopped`).
- A byte order mark anywhere in a phone cell makes the dialer service refuse it, while the backend trims one at either
  end (`GoCsvParser.AcceptsWhatTheBackendAccepts`).
- When the cache entry of a released number cannot be deleted, the old owner is named exactly until the entry expires
  (`NumberCache.StaleAnswer`).
- The requirement the comment in `retry.go` cites (FR-PD-13) speaks of failed and unanswered calls; the code retries
  busy and unanswered ones. The model follows the code.

## Model

| member | source | states |
|---|---|---|
| `WorkerPools.WorkerPool.constructor` | dialer-service/internal/campaign/worker_pool.go:39-83 | a new pool that has started is the step system's initial state and in order: running, counters from the campaign it is given, remaining = total - dialed, whatever counters the row holds |
| `WorkerPools.WorkerPool.Poll` | dialer-service/internal/campaign/worker_pool.go:90-134 | one section of the head of the dispatch loop is exactly the dispatcher's step: which place follows for a cancelled context, each state, open and closed calling hours, and each answer of the dequeue; a contact taken is the first in the queue |
| `WorkerPools.WorkerPool.TakeSlot` | dialer-service/internal/campaign/worker_pool.go:136-141 | a contact in hand gets a free slot, or is dropped when the cancelled context is chosen |
| `WorkerPools.WorkerPool.Spawn` | dialer-service/internal/campaign/worker_pool.go:143-144 | the wait group grows, and one goroutine for the contact in hand joins |
| `WorkerPools.WorkerPool.Complete` | dialer-service/internal/campaign/worker_pool.go:121-126 | after an empty queue: wait for the group, then the completed state |
| `WorkerPools.WorkerPool.ReportCompletion` | dialer-service/internal/campaign/worker_pool.go:250-258 | then its row, its cache entry and the completion callback with the progress of that moment, in that order |
| `WorkerPools.WorkerPool.CountOutcome` | dialer-service/internal/campaign/worker_pool.go:209-231 | the critical section adds one dial, one to the counter of the outcome (a do-not-call skip is a failure), takes one from a positive remainder, and returns the progress it produced |
| `WorkerPools.WorkerPool.UpdateContact` | dialer-service/internal/repository/postgres/contact_repo.go:92-103 | a row write replaces status and attempts of an existing row and does nothing to a missing one |
| `WorkerPools.WorkerPool.Prepare` | dialer-service/internal/campaign/worker_pool.go:156-164 | reading the contact and the do-not-call check are the goroutine's first steps and write nothing: a missing row ends the dial, a blocked number goes on to be skipped, any other to be marked |
| `WorkerPools.WorkerPool.Skip` | dialer-service/internal/campaign/worker_pool.go:165-169 | a blocked contact's row keeps its attempts |
| `WorkerPools.WorkerPool.Mark` | dialer-service/internal/campaign/worker_pool.go:171-172 | the row says dialing with attempts + 1 before the call |
| `WorkerPools.WorkerPool.PlaceCall` | dialer-service/internal/campaign/worker_pool.go:182-188 | the outcome is the provider's; an error or an empty result counts as failed |
| `WorkerPools.WorkerPool.Record` | dialer-service/internal/campaign/worker_pool.go:190-191 | the row says the outcome with attempts + 1 after the call |
| `WorkerPools.WorkerPool.Count` | dialer-service/internal/campaign/worker_pool.go:208-231 | the counting step adds one dial and gives the goroutine the progress it produced |
| `WorkerPools.WorkerPool.Credit` | dialer-service/internal/campaign/worker_pool.go:233-234 | the database increment is a step of its own, adds one dial and one to the column of the outcome, and leaves memory alone |
| `WorkerPools.WorkerPool.CacheSnapshot` | dialer-service/internal/campaign/worker_pool.go:236-237 | so is the cached snapshot, which is the goroutine's own |
| `WorkerPools.WorkerPool.CountDial` | dialer-service/internal/campaign/worker_pool.go:239-242 | every fifth dial, and any with nothing remaining, is announced, and no other |
| `WorkerPools.WorkerPool.Notify` | dialer-service/internal/campaign/worker_pool.go:241-241 | the callback carries the goroutine's own snapshot |
| `WorkerPools.WorkerPool.Decide` | dialer-service/internal/campaign/worker_pool.go:196-206 | a contact is queued again exactly after a busy or unanswered call with attempts left, or lost when that fails, and finished otherwise |
| `WorkerPools.WorkerPool.ReleaseSlot` | dialer-service/internal/campaign/worker_pool.go:153-154 | the slot is given back first |
| `WorkerPools.WorkerPool.LeaveGroup` | dialer-service/internal/campaign/worker_pool.go:153-154 | the wait group is told after that |
| `WorkerPools.WorkerPool.Accept` | dialer-service/internal/campaign/worker_pool.go:262-268 | a command takes effect exactly when the lifecycle table has the edge, and a refused one leaves the whole pool as it was |
| `WorkerPools.WorkerPool.Issue` | dialer-service/internal/campaign/worker_pool.go:287-296 | and keeps the pool in order |
| `WorkerPools.WorkerPool.SaveStatus` | dialer-service/internal/campaign/worker_pool.go:297-298 | the row of the campaign is written first |
| `WorkerPools.WorkerPool.ClearQueue` | dialer-service/internal/campaign/worker_pool.go:299-299 | a Stop then clears the queue; what was in it is dropped in order |
| `WorkerPools.WorkerPool.CacheStatus` | dialer-service/internal/campaign/worker_pool.go:300-301 | the cached state is written last, and the mutex is free |
| `WorkerPools.WorkerPool.Carry` | dialer-service/internal/campaign/worker_pool.go:262-302 | the next write of the command that holds the mutex touches neither goroutines nor state and keeps the pool in order |
| `WorkerPools.WorkerPool.Dispatcher` | dialer-service/internal/campaign/worker_pool.go:92-149 | any next section of the dispatcher keeps the pool in order: within its slots, and completed only with nobody in the wait group |
| `WorkerPools.WorkerPool.Goroutine` | dialer-service/internal/campaign/worker_pool.go:152-243 | any next section of a dial keeps the pool in order, spawns nothing and does not touch the campaign's state |
| `WorkerPools.WorkerPool.Step` | dialer-service/internal/campaign/worker_pool.go:92-302 | any enabled event is carried out by one of the methods, with exactly its effect, and keeps the pool in order |
| `WorkerPools.WorkerPool.Execute` | dialer-service/internal/campaign/worker_pool.go:79-302 | any interleaving of the sections, performed in place, ends in the state the step system predicts |
| `WorkerPools.RunCampaign` | dialer-service/internal/campaign/worker_pool.go:79-302 | after any schedule the object is within its slots and, if completed, has no dial in flight |
| `CampaignDomain.Capacity` | dialer-service/internal/campaign/worker_pool.go:49-55 | the slots are the configured number when that is between 1 and 10, 1 below and 10 above |
| `CampaignDomain.ClassifyOutcome` | dialer-service/internal/dialer/call_outcome.go:9-22 | every text becomes one of the four outcomes that have a counter of their own |
| `CampaignDomain.ClassifiedTexts` | dialer-service/internal/dialer/call_outcome.go:9-22 | exactly which texts, in any case, become which outcome; all others are failures |
| `CampaignDomain.LowerMeans` | dialer-service/internal/dialer/call_outcome.go:10-10 | lower case turns the 26 capitals into the small letters, leaves every other character, and goes letter by letter |
| `CampaignDomain.RetriedTexts` | dialer-service/internal/campaign/retry.go:7-18 | a first attempt is retried if and only if retries are on and the provider's text is busy or no-answer, in any case |
| `CampaignDomain.TableExactly` | dialer-service/internal/campaign/lifecycle.go:8-36 | the lifecycle table has six edges, and writing the current status again is allowed |
| `EngineRuns.ConcurrencyCap` | dialer-service/internal/campaign/worker_pool.go:136-154 | in every reachable state provider calls in progress never exceed the clamped concurrency; occupied slots are the unreleased goroutines plus a dispatcher about to spawn, and the wait group counts the goroutines not yet done |
| `EngineRuns.WorkConserved` | dialer-service/internal/campaign/worker_pool.go:92-206 | in every run, with Stop and failures, each contact is as often in queue, hand, flight, finished, failed or dropped as it was queued at the start |
| `EngineRuns.NothingLost` | dialer-service/internal/campaign/worker_pool.go:92-206 | without Stop and failures: queue, hand, flight or finished, so nothing is lost or duplicated although retries come back |
| `EngineDials.ScreeningDecides` | dialer-service/internal/campaign/worker_pool.go:162-195 | in every run the do-not-call answer decides the dial: a blocked number is never called, is counted as do-not-call and finished for good; any other is called before it is counted, and with classified outcomes never counted as do-not-call |
| `EngineDials.BlockedRowWrites` | dialer-service/internal/campaign/worker_pool.go:163-169 | a blocked number's dial writes nothing to any row but do-not-call with the attempts it has read |
| `EngineDials.OutcomeIsTheProviders` | dialer-service/internal/campaign/worker_pool.go:182-205 | in every run what a dial is counted as, and what its retry is decided on, is what the provider reported, or a failure after an error |
| `EngineDials.NothingStartsOutsideHours` | dialer-service/internal/campaign/worker_pool.go:112-117 | while calling hours are over, whatever else happens, nothing is taken from the queue but by a Stop, no dial is launched and the campaign does not complete |
| `EngineRuns.LaunchesAddUp` | dialer-service/internal/campaign/worker_pool.go:112-206 | in every run, whatever fails and however often a contact was queued: dials launched = contacts queued at the start + retries queued - still queued - in hand - dropped; so without retries dials and queue together never exceed the start |
| `EngineRuns.Completion` | dialer-service/internal/campaign/worker_pool.go:120-127 | a completed campaign has no dial in flight; what is queued are busy or unanswered contacts within the retry limit, at most one per slot, and none when RetryMax <= 0 |
| `EngineRuns.EachContactOnce` | dialer-service/internal/campaign/worker_pool.go:120-205 | completed without Stop, failures and retries: each contact that was queued once and has a row was dialed once and has exactly one counted outcome |
| `EngineRuns.RedialBound` | dialer-service/internal/campaign/worker_pool.go:171-205 | a contact queued at most once at the launch is called at most max(1, RetryMax + 1 - attempts) times over a whole run, plus once for each call whose attempt could not be stored |
| `EngineRuns.OnlyRetriesAreRedialed` | dialer-service/internal/campaign/retry.go:7-18 | any earlier dial of a contact that was queued at most once and is dialed again was called, was busy or unanswered, and had attempts left |
| `EngineRuns.TotalCalls` | dialer-service/internal/campaign/worker_pool.go:171-205 | dials in all, when the launch queues no contact twice and no row has a negative number of attempts: at most N * (max(RetryMax, 0) + 1), plus the calls whose attempt could not be stored |
| `EngineRuns.CallLimits` | dialer-service/internal/campaign/retry.go:7-18 | both limits, for such launches, without the correction when the writes succeed |
| `EngineRepeats.RedialBoundExactly` | dialer-service/internal/campaign/worker_pool.go:171-205 | for every launch and contact: the limit of calls holds in every run without Stop and failures if and only if the contact was queued at most once or has no row; otherwise dialing one after the other already exceeds it |
| `EngineTiming.LaunchLatency` | dialer-service/internal/campaign/worker_pool.go:92-144 | from any paused state until the next Resume, and from any stopped state, at most one further dial is launched in any run |
| `EngineTiming.StatusEdges` | dialer-service/internal/campaign/lifecycle.go:8-36 | a command changes the state exactly along an edge of the table and otherwise changes nothing at all; the only other change is the completed state written by finish |
| `EngineTiming.FinalStatuses` | dialer-service/internal/campaign/worker_pool.go:245-302 | no run leaves the completed state, and the stopped state is left only for it |
| `EngineTiming.RefusedExactly` | dialer-service/internal/campaign/lifecycle.go:26-36 | in a reachable state a command is refused if and only if the campaign is completed, or stopped and the command is not Stop |
| `EngineCommands.ResumeUndoesPause` | dialer-service/internal/campaign/worker_pool.go:262-285 | while the dispatcher stands still: pausing and resuming a running pool, its six sections interleaved in any way with the dials in flight, leaves only what the dials alone would have left, stored and cached status included |
| `EngineCommands.StoppedForGood` | dialer-service/internal/campaign/worker_pool.go:93-110 | a Stop that meets the dispatcher anywhere but between its last look at the state and finish is never overwritten |
| `EngineCommands.InterruptedUntilResume` | dialer-service/internal/campaign/worker_pool.go:100-110 | a Pause or Stop that does so lasts until a Resume |
| `EngineCommands.StopOverwrittenExactly` | dialer-service/internal/campaign/worker_pool.go:112-126 | with a queue that may serve a cancelled context: from any reachable stopped state the campaign can still become completed if and only if the dispatcher is between its last look at the state and finish |
| `EngineCommands.StoppedUnlessSeen` | dialer-service/internal/campaign/worker_pool.go:112-134 | with a queue that refuses calls on the cancelled context, a stopped pool whose dispatcher has not yet seen an empty queue stays stopped in every run |
| `EngineCommands.StopOverwrittenOnHonouredContext` | dialer-service/internal/campaign/worker_pool.go:119-127 | so with such a queue a reachable stopped state can still become completed if and only if the dispatcher has seen an empty queue |
| `EngineCommands.InterruptionOverwrittenExactly` | dialer-service/internal/campaign/worker_pool.go:112-126 | with a queue that may serve a cancelled context, the same as for a Stop for any reachable paused state while no Resume comes; a Stop may empty the queue for the dispatcher |
| `EngineCommands.InterruptionOverwrittenOnHonouredContext` | dialer-service/internal/campaign/worker_pool.go:112-134 | with a queue that refuses calls on the cancelled context, if and only if the dispatcher has seen an empty queue, or is past its last look with the queue empty |
| `EngineCommands.PauseOverwrittenExactly` | dialer-service/internal/campaign/worker_pool.go:120-126 | with no further command at all, and with either queue, a pause can be overwritten if and only if the dispatcher has seen an empty queue, or is past its last look with the queue empty |
| `EngineCommands.OverwrittenWhileDialing` | dialer-service/internal/campaign/worker_pool.go:245-248 | for every configuration, for Pause and Stop alike and with either queue: such a state is reached while the dispatcher waits for a dial, and leads to completion by an edge the table does not have |
| `EngineCommands.StopLeavesOnlyRetries` | dialer-service/internal/campaign/worker_pool.go:196-205 | after a Stop has cleared the queue, in any continuation, the queue holds only retries within the limit, at most one more than there are slots, counting dials under way and a contact in hand |
| `EngineCommands.RetryAfterStop` | dialer-service/internal/campaign/worker_pool.go:199-205 | with RetryMax > 0 and a queue that serves a cancelled context, a dial can queue its contact after the clear |
| `EngineCommands.StopKeepsQueueEmptyExactly` | dialer-service/internal/campaign/worker_pool.go:299-299 | so with a queue that may do that, the queue is certain to stay empty after the clear if and only if RetryMax <= 0 |
| `EngineCommands.ClearedForGood` | dialer-service/internal/campaign/worker_pool.go:289-299 | with a queue that refuses calls on the cancelled context, a cleared queue stays empty in every run for every RetryMax |
| `EngineTiming.StoredStatusAgrees` | dialer-service/internal/repository/postgres/campaign_repo.go:99-110 | when all writes succeed, those on a cancelled context included, and the row said running at the launch, the stored status is the pool's between writes |
| `EngineTiming.StoredStatusAgreesExactly` | dialer-service/internal/campaign/service.go:211-221 | and that holds in every such run if and only if the row said running at the launch, which a rebuilt pool does not see to |
| `EngineCommands.StoredStatusFollows` | dialer-service/internal/campaign/worker_pool.go:245-252 | when only operations on a cancelled context fail, and the row said running at the launch, the stored status is the pool's between writes if and only if not both a Stop has come and the pool is completed |
| `EngineCommands.RowStaysStopped` | dialer-service/internal/campaign/worker_pool.go:245-252 | for every configuration there is such a run with one contact that ends completed with the row stopped |
| `EngineTiming.NoDeadlock` | dialer-service/internal/campaign/worker_pool.go:92-154 | something can always move until the dispatcher has returned and every goroutine is done |
| `EngineTiming.HaltsOnlyCompleted` | dialer-service/internal/campaign/worker_pool.go:92-134 | a dispatcher that has returned has completed the campaign, or a Stop has come |
| `EngineTiming.StepBound` | dialer-service/internal/campaign/worker_pool.go:92-205 | apart from polls, commands and failed operations, N contacts are done after 20 * N * (max(RetryMax, 0) + 1) + 10 steps, when the launch queues no contact twice and no row has a negative number of attempts |
| `EngineReports.DatabaseLag` | dialer-service/internal/repository/postgres/campaign_repo.go:112-124 | in every state each counter in the database lags memory by the lag at the launch plus exactly the dials counted and not credited |
| `EngineReports.DatabaseAgrees` | dialer-service/internal/campaign/worker_pool.go:230-234 | the lag of the launch is kept if and only if every counted dial has been credited; from a row that agrees with the campaign that is equality |
| `EngineReports.LagAtQuiescence` | dialer-service/internal/campaign/worker_pool.go:208-243 | once all goroutines are done and no write failed, the lag is that of the launch |
| `EngineReports.AgreementAtQuiescence` | dialer-service/internal/campaign/service.go:76-103 | so database and memory then agree in every such run if and only if the stored counters were the campaign's at the launch |
| `EngineReports.PublishedWasReached` | dialer-service/internal/campaign/worker_pool.go:230-242 | every snapshot sent was once the true progress and is never ahead of memory; so is the cached one, unless it is still the one found at the launch |
| `EngineReports.CompletionCallback` | dialer-service/internal/campaign/worker_pool.go:254-258 | the completion callback is made at most once in a run, with a progress that was once the true one |
| `EngineReports.CallbackFrequency` | dialer-service/internal/campaign/worker_pool.go:239-242 | once all goroutines are done, n updates have caused n/5 progress callbacks and besides only callbacks for updates that left nothing to dial, each of which has one; n is the number of dials counted |
| `EngineReports.CountersByOutcome` | dialer-service/internal/campaign/worker_pool.go:208-231 | in every run each counter in memory is what it was at the launch plus the counted dials with its own outcomes: answered; failed or do-not-call; busy; unanswered; all |
| `EngineReports.StoredByOutcome` | dialer-service/internal/campaign/worker_pool.go:233-234 | and each stored counter is what it was plus the credited dials with its own outcomes |
| `EngineReports.OutcomesAddUp` | dialer-service/internal/campaign/worker_pool.go:208-229 | from a row that adds up, dialed = answered + failed + busy + no-answer if and only if no counted dial ended outside the outcomes |
| `EngineReports.StoredOutcomesAddUp` | dialer-service/internal/repository/postgres/campaign_repo.go:112-124 | stored counters that add up at the launch add up in every state, whatever writes failed |
| `EngineReports.ProviderOutcomesAddUp` | dialer-service/internal/dialer/call_outcome.go:9-22 | with providers that report through the classifier, memory and database each add up in every state of every run in which they did at the launch |
| `EngineReports.RemainingIsClamped` | dialer-service/internal/campaign/worker_pool.go:67-75 | remaining = max(0, total - dialed) in every state of every run, if and only if the row had no more dials than contacts |
| `EngineReports.SequentialCacheAgrees` | dialer-service/internal/campaign/worker_pool.go:236-237 | with one slot the cached progress is the true one once all goroutines are done |
| `EngineWitnesses.StrandedRetry` | dialer-service/internal/campaign/worker_pool.go:121-126 | for every concurrency and every RetryMax > 0 there is a run without failures that completes with its only contact still queued |
| `EngineWitnesses.DialedTwice` | dialer-service/internal/campaign/worker_pool.go:196-205 | and one that leaves two dials of its only contact in the row |
| `EngineWitnesses.CompletionEmptiesQueue` | dialer-service/internal/campaign/worker_pool.go:121-126 | completion always means an empty queue if and only if RetryMax <= 0 |
| `EngineWitnesses.StaleCache` | dialer-service/internal/campaign/worker_pool.go:230-237 | with two slots or more a run without failures leaves an old snapshot in the cache with no dial left, and no continuation at all changes it |
| `EngineWitnesses.CacheAgreesExactly` | dialer-service/internal/campaign/worker_pool.go:230-237 | the cache always ends up right if and only if there is one slot |
| `CampaignService.CollectContacts` | dialer-service/internal/campaign/service.go:105-125 | one identifier and one fresh pending row per upload, in order; other rows are untouched |
| `CampaignService.PrepareLaunch` | dialer-service/internal/campaign/service.go:94-157 | the contacts go behind those still queued; a failed insert is ignored and leaves the contacts without rows; with no upload the stored pending ones are queued and counted; the pool's counters start from zero whatever the row holds |
| `CampaignService.Service.constructor` | dialer-service/internal/campaign/service.go:66-66 | no pools at first |
| `CampaignService.Service.CreateAndStart` | dialer-service/internal/campaign/service.go:70-166 | a row that cannot be created or a queue that cannot be filled is an error and starts no pool; otherwise the pool is registered under its campaign and starts from the prepared launch with nothing counted, the queued contacts remaining and the cache as it was; a fresh launch after an upload into an empty queue |
| `CampaignService.Service.ResumeCampaign` | dialer-service/internal/campaign/service.go:202-223 | a pool in memory is resumed and no other pool is touched; otherwise a running pool is built that takes over the stored queue, contact rows, counters, status and cache, with remaining = total - dialed; a missing row is an error that changes nothing |
| `CampaignService.Service.PauseOrStop` | dialer-service/internal/campaign/service.go:187-232 | the command reaches exactly the campaign's own pool, when it is in memory |
| `CampaignService.OneDialPerContact` | dialer-service/internal/campaign/service.go:105-129 | a fresh campaign completed without retries, Stop and failures has as many dials as contacts, one outcome each |
| `CampaignService.FreshCompletion` | dialer-service/internal/campaign/service.go:70-166 | and then an empty queue, dialed = contacts in memory, that many more than at the launch in the database, and nothing remaining |
| `CampaignService.RestartAgreesExactly` | dialer-service/internal/campaign/service.go:94-103 | the pool of a started campaign agrees with the database in every run without failed writes if and only if there was no row or its counters were zero |
| `CampaignService.ResumedRemainingExactly` | dialer-service/internal/campaign/service.go:211-221 | over any chain of runs, each of a pool rebuilt from what the one before left behind, every fresh campaign keeps remaining = max(0, total - dialed) if and only if RetryMax <= 0 |
| `CampaignService.RestartConserves` | dialer-service/internal/campaign/service.go:211-221 | a pool rebuilt after a run goes on with exactly what the queue still held: over both runs each contact is where the first had it outside the queue, or in one of the six places of the second, and no row is lost |
| `CampaignService.RebuiltPoolAddsUp` | dialer-service/internal/campaign/service.go:211-221 | with providers that report through the classifier, counters that added up at the launch still add up in a pool rebuilt from what any earlier run left behind |
| `CampaignService.PreparedDistinct` | dialer-service/internal/campaign/service.go:94-146 | a prepared launch queues no contact twice if and only if neither the leftovers nor the added contacts repeat one and they have none in common |
| `CampaignService.PreparedLimitsExactly` | dialer-service/internal/campaign/service.go:115-146 | a prepared launch keeps every contact's limit of calls in all runs without Stop and failures if and only if no contact with a row is queued twice |
| `ContactQueues.MemoryQueue.constructor` | dialer-service/internal/queue/memory_queue.go:18-24 | empty maps |
| `ContactQueues.MemoryQueue.Enqueue` | dialer-service/internal/queue/memory_queue.go:26-31 | identifiers go to the end of the campaign's queue, in order; nothing else changes |
| `ContactQueues.MemoryQueue.Dequeue` | dialer-service/internal/queue/memory_queue.go:33-43 | the oldest identifier, which in front of what is left is what was there, or the empty-queue error when there was none |
| `ContactQueues.MemoryQueue.QueueLength` | dialer-service/internal/queue/memory_queue.go:45-49 | the number of queued identifiers, 0 for an unknown campaign |
| `ContactQueues.MemoryQueue.ClearQueue` | dialer-service/internal/queue/memory_queue.go:51-56 | the campaign's queue is gone, its state and progress stay |
| `ContactQueues.MemoryQueue.SetState` | dialer-service/internal/queue/memory_queue.go:58-63 | the state text is replaced |
| `ContactQueues.MemoryQueue.GetState` | dialer-service/internal/queue/memory_queue.go:65-69 | the state text, empty when never set |
| `ContactQueues.MemoryQueue.SetProgress` | dialer-service/internal/queue/memory_queue.go:71-76 | the record is replaced |
| `ContactQueues.MemoryQueue.GetProgress` | dialer-service/internal/queue/memory_queue.go:78-86 | the record, or nothing |
| `ContactQueues.RedisQueue.constructor` | dialer-service/internal/queue/redis_queue.go:28-30 | an empty store |
| `ContactQueues.RedisQueue.Enqueue` | dialer-service/internal/queue/redis_queue.go:32-43 | a multi-value LPUSH equals pushing the identifiers one after the other; an empty call does nothing; a key of another kind is refused |
| `ContactQueues.RedisQueue.Dequeue` | dialer-service/internal/queue/redis_queue.go:45-58 | BRPOP's element from the other end, which behind what is left is what was there, the list disappearing with its last element; the empty-queue and wrong-kind errors change nothing |
| `ContactQueues.RedisQueue.QueueLength` | dialer-service/internal/queue/redis_queue.go:60-63 | LLEN |
| `ContactQueues.RedisQueue.ClearQueue` | dialer-service/internal/queue/redis_queue.go:65-68 | only the queue's key is deleted |
| `ContactQueues.RedisQueue.SetState` | dialer-service/internal/queue/redis_queue.go:70-73 | only the state's key is written |
| `ContactQueues.RedisQueue.GetState` | dialer-service/internal/queue/redis_queue.go:75-82 | the state text, empty for a missing key |
| `ContactQueues.RedisQueue.SetProgress` | dialer-service/internal/queue/redis_queue.go:84-99 | the six fields are merged into the hash, each as decimal text under its own name |
| `ContactQueues.RedisQueue.GetProgress` | dialer-service/internal/queue/redis_queue.go:101-121 | the record read back from the texts, nothing for a missing hash |
| `ContactQueues.KeysDiffer` | dialer-service/internal/queue/redis_queue.go:36-36 | keys of different campaigns or kinds never coincide, whatever text the identifier is |
| `ContactQueues.ReadBack` | dialer-service/internal/queue/redis_queue.go:84-121 | GetProgress after SetProgress returns the stored record, through decimal text and over any older fields |
| `ContactQueues.QueuesAgree` | dialer-service/internal/queue/memory_queue.go:26-86 | from matching contents every sequence of operations over any campaigns gets identical answers from both queues |
| `ContactQueues.NewQueuesAgree` | dialer-service/internal/queue/redis_queue.go:28-121 | two new queues match |
| `ContactQueues.CampaignsIndependent` | dialer-service/internal/queue/memory_queue.go:26-86 | the answers a campaign gets are those it would get if no other campaign existed |
| `ContactQueues.FirstInFirstOut` | dialer-service/internal/queue/memory_queue.go:26-43 | until a clear, the identifiers that dequeues were answered with followed by what is left are what was there followed by what was enqueued, in that order |
| `ContactQueues.RedisFirstInFirstOut` | dialer-service/internal/queue/redis_queue.go:32-58 | what a new Redis queue answers are the first of the identifiers enqueued, in their order |
| `ContactQueues.ReadsTheLastWrite` | dialer-service/internal/queue/memory_queue.go:58-86 | after any operations the state and the progress read are those written last for the campaign |
| `TokenRefresh.Interceptor.constructor` | frontend/src/lib/api.ts:24-28 | no refresh under way and nobody parked |
| `TokenRefresh.Interceptor.Transmit` | frontend/src/lib/api.ts:61-61 | a new or released request is sent once |
| `TokenRefresh.Interceptor.OnResponse` | frontend/src/lib/api.ts:38-65 | the handler up to its first await: a success is resolved; another error, and a 401 of an authentication address or after a refresh of its own, is rejected; any other 401 parks, or leads a refresh with the retry mark set; nothing else changes |
| `TokenRefresh.Interceptor.ProcessQueue` | frontend/src/lib/api.ts:30-36 | every parked promise is resolved, or every one is rejected, and the queue is empty |
| `TokenRefresh.Interceptor.OnRefreshed` | frontend/src/lib/api.ts:67-85 | after the refresh call: the parked ones are settled, the leader is sent again or rejected, the flag is cleared |
| `TokenRefresh.AfterRefresh` | frontend/src/lib/api.ts:67-85 | for each request: only the leader and the parked ones change |
| `TokenRefresh.SingleFlight` | frontend/src/lib/api.ts:58-85 | in every run at most one refresh is outstanding, nothing is parked without one, and a parked promise is settled by the cycle it parked in, the way that cycle ended |
| `TokenRefresh.SettledOnce` | frontend/src/lib/api.ts:30-36 | a settled promise is never settled again |
| `RefreshAnswers.AnsweredExactly` | frontend/src/lib/api.ts:38-89 | in every run a request is resolved if and only if its last response was a success, and rejected if and only if that was another error, a 401 of an authentication address or after it had led a refresh, or a 401 whose refresh failed |
| `TokenRefresh.RefreshTerminates` | frontend/src/lib/api.ts:43-86 | n requests cause at most n refreshes, each with its own leader; each request is sent at most n + 1 times; the protocol stops after at most 2n(n + 1) + n steps |
| `TokenRefresh.NobodyIsLeftWaiting` | frontend/src/lib/api.ts:58-85 | when nothing more can happen every request is answered and every parked promise settled |
| `CsvExport.SanitizeCell` | backend/src/dialer/dialer.service.ts:244-256 | the printed form of a cell: empty for a missing value, an apostrophe before any of six first characters, quotes exactly around a comma, a quote or a line end |
| `CsvExport.FieldReads` | backend/src/dialer/dialer.service.ts:251-254 | a quoted or plain cell followed by a separator is read back exactly |
| `CsvExport.ExportRoundTrip` | backend/src/dialer/dialer.service.ts:244-274 | reading any export gives the header and one seven-field record per contact in order; each field is the original, with one apostrophe in front exactly if it starts with one of the six formula characters, and none starts with one |
| `CsvExport.ColumnsUnderHeader` | backend/src/dialer/dialer.service.ts:258-271 | what is read back begins with the seven names, and each of the seven values of each contact stands under its own name, missing ones empty |
| `CsvExport.GuardedApart` | backend/src/dialer/dialer.service.ts:247-250 | two texts export alike if and only if they are equal or differ by the apostrophe before a formula |
| `CsvIngest.CountRow` | backend/src/dialer/csv-validator.ts:75-96 | one row adds to exactly one of valid, invalid and do-not-call, according to its phone |
| `CsvIngest.ReportOn` | backend/src/dialer/csv-validator.ts:74-97 | the loop computes the tally of the rows |
| `CsvIngest.Validate` | backend/src/dialer/csv-validator.ts:16-107 | the report, or the first of the five errors that applies |
| `CsvIngest.ErrorsMeant` | backend/src/dialer/csv-validator.ts:24-104 | each of the five errors exactly when those before it do not apply: unparsed, no rows, more than 100,000, no phone column, no row with an E.164 phone that is not on the list |
| `CsvIngest.PhoneColumnIsFirst` | backend/src/dialer/csv-validator.ts:51-56 | the phone column is a header with one of the five names before which there is none, and missing only if there is none at all |
| `PhoneText.E164Exactly` | backend/src/dialer/csv-validator.ts:66-66 | a text is an E.164 phone if and only if it is a plus sign and a number of two to fifteen digits in decimal |
| `PhoneText.TrimMeans` | backend/src/dialer/csv-validator.ts:75-75 | what is left after trimming stands in the text between spaces and neither begins nor ends with one |
| `PhoneText.SpacesMeant` | dialer-service/internal/campaign/csv_parser.go:93-93 | which characters each language trims: they differ in the byte order mark and the next-line control |
| `PhoneText.ByteLengthMeans` | dialer-service/internal/campaign/csv_parser.go:95-95 | a character takes one to four bytes by its code point |
| `CsvIngest.TallyBalances` | backend/src/dialer/csv-validator.ts:66-97 | total = valid + invalid + do-not-call, with rising row numbers from 2 |
| `CsvIngest.TallyFlags` | backend/src/dialer/csv-validator.ts:74-89 | a row is reported invalid if and only if its phone is not E.164 |
| `CsvIngest.FlagReasons` | backend/src/dialer/csv-validator.ts:78-89 | every entry names its reason: the phone is empty, or it is the text that does not match |
| `CsvIngest.ContactsFollowRows` | backend/src/dialer/dialer.service.ts:93-103 | the inserted contacts are built from exactly the passing rows, in the order of the file, each with its row's trimmed phone, name and notes |
| `CsvIngest.CreateCampaign` | backend/src/dialer/dialer.service.ts:44-110 | both passes agree: the stored total is the number of contacts inserted, all E.164, none on the do-not-call list; errors are the validator's |
| `GoCsvParser.LocateColumns` | dialer-service/internal/campaign/csv_parser.go:42-56 | the columns found by the loop |
| `GoCsvParser.ColumnsAreLast` | dialer-service/internal/campaign/csv_parser.go:46-56 | the phone, name and notes columns are each the last header that, trimmed and in lower case, is one of its names |
| `GoCsvParser.ExamineRecord` | dialer-service/internal/campaign/csv_parser.go:83-120 | one record adds one row or one invalid entry |
| `GoCsvParser.ScanLines` | dialer-service/internal/campaign/csv_parser.go:67-121 | the first obstacle decides: an unreadable line among the first 100,001, else too many lines; without one it gives the scan of all lines |
| `GoCsvParser.ParseCsv` | dialer-service/internal/campaign/csv_parser.go:33-128 | which of the five errors when, and the rows and report otherwise; a report without rows accompanies only the last error |
| `GoCsvParser.ErrorsMeant` | dialer-service/internal/campaign/csv_parser.go:37-125 | each of the five errors exactly when those before it do not apply: no header, no phone column, an unreadable line among the first 100,001, more than 100,000 lines, no acceptable phone |
| `GoCsvParser.ScanBalances` | dialer-service/internal/campaign/csv_parser.go:67-120 | total = valid + invalid, both lists match their counters and the order of the file, and every returned phone is E.164 |
| `GoCsvParser.ScanFlags` | dialer-service/internal/campaign/csv_parser.go:83-107 | a line is among the invalid rows if and only if its phone is missing or not acceptable, and kept otherwise |
| `GoCsvParser.RejectionsExplain` | dialer-service/internal/campaign/csv_parser.go:83-107 | every invalid row carries the phone of its line, and says whether the line was too short or the phone not acceptable |
| `GoCsvParser.RowsCarryTheirCells` | dialer-service/internal/campaign/csv_parser.go:109-119 | every returned row carries the phone, name and notes cells of its line, each trimmed and a missing one empty |
| `GoCsvParser.AcceptsWhatTheBackendAccepts` | dialer-service/internal/campaign/csv_parser.go:93-107 | a cell in which the backend finds a phone gives the same phone here if and only if no byte order mark is anywhere in it, and no phone otherwise |
| `GoCsvParser.AcceptedExactly` | dialer-service/internal/campaign/csv_parser.go:93-99 | a cell is accepted if and only if, trimmed, it is E.164, then unchanged, or at least ten digits of an E.164 number without its plus; only a trimmed text of ten bytes or more without a plus gets one |
| `NumberCache.NumbersService.ProvisionNumber` | backend/src/numbers/numbers.service.ts:49-104 | without a plan, at its limit, or when the provider fails, nothing changes; otherwise an active row is added and its owner cached for 24 hours, unless that write fails |
| `NumberCache.NumbersService.ReleaseNumber` | backend/src/numbers/numbers.service.ts:107-142 | only the user's own active row is released, at the present time and if the provider agrees; the cache entry goes unless the delete fails; otherwise nothing changes |
| `NumberCache.NumbersService.GetUserByNumber` | backend/src/numbers/numbers.service.ts:145-166 | the cached owner if readable, else the table's, which is then cached |
| `NumberCache.CacheIsTransparent` | backend/src/numbers/numbers.service.ts:145-166 | if no delete fails, every lookup in every run answers what the table says, whatever reads, writes, expiry and evictions do |
| `NumberCache.StalenessIsBounded` | backend/src/redis/redis.service.ts:63-70 | whatever fails, an answer names the present owner or one who released the number less than 24 hours ago |
| `NumberCache.StaleAnswer` | backend/src/numbers/numbers.service.ts:138-139 | in every reachable state, after a release whose delete fails, the old owner is named if and only if the cache entry has not expired, and nobody afterwards, while the table names nobody at once |
| `NumberCache.PlanIsKept` | backend/src/numbers/numbers.service.ts:63-72 | in no run does a user have more active numbers than the plan allows |
| `NumberCache.ActiveCountIsCardinality` | backend/src/numbers/numbers.service.ts:63-65 | what is compared with the plan is the number of the user's active rows |
| `NumberCache.GracePeriodKept` | backend/src/jobs/number-grace-period.job.ts:21-47 | in every run a number is finally released only seven days after its owner gave it up, and then by the next job |
| `PhoneOtp.OtpService.RequestPhoneOtp` | backend/src/auth/auth.service.ts:160-205 | a code that expires in five minutes is stored if and only if none of the phone's own is at most 60 s old |
| `PhoneOtp.OtpService.VerifyPhoneOtp` | backend/src/auth/auth.service.ts:207-255 | the guess is compared with the newest unused code if that is neither expired nor exhausted; a hit uses it up, a miss counts |
| `PhoneOtp.VerifyMeans` | backend/src/auth/auth.service.ts:207-244 | in every run a guess is compared with the phone's one newest unused code, if that is at most five minutes old and has taken fewer than five wrong guesses; a hit uses it up, a miss is counted, otherwise nothing happens |
| `PhoneOtp.GuessesAreBounded` | backend/src/auth/auth.service.ts:222-244 | in every run a code takes at most five wrong guesses and is accepted at most once, purged or not |
| `PhoneOtp.CodesAreRateLimited` | backend/src/auth/auth.service.ts:160-176 | codes for one phone are more than 60 s apart, so any window of L ms holds at most L/60000 + 1, with the purge job running |
| `PhoneOtp.GuessesAreRateLimited` | backend/src/jobs/data-retention.job.ts:41-44 | so any window of L ms sees at most 5 * ((L + 300000)/60000 + 1) wrong guesses for one phone |
| `PhoneOtp.PurgeDeletesExpired` | backend/src/jobs/data-retention.job.ts:41-44 | the retention job deletes exactly the codes that are more than five minutes old |
| `RefreshTokens.AuthService.IssueTokens` | backend/src/auth/auth.service.ts:513-543 | a fresh unrevoked token valid for 30 days is stored |
| `RefreshTokens.AuthService.RefreshToken` | backend/src/auth/auth.service.ts:317-354 | accepted exactly when stored, unrevoked and unexpired; then it is revoked and replaced, otherwise its family is revoked |
| `RefreshTokens.AuthService.LogOut` | backend/src/auth/auth.service.ts:300-312 | the token shown is revoked, and only it |
| `RefreshTokens.AuthService.ResetUserPassword` | backend/src/auth/auth.service.ts:388-431 | succeeds exactly with an unused, unexpired link of an existing user, uses the link up and revokes all the user's tokens |
| `RefreshTokens.SingleUse` | backend/src/auth/auth.service.ts:317-354 | in every run a refresh token is accepted at most once |
| `RefreshTokens.LogoutIsFinal` | backend/src/auth/auth.service.ts:300-312 | after logout of a token no later run accepts it |
| `RefreshTokens.ResetIsFinal` | backend/src/auth/auth.service.ts:414-428 | after a password reset no later run accepts a token the user held |
| `RefreshTokens.ReplayIsFinal` | backend/src/auth/auth.service.ts:328-339 | in every run, after a dead token that is still stored has been shown again, no later run accepts any token of its family |
| `RefreshTokens.ResetLinkIsSpent` | backend/src/auth/auth.service.ts:390-399 | a used reset link never works again |
| `RefreshTokens.TokenIsGoodExactly` | backend/src/auth/auth.service.ts:317-352 | a token from a login is accepted if and only if it is at most 30 days old and nothing has taken it back: its own use, a logout with it, a replay in its family, a password reset of its user |
| `RefreshTokens.CleanUpDeletesExpired` | backend/src/jobs/token-cleanup.job.ts:14-20 | in every run the daily job deletes a token of a login if and only if it is more than 30 days old, so one shown again earlier is still recognised |
| `RefreshTokens.LinkIsGoodExactly` | backend/src/auth/auth.service.ts:359-399 | a reset link sent to a user works if and only if it is at most an hour old and has not been used |
| `Templates.PlaceholderMeans` | backend/src/templates/templates.service.ts:61-65 | any placeholder becomes its value, or stays when the name is not bound, and the rest is interpolated on its own: a value is never looked at again |
| `Templates.NoPlaceholder` | backend/src/templates/templates.service.ts:61-65 | braces around anything but letters, digits and underscores are copied, and so is an opening brace without a closing one |
| `Templates.PlainTextMeans` | backend/src/templates/templates.service.ts:61-65 | text without an opening brace is copied |
| `Templates.UnboundIsUnchanged` | backend/src/templates/templates.service.ts:61-65 | a template none of whose names is bound is sent as it is |
| `Templates.ErasedLength` | backend/src/templates/templates.service.ts:61-65 | binding one name to the empty text removes exactly its placeholders |
| `Templates.ListedExactlyWhenReplaced` | frontend/src/app/(dashboard)/templates/page.tsx:36-39 | the frontend lists a name if and only if some binding of it changes the backend's message |
| `Templates.VariablesAreEnough` | frontend/src/app/(dashboard)/templates/page.tsx:36-39 | the list has no repetitions and the order in which the names first occur, and the message depends on nothing but the values of the listed names |

## Left out

- HTTP, Postgres, Redis, Socket.IO and the telephony providers' clients: a provider is any answer, a repository is a map, and every operation of theirs may fail where the model says so; an operation that fails after taking effect is not modelled.
- The web backend as a second writer of the campaign's row: its progress handler (`backend/src/dialer/dialer.service.ts` lines 289-298) overwrites the counter columns with absolute values, and its start, pause, resume and stop handlers (lines 141-235) write the status after the dialer service has answered. The theorems about stored counters and stored status are about the dialer service's writes alone; in particular a resume that goes through the backend does get the row's status set to running.
- Contexts that a Stop has cancelled: an operation begun on one may fail or succeed in the model at any time, dequeue, enqueue and row writes alike. The theorems for runs in which everything succeeds include runs in which operations succeed after a Stop; `EngineContexts.Discipline` names the runs in which they fail, and the theorems about a Stop are given for both. An operation that began before the cancellation and ends after it is one of those that may succeed.
- The time before `Start`'s first critical section, which overwrites the state: runs begin after it.
- `CampaignService.Service.PauseOrStop`: with no pool in memory the code writes row and cache without validation; nothing is claimed about that branch.
- `CampaignService.Service.CreateAndStart`: a pool of the same campaign that is still running is replaced in the table and goes on unregistered; two pools of one campaign at a time are not modelled.
- Calling hours: the check is an arbitrary yes or no at each poll; clock times and zones are not modelled. Delays between dials are not modelled either.
- Call durations, timestamps and the contact's phone number in contact rows; contact identifiers are numbers, because only their equality matters.
- `ContactQueues.RedisQueue.SetState`: the key's expiry after 24 hours is not modelled, because the in-memory queue it is compared with has none.
- `ContactQueues.RedisQueue.SetProgress`: the same for the hash.
- The parsers behind csv-parse and encoding/csv: the model starts from the records, or the error, they return. Upper and lower case is folded for ASCII letters only.
- Strings are sequences of Unicode characters; UTF-16 code units are not modelled.
- bcrypt, SHA-256, JWT and random generators: hashes are injective and random tokens are fresh.
- `NumberCache.CacheIsTransparent`, and the two statements about stale entries: the provider hands out only numbers that have no active row. The table has no such constraint, and the methods and the plan's limit do not need it.
- `PhoneOtp.OtpService.VerifyPhoneOtp`: the user that a hit looks up or creates, and the tokens it issues, are not part of the code's state; issuing is `RefreshTokens.AuthService.IssueTokens`.
- `RefreshTokens.AuthService.ResetUserPassword`: the write of the new password hash is not modelled, because nothing stated here depends on it.
- Descendants of a refresh token: every issue starts a new family, so nothing is claimed about them.
- Interleavings inside one method of the auth and numbers services; each is one step.
- JavaScript prototype look-ups in template interpolation: the variables are a finite map.
- User interface, stores, WebRTC, billing, guards, webhooks and CRUD controllers.
