# Verified model of listmonk's campaign manager and its companions

This project models, in Dafny, how listmonk delivers a campaign, and proves what the delivery promises over whole
runs. Around that core it models the other small engines of the repository
whose correctness is not visible from one body.

`dafny verify dfyconfig.toml` checks everything.

## The campaign manager

One scanner goroutine turns campaigns into pipes, one runner goroutine fetches batches of subscribers and
fills a bounded queue, `Concurrency` workers drain it, a cleanup goroutine per pipe waits for the pipe's
WaitGroup, and API calls interleave anywhere. `CampaignModel` states this as a labelled transition system:
a state, `Enabled`, `Apply`, and runs as lists of labels. The other `Campaign*` modules prove invariants of
every run of it, for any number of workers, campaigns, pipes, pauses, failures and restarts of a campaign.

- `CampaignModel`: state, steps and runs. A step is one access to shared state, so dequeue, stop check,
  push, `Done`, counter updates and the raising of the stop flag are separate steps.
- `CampaignWaitGroup`: the WaitGroup, the registry of pipes, and when cleanup runs.
- `CampaignDelivery`: what becomes of each fetched subscriber, and what "finished" means.
- `CampaignCounts`: the sent counts in the database and in memory.
- `CampaignResume`: the checkpoint, and that nobody gets a campaign twice over its resumptions.
- `CampaignRepeats`: exactly which flushes are followed by a repeat.
- `CampaignOrder`: with one worker, what a stop drops.
- `CampaignCoverage`: that the checkpoint skips nobody.
- `CampaignCompletion`: what a finished campaign has done for each subscriber.
- `CampaignErrors`: the limit on errors.
- `CampaignStatus`: which steps change a campaign's row, and what a cleanup does to its status.
- `CampaignBounds`: the bounded channels, the pages of the store, and that every answer of the outside is possible.
- `CampaignHandover`: the campaigns that a scan finds and the test messages of the API are all taken up.
- `CampaignProgress`: every pipe ends.
- `CampaignPhases`, `CampaignRaces`: concrete runs in which a property fails that the code does not keep.
- `PipeObject`, `ManagerObject`: the pipe object, the batch loop, the worker's block, the cleanup and the counts
  taken by a scan as imperative methods, each tied to the steps of the state machine taken in a row.
- `BatchRuns`: the batch loop among the steps of all other goroutines, for batches of any size.
- `SlidingWindow`: the rate limit.

Three operations touch several shared fields and are one step each: the snapshot of ids and counts under
the read lock, the worker's counter updates after `Done`, and a cleanup's counter reads with the store call
that takes them. Everything between them interleaves. The results about counts and checkpoints are stated
twice: for every run, with the exact step that can spoil them, and for runs in which the worker's completion
block and the body of a cleanup are not interrupted (`CampaignCounts.Undisturbed`). The step that spoils them for one
campaign is a step of that campaign; races of other campaigns do not matter.

The database is the rows of `campaigns`; the queries are taken from `queries/campaigns.sql`. A fetch sees an
arbitrary set of matching subscribers each time.

### Where the code does less than its comments say

- A cleanup flushes a pipe's count and leaves it in place until the pipe is unregistered; a scan in between
  adds it to the database again (`CampaignRaces.CountStoredTwice`). The counts exceed the successes exactly when more
  was stored twice than lost or not yet counted (`CampaignCounts.CountsExceedExactly`), and something is stored
  twice exactly in a run with such a scan (`CampaignCounts.NothingDoubledExactly`).
- A scan takes the counts of all registered pipes and hands them to `NextCampaigns`, which visits active tenants only
  (cmd/manager_store.go:95-99, 156-183). When a tenant is suspended while its campaign runs, the call succeeds and the
  count is gone (`CampaignRaces.SuspendedTenantLosesCount`). Counts and pushes not yet counted equal the successes
  exactly when as much was doubled as lost (`CampaignCounts.CountsExactExactly`), and nothing is lost exactly in a
  run without the three kinds of losing steps (`CampaignCounts.NothingLostExactly`).
- `Done` comes before the counters (internal/manager/manager.go:554-569), so a cleanup can run before the last
  success is counted. The count is then lost, and the checkpoint may move below a success whose subscriber
  gets the campaign again (`CampaignRaces.SentTwiceAfterEarlyFlush`). `CampaignResume.CheckpointIsLargestSent` gives the
  exact condition for the checkpoint, and `CampaignRepeats.RepeatsExactly` for the repeat: such a flush is followed by
  some run that repeats a success, and no other flush is.
- `UpdateCampaignCounts` keeps the checkpoint when it is given the id 0, so a pipe that is stopped before its
  first success leaves the checkpoint at the end of its last batch and the dropped messages behind it
  (`CampaignRaces.DroppedBelowCheckpoint`); so does a pipe whose call of it fails
  (`CampaignRaces.FailedFlushStrands`). `CampaignOrder.ResumeSkipsNobody` shows that, with one worker, these are the
  only two ways for a flush to leave dropped messages behind.
- In runs without a flush that leaves dropped messages behind the checkpoint still passes a dropped subscriber who
  does not match when the campaign is resumed (`CampaignRaces.DroppedThenUnmatched`); `CampaignCoverage.NobodySkipped`
  shows that it passes only subscribers who were attempted, failed to render or did not match.
- A push that failed above the last success is made again after a resumption (`CampaignRaces.FailedThenSent`), so
  "exactly once" is about deliveries: `CampaignCompletion.FinishedReachesOnce`.
- With two or more workers a stop can drop a message below one that was sent
  (`CampaignRaces.OneWorkerCutsCleanly` is an if and only if).
- A campaign can be marked finished although its last query returned nothing only because it was paused, when
  the pause is taken back before cleanup looks: somebody who matched and was next in line is then never fetched
  (`CampaignRaces.FinishedWithoutFetching`). `CampaignDelivery.FinishedMeansComplete` is exact: of those who matched,
  the pipe has attempted everybody if its last query found the campaign running, and otherwise those up to the last
  id it fetched.
- With a sliding window rate of 1 two messages pass in one window (`SlidingWindow.RateOneLetsTwoThrough`); every larger
  rate is kept (`SlidingWindow.RateKeptFromTwo` is an if and only if).

## The other modules

- `I18n`: translation strings and their recursive parameters.
- `TmpTokens`: one-time tokens.
- `OutlookStyles`, `SafeTemplate`: the style attribute and quoting helpers of the email builder.
- `TenantPath`: media keys.
- `SubscriberExport`: the keyset export iterator.
- `Importer`: the batched import session.
- `Upgrade`: database migrations.
- `TenantCache`: tenant lookups of the manager store.
- `Attachments`: inline images and media of a campaign.
- `Counting`, `Strings`, `Wrappers`: shared definitions.

More differences between code and comments are stated where they occur: an import whose first insert fails ends
"finished" with nothing imported (`Importer.FinishedWithLosses`; `Importer.FailedExactly` gives the exact condition for
"failed"), two spellings of one image file attach it twice (`Attachments.SameFileTwice`), a media fetch error after the
first attachment is never made good by a retry on the same campaign object (`Attachments.RetryAfterError`), a text that
mentions keys of a language map that lead round in circles never stops expanding (`I18n.EndsExactlyOutsideTraps`),
markup with a line break does not survive quoting (`SafeTemplate.ReadsBack`).

## Model

| member | source | states |
|---|---|---|
| CampaignModel.NewConfig | internal/manager/manager.go:166-191 | whatever the settings, there is at least one worker, room for one message and one pipe, and a batch of at least one; settings from one on are kept, lower ones replaced, and the queue holds twice a worker's rate for each worker |
| CampaignBounds.ChannelsAreBounded | internal/manager/manager.go:189-191 | in no reachable state does the queue or the channel of pipes hold more than it was made for |
| CampaignBounds.SendWaits | internal/manager/pipe.go:106-108 | a send waits exactly while the queue is full, and then appends its message |
| CampaignBounds.OfferDoesNotWait | internal/manager/manager.go:469-480 | a pipe offered to the runner joins the end of the channel, and is given up exactly when the channel is full |
| CampaignBounds.StopIsSeen | internal/manager/manager.go:500-505 | a worker drops the message of a stopped pipe and of no other |
| CampaignBounds.PageExists | queries/campaigns.sql:335-375 | for every set of matching subscribers, range and limit the store has a page to return |
| CampaignBounds.PageIsUnique | queries/campaigns.sql:335-375 | and only one |
| CampaignBounds.EveryAnswerIsPossible | internal/manager/pipe.go:81-92 | a fetch may fail, and may return the page of any set of matching subscribers |
| CampaignBounds.BothAnswersArePossible | internal/manager/pipe.go:192-237 | rendering, pushing and every store call of a cleanup may succeed or fail |
| CampaignBounds.ScansAndCallsAreFree | internal/manager/manager.go:449-484 | a scan may store any of the counts or fail, a campaign found may be refused, and the API may be called at any time |
| CampaignHandover.FoundAreTried | internal/manager/manager.go:449-484 | until it ends, a scan goes through the campaigns it found, in order and without leaving one out, and makes exactly the pipes that come to be; it ends only after the last |
| CampaignHandover.ScanEnds | internal/manager/manager.go:449-456 | a scan that is over or whose query failed rests and has made nothing in that step |
| CampaignHandover.TestsArePushed | internal/manager/manager.go:493-536 | at every moment of every run the test messages asked for are those pushed and those that wait for it, whatever was stopped |
| CampaignWaitGroup.InvStep | internal/manager/manager.go:281-584 | every step of scanner, runner, workers, cleanups and API keeps the invariant of the WaitGroup, the registry and the references |
| CampaignWaitGroup.CountIsExact | internal/manager/pipe.go:57-75 | in every reachable state a pipe's WaitGroup is its first count, if still held, plus its messages with the producer, in the queue or with a worker before `Done` |
| CampaignWaitGroup.CountNeverRises | internal/manager/pipe.go:57-69 | the count never goes negative and never rises from zero |
| CampaignWaitGroup.TokenConserved | internal/manager/manager.go:295-330 | over any run, releases of the first count plus the places that hold it change only by the pipe's creation |
| CampaignWaitGroup.ReleasedExactlyOnce | internal/manager/manager.go:295-330 | on every path the first count is given back exactly once, unless it is still held in exactly one place |
| CampaignWaitGroup.CleanupAtMostOnce | internal/manager/pipe.go:64-69 | cleanup starts at most once for a pipe in any run |
| CampaignWaitGroup.NothingPendingAtCleanup | internal/manager/manager.go:500-556 | from the moment the count is zero nothing of the pipe is in a channel or held by scanner, runner or a worker before `Done` |
| CampaignWaitGroup.OneLivePipe | internal/manager/manager.go:449-484 | at most one live pipe exists per campaign, and it is the registered one unless it is the very pipe that the scanner has created and not yet registered |
| CampaignWaitGroup.UnregisterRemovesItself | internal/manager/pipe.go:192-197 | the delete at the end of a cleanup removes the entry of the pipe that cleans up and no other |
| CampaignDelivery.OneFateEach | internal/manager/pipe.go:99-109 | at every moment each fetched id is on its way once or has exactly one fate: unrendered, dropped, sent or failed |
| CampaignDelivery.AllResolvedAtCleanup | internal/manager/pipe.go:189-192 | when the count is zero every fetched id has exactly one fate |
| CampaignDelivery.FinishedMeansAttempted | internal/manager/pipe.go:216-237 | a campaign that cleanup marks finished had every fetched subscriber attempted exactly once or unrendered, and none dropped |
| CampaignDelivery.FinishedMeansComplete | internal/manager/pipe.go:81-92 | a finished pipe gave up because its subscribers were exhausted or the campaign was not running; who matched at all its fetches, up to the maximum id, was attempted or unrendered exactly once if and only if it was the former or the id is not above the last one fetched |
| CampaignErrors.LimitIsKept | internal/manager/pipe.go:143-156 | at every moment of every run: with a limit the error counter is the failed pushes less those not counted yet, from the limit on the pipe is stopped or a worker is about to stop it, and no pipe counts as stopped by errors below the limit; without a limit none ever does |
| CampaignErrors.FailureAtLimit | internal/manager/pipe.go:148-155 | counting a failure marks a pipe that is not stopped as stopped by errors exactly when the failures counted reach the limit |
| CampaignStatus.StatusChanges | internal/manager/pipe.go:204-237 | the status of a campaign changes by the API, by a scan that starts it, by its refusal, and by a cleanup that pauses or finishes it, to the status stated, and by no other step |
| CampaignStatus.CheckpointChanges | queries/campaigns.sql:435-441 | the checkpoint is set by a fetch to the last id of its batch, by a flush that counted something and reaches the store to the last id counted, and by no other step |
| CampaignStatus.OtherColumnsChange | queries/campaigns.sql:216-231 | the maximum is set by a scan alone, and the sent count grows by what the store takes from scans and flushes |
| CampaignStatus.OnlyDueAreStarted | queries/campaigns.sql:181-188 | a scan starts and returns only running or scheduled campaigns that no pipe processes |
| CampaignStatus.DueCanBeFound | queries/campaigns.sql:181-188 | every running or scheduled campaign not registered at the snapshot can be found and started, from its checkpoint |
| CampaignStatus.CleanupBranches | internal/manager/pipe.go:204-237 | the branches of a cleanup by the error flag, the stop flag, the answers and the status read |
| CampaignStatus.OutcomeIsWhatWasDone | internal/manager/pipe.go:192-237 | over any run a cleanup ended paused by errors exactly when it asked for the status paused, finished exactly when it set the status finished, and wrote no status in every other case |
| CampaignStatus.ErrorsArePaused | internal/manager/pipe.go:204-214 | a pipe stopped by errors before its cleanup looks ends paused by errors, whatever else happens |
| CampaignStatus.PausedUntilSet | internal/manager/pipe.go:204-214 | once the store takes that status the campaign is paused, and until an API call sets its status it stays paused and no pipe is created for it |
| CampaignStatus.HaltedLeavesStatus | internal/manager/pipe.go:216-227 | from its flush to its end, a cleanup of a pipe stopped by hand, or of a row unreadable or no longer active, leaves the status as the API left it |
| CampaignCounts.EveryCountAccounted | internal/manager/manager.go:588-607 | at every moment of every run: successes plus counts stored twice equal the database count plus the counts in memory, in flight, not yet counted and lost, among them those of tenants that a scan did not visit |
| CampaignCounts.CountsExceedExactly | internal/manager/manager.go:588-607 | the same conservation with what the steps of the run double and lose, and the counts of a campaign exceed its successes exactly when the run doubled more than it lost and has yet to count |
| CampaignCounts.NothingDoubledExactly | internal/manager/manager.go:597-604 | a run doubles nothing of a campaign exactly when no scan of it reads a flushed counter of that campaign |
| CampaignCounts.CountsExactExactly | internal/manager/manager.go:588-607 | counts and pushes not yet counted equal the successes of a campaign exactly when the run doubled as much of it as it lost |
| CampaignCounts.NothingLostExactly | cmd/manager_store.go:156-183 | a run loses nothing of a campaign exactly when no store call leaves out a count of it, no success is counted for a pipe that is gone, and no pipe is removed with more than it flushed |
| CampaignCounts.CountsNeverExceed | internal/manager/manager.go:597-604 | unless a scan reads a flushed pipe of this campaign before it is removed, its stored and unflushed counts never exceed its successes, whatever fails |
| CampaignCounts.CountsAreExact | internal/manager/manager.go:554-570 | if moreover every store call takes the counts of this campaign that it gets and none of its successes is counted after its flush, the counts equal the successes at every moment |
| CampaignCounts.AtomicBlocksKeepCounts | internal/manager/pipe.go:192-202 | with the worker's completion block and the cleanup uninterrupted, counts never exceed successes and equal them when every store call takes what it gets |
| CampaignResume.CheckpointIsLargestSent | queries/campaigns.sql:435-441 | whatever the store answers: a flush passes a sent id or none, and every success of the pipe lies at or below the row's checkpoint after it exactly unless the store took an id while a worker had yet to count a larger one |
| CampaignResume.NobodyTwice | internal/manager/pipe.go:77-92 | over any pauses, resumptions, failures and pipes nobody gets a campaign twice, if no flush of this campaign stores a checkpoint before a larger success is counted |
| CampaignResume.AtomicBlocksRepeatNothing | internal/manager/manager.go:562-568 | with those blocks uninterrupted nobody gets a campaign twice |
| CampaignRepeats.RepeatsExactly | internal/manager/pipe.go:192-202 | from every reachable flush, whatever the store answers, some continuation of the run delivers a success of the pipe again exactly when the store takes a checkpoint from it while a worker has yet to count a larger success |
| CampaignRepeats.PastForever | internal/manager/pipe.go:77-92 | whoever the checkpoint has passed, and every pipe at work started beyond, is never delivered to again in any run |
| CampaignRepeats.AboveIsDelivered | internal/manager/manager.go:449-484 | whenever no pipe of a campaign is at work, for each id above its checkpoint the manager can be emptied, the campaign resumed and that id delivered to |
| CampaignOrder.DroppedAboveAttempted | internal/manager/manager.go:500-505 | with one worker whatever a pipe drops lies above whatever it attempted, at every moment |
| CampaignOrder.ResumeSkipsNobody | queries/campaigns.sql:435-441 | with one worker, whatever the store answers: every fetched id up to the last counted one was attempted or unrendered, and all dropped ids lie above the checkpoint after the flush exactly when nothing was dropped, or something was counted and the store took it |
| CampaignCoverage.NobodySkipped | internal/manager/pipe.go:192-202 | for any number of workers, without a flush of the campaign that leaves a dropped id at or below the checkpoint, over any pauses, pipes and resumptions: every id that the checkpoint or the start of a pipe has passed was attempted, unrendered or passed over by a fetch that it did not match, so nobody who matched throughout is skipped |
| CampaignCoverage.FinishedReachesEverybody | internal/manager/pipe.go:216-237 | when such a campaign is finished, whoever matched throughout, from the first checkpoint of the run up to the maximum id, or up to the last id fetched if the last query found it not running, was attempted or unrendered by one of its pipes |
| CampaignCoverage.OneWorkerLeaves | queries/campaigns.sql:435-441 | with one worker a run has no flush that leaves a dropped id behind exactly when every flush of a pipe that dropped something has counted something and reaches the store |
| CampaignCoverage.OneWorkerSkipsNobody | internal/manager/pipe.go:192-202 | under that condition, with one worker, nobody who matched throughout is skipped |
| CampaignCompletion.FinishedReachesOnce | internal/manager/pipe.go:216-237 | if moreover no flush stores a checkpoint before a larger success is counted, a finished campaign was delivered to whoever matched throughout exactly once, or at most once when a push to them or their rendering failed |
| CampaignCompletion.AtomicBlocksReachOnce | internal/manager/manager.go:554-570 | so it is with the worker's completion block and the cleanup uninterrupted |
| CampaignProgress.WeightStep | internal/manager/manager.go:295-330 | every step taken for a pipe lowers its weight, and no other step raises it |
| CampaignProgress.PipeLifeIsFinite | internal/manager/pipe.go:81-139 | at most as many steps are ever taken for a pipe as it weighs, whatever the scanner, the API and other pipes do |
| CampaignProgress.NeverStuck | internal/manager/manager.go:489-556 | while a pipe is live some goroutine of the manager can take a step |
| CampaignProgress.WorkIsFinite | internal/manager/manager.go:295-330 | the manager's own steps alone come to an end |
| CampaignProgress.EveryPipeIsCleanedUp | internal/manager/pipe.go:64-69 | once no such step is left, every pipe, stopped or not, has been cleaned up and nothing is registered |
| CampaignProgress.CleanupIsReached | internal/manager/pipe.go:192-197 | from every reachable state the manager's steps lead there |
| CampaignRaces.CountStoredTwice | internal/manager/pipe.go:193-202 | a reachable run with one success and a database count of two |
| CampaignRaces.SuspendedTenantLosesCount | cmd/manager_store.go:95-99 | a reachable state with one success whose count a successful scan loses, because it does not visit the tenant |
| CampaignRaces.FinishedWithoutFetching | internal/manager/pipe.go:222-233 | a reachable run that marks a campaign finished with a subscriber never fetched who matched at every query made, above the start of the pipe and up to the maximum id |
| CampaignRaces.DroppedBelowCheckpoint | queries/campaigns.sql:435-441 | a reachable run with one worker in which a flush with nothing counted leaves a dropped message below the checkpoint |
| CampaignRaces.FailedFlushStrands | internal/manager/pipe.go:199-202 | a reachable run with one worker in which a flush whose store call fails leaves a dropped message below the checkpoint although something was counted |
| CampaignRaces.DroppedThenUnmatched | queries/campaigns.sql:342-347 | a reachable run with one worker, with no flush that leaves dropped messages behind, after which a fetched subscriber is below the checkpoint and was neither attempted nor unrendered by any pipe |
| CampaignRaces.TwoWorkersCross | internal/manager/manager.go:495-505 | with two or more workers a run drops id 1 after id 2 was sent |
| CampaignRaces.OneWorkerCutsCleanly | internal/manager/manager.go:500-505 | a stop cuts the ids of every pipe in attempted below and dropped above in all runs exactly when there is one worker |
| CampaignRaces.FailedThenSent | internal/manager/pipe.go:199-202 | a reachable run with one worker in which the push to a subscriber fails and is made again by the next pipe |
| CampaignRaces.SentTwiceAfterEarlyFlush | internal/manager/manager.go:554-569 | a reachable run with one worker in which one subscriber gets the campaign twice |
| SlidingWindow.StartsApart | internal/manager/pipe.go:111-121 | the values of `slidingStart` never go back and different ones are a window apart, for any monotone clock and any mix of campaigns |
| SlidingWindow.AtMostBurstPerWindow | internal/manager/pipe.go:123-135 | at most max(rate, 2) messages are checked under one value of `slidingStart` |
| SlidingWindow.ThroughputBounded | internal/manager/pipe.go:94-135 | in the first t of a manager at most max(rate, 2) times (t / window + 1) messages are checked |
| SlidingWindow.RateOneLetsTwoThrough | internal/manager/pipe.go:113-134 | with a rate of 1, for every window length, two messages pass in one window |
| SlidingWindow.RateKeptFromTwo | internal/manager/pipe.go:111-135 | at most `rate` messages are checked under one value of `slidingStart` in all sequences of checks exactly when the rate is at least 2 |
| SlidingWindow.RateIsAvailable | internal/manager/pipe.go:111-135 | a new manager lets `rate` messages through without a wait at whatever times of its first window, and the next one may be checked from the end of the window on, and not before |
| SlidingWindow.RateAtOnce | internal/manager/pipe.go:123-135 | in particular all of them at the moment of its creation, and no further one then |
| SlidingWindow.NextWindowOpens | internal/manager/pipe.go:113-121 | a message that finds the window over opens the next one at the time then read, as its first |
| SlidingWindow.TimedConcat | internal/manager/pipe.go:99-136 | the checks of consecutive batches, of whichever campaigns, form one sequence of checks |
| PipeObject.PipeCell.constructor | internal/manager/pipe.go:49-60 | a new pipe has a count of one and all counters at zero |
| PipeObject.PipeCell.Stop | internal/manager/pipe.go:161-172 | the flag is monotone, and a stop after the first changes nothing, not even the error flag |
| PipeObject.PipeCell.OnError | internal/manager/pipe.go:143-156 | uninterrupted, it is the two steps of the state machine: each failure is counted, and one that makes the count reach the limit stops a pipe that is not stopped yet, as stopped by errors |
| PipeObject.FailuresStop | internal/manager/pipe.go:143-172 | a fresh pipe is stopped by exactly the failure with which as many as the limit have happened, and never without a limit |
| PipeObject.PipeCell.Succeeded | internal/manager/manager.go:563-568 | it is the counter step of the state machine: the last id only grows, the count grows by one |
| PipeObject.PipeCell.NewMessage | internal/manager/pipe.go:177-187 | the WaitGroup grows exactly for a message that renders |
| PipeObject.Sender.CheckWindow | internal/manager/pipe.go:111-135 | the code after one message is one check of the sliding window, between ordered clock readings |
| PipeObject.Sender.NextSubscribers | internal/manager/pipe.go:81-139 | the loop queues exactly the rendered messages of the batch in order, counts them in the WaitGroup, and its window checks form one timed sequence that ends in the new window |
| BatchRuns.BatchIsLoop | internal/manager/pipe.go:98-109 | in every run whose runner steps are those of a batch, whatever the other goroutines do in between, the messages that workers took and those in the queue are, in order, those before and those the loop queues, and the unrendered ids are the loop's |
| BatchRuns.BatchCanBeQueued | internal/manager/pipe.go:106-108 | a batch of any size can be handed over whatever the room in the queue: workers can always make room |
| ManagerObject.HandleMessage | internal/manager/manager.go:495-570 | the worker's block drops the message of a stopped pipe and otherwise pushes it, calls `Done`, and counts the success or the error |
| ManagerObject.MessageIsBlock | internal/manager/manager.go:495-570 | taken in a row, a worker's steps of the state machine leave pipe, worker and history as the block does |
| ManagerObject.Manager.StopCampaign | internal/manager/manager.go:432-438 | the registered pipe of the campaign is stopped, and no other pipe changes |
| ManagerObject.StopIsApiStep | internal/manager/manager.go:432-438 | it is the step of the API in the state machine, and no stop by errors |
| ManagerObject.Manager.GetCurrentCampaigns | internal/manager/manager.go:588-607 | the loop returns the ids with their counts in the order of the map and sets exactly these counts to zero |
| ManagerObject.SnapshotIsLoop | internal/manager/manager.go:588-607 | the snapshot step gives the pipes and counts that taking the registered pipes one by one gives, in whatever order the map yields them |
| ManagerObject.EachIsTakenOnce | internal/manager/manager.go:597-604 | taken one by one, each listed pipe gives the count it had before and is set to zero, and no other changes |
| ManagerObject.Manager.Cleanup | internal/manager/pipe.go:192-240 | the flush, the one outcome that the flags, the store's answers and the row select, and the removal of the pipe |
| ManagerObject.CleanupIsMethod | internal/manager/pipe.go:192-240 | taken in a row, the steps of a cleanup leave pipe, row and registry as the method does, on every path |
| I18n.ExpandUnfolds | internal/i18n/i18n.go:148-164 | expansion distributes over text, keeps plain tokens, and unfolds a parameter into its expanded translation |
| I18n.RankIsFree | internal/i18n/i18n.go:148-164 | the expansion does not depend on the ranking that shows it ends |
| I18n.ReplaceKeeps | internal/i18n/i18n.go:159-161 | replacing a parameter everywhere by its translation keeps the expansion, and lowers the weight when the parameter occurs |
| I18n.Translator.SubAllParams | internal/i18n/i18n.go:148-164 | for a text that mentions none of the keys that lead round in circles it ends, leaves no parameter, and gives the direct recursive expansion |
| I18n.Translator.Load | internal/i18n/i18n.go:46-58 | loading overwrites exactly the conflicting keys; a document that does not parse changes nothing |
| I18n.Translator.Ts | internal/i18n/i18n.go:86-104 | odd arguments and missing keys give their messages, otherwise the expanded values are substituted in turn; only argument values that lead round in circles are excluded |
| I18n.TsIsSimultaneous | internal/i18n/i18n.go:95-101 | for names that the parameter pattern matches, substituting in turn equals substituting all at once, the first pair of a name deciding |
| I18n.ShownIsHead | internal/i18n/i18n.go:126-132 | of a translation with bars the part before the first bar is shown, without the white space at its ends and nothing else removed |
| I18n.ShownAsIs | internal/i18n/i18n.go:68-76 | a translation without a bar is shown as it is, and a missing key as its own characters |
| I18n.NameOfLiteral | internal/i18n/i18n.go:98-98 | the name of an argument is its characters |
| I18n.ValuesByPairs | internal/i18n/i18n.go:95-98 | the arguments are taken two by two, a name and a value that is expanded |
| I18n.NamesAre | internal/i18n/i18n.go:20-20 | a parameter name is one or more of the characters that the pattern allows |
| I18n.PassesEnd | internal/i18n/i18n.go:148-164 | for a ranked map finitely many passes reach the expansion |
| I18n.TrapNeverEnds | internal/i18n/i18n.go:159-163 | a text that mentions keys whose translations all mention one of them never runs out of parameters |
| I18n.EndsExactlyOutsideTraps | internal/i18n/i18n.go:148-164 | substitution ends on a text exactly when the text mentions no such set of keys |
| I18n.EndsExactlyWithoutTrap | internal/i18n/i18n.go:148-164 | substitution ends on every text exactly when the map has no such set of keys |
| TmpTokens.Store.Set | internal/tmptokens/tmptokens.go:46-55 | a set overwrites silently and starts the tries from zero |
| TmpTokens.Store.Check | internal/tmptokens/tmptokens.go:62-90 | answer and new store of a check, with expiry and the limit on tries |
| TmpTokens.Store.Get | internal/tmptokens/tmptokens.go:94-113 | answer and new store of a fetch |
| TmpTokens.Store.Clean | internal/tmptokens/tmptokens.go:125-134 | the loop deletes exactly the expired tokens |
| TmpTokens.AnswersAreEarned | internal/tmptokens/tmptokens.go:62-113 | in every run with a monotone clock every answer is what the earlier calls alone justify: set, not taken, in time, tries left |
| TmpTokens.CleaningIsInvisible | internal/tmptokens/tmptokens.go:123-135 | runs that differ only in their cleanings give the same answer to the next call |
| TmpTokens.OneTokenGoesSoFar | internal/tmptokens/tmptokens.go:13-16 | between two sets of an id at most 15 checks and one fetch are answered |
| TmpTokens.SpentStaysSpent | internal/tmptokens/tmptokens.go:101-112 | nothing is answered after a fetch, a deletion or expiry until the id is set again |
| TmpTokens.FifteenAreServed | internal/tmptokens/tmptokens.go:77-89 | an untaken token in time answers exactly the first 15 checks, and a fetch after up to 15 |
| TmpTokens.ServedInItsTime | internal/tmptokens/tmptokens.go:62-113 | a token is served up to the last moment of its time to live and not after, whatever was called before it was set and whatever since spares it |
| TmpTokens.CleanedByTime | internal/tmptokens/tmptokens.go:125-134 | a cleaning removes exactly the tokens whose time has passed |
| OutlookStyles.ParseStyleMap | frontend/email-builder/src/outlook.ts:45-63 | the loop over the pieces builds the parsed map in the key order of a script object, whatever the case mapping |
| OutlookStyles.SetStyleValues | frontend/email-builder/src/outlook.ts:27-43 | the result is the print of the parsed style with all declarations applied in order, in the key order of a script object, whatever the case mapping |
| OutlookStyles.ParseIsClean | frontend/email-builder/src/outlook.ts:45-63 | parsing any string gives distinct, lower-case, trimmed, separator-free names and trimmed values |
| OutlookStyles.PrintParses | frontend/email-builder/src/outlook.ts:40-47 | printing then parsing is the identity on such maps in the key order of a script object, order included |
| OutlookStyles.NormalForm | frontend/email-builder/src/outlook.ts:27-43 | with no declarations, printing then parsing keeps the map of any style |
| OutlookStyles.SetThenParse | frontend/email-builder/src/outlook.ts:27-63 | parsing the result gives the old style updated by the well-formed declarations, the last of a name deciding, null or empty deleting |
| OutlookStyles.SurvivesIffWellFormed | frontend/email-builder/src/outlook.ts:37-43 | a declared value survives exactly when its name and value are ones the format can carry |
| OutlookStyles.LastEntryDecides | frontend/email-builder/src/outlook.ts:45-63 | a style that repeats a name keeps the value of the last entry that gives it |
| OutlookStyles.NoEntryGives | frontend/email-builder/src/outlook.ts:45-63 | a name that no entry gives has no value |
| OutlookStyles.EntryReads | frontend/email-builder/src/outlook.ts:50-60 | an entry is split at its first colon |
| OutlookStyles.TrimTakes | frontend/email-builder/src/outlook.ts:48-58 | trimming takes white space off both ends and nothing else |
| OutlookStyles.PrintIs | frontend/email-builder/src/outlook.ts:40-42 | what is printed is name, colon and value of each entry, with semicolons between the entries |
| OutlookStyles.NumbersComeFirst | frontend/email-builder/src/outlook.ts:45-63 | names that are numbers below 2^32 - 1 come before all others, in their own order |
| SafeTemplate.NoAngles | frontend/email-builder/src/outlook.ts:143-151 | no angle bracket is left for the HTML parser |
| SafeTemplate.WrittenAs | frontend/email-builder/src/outlook.ts:137-151 | what is written for each character, to the letter |
| SafeTemplate.ReadsBack | frontend/email-builder/src/outlook.ts:137-151 | the quoted string reads back as the markup, up to its own closing quote, exactly when the markup has no line break |
| SafeTemplate.ExpressionCarriesMarkup | frontend/email-builder/src/outlook.ts:143-151 | so does the string inside the whole template expression |
| TenantPath.CleaningIsConfluent | internal/media/tenantpath.go:18-18 | in whatever order the cleaning rules are applied until none applies, the result is the left-to-right stack of components |
| TenantPath.CleaningEnds | internal/media/tenantpath.go:18-18 | the rules reach that result in at most as many steps as there are components |
| TenantPath.AcceptsExactly | internal/media/tenantpath.go:14-38 | a key is accepted exactly when it has no backslash, stays below the root and, for a tenant, its first UUID-shaped component is that tenant; the key is then the joined components |
| TenantPath.RefusesExactly | internal/media/tenantpath.go:14-38 | which of the three errors a refused key gets |
| TenantPath.AcceptedIsStable | internal/media/tenantpath.go:14-38 | an accepted key has no empty, `.` or `..` component and is returned unchanged when validated again |
| SubscriberExport.Exporter.Next | internal/core/subscribers.go:274-288 | a fetch returns the next page and moves the cursor to its last id; an error or an empty page leaves it |
| SubscriberExport.Exporter.Export | cmd/subscribers.go:239-260 | the loop writes the pages in turn until one is empty or fails, or the writer fails, which cuts the rows where it failed |
| SubscriberExport.QueryIs | queries/subscribers.sql:320-344 | a page is ascending, matches, lies above the cursor, and what it leaves out lies above all of it |
| SubscriberExport.PageIsFull | queries/subscribers.sql:320-344 | a page is at most as long as the batch size, and leaves a matching id out only if it is that long |
| SubscriberExport.CutIs | cmd/subscribers.go:248-256 | a writer that fails leaves the rows written before, and the loop does not come to its end |
| SubscriberExport.ExportIsIncreasing | internal/core/subscribers.go:274-288 | exported ids rise strictly, whatever changes between the fetches |
| SubscriberExport.OnlyMatching | internal/core/subscribers.go:276-282 | every exported id matched at the fetch that exported it |
| SubscriberExport.ExportedExactlyOnce | internal/core/subscribers.go:274-288 | when the iterator comes back empty, every subscriber that matched at every fetch was exported exactly once |
| SubscriberExport.QuietExport | cmd/subscribers.go:239-260 | with nobody changing the rows the export ends and equals the matching ids |
| Importer.Session.IncrementImportCount | internal/subimporter/importer.go:249-254 | the count grows by the size of the batch |
| Importer.Session.Run | internal/subimporter/importer.go:274-364 | the queue loop with its transactions gives the committed batches, the count and the status of the specification |
| Importer.ImportConserves | internal/subimporter/importer.go:289-334 | whatever fails, the count is the number of records in committed transactions, those are in queue order without repeats, and every other record is one accounted loss |
| Importer.EachFailureCosts | internal/subimporter/importer.go:289-334 | a transaction that cannot be begun loses exactly its record, a failed insert loses the open transaction and stops the session, a failed commit loses exactly its transaction, and otherwise the record is kept |
| Importer.StoppedReadsNothing | internal/subimporter/importer.go:289-318 | once stopped the session changes nothing for the records left |
| Importer.CompleteIffSmooth | internal/subimporter/importer.go:322-364 | the whole queue is committed exactly when no call fails, then in order, in as few transactions as the batch size allows, and the session ends finished |
| Importer.FailedExactly | internal/subimporter/importer.go:336-357 | the session ends failed exactly when its last transaction holds records and its next insert or its commit at the end of the queue fails, and finished in every other case |
| Importer.FinishedWithLosses | internal/subimporter/importer.go:336-346 | when the first insert fails, nothing is imported and the session ends finished |
| Upgrade.MigrationsRise | cmd/upgrade.go:28-48 | the migration list is strictly increasing and contains the one that makes the settings table |
| Upgrade.OrderOfVersions | cmd/upgrade.go:125-141 | versions are totally ordered by major, minor and patch number |
| Upgrade.Database.GetPendingMigrations | cmd/upgrade.go:125-141 | the suffix found is exactly the migrations above the last recorded version |
| Upgrade.Database.Upgrade | cmd/upgrade.go:53-98 | the loop runs and records as specified, for every point of death |
| Upgrade.RunsAreSafe | cmd/upgrade.go:66-98 | over any runs that die anywhere, recording or not, no migration begins before every earlier one has succeeded and recorded versions rise strictly |
| Upgrade.RunApplies | cmd/upgrade.go:78-82 | a run applies a prefix of what was pending in order, and all of it when it gets to its end |
| Upgrade.NothingPendingIffRecorded | cmd/upgrade.go:84-95 | after a completed run nothing is pending exactly when there was nothing to do or versions were recorded and the settings table exists; otherwise all of it is pending again |
| TenantCache.Store.CacheCampaignTenant | cmd/manager_store.go:101-110 | what is remembered, and under which identifiers |
| TenantCache.Store.CampaignTenant | cmd/manager_store.go:52-93 | a hit answers from the caches, a miss is the scan over the active tenants and is remembered |
| TenantCache.Store.SubscriberTenant | cmd/manager_store.go:112-142 | the same for subscribers |
| TenantCache.Store.NextCampaigns | cmd/manager_store.go:156-183 | the due campaigns of all active tenants in turn or nothing, with the caches filled up to the first failure |
| TenantCache.Store.NextSubscribers | cmd/manager_store.go:189-224 | the batch of the campaign's tenant, with all its subscribers remembered |
| TenantCache.CallsAreTruthful | cmd/manager_store.go:52-142 | after any calls in any changing database the caches hold nothing but true owners |
| TenantCache.AnswersAgreeWithScan | cmd/manager_store.go:52-93 | every answer is the owner, a miss is the scan's answer, and a hit differs from the scan exactly when the scan finds no row |
| TenantCache.SubscribersAgreeWithScan | cmd/manager_store.go:112-142 | the same for subscribers |
| TenantCache.FoundInRows | cmd/manager_store.go:71-93 | a miss answers the first active tenant that has a row with that id or UUID, if none up to it fails |
| TenantCache.BrokenByTenants | cmd/manager_store.go:71-93 | a miss fails exactly when the tenants cannot be listed or one of them fails before a row is found |
| TenantCache.NotFoundInRows | cmd/manager_store.go:71-93 | a miss finds nothing exactly when no active tenant fails and none has a row |
| TenantCache.UnreadableUuid | cmd/manager_store.go:63-70 | a UUID that cannot be read is refused before any tenant is looked at |
| TenantCache.SubscriberFoundInRows | cmd/manager_store.go:119-142 | a miss answers the first active tenant that has the subscriber, if none up to it fails |
| TenantCache.SubscriberNotFoundInRows | cmd/manager_store.go:119-142 | a miss finds nothing exactly when no active tenant fails and none has the subscriber |
| TenantCache.DueIsJoined | cmd/manager_store.go:161-183 | the campaigns returned are those due in each active tenant, in turn, or nothing when one fails |
| TenantCache.FoundStaysFound | cmd/manager_store.go:52-62 | a campaign found once, by id or UUID, is found ever after whatever was called in between, even when every tenant fails |
| TenantCache.ReturnedIsKnown | cmd/manager_store.go:178-224 | what a fetch of campaigns or subscribers returned is known afterwards under its owner |
| Attachments.ApplyTag | internal/manager/manager.go:742-767 | one tag is rewritten exactly when its source resolves, and adds a part exactly when the source is new |
| Attachments.TagBecomes | internal/manager/manager.go:742-767 | a tag whose file the store knows becomes a reference to its content id, and a reference in any letter case and every other tag stay as they are |
| Attachments.ApplyInlineImages | internal/manager/manager.go:736-770 | the pass rewrites every resolved tag and collects the parts of the sources not seen before, in order |
| Attachments.Campaign.LoadInlineImages | internal/manager/manager.go:712-727 | body and template share one cache of sources; a plain campaign is left alone |
| Attachments.Campaign.AttachMedia | internal/manager/manager.go:691-708 | media are attached up to the first that cannot be fetched, unless some are there already |
| Attachments.FetchedAre | internal/manager/manager.go:697-705 | the media attached are those listed before the first that cannot be fetched, in order |
| Attachments.LoadTwice | internal/manager/manager.go:712-727 | loading again changes nothing |
| Attachments.OnePartPerSource | internal/manager/manager.go:752-761 | the parts of a content id are as many as the distinct sources that resolve to it |
| Attachments.CallsAttachOnce | internal/manager/manager.go:691-770 | after any calls in any order without a fetch error there is one part per distinct resolved source and one attachment per media id |
| Attachments.RepeatingChangesNothing | internal/manager/manager.go:688-727 | repeating a call of a kind made before changes nothing |
| Attachments.EveryReferenceHasPart | internal/manager/manager.go:762-767 | after any calls in any order of which one loaded the images, fetch errors or not, every image that resolves refers to its content id and has its part |
| Attachments.SameFileTwice | internal/manager/manager.go:752-761 | two sources of one file attach it twice under one content id |
| Attachments.RetryAfterError | internal/manager/manager.go:691-705 | attaching again after an error completes the media exactly when the error came at the first of them |

## Left out

- Interleavings inside the snapshot of the counts, inside a worker's counter updates and inside a cleanup's counter
  reads: each is one step, so two workers that race between the load and the store of `lastID` are not modelled.
- The loops of `Run` and `scanCampaigns` around the batch and the new pipes: their selects and early releases are steps
  of the state machine only.
- Rows of `campaigns` are not deleted, and ids are natural numbers without the width of the database's integers.
- A fetch whose transaction fails to commit after its rows were read counts as a failed fetch.
- The message rate pause of a worker, the ad-hoc message queue, and `Manager.Close`.
- Rendering, templates, MIME and the delivery of a push: abstract operations that may fail.
- PipeObject.Sender.NextSubscribers: the blocking send on the bounded queue appends without a limit here; with the bound
  and the other goroutines the loop is `BatchRuns`.
- I18n.Translator.SubAllParams: strings are flat sequences of characters and braced groups; nested or unbalanced braces
  and a bar inside braces are not modelled.
- I18n.TsIsSimultaneous: argument names outside the parameter pattern may still be replaced inside earlier values.
- The plural forms of `Tc`, and building an `I18n` from JSON.
- OutlookStyles: the case mapping is a parameter, of which the results about parsed maps use that it is idempotent and
  brings in neither outer white space nor a colon or semicolon. `appendMissingStyles` and the passes over the document
  are left out.
- SafeTemplate: of the escapes of the template language only those that the builder writes are read back, and the
  character references that the HTML parser decodes in the markup are not modelled.
- TenantPath: `path.Clean` is modelled by its documented rules; the UUID test is a parameter.
- The count and validation queries before an export, and the CSV quoting; rows are known by their ids.
- Importer: a commit that fails has committed nothing; `Stop`, file reading, domain lists and notifications are left out.
- Upgrade: a migration's own statements, and the control plane's migrations after it.
- TenantCache: one call at a time, since concurrent fills write the same owners; row-level security is the ownership of
  the rows that a transaction sees; a campaign named by id and UUID together does not occur in the code.
- TenantCache.Store.NextSubscribers: a commit error after the subscribers were remembered is not told apart.
- Attachments: bodies are sequences of text and tags with one source each; HTML parsing is left out.
- The link cache of the manager, the query plan walk of subscriber queries, settings, sessions, HTTP handlers and SMTP.
