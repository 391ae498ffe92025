# A verified model of the news screen

The repository drives a Kindle as a wall display: a supervisor decides who may draw (a clock and
news worker, or a timed alert), a Redis store keeps the news queues, and a few algorithms prepare
what is drawn. This project models that behaviour in Dafny and proves what the code promises about
it. `dafny verify dfyconfig.toml` checks all of it.

## What is modelled

**The display-ownership protocol** (`Supervisor`, `SupervisorInvariant`, `SupervisorLoop`,
`SupervisorObject`, `NewsWorkflow`, `AlertRun`, `Runs`, and the results in `Guarantees`,
`Lifecycle`, `Shutdown`, `ReconcileResult`, `StrandedAlerts`, `Recovery`, `RefreshSignals`,
`Witnesses`).
A `World` is the supervisor's own record together with everything it acts on: the news goroutine
with its two children, the alert goroutine, a bag of timers and messages under way, the one-slot
refresh channel, the application context, and histories of display calls, presenter calls,
accepted alerts, their fates, and published results. An event is a caller's command, the arrival
of any message in the bag, one step of a goroutine, or the end of the parent context; `Exec` runs
any finite sequence of events, so a statement about `Exec(Initial(cfg), evs)` speaks about every
interleaving, every order of messages, every worker error at every moment and every outcome of
`display.Start` and `display.Stop`. The executable forms are the classes `SupervisorObject.Loop`
and `NewsWorkflow.Activation`; every method is proved equal to the specification function that the
theorems are about, and `Loop.Iterate` (one turn of the endless loop) keeps the invariant of the
composed system.

**The news store and the drain pass** (`Text`, `NewsStore`, `PushLog`, `GenreSet`, `GenreRuns`,
`Wheel`, `Dashboard`, `PushedQueue`, `PassRuns`, `PassRepeats`).
Lists, the genre set, the expiring deduplication keys and the dead-letter list are the fields of a
class; each Redis command and each Lua script is one atomic step. `Next`, `Push`, `Genres` and
`drainGenre` are loops over those steps, proved against functions on the database; the theorems
are about any number of calls. `GenreRuns` and the last three modules let pushes fall anywhere
between the commands of `Genres` and between the calls of a pass.

**Images** (`PreparedImages`, `LocalContrast`, `StoryBackground`). The prepared-image cache is a
map, an order and a byte counter, proved to be a least-recently-used cache over whole histories.
The integral-image filter fills a flat array and is proved to compute the brute-force window mean.
The histogram, the percentiles, and the row loop are proved against their definitions.

**Shell commands** (`ShellWords`, `KindleCommands`). A reader for the quoting rules of section 2.2
of the POSIX.1-2017 Shell Command Language (single quotes, double quotes, backslashes, blanks,
`&&`) is the partner of `shellQuote`; the clock screen's commands are written as their format
strings write them and read back.

**The schedule** (`Schedule`, `Startup`). Instants are nanoseconds since a midnight of a zone with a
fixed offset; the daily jobs fire on every day, past and future. `Startup` joins them to the
supervisor: main's reconciliation, then the jobs heard, as requests of a run.

## Where the code and what is said about it differ

- The repository's README (line 102) says that ticks arriving during a pass end in one follow-up
  pass. `NewsWorkflow.OneFollowUpIff` says exactly when at most one is assured, and `TwoFollowUps`
  that every pass can come to the state in which it is not. `OwedIsAttained` and
  `PassesBoundedBySignals` give the maximum in every state; fewer may follow, because the select can
  take a signal during the pass (`SecondSignalMayMerge`).
- The comment on `startNews` says that a started worker gets no immediate kick. `NewWorkerOwesIff`:
  it gets one exactly if a signal was left in the channel, which `Witnesses.KickIsReachable` reaches.
- The comment on `drainGenre` says each story is shown once. With nothing pushed during the pass,
  `Dashboard.ShownOnceIff` and `StoriesOnceIff` give the exact condition, and `StoryIsShownTwice` is
  the shortest queue on which it fails. Pushes change it: `PassRuns.FoundIff` says exactly when an
  item is found whatever is pushed between the calls, `PassOnceIff` when a pass over decodable items
  finds each of them once, `PassRepeats.RepeatsIff` when nothing is found twice; `PushHidesStory` is
  a pass that misses a story, and `AlwaysBehind` says that pushes can starve one for good.
- `Next` decodes every attempt into one variable, so a story can come back with fields of a bad item
  behind it. `NewsStore.NextIsCleanIff` says exactly when it does not, `TitleIsStale` gives an input.
- `main` looks at the window before it arms the jobs, and a job firing in between is never heard.
  `Schedule.RestartAgreesIff` says exactly when the process still asks for what the window says,
  `StartIsMissed` gives an input on which it does not. A job can also be refused by a full command
  queue; `AcceptedAgreesIff` and `Startup.WantedIffWindow` allow for that.
- `reconcile` is not always idempotent: `ReconcileResult.IdempotentIff` gives the exact case, the
  last alert of a temporary display ending after the display became wanted for its own sake. Then
  the display is off although wanted, and `Witnesses.OffThoughWantedIsReachable` reaches that state.
  `Recovery.OffIff` and `RunOffIff` say that it stays off exactly until the next command that reaches
  reconcile.
- An accepted alert can wait with no worker to start it: `StrandedAlerts.StrandedIff` and
  `RunStrandsIff` say exactly when, `Witnesses.StrandedIsReachable` reaches it with a working
  display, and `RetryIgnoresStranded` shows that the armed retry does not help.
- `Genres` is not atomic: `GenreRuns.MissingIff` says exactly when pushes and calls of `Next` between
  its commands leave the set without a stocked genre, and `ReturnedIff` which genres are returned.

## Model

| member | source | states |
|---|---|---|
| `Guarantees.SinglePainter` | internal/supervisor/supervisor.go:339-470 | In every reachable state at most one of the clock, a news pass and an alert draws, news and alert are never both live, display.Start and display.Stop were only called with no worker live, and whoever draws finds the display on. |
| `Guarantees.AlertsConserved` | internal/supervisor/supervisor.go:216-270 | Over every run the accepted alerts are, in order, those with a decided fate followed by those waiting, and the presenter was asked to show exactly the started ones, in that order. |
| `Guarantees.ReconcileFates` | internal/supervisor/supervisor.go:343-379 | Reconcile drops no alert (its cancelAll always finds the queue empty) and starts at most one, the head of the queue. |
| `Guarantees.NextFates` | internal/supervisor/supervisor.go:216-270 | One event drops alerts only if it is an unexpired Shutdown, Reconcile(false) or Stop request, and then all of them; any other event starts at most one and drops none. No event accepts more than one. |
| `Guarantees.NoCancellationNoLoss` | internal/supervisor/supervisor.go:479-492 | Between cancellations the waiting alerts plus those accepted since are those started since, in order, followed by those still waiting. |
| `Guarantees.DisplayingIsNext` | internal/supervisor/supervisor.go:255-270 | An alert acknowledged as "displaying" is, in every continuation, the next one whose fate is decided. |
| `Guarantees.CapacityRespected` | internal/supervisor/supervisor.go:246-263 | In every reachable state the queue is within AlertQueueCapacity (plus one head alert while none is running) and the reported length leaves out exactly that head. |
| `Lifecycle.LabelsAreTrue` | internal/supervisor/supervisor.go:339-392 | In every reachable state the lifecycle label is true of the goroutines and the display: off means none live and the display off, running means news uncancelled and no alert waiting, and so on; starting is never seen. |
| `Lifecycle.RepliesAreTrue` | internal/supervisor/supervisor.go:310-328 | Every reply that reports the state reports the state at that moment with a truthful label. |
| `Lifecycle.CompletionsAreCurrent` | internal/supervisor/supervisor.go:271-305 | In every reachable state a completion message under way carries the current run number, its worker is gone, and there is no second one. |
| `Lifecycle.TimeoutOnlyWhileStopping` | internal/supervisor/supervisor.go:291-295 | A stop timeout changes the record only while its own worker is current and stopping, then only marks the failure; while news is running nothing is started, so no worker starts over a hung one. |
| `Lifecycle.NextRuns` | internal/supervisor/supervisor.go:430-470 | In one event each run counter stays or grows by one; it grows only when no worker is live, and then that run is the live worker; during shutdown neither grows. |
| `Shutdown.StopRequest` | internal/supervisor/supervisor.go:313-335 | The Stop request ends the loop at once exactly if no worker is running, and calls the display at most for the final Stop. |
| `Shutdown.CompletionEndsLoop` | internal/supervisor/supervisor.go:329-335 | While shutting down, the first completion message handled ends the loop. |
| `Shutdown.OneCancelledWorker` | internal/supervisor/supervisor.go:313-320 | While shutting down the loop waits for exactly one worker, and it has been cancelled. |
| `Shutdown.StopIsFinal` | internal/supervisor/supervisor.go:313-335 | From every reachable state and for every continuation after Stop: no worker is started again, the only further display call is one Stop at the end, at most one completion is handled and it ends the loop, and at the end no worker is live and exactly that Stop's result was published. |
| `Shutdown.SomethingIsPossible` | internal/supervisor/supervisor.go:313-335 | While shutting down a cancelled worker can take a step or its completion can be handled; nothing is stuck. |
| `Shutdown.StopTerminates` | internal/supervisor/supervisor.go:313-335 | After Stop, whatever follows, the workers take at most six steps altogether and one completion is handled at most; until the loop has ended one of those is possible. |
| `ReconcileResult.IdempotentIff` | internal/supervisor/supervisor.go:339-392 | With a working display reconcile is idempotent if and only if no temporary display has been outlived by DesiredOn with no alert running or waiting. |
| `ReconcileResult.OutlivedTwice` | internal/supervisor/supervisor.go:380-387 | In that case reconcile turns the display off although it is wanted, and a second reconcile turns it on. |
| `ReconcileResult.ReconcileAchieves` | internal/supervisor/supervisor.go:339-392 | Otherwise, outside shutdown, reconcile leaves a worker for every waiting alert, news running if wanted without alerts, and the display off if unwanted and free. |
| `StrandedAlerts.SkipsIff` | internal/supervisor/supervisor.go:205-312 | The commands that `continue` before reconcile are exactly those whose guards hold beforehand: an expired caller, a snapshot, a refused alert, a stale completion, a news failure while wanted, a retry that is not needed. |
| `StrandedAlerts.StrandedIff` | internal/supervisor/supervisor.go:237-309 | Exactly when one command leaves an accepted alert with no worker, in terms of the state before it: if it skips reconcile, one was left already or it is the news worker's failure while an alert waits; otherwise an alert waits or comes, is not dropped, the display is off, and no allowed attempt to start it succeeds. |
| `StrandedAlerts.RunStrandsIff` | internal/supervisor/supervisor.go:271-299 | Over every run from the start in which the display can be started: an alert is left with no worker if and only if such a failure was handled and every command since then skipped reconcile. |
| `StrandedAlerts.FailureIsSkipped` | internal/supervisor/supervisor.go:278-289 | A news completion skips reconcile if and only if it is a real error while the display is wanted and not shutting down. |
| `StrandedAlerts.RetryIgnoresStranded` | internal/supervisor/supervisor.go:296-299 | The armed retry changes nothing while an alert waits with no worker. |
| `Recovery.OffIff` | internal/supervisor/supervisor.go:339-392 | With a working display and outside shutdown, in terms of the state before the command: the display is off though wanted afterwards if and only if it was so before and the command skips reconcile, or the command reaches reconcile and ends the last alert of a temporary display that has become wanted. |
| `Recovery.RunOffIff` | internal/supervisor/supervisor.go:380-387 | Over every run from the start with a working display and no shutdown: the display is off though wanted if and only if such an end was handled and every command since then skipped reconcile. |
| `Recovery.NewsComesBack` | internal/supervisor/supervisor.go:278-299 | Over every run from the start with a working display: whenever the display is on and wanted with no worker and no waiting alert, a retry of the current run is on its way, and handling it starts news. |
| `Witnesses.StrandedIsReachable` | internal/supervisor/supervisor.go:278-299 | A run from the start, with a working display, in which an accepted alert ends up waiting with no worker. |
| `Witnesses.OffThoughWantedIsReachable` | internal/supervisor/supervisor.go:380-387 | A run from the start that ends with the display off although it is wanted. |
| `Witnesses.KickIsReachable` | internal/supervisor/supervisor.go:226-299 | A run from the start in which a news worker is started with a signal already in the channel. |
| `SupervisorInvariant.TryStartSucceedsIff` | internal/supervisor/supervisor.go:394-413 | Starting the display succeeds if and only if some attempt within the retry count succeeds before one fails without its pause; no call follows the first success and there are never more calls than retries. |
| `SupervisorLoop.HandleKeeps` | internal/supervisor/supervisor.go:196-337 | One iteration of the loop, for any command that can arrive and any behaviour of the display, keeps the invariant of the composed system. |
| `Runs.EveryRunKeeps` | internal/supervisor/supervisor.go:196-492 | Every run of supervisor, worker, alert and timers keeps the invariant. |
| `SupervisorObject.Loop.constructor` | internal/supervisor/supervisor.go:196-198 | A new loop is in the initial state, which satisfies the invariant. |
| `SupervisorObject.Loop.TryToStart` | internal/supervisor/supervisor.go:396-412 | The retry loop makes the calls and returns the result and last error of the recursive specification. |
| `SupervisorObject.Loop.StartDisplay` | internal/supervisor/supervisor.go:394-413 | The new record, the display calls and the error are those of the specification. |
| `SupervisorObject.Loop.StopDisplay` | internal/supervisor/supervisor.go:414-429 | The same for stopDisplay, whose call is made whatever the flag says. |
| `SupervisorObject.Loop.StartNews` | internal/supervisor/supervisor.go:430-447 | Does nothing while news runs; otherwise a worker with a new run number is live and its cancel function is held. |
| `SupervisorObject.Loop.StopNews` | internal/supervisor/supervisor.go:448-457 | Cancels the running worker once and arms its stop timer. |
| `SupervisorObject.Loop.StartAlert` | internal/supervisor/supervisor.go:458-470 | An alert worker with a new run number is live and Show is its first call. |
| `SupervisorObject.Loop.CancelAll` | internal/supervisor/supervisor.go:479-492 | Stops news, cancels the alert, drops every waiting alert. |
| `SupervisorObject.Loop.TurnOff` | internal/supervisor/supervisor.go:344-356 | The branch of reconcile for an unwanted display, as specified. |
| `SupervisorObject.Loop.UseDisplay` | internal/supervisor/supervisor.go:362-391 | The branches of reconcile with the display on, as specified. |
| `SupervisorObject.Loop.Reconcile` | internal/supervisor/supervisor.go:339-392 | The new world and the error are those of the function the theorems about reconcile speak of. |
| `SupervisorObject.Loop.Enqueue` | internal/supervisor/supervisor.go:237-270 | The three refusals, and otherwise the queue, the reported length, the pause of news and the acknowledgement, as specified. |
| `SupervisorObject.Loop.NewsEnded` | internal/supervisor/supervisor.go:271-290 | Stale messages are skipped; a failure while wanted arms a retry and skips reconcile. |
| `SupervisorObject.Loop.AlertEnded` | internal/supervisor/supervisor.go:300-309 | Stale messages are skipped; otherwise the alert's fields are cleared and a real error recorded. |
| `SupervisorObject.Loop.Leave` | internal/supervisor/supervisor.go:313-319 | cmdStop: everything is cancelled, and with it the application context. |
| `SupervisorObject.Loop.Forward` | internal/supervisor/supervisor.go:226-236 | Offers a signal only while news runs and is not stopping. |
| `SupervisorObject.Loop.Dispatch` | internal/supervisor/supervisor.go:213-320 | The switch as code does what the switch as function does, including which cases skip reconcile. |
| `SupervisorObject.Loop.Finish` | internal/supervisor/supervisor.go:329-335 | The last display.Stop, the published result and the return. |
| `SupervisorObject.Loop.Settle` | internal/supervisor/supervisor.go:321-335 | Reconcile, the reply, and the end of the loop if shutting down with no worker. |
| `SupervisorObject.Loop.Iterate` | internal/supervisor/supervisor.go:199-337 | One turn of the loop gives the specified world and reply and keeps the system's invariant. |
| `NewsWorkflow.StepKeeps` | internal/newsworkflow/worker.go:63-145 | Every step of the worker or its goroutines keeps the invariant, and a worker that returns has joined its clock and cycle goroutines first. |
| `NewsWorkflow.OnePainter` | internal/newsworkflow/worker.go:81-144 | At most one of ShowClock, the clock goroutine and the cycle goroutine runs. |
| `NewsWorkflow.StepSpends` | internal/newsworkflow/worker.go:68-103 | A step never increases passes started plus passes owed, also when the worker returns. |
| `NewsWorkflow.PassesBoundedBySignals` | internal/newsworkflow/worker.go:63-105 | In any history of an uncancelled worker the passes started plus those still owed are at most those owed at the beginning (at most two) plus the signals sent. |
| `NewsWorkflow.DueProgress` | internal/newsworkflow/worker.go:63-154 | While a pass is due, every step starts one, comes strictly closer to one, or returns a real error. |
| `NewsWorkflow.DueEnabled` | internal/newsworkflow/worker.go:63-154 | While a pass is due some step is always possible. |
| `NewsWorkflow.SignalIsServed` | internal/newsworkflow/worker.go:60-154 | In any history of a worker that goes on working, a signal is followed by a pass that starts after it, within a bounded number of the worker's steps. |
| `NewsWorkflow.CancelledProgress` | internal/newsworkflow/worker.go:63-154 | Every step of a cancelled worker brings it closer to its return, at most six steps away, even where the code still starts a pass. |
| `NewsWorkflow.CancelledEnabled` | internal/newsworkflow/worker.go:63-154 | A cancelled worker is never stuck. |
| `NewsWorkflow.OwedIsAttained` | internal/newsworkflow/worker.go:60-105 | Without further signals or failures a worker can start exactly the owed number of passes, so the bound is exact. |
| `NewsWorkflow.OneFollowUpIff` | internal/newsworkflow/worker.go:85-105 | During a pass of a worker in which nothing has failed, at most one follow-up pass is assured without further signals if and only if not both `pending` is set and a signal sits in the channel. |
| `NewsWorkflow.TwoFollowUps` | internal/newsworkflow/worker.go:92-94 | In every pass that state can come about: a tick, its receipt and a second tick leave two passes owed, the maximum. |
| `NewsWorkflow.SecondSignalMayMerge` | internal/newsworkflow/worker.go:92-94 | In that state the select may take the second signal during the same pass, and then one pass is owed. |
| `NewsWorkflow.Activation.React` | internal/newsworkflow/worker.go:63-145 | The loop as code reacts to any event as the specified process does. |
| `NewsWorkflow.Activation.LoopHead` | internal/newsworkflow/worker.go:64-83 | The head of the loop: return, one-shot clock, or live clock. |
| `NewsWorkflow.Activation.PaintedOnce` | internal/newsworkflow/worker.go:108-116 | After the one-shot clock: a real error or the context's end returns, otherwise the pass starts. |
| `NewsWorkflow.Activation.ClockSelect` | internal/newsworkflow/worker.go:129-144 | The three cases of the clock's select. |
| `NewsWorkflow.Activation.PassSelect` | internal/newsworkflow/worker.go:86-102 | The three cases of the pass's select. |
| `NewsWorkflow.Activation.WaitForRefresh` | internal/newsworkflow/worker.go:147-154 | Waits for a signal or the context's end. |
| `AlertRun.Run` | internal/alert/worker.go:8-23 | The code's result and presenter calls are those of the stepwise process, for every result of Show and Clear. |
| `AlertRun.ShownIsCleared` | internal/alert/worker.go:8-23 | However it is scheduled, an alert that was shown is cleared exactly once before Run returns, one whose Show failed never is, and nil is only returned after a Clear that succeeded. |
| `RefreshSignals.RequestsAreForwarded` | internal/supervisor/supervisor.go:226-236 | In every state an unexpired request for a pass leaves a signal in the channel exactly if the news flag is set and news is not stopping; otherwise the channel is untouched. |
| `RefreshSignals.ForwardedIsDue` | internal/supervisor/supervisor.go:226-236 | A forwarded request makes a pass due if the worker is live; if the worker has returned unnoticed, nobody owes it and the signal stays for the next worker. |
| `RefreshSignals.NewWorkerOwesIff` | internal/supervisor/supervisor.go:430-447 | A started worker owes a pass from the beginning if and only if a signal was left in the channel. |
| `RefreshSignals.SignalsAreServed` | internal/supervisor/supervisor.go:226-236 | In the whole system, while one worker keeps working, a due pass starts within a bounded number of its steps, and passes never exceed those owed plus the signals sent. |
| `RefreshSignals.PassesNeverExceedSignals` | internal/newsworkflow/worker.go:60-145 | Over every run and all workers: passes started are at most signals taken, at most signals sent, and the clock is shown between any two passes. |
| `RefreshSignals.NeverRevives` | internal/supervisor/supervisor.go:430-457 | A worker told to stop, or gone, never works again in any continuation. |
| `PreparedImages.Device.GetPreparedImage` | internal/kindle/story.go:184-200 | The map, order and counter behave as one lookup in the abstract cache: the stored bytes, and the key moved to the recent end. |
| `PreparedImages.Device.PutPreparedImage` | internal/kindle/story.go:202-224 | The eviction loop and insertion behave as one insertion into the abstract cache, and map, order and counter stay consistent. |
| `PreparedImages.Device.EvictOldest` | internal/kindle/story.go:216-219 | Removes exactly the first entry and its bytes. |
| `PreparedImages.EvictsShortestPrefix` | internal/kindle/story.go:214-220 | Eviction removes the shortest prefix of least recently used images that leaves room under both budgets. |
| `PreparedImages.EvictedIff` | internal/kindle/story.go:214-223 | An image survives an insertion if and only if it and everything more recent leave room for the new one. |
| `PreparedImages.AddKeeps` | internal/kindle/story.go:202-224 | Insertion keeps both budgets and the absence of duplicates; the new image is the most recent, and only the old end is cut. |
| `PreparedImages.TouchKeeps` | internal/kindle/story.go:191-198 | A hit keeps the same images and moves its own to the recent end. |
| `PreparedImages.OrderedByLastUse` | internal/kindle/story.go:184-224 | After every history of calls the cache is well formed and ordered by the time of last use. |
| `PreparedImages.HitsReturnWhatWasPut` | internal/kindle/story.go:187-221 | After every history, whatever is cached is what the latest insertion under its key stored. |
| `LocalContrast.FourCorners` | internal/kindle/story.go:553 | For every image and window the four-corner expression equals the pixel-by-pixel sum. |
| `LocalContrast.Integral` | internal/kindle/story.go:537-546 | The nested loops fill the flat array with exactly the prefix sums. |
| `LocalContrast.Lookup` | internal/kindle/story.go:553 | The four array reads give the brute-force sum of the clipped window. |
| `LocalContrast.EnhanceLocalContrast` | internal/kindle/story.go:528-561 | Every output pixel is the clamped unsharp value of the brute-force mean with Go's truncating division; improper parameters copy the image. |
| `LocalContrast.MeanBetween` | internal/kindle/story.go:554 | The mean lies between any bounds of the window's pixels. |
| `LocalContrast.EnhancedAwayFromMean` | internal/kindle/story.go:555-557 | A pixel never moves toward the local mean, flat windows are fixed points, and the result is a grey level. |
| `LocalContrast.EnhancedIsLocal` | internal/kindle/story.go:550-557 | A result depends on nothing outside its window. |
| `LocalContrast.PrefixBounded` | internal/kindle/story.go:539-544 | No entry of the integral image exceeds 255 per pixel, so 64-bit sums do not wrap. |
| `StoryBackground.Histogram` | internal/kindle/story.go:564-569 | The loops count, for each level, the pixels of exactly that level. |
| `StoryBackground.ValueAt` | internal/kindle/story.go:571-581 | The scan returns the least level whose cumulative count reaches the target. |
| `StoryBackground.GrayscalePercentiles` | internal/kindle/story.go:563-583 | Both results are those percentiles. |
| `StoryBackground.PercentileUnique` | internal/kindle/story.go:571-581 | The definition determines the level. |
| `StoryBackground.PercentilesOrdered` | internal/kindle/story.go:570-582 | A higher percentile is never darker, and on a nonempty image the target is really reached. |
| `StoryBackground.BoundsApart` | internal/kindle/story.go:499-503 | After the flat-image fallback the bounds differ by at least 32, so the tone division is defined. |
| `StoryBackground.ToneMonotone` | internal/kindle/story.go:585-595 | For any monotone curve of the unit interval, levels map monotonically into 16..132. |
| `StoryBackground.DrawnRange` | internal/kindle/story.go:506-516 | In every row the whole mapping is monotone with values in 12..132, and in the copy band at most 99. |
| `StoryBackground.DrawRows` | internal/kindle/story.go:506-516 | The row loop draws exactly that mapping. |
| `StoryBackground.Prepare` | internal/kindle/story.go:477-516 | The pipeline from the resized image on: contrast, percentiles, fallback and tone, every pixel in range; it fails exactly on empty display dimensions. |
| `NewsStore.NormalizeIdempotent` | internal/news/store.go:60 | Normalizing twice changes nothing more. |
| `NewsStore.Store.constructor` | internal/news/store.go:40-48 | Defaults for the limits; the TTL is used in whole seconds. |
| `NewsStore.Store.Attempt` | internal/news/store.go:155-172 | One attempt moves the tail to the head, decodes it over what the variable holds, and quarantines it if that fails. |
| `NewsStore.Store.Next` | internal/news/store.go:148-175 | Finds the decodable item nearest the tail and moves it to the head, moves exactly the bad items behind it to the dead letters (newest hundred kept), returns what decoding all of them into one variable leaves there, fails only if nothing decodes, and touches no other queue. |
| `NewsStore.NextIsCleanIff` | internal/news/store.go:148-163 | The returned story is that of the item's own text if and only if no field the item leaves unset was made nonempty by the nearest bad item behind it that sets the field. |
| `NewsStore.TitleIsStale` | internal/news/store.go:148-163 | A story without a title, behind which lies a text that sets one and then fails to decode, is returned with that title. |
| `NewsStore.Store.Push` | internal/news/store.go:108-134 | The error cases, and otherwise the deduplicating script: a duplicate changes nothing, else the story is appended, the queue trimmed, the genre recorded and the key armed. |
| `NewsStore.Store.RunMigrate` | internal/news/store.go:95-105 | The migration script: a spelling's items move to the end of the normalized queue, which is trimmed and recorded if nonempty. |
| `NewsStore.Store.Genres` | internal/news/store.go:63-93 | The loop visits the members in any order as specified, and returns the active genres sorted without repetition. |
| `PushLog.QueueIsLog` | internal/news/store.go:128-134 | After any pushes a queue is the last MaxStories of its initial items followed by the inserted ones. |
| `PushLog.InsertsIff` | internal/news/store.go:129 | A push inserts if and only if no key from before is alive and no insertion under its key was less than the TTL ago. |
| `PushLog.InsertionsAreApart` | internal/news/store.go:129 | Two insertions under one fingerprint are at least the TTL apart. |
| `PushLog.MembersAreInserted` | internal/news/store.go:132 | The genre set gains exactly the genres something was inserted into. |
| `PushLog.BasisIdentifies` | internal/news/store.go:136-143 | For encoded texts without NUL: stories without identifiers share a fingerprint basis if and only if their texts agree, never with an identified one; identified stories share it if genre and trimmed identifiers agree, and only then as long as genre and story identifier contain no NUL. |
| `PushLog.UniqueIff` | internal/news/store.go:136-143 | For every story with identifiers, NUL or not: no other story with identifiers shares its basis if and only if no other pair of NULs cuts that basis into a normalized genre and two trimmed identifiers. |
| `PushLog.NulCollides` | internal/news/store.go:136-143 | Two stories with different identifiers, one containing NUL, share a basis. |
| `GenreSet.QueuesAfter` | internal/news/store.go:77-105 | A genre's queue keeps the last MaxStories of everything merged into it, or is untouched. |
| `GenreSet.SpellingsAfter` | internal/news/store.go:95-98 | Every visited spelling's queue is empty afterwards, every other is untouched. |
| `GenreSet.SetIsResult` | internal/news/store.go:63-93 | Run alone, Genres leaves in the set exactly the genres it returns: the normalized ones with a story under any spelling. |
| `GenreSet.OrderIrrelevant` | internal/news/store.go:63-93 | The result and the remaining set do not depend on the order in which the members are listed. |
| `GenreRuns.AloneIsGenres` | internal/news/store.go:63-93 | The commands of Genres one by one, with nothing between them, make exactly the visits of the loop and find the same genres. |
| `GenreRuns.MissingIff` | internal/news/store.go:71-88 | Over every run of those commands with pushes and calls of Next anywhere between them, the set lacks a stocked genre if and only if it was removed when its queue was no longer empty and since then nothing has been inserted or merged into it and no call of Next has emptied it. |
| `GenreRuns.DoomedIff` | internal/news/store.go:82-85 | Whatever pushes and calls of Next come between the length, which was zero, and the removal: the queue is then nonempty exactly if a push inserted into it and no call of Next emptied it since. |
| `GenreRuns.ReturnedIff` | internal/news/store.go:82-92 | With anything between the commands, a genre is among those returned if and only if it had a story at the moment its length was asked for. |
| `GenreSet.PushBetweenHidesGenre` | internal/news/store.go:82-85 | A push between LLEN and SREM leaves a stocked genre that no later run of Genres finds. |
| `GenreSet.PushBetweenIff` | internal/news/store.go:82-85 | With such a push the set stays complete if and only if the push was a duplicate. |
| `Dashboard.NextTurnsTheWheel` | internal/news/store.go:148-175 | On any queue Next turns the wheel of decodable items by one and finds the last of them. |
| `Dashboard.PullIsWheel` | internal/dashboard/dashboard.go:201-211 | Any number of calls on any queue is determined by the wheel of its decodable items. |
| `Dashboard.PullShows` | internal/news/store.go:148-163 | Each call returns a story with every field that the text of the item found sets. |
| `Dashboard.PullConserves` | internal/news/store.go:155-172 | Nothing is lost: queue plus removed items is what there was, and everything removed is bad. |
| `Dashboard.DrainGenre` | internal/dashboard/dashboard.go:185-234 | With nothing pushed meanwhile, the pass makes exactly min(n, Max) calls (fewer only if the context ends, a painting fails or nothing decodes), paints exactly the titled stories with the genre filled in, leaves the queue and dead letters those calls leave, and touches no other queue. |
| `Dashboard.PassRotates` | internal/dashboard/dashboard.go:185-234 | With decodable, presentable items a pass moves the last min(n, Max) to the front in order and paints their stories last to first. |
| `Dashboard.FullRotationRestores` | internal/news/store.go:145-147 | As many calls as there are items restore a queue of decodable items. |
| `Dashboard.CallsEnough` | internal/dashboard/dashboard.go:186-192 | However many bad items were quarantined before, each pass makes at least min(n, Max) calls for n decodable items. |
| `Dashboard.EveryStoryIsReached` | internal/dashboard/dashboard.go:186-211 | With nothing pushed during or between the passes, and the number of calls recomputed from the queue before each: once passes times min(n, Max) reaches n, every decodable item has been found, and if they are presentable, painted. |
| `Dashboard.ShownOnceIff` | internal/dashboard/dashboard.go:184-211 | With nothing pushed during it, one pass over any queue finds each decodable item exactly once if and only if min(length, Max) is their number (or there are none), and, if they are distinct, none twice if and only if it does not exceed their number; if they are presentable, what it finds it paints. |
| `Dashboard.StoriesOnceIff` | internal/dashboard/dashboard.go:184-225 | The same of the stories painted, with nothing pushed during the pass, when every text sets every field, as pushed stories do. |
| `Dashboard.StoryIsShownTwice` | internal/dashboard/dashboard.go:184-211 | The pass over one story followed by one text that does not decode paints the story twice. |
| `PushedQueue.QueueIsMoves` | internal/news/store.go:128-175 | Whatever calls of Next and pushes of any genre there are, the queue with its items numbered is the genre's queue in the database, trimming included, and the numbered items found are those Next finds. |
| `PassRuns.FoundIff` | internal/dashboard/dashboard.go:201-211 | On any queue and whatever is pushed between the calls: a decodable item is found if and only if some call was made while the item was still there and unfound and after exactly as many calls as there were decodable items behind it at the beginning and insertions since. |
| `PassRuns.FoundInGoodIff` | internal/dashboard/dashboard.go:201-211 | In a queue of decodable items the calls and insertions alone decide: an item with d behind it is found exactly when the calls first exceed d plus the insertions so far, unless an insertion has pushed it out of the last MaxStories. |
| `PassRuns.AlwaysBehind` | internal/dashboard/dashboard.go:184-211 | If every call comes when fewer calls have been made than there were decodable items behind the item at the beginning and insertions since, the item is never found, however many passes are made. |
| `PassRuns.PassOnceIff` | internal/dashboard/dashboard.go:184-211 | With any pushes during it, a pass over a queue of decodable items finds every item of its beginning exactly once if and only if the number of calls, fixed at the beginning, is their number and no push inserts before the last call. |
| `PassRuns.PushHidesStory` | internal/dashboard/dashboard.go:184-211 | The pass over two stories with a push between its two calls never finds the first. |
| `PassRepeats.RepeatsIff` | internal/dashboard/dashboard.go:184-211 | On any queue with a decodable item, and room for what is pushed: nothing is found twice if and only if every call is made when fewer calls have been made than there were decodable items, those of the beginning and those inserted by then. |
| `PassRepeats.NothingTwice` | internal/dashboard/dashboard.go:184-211 | On a queue of decodable items within the limit of the store a pass finds nothing twice, whatever is pushed, also when the queue is trimmed. |
| `ShellWords.QuoteRoundTrip` | internal/kindle/clock.go:546-548 | A shell reads a quoted value as one word, the value itself. |
| `ShellWords.QuotedReads` | internal/kindle/clock.go:546-548 | Wherever a word may begin or go on, a quoted value adds exactly itself and leaves the reader unquoted. |
| `ShellWords.ScriptMeansItsWords` | internal/kindle/clock.go:510-520 | Commands of plain or quoted arguments joined by && are read as exactly those words and operators, whatever the values. |
| `KindleCommands.RegionPlain` | internal/kindle/clock.go:542-544 | A region specification needs no quoting, for all integers. |
| `KindleCommands.TextRegionIsScript` | internal/kindle/clock.go:460-461 | The format string yields a clear, a type and a refresh joined by &&. |
| `KindleCommands.TextRegionReads` | internal/kindle/clock.go:446-466 | A shell reads drawTextRegionContext's command as those commands with the type specification and the text as one word each. |
| `KindleCommands.ClockIsScript` | internal/kindle/clock.go:420-426 | The clock's format string yields a clear, two types and a refresh joined by &&. |
| `KindleCommands.ClockReads` | internal/kindle/clock.go:420-426 | A shell reads drawClockContext's command as those commands, whatever the texts and font path contain. |
| `Schedule.WindowReplaysCron` | internal/scheduler/scheduler.go:22-29 | For different start and stop, now is inside the window if and only if the latest daily event no later than now is a start, overnight windows included. |
| `Schedule.LatestEventExists` | internal/scheduler/scheduler.go:70-75 | There always is such an event, within a day. |
| `Schedule.LastFiringIsLast` | internal/scheduler/scheduler.go:70-75 | A daily job last fired today or yesterday and not since. |
| `Schedule.WindowTurns` | internal/scheduler/scheduler.go:22-29 | From one nanosecond to the next the window changes exactly when a job fires, and as the job says. |
| `Schedule.HeardParity` | internal/scheduler/scheduler.go:70-75 | The window looks the same at two instants if and only if an even number of jobs fired between them. |
| `Schedule.RestartAgreesIff` | cmd/news-screen/main.go:180-192 | A process that looks at the window and arms the jobs later asks for what the window says, at any instant after that, if and only if a job has been heard or the window had the same value when the jobs were armed. |
| `Schedule.AcceptedAgreesIff` | internal/supervisor/supervisor.go:114-189 | For any choice of jobs that a full command queue refuses: what is asked for agrees with the window if and only if an even number of jobs has fired since the last one taken, or since main looked, if none has been. |
| `Schedule.StartIsMissed` | cmd/news-screen/main.go:180-192 | A process that looks one second before the start and arms one second after it still asks for nothing an hour later. |
| `Startup.DesiredFollows` | internal/supervisor/supervisor.go:214-225 | Over every run the supervisor wants the display exactly as the latest unexpired Start, Shutdown, Reconcile or Stop request said. |
| `Startup.WantedIffWindow` | cmd/news-screen/main.go:180-192 | Over every run whose deciding requests are the startup reconciliation and those of the heard jobs that the supervisor took: it wants the display exactly when the window is open if and only if an even number of jobs has fired since the last one taken, or since main looked, if none has been. |
| `Schedule.NewsPassCronSpec` | internal/scheduler/scheduler.go:34-51 | Exactly the three rejected kinds of interval; otherwise the k-th minute is k intervals into the hour and together they fill it. |
| `Schedule.PassesAreEven` | internal/scheduler/scheduler.go:31-51 | Across all hours the job fires exactly at the multiples of the interval. |

## Left out

- SupervisorObject.Loop.Iterate: one turn of the loop, because the `for` never ends by itself; whole runs are event sequences in `Runs`. The fields of internalState are one field of a record type.
- SupervisorObject.Loop.TryToStart: the outcomes of `display.Start`, of the pauses and of `display.Stop` are parameters; the growing pause (`StartupRetryDelay<<i`), `retryDelay` and all other durations are not modelled, a timer may fire at any time.
- The 64-bit wrap-around of run numbers, the timestamps of the state, and logging.
- The capacities of the command and internal channels: a command that `trySend` refuses, and a caller that gives up waiting, simply do not occur as events.
- Context deadlines inside workers: an operation that times out is one of the errors a worker may return.
- NewsStore.Store.Push: Redis and marshalling errors; the marshalled text is a parameter, SHA-256 is taken to be injective (the hashed text is compared), and time is in whole seconds.
- NewsStore.Store.Next: Redis errors. The list of sources is one field, so what decoding leaves inside an old list of sources is not modelled.
- NewsStore.NormalizeIdempotent: lower case and white space beyond ASCII letters and the Latin-1 spaces.
- Dashboard.DrainGenre: the method itself runs on a store nobody else uses, pushes between its calls are in `PassRuns`; the story's hold, the backdrop, and the cycle over all genres with its title screens are not modelled.
- PassRepeats.RepeatsIff: a queue that pushes make overflow, when it holds bad items; then trimming can drop unfound stories and the numbers of calls and insertions do not decide.
- LocalContrast.EnhanceLocalContrast: images whose bounds do not begin at zero.
- StoryBackground.Prepare: decoding, cropping, scaling and PNG encoding; the resized image is the input, and `math.Pow` is any monotone curve of the unit interval over the reals.
- PreparedImages.Device.GetPreparedImage: the mutex and the defensive copies of the bytes.
- ShellWords.QuoteRoundTrip: the reader gives up on operators other than &&, expansions, patterns and comments, none of which the commands use; the NUL character, which no command line can carry, is treated like any other.
- KindleCommands.TextRegionReads: the computation of font sizes and type specifications, the refusal of regions smaller than two pixels, and the other drawing commands.
- Schedule.RestartAgreesIff: daylight-saving shifts, the cron library itself, and the text of the cron expressions.
- gRPC handlers, SSH, HTTP fetching, configuration and the display controller: input plumbing and foreign input/output.
