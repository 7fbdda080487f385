# Smart-home operations: a verified model

This project models the parts of the smart-home operations service whose correctness spans many
calls, workers and failures, and proves what they promise.

- **Durable execution.** Automation runs and outbox messages are rows changed by guarded SQL
  statements. `Tables` gives each statement or serializable transaction as one total function,
  `Statements` says column by column what the guarded ones pick and change, and
  `Repositories.Repository` executes them step by step in place. `Protocol` lets any number of
  workers issue them in any order, with crashes, cancellations, lost replies, ambiguous commits and
  passing time. Every sequence of steps is an execution, so the theorems of `RunSafety`,
  `RunHistory`, `LeaseSafety` and `EndToEnd` hold in every reachable state, and `Progress` and
  `Liveness` show what further steps can still achieve from there. `Workers` proves that the
  sequential `process` code does exactly what the protocol's steps for one worker do.
- **In-memory concurrency objects.** `Circuits` and `Dispatchers` split each call at the point where
  the mutex is released, and prove invariants over all interleavings of the halves.
- **Sort-and-sweep algorithms.** `TimeWindows`, `Schedules` and `Buckets` prove the loops against
  declarative specifications: canonical form, pair counting, supremum over all instants, partition.
- **Optimistic transitions and transformations.** `Devices` (compare-and-swap), `DeviceSearch`
  (numbered placeholders), `Sessions` (invisible garbage collection) and `Migrations`.

Time is integer nanoseconds and watts are reals. PostgreSQL is taken at its word: each statement and
each serializable transaction is atomic, ids come from sequences that never hand out a number twice
and are not rolled back, and a claim takes the first eligible row by id that is not in the set of
rows other transactions have locked (a parameter).

## Where a promise holds only under a condition

- A lease keeps a second publisher out if and only if the claim's reply arrives within 300 s minus
  30.3 s of publication and 5 s of persistence (`LeaseSafety.LeaseExclusiveIffFits`). Otherwise
  `LeaseSafety.SharedUnlessFits` constructs the execution in which two publishers hold one message.
- `attempts` never decreases if and only if that same condition holds or the retry limit is one
  (`LeaseSafety.AttemptsMonotoneIff`), because a reschedule writes back the number it remembers.
- A bucket's maximum is the true maximum if and only if some sample in it is not negative, because
  the running maximum starts from zero (`Buckets.BucketMeaning`, `Buckets.NegativeMaximumReadsZero`).
  Recording telemetry refuses negative watts (internal/service/telemetry.go:28), so recorded samples
  meet the condition.
- Merging merged windows is accepted if and only if no merged window is longer than 366 days
  (`TimeWindows.MergeIdempotent`, `TimeWindows.MergedCanBeRefused`).
- Overlapping windows of one device share an instant if and only if neither is empty
  (`Schedules.OverlapMeansSharedInstant`, `Schedules.EmptyWindowOverlaps`).
- The session vacuum is invisible to every authorization, but it changes a logout's answer if and
  only if the session was not logged out and a vacuum had a cutoff at or after its end
  (`Sessions.LogoutSeesVacuum`, `Sessions.LogoutCanDiffer`).

## How the methods and the theorems meet

Each method of `Repository`, `Circuit`, `Dispatcher` and `SessionStore` that is one statement or one
critical section is proved equal to the function the protocols step through. What such a function
means is stated by the theorems about all executions, so the table names those theorems; methods
with a loop or several statements have rows of their own.

## Model

| member | source | states |
|---|---|---|
| RunSafety.ExactlyOnceFanOut | internal/repo/automation.go:16-80 | in every reachable state a succeeded run has, for every planned ordinal, exactly one device.command row with that ordinal, device and action, no other command, ids growing with ordinals, and exactly one dispatch audit with its household, request id and action count; any other run has neither |
| RunSafety.OneRunPerKey | internal/db/migrations/001_initial.sql:84-93 | in every reachable state no two runs share automation and key |
| RunSafety.ActionsInOrder | internal/repo/automation.go:26-51 | the action list is the planned actions in strictly increasing ordinal order, none missing and none added |
| RunSafety.FannedOutPerOrdinal | internal/repo/automation.go:55-62 | one command per entry of the action list is one command per planned ordinal, in order |
| RunHistory.SettledForever | internal/repo/repo.go:264-297 | succeeded and failed are absorbing: whatever steps follow, the row never changes again |
| RunHistory.StepMoves | internal/repo/repo.go:256-297 | whatever the step, a run keeps its key and moves only from queued to running, from running to queued, succeeded or failed, or not at all |
| RunHistory.QueueOutcome | internal/repo/repo.go:256-263 | a request is answered exactly for an active automation, with the run of its key if there is one and otherwise with a new queued run |
| RunHistory.QueueAgain | internal/repo/repo.go:256-263 | once a request has been answered, every later request with that key while the automation is active gets the same run and adds none, whatever happens in between |
| RunHistory.RunningSinceClaim | internal/repo/repo.go:264-268 | a running run carries the time of its last claim |
| RunHistory.SweepFailsIffClaimedBefore | internal/repo/automation.go:111-117 | after any execution a sweep fails exactly the runs that are running since a claim before the cutoff, and leaves every other row alone |
| RunHistory.MaintenanceSparesRecent | internal/service/maintenance.go:45-45 | maintenance leaves a run alone for fifteen minutes after its claim |
| RunHistory.AutomationsGoForward | internal/service/automation.go:74-85 | with the state changes Activate and Pause ask for, an automation never goes back and its actions never change |
| RunHistory.PausedQueuesNothing | internal/repo/automation.go:97-110 | once paused, an automation never gets another run |
| Progress.ActivateQueuePause | internal/service/automation.go:61-85 | a draft automation that is activated answers queue requests, and once paused answers none |
| Liveness.QueuedRunCanBeFulfilled | internal/repo/automation.go:16-80 | from any reachable state with a queued run whose devices are ready and a free worker and publisher, some continuation makes the run succeed and every planned action take effect exactly once, through a message marked delivered |
| Liveness.AllCanBeDelivered | internal/worker/worker.go:117-133 | from any reachable state one publisher can deliver any list of available messages, changing nothing else |
| Liveness.LostClaimsRecover | internal/repo/repo.go:307-311 | in any reachable state, whoever holds it and however often it has been claimed, a message that is neither delivered nor failed can still be claimed and delivered at the first moment at which it is due and its lease, if any, is more than five minutes old |
| Progress.QueuedRunDispatches | internal/repo/automation.go:16-80 | from any reachable state, some continuation claims and executes a queued run and makes it succeed exactly when it has actions and all their devices are enabled in its household |
| Progress.DispatchesIffReady | internal/repo/automation.go:52-78 | the transaction dispatches a running run exactly when it has actions and all their devices are enabled in its household |
| Progress.ExecuteAnswers | internal/repo/automation.go:17-57 | invalid exactly for a zero id or time, no row exactly if the run is not running, conflict exactly if it has no actions or some device is not ready; none of them changes a row |
| Progress.DispatchedCommandsWait | internal/repo/automation.go:59-59 | every command of a run just dispatched can be claimed from the run's finish time on and not before |
| Progress.SomeRunSucceeds | internal/repo/automation.go:16-80 | from the empty database some execution ends with a succeeded run, its command and its audit |
| Statements.ClaimTakesFirstQueued | internal/repo/repo.go:264-268 | whatever is locked, a claim takes the first queued run by id and starts it now, and takes none exactly when none is queued and unlocked |
| Statements.FirstQueuedIsTaken | internal/repo/repo.go:266-266 | a run is claimed exactly when it is queued and unlocked and no smaller id is |
| Progress.CanClaim | internal/repo/repo.go:264-268 | from any reachable state, one step gives an idle worker any queued run when the other queued runs are locked |
| Progress.RecordingApplies | internal/worker/worker.go:71-81 | recording a failure fails the run with its cause and time; recording a cancellation puts it back in the queue as if never claimed |
| Progress.MessageCanBeDelivered | internal/worker/worker.go:117-133 | from any reachable state, some continuation delivers an available message now, with the receiver having acted on it and nothing else changed |
| Progress.RejectedMessageWaitsOrFails | internal/worker/worker.go:134-146 | from any reachable state, some continuation publishes an available message in vain; it becomes available again exactly attempts seconds later, or is failed with its reason at the retry limit |
| Statements.ClaimTakesFirstEligible | internal/repo/repo.go:307-311 | whatever is locked, a claim takes the first message by id that is undelivered, unfailed, due, and unlocked or locked more than five minutes ago, locks it now and counts the attempt; it takes none exactly when there is none |
| Statements.FirstEligibleIsTaken | internal/repo/repo.go:309-309 | a message is claimed exactly when it is eligible and unlocked and no smaller id is |
| Statements.AddedMessageWaits | internal/repo/repo.go:303-306 | an added message says what it was given, can be claimed from its time on and not before, and replaces no other |
| Progress.CanHold | internal/repo/repo.go:307-311 | from any reachable state, some continuation lets a free publisher claim any available message when the other available ones are locked, with nothing else changed |
| Progress.ReleasedMessageWaits | internal/repo/repo.go:317-319 | a released message is available again exactly from the given time on |
| RunSafety.AtMostOneHolder | internal/worker/worker.go:59-83 | two different workers never hold the same run, and a held run exists and is not queued |
| RunSafety.AlwaysSafe | internal/repo/repo.go:256-297 | the run invariant (ids drawn, keys unique, every run accounted for, holders exclusive) holds after any sequence of steps |
| RunSafety.EnqueueFansOut | internal/repo/automation.go:55-62 | enqueueing for a run that had no commands leaves it exactly one command per action, each carrying that action's fields |
| RunSafety.ExecuteAccountsForRun | internal/repo/automation.go:63-78 | a dispatched run ends with its commands and exactly one audit row, which counts its actions |
| RunSafety.ExecuteKeepsOther | internal/repo/automation.go:16-80 | dispatching one run leaves every other run's row, commands and audits exactly as they were |
| RunSafety.ExecuteOnlyFinishes | internal/repo/automation.go:67-78 | the transaction touches no run row but its own, and that only from running to succeeded |
| RunSafety.AutomationSideAdds | internal/repo/automation.go:59-59 | the automation side never alters an existing message; what it adds is fresh, unlocked and unattempted |
| RunSafety.PublishingFrame | internal/repo/outbox.go:48-80 | publishing steps change no run, no audit and no command field of any message |
| LeaseSafety.LeaseExclusiveIffFits | internal/repo/repo.go:307-311 | no execution has two live holders of one message if and only if reply bound + 30.3 s + 5 s fits in the 5-minute lease |
| LeaseSafety.SharedUnlessFits | internal/worker/worker.go:117-147 | when the bound does not fit, an execution with two live holders, built step by step |
| LeaseSafety.HeldIsUnavailable | internal/repo/repo.go:309-309 | while its publisher is on time, a held message is not available to any claim |
| LeaseSafety.AlwaysLeased | internal/worker/worker.go:117-151 | under the time assumption, every live publisher's message is pending and untouched since its claim, and every row agrees with its history |
| LeaseSafety.ClaimRecords | internal/repo/repo.go:309-309 | a claim of an unheld available message raises attempts and history together and keeps the claims spaced |
| LeaseSafety.SaveRecords | internal/worker/worker.go:126-146 | persisting an outcome accounts for the claim exactly once: rescheduled, lost, or terminal |
| LeaseSafety.AttemptAccounting | internal/worker/worker.go:134-146 | attempts equals the number of claims, is at most the retry limit plus the claims whose outcome was lost, and a failed message was claimed at least retry-limit times |
| LeaseSafety.AttemptsNeverDecrease | internal/repo/outbox.go:54-54 | under the time assumption attempts never goes down over any continuation |
| LeaseSafety.AttemptsMonotoneIff | internal/repo/outbox.go:54-54 | no step ever lowers attempts if and only if the time assumption holds or the retry limit is one |
| LeaseSafety.StaleRescheduleUndercounts | internal/repo/outbox.go:54-54 | otherwise an overtaken publisher's reschedule lowers attempts |
| LeaseSafety.ClaimsOnlyGrow | internal/repo/repo.go:307-311 | the recorded claims of a message only ever get longer |
| LeaseSafety.RetrySpacing | internal/worker/worker.go:143-144 | the n-th claim comes at least n(n-1)/2 seconds after the first, for n up to 301, whether earlier claims were rescheduled or lost |
| EndToEnd.KeyText | cmd/server/main.go:25-27 | a key is the text outbox- followed by the id in decimal |
| EndToEnd.KeyInjective | cmd/server/main.go:25-27 | idempotency keys are equal exactly when the message ids are |
| EndToEnd.EachActionTakesEffectOnce | internal/repo/outbox.go:48-80 | every action a succeeded run's automation plans has its one message, takes effect at most once, and has taken effect if that message is marked delivered |
| EndToEnd.MessageActedOnce | internal/transport/transport.go:139-153 | with a receiver that deduplicates by key, a message is acted on at most once, with the command fields that were dispatched, and at least once if delivered |
| EndToEnd.EffectsComeFromSucceededRuns | internal/repo/automation.go:55-62 | a device command that took effect belongs to a run that has succeeded |
| EndToEnd.TerminalForever | internal/repo/repo.go:312-331 | delivered and failed exclude each other and are absorbing |
| EndToEnd.SaveDelivers | internal/worker/worker.go:128-133 | only an acknowledged publication marks a message delivered, and never a failed one |
| EndToEnd.AlwaysFaithful | internal/worker/worker.go:117-147 | the end-to-end invariant holds after any sequence of steps, with no time assumption |
| Workers.ProcessRun | internal/worker/worker.go:59-83 | one pass of the automation worker changes the tables exactly as the protocol's claim, execute or cancel, passing of time, and record steps do, and ends idle |
| Workers.RunClaimed | internal/worker/worker.go:67-82 | from a held run on, execution and recording a failure at the time the clock then shows are the protocol's steps |
| Workers.RecordFailure | internal/worker/worker.go:71-81 | a cancelled run is requeued, any other error fails it |
| Workers.ProcessMessage | internal/worker/worker.go:117-147 | one pass of the outbox worker changes the tables exactly as the protocol's claim, send, return and save steps do; it publishes successfully exactly when some attempt is answered and read |
| Workers.Publish | internal/transport/transport.go:139-153 | a 2xx comes back exactly when some attempt is answered after attempts worth repeating, and within the publication bound |
| Workers.Settle | internal/worker/worker.go:126-146 | mark delivered, fail at the retry limit, or reschedule after attempts seconds |
| Workers.ReplyLeadsToSave | internal/worker/worker.go:125-147 | a held message published within the bound ends free, with the decided verdict saved |
| Repositories.Repository.ExecuteAutomationRun | internal/repo/automation.go:16-80 | for every fate of the commit, the new tables and result are those of the transaction function; a failed transaction leaves only spent sequence numbers |
| Repositories.Repository.DispatchActions | internal/repo/automation.go:52-78 | once the run row is locked: all commands, one audit and the finish, or a rollback at the first device that is not ready |
| Repositories.Repository.EnqueueCommands | internal/repo/automation.go:55-62 | inserts exactly the rows for the longest prefix of actions whose devices are ready |
| Repositories.CreationPlans | internal/repo/repo.go:232-255 | a creation succeeds exactly when every device is ready and no ordinal repeats; then it adds one draft automation of the household that plans exactly the given device and action under each ordinal, and otherwise adds none |
| Repositories.ActionStored | internal/repo/repo.go:239-251 | without repeated ordinals each given action is stored under its ordinal |
| Repositories.Repository.CreateAutomation | internal/repo/repo.go:232-255 | the row-by-row transaction succeeds exactly when every device is ready, no ordinal repeats and the commit is seen; a rolled back one leaves only its spent id |
| Repositories.InsertableNext | internal/repo/repo.go:239-251 | one more action can be inserted exactly when its device is ready and its ordinal is free |
| Transport.Do | internal/transport/transport.go:55-109 | the reply is what the last attempt deserves, every earlier attempt was retryable and waited out, stopping early has a cause, and the time spent is exact and bounded |
| Transport.PublicationBound | internal/transport/transport.go:24-27 | with the client's constants a publication takes at most 30.3 s |
| Transport.WorstCaseClosedForm | internal/transport/transport.go:98-106 | n attempts take at most n timeouts plus n(n-1)/2 backoffs |
| Circuits.CircuitCharacterisation | internal/integration/circuit.go:47-100 | for every interleaving, failures counts the countable failures since the last completed success, and the circuit is closed exactly when they are fewer than the threshold |
| Circuits.AlwaysSingleProbe | internal/integration/circuit.go:63-84 | in every reachable state at most one half-open callback is in flight, and probeActive holds exactly when one is |
| Circuits.AdmissionCharacterisation | internal/integration/circuit.go:54-70 | read off the events alone: a call runs its callback exactly when too few failures are outstanding, or it or somebody since the last opening comes late enough and no probe is in flight |
| Circuits.CallAnswers | internal/integration/circuit.go:54-70 | the answer to any call: run while too few failures are outstanding, otherwise refused as open unless it or an earlier one is late enough, and then refused as probing exactly if a probe is in flight |
| Circuits.QueryAnswers | internal/integration/circuit.go:38-45 | the state reported to any query: closed, half open or open by outstanding failures and late askers |
| Circuits.AlwaysFollows | internal/integration/circuit.go:94-98 | while the threshold is reached, openedAt is the time passed in by the call whose failure last opened the circuit, and it is half open exactly if somebody has asked late enough since |
| Circuits.StaysOpenIff | internal/integration/circuit.go:38-100 | one event leaves an open circuit open exactly if it is neither a late query or call nor a completed success |
| Circuits.OpenAdmitsNobody | internal/integration/circuit.go:55-62 | an open circuit admits nobody while everything comes before its current opening plus the pause, whatever fails, is interrupted or panics meanwhile |
| Circuits.Circuit.constructor | internal/integration/circuit.go:28-36 | starts closed, with the defaults for a threshold below one and a non-positive pause |
| Dispatchers.OneInFlightPerId | internal/integration/integration.go:57-99 | at most one command per id is in flight, and none for an id whose result is stored |
| Dispatchers.AnswersAreOwn | internal/integration/integration.go:49-69 | every answer is the result of a command started for the caller's own id and fingerprint |
| Dispatchers.CommandsConserved | internal/integration/integration.go:70-107 | commands started for an id are exactly the erasing Forget calls, plus one if a result is stored or a command in flight |
| Dispatchers.DispatchDecides | internal/integration/integration.go:40-82 | a request starts a command exactly when every command started for its id has been forgotten; otherwise the latest one decides between mismatch, cached answer and waiting |
| Dispatchers.AlwaysCoherent | internal/integration/integration.go:39-107 | registration, cache, waiters and answers are consistent after any interleaving |
| Dispatchers.AlwaysNewest | internal/integration/integration.go:93-97 | what is in flight or stored for an id is its latest command |
| TimeWindows.MergeWindows | internal/domain/timewindow.go:30-54 | fails exactly on an invalid input; otherwise sorted, strictly separated, and containing exactly the instants of the inputs |
| TimeWindows.CanonicalUnique | internal/domain/timewindow.go:38-53 | canonical lists containing the same instants have the same spans |
| TimeWindows.MergeDependsOnInstantsOnly | internal/domain/timewindow.go:30-54 | inputs containing the same instants merge to the same spans |
| TimeWindows.MergeOrderIndependent | internal/domain/timewindow.go:37-37 | the order of the inputs does not matter |
| TimeWindows.MergeIdempotent | internal/domain/timewindow.go:32-36 | merging again changes nothing, and is accepted exactly when no merged window exceeds 366 days |
| TimeWindows.MergedCanBeRefused | internal/domain/timewindow.go:32-36 | two touching windows of 200 days are accepted, and their merge is not |
| Schedules.OverlapMeansSharedInstant | internal/domain/schedule.go:22-24 | windows of one device share an instant exactly when they overlap and neither is empty |
| Schedules.EmptyWindowOverlaps | internal/domain/schedule.go:22-24 | an empty window inside another overlaps it although they share no instant |
| Schedules.Conflicts | internal/domain/schedule.go:25-40 | despite the early break, the entries are the later rows of exactly the overlapping pairs of positions in the stably sorted rows, each pair once and in lexicographic order; as many as there are unordered overlapping pairs in the input |
| Schedules.BreakLosesNothing | internal/domain/schedule.go:31-33 | after a row that starts past the end of row i no row overlaps row i |
| Schedules.SweepCountsPairs | internal/domain/schedule.go:29-38 | the sweep has one entry per unordered overlapping pair |
| Schedules.PairCountOrderIndependent | internal/domain/schedule.go:27-28 | the number of overlapping pairs does not depend on the order |
| Schedules.NoConflictIffNoOverlap | internal/domain/schedule.go:25-40 | there is nothing to report exactly when no two windows overlap |
| Schedules.SweepPairsExact | internal/domain/schedule.go:29-38 | the pairs visited by the sweep are exactly the overlapping ones, each once and in lexicographic order |
| Schedules.ReportsUnique | internal/domain/schedule.go:29-38 | there is only one such list of entries |
| Sorting.SortStableSorts | internal/domain/schedule.go:28-28 | the result is sorted and a permutation |
| Sorting.SortStableStable | internal/domain/schedule.go:28-28 | rows with equal keys keep their order |
| Schedules.Capacity | internal/domain/schedule.go:41-68 | refused as invalid exactly for a negative limit or a row without a positive device, a start before its end and no negative watts; otherwise rejected exactly when at some instant the active watts exceed the limit |
| Schedules.LoadPeaksAtAStart | internal/domain/schedule.go:51-65 | every load is at most the load at some window's start |
| Buckets.Bucketize | internal/analytics/analytics.go:72-110 | nothing for an empty range or step; otherwise just enough buckets, bucket i starting i steps into the range and ending one step later or with the range, with count, average, energy in watt-hours, minimum and maximum of exactly the samples in between |
| Buckets.FillOne | internal/analytics/analytics.go:85-102 | one sample updates exactly the bucket that contains it |
| Buckets.FinishAll | internal/analytics/analytics.go:103-108 | every bucket is averaged exactly once |
| Buckets.InstantHasItsBucket | internal/analytics/analytics.go:86-92 | an instant in range lies in the bucket its offset divides into and in no other |
| Buckets.BucketsTile | internal/analytics/analytics.go:76-84 | buckets share boundaries, start at start, end at end, and are not empty |
| Buckets.BucketMeaning | internal/analytics/analytics.go:93-107 | count, average and minimum are those of the samples in range, energy is average power times length in hours, and the maximum is the true one exactly when some sample is not negative and zero otherwise |
| Buckets.EnergyIdentity | internal/analytics/analytics.go:106-106 | watt-hours times the nanoseconds of an hour are watts times nanoseconds |
| Buckets.NegativeMaximumReadsZero | internal/analytics/analytics.go:99-101 | a bucket whose only sample is negative reports a maximum of zero |
| Buckets.BucketsConserve | internal/analytics/analytics.go:72-110 | counts and average times count sum to those of all samples in range |
| Devices.HistoriesArePaths | internal/repo/repo.go:110-123 | every device's history is a path in the transition table and its version is one plus the transitions made |
| Devices.UpdateSucceedsIffUnmoved | internal/service/devices.go:62-101 | an update takes effect exactly when the device has not moved since the read, even if it is back in the state that was read |
| Devices.RetiredForever | internal/domain/rules.go:20-26 | a retired device never changes again |
| Devices.AlwaysLinear | internal/service/devices.go:62-101 | rows follow their paths and pending attempts hold what was read, for every interleaving |
| Devices.OperationsMean | internal/service/devices.go:62-101 | Pair takes a pending device to paired, Enable a paired or disabled one to enabled, Disable an enabled one to disabled, Retire any other than a retired one to retired, each with the next version; otherwise nothing changes and the answer says whether the device is missing or in another state |
| Devices.OperationsMatchTable | internal/domain/rules.go:20-26 | the four operations ask for exactly the transitions the table allows |
| Devices.UninterruptedOperation | internal/service/devices.go:62-101 | a read followed at once by its update is the whole operation |
| Devices.DeviceService.Pair | internal/service/devices.go:62-71 | a pending device becomes paired with the next version; a missing one is not found and any other is refused, and nothing changes |
| Devices.DeviceService.Enable | internal/service/devices.go:72-81 | a paired or disabled device becomes enabled with the next version; a missing one is not found and any other is refused, and nothing changes |
| Devices.DeviceService.Disable | internal/service/devices.go:82-91 | an enabled device becomes disabled with the next version; a missing one is not found and any other is refused, and nothing changes |
| Devices.DeviceService.Retire | internal/service/devices.go:92-101 | any device but a retired one becomes retired with the next version; a missing one is not found and a retired one is refused, and nothing changes |
| DeviceSearch.SearchDevices | internal/repo/queries.go:34-66 | for every acceptable filter the statement selects exactly the described rows, placeholders are exactly 1..len(args), and the last two are limit and offset |
| DeviceSearch.NormalizeMeaning | internal/repo/queries.go:23-32 | exactly the filters with a positive household, a limit from 0 to 200 and no negative offset are accepted; only outer white space goes from the query, the limit ends up between 1 and 200, and normalising again changes nothing |
| DeviceSearch.AddText | internal/repo/queries.go:42-46 | the text clause narrows the selection by the query and nothing else |
| DeviceSearch.AddStates | internal/repo/queries.go:47-55 | the state clause narrows the selection by the states and nothing else |
| DeviceSearch.AddKinds | internal/repo/queries.go:56-64 | the kind clause narrows the selection by the kinds and nothing else |
| DeviceSearch.AppendClause | internal/repo/queries.go:39-64 | a clause over fresh placeholders leaves the meaning of the earlier clauses alone |
| DeviceSearch.LimitAndOffsetKeep | internal/repo/queries.go:65-66 | the two final arguments do not change what is selected |
| Sessions.VacuumInvisible | internal/service/retention.go:44-44 | any run of logins, logouts, authorizations and vacuums with any cutoffs up to the current time answers every authorization as the run without vacuums does |
| Sessions.AuthorizeIff | internal/service/auth.go:93-128 | whatever logins, logouts, membership changes, vacuums and other authorizations come before it and between its two reads, an authorization is granted to a member exactly when that member has the session at the first read (opened it, not logged out, lifetime not over) and is active with a sufficient role at the second |
| Sessions.RolesOrdered | internal/service/auth.go:135-143 | viewer, operator, owner in this order; an unknown role satisfies and requires nothing |
| Sessions.LoginAnswers | internal/repo/repo.go:65-68 | a login with an id no session has had succeeds; one with the id of a session neither logged out nor swept is refused |
| Sessions.LogoutIff | internal/repo/repo.go:74-87 | a logout finds its session exactly when it was opened, has not been logged out, and no vacuum has had a cutoff at or after its end |
| Sessions.LogoutSeesVacuum | internal/service/auth.go:129-134 | vacuums change a logout's answer exactly when the session was opened, not logged out, and some vacuum had a non-zero cutoff at or after its end |
| Sessions.LogoutCanDiffer | internal/repo/queries.go:144-153 | such a run |
| Sessions.SessionStore.DeleteExpired | internal/repo/queries.go:144-153 | deletes exactly the expired and the revoked sessions and counts them; refuses the zero time |
| Migrations.AppliedInOrder | internal/db/db.go:98-125 | for any processes, interleaving and crashes, and whatever earlier releases applied, what has been applied since is the first so many of the missing files in sorted order, none twice |
| Migrations.AppliedIsAPrefix | internal/db/db.go:98-125 | on a fresh database the applied versions are a repeat-free prefix of the sorted files |
| Migrations.ReturnedMeansMigrated | internal/db/db.go:126-126 | once some Migrate has returned without error, then and ever after exactly the missing files have been applied, in order |
| Migrations.AlwaysInOrder | internal/db/db.go:77-125 | only the lock holder works, and everything before its position is applied |
| Migrations.CaughtUp | internal/db/db.go:99-110 | a process about to apply a file has exactly the missing files before it behind it |
| Migrations.AppliedOnlyGrows | internal/db/db.go:115-124 | nothing is ever unapplied |
| Migrations.Database.Migrate | internal/db/db.go:99-126 | the loop applies exactly the missing files, in order, up to the first transaction that does not simply commit, as the protocol does for a process that is alone |

## Left out

- HTTP handlers, middleware, JSON encoding, environment configuration, logging, metrics and process startup: plumbing over libraries.
- Password hashing, UUID and random generation: the password check happens before `Sessions.SessionStore.Login`, and session ids are values that are never reused.
- The release branch of MarkOutbox: no caller takes it, so it is no step of the protocol; Progress.ReleasedMessageWaits says what it does.
- PostgreSQL internals: locks appear only as the set of rows a claim skips, and serialization failures as aborted commits.
- Deletion of households, automations, devices or messages: the modelled code issues none. Foreign keys with ON DELETE RESTRICT keep an action's device in place, so the join that loads the actions drops none.
- Sequence numbers burnt by a transaction that is cancelled halfway: `Protocol` spends them for aborted commits and refused devices, and otherwise leaves no gap. Nothing depends on gaps.
- Payload keys, topics and audit kinds other than the ones the code branches on: enumerations with a catch-all.
- Other writers to the outbox: they may add messages of any topic but device.command.
- Goroutine scheduling, tickers and timers: they are the order of steps; their latency is part of the reply bound and the two deadlines in `Protocol`.
- Clock skew: one clock is shared by the workers and the database.
- Failures before the first HTTP attempt (URL check, request construction, body encoding): in the protocol such a publication simply returns an error.
- Response decoding in `Transport.Do`: the webhook passes no output value.
- The early returns of the circuit's Call for a cancelled context or a missing callback: they change nothing.
- The dispatcher without a gateway, command encoding and the gateway itself: fingerprints are opaque text, and a gateway that never returns leaves its id in flight.
- Floating-point rounding of watts, hours and the bucket count, and saturation of durations: reals and unbounded integers are used.
- Time zones: only whether a zone is present matters.
- ILIKE matching: an uninterpreted predicate on pattern and text. Unicode white space: a predicate on characters.
- The SQL text, ORDER BY and paging of the device search: the statement is kept as clauses over numbered placeholders.
- Sessions.AuthorizeIff: reads the session and the clock in one step, where the service reads the clock right after the row.
- LeaseSafety.RetrySpacing: stops at the 301st claim, where the 5-minute lease replaces the growing delay; the retry limit is at most 100.
- Processes of different releases migrating at the same time: all processes embed the same files. Reading the files and taking the lock fail only as an error step of the protocol.
- Validation in AutomationService.Create and sorting of migration names: inputs arrive checked and sorted.
- Plan expiry, quotas, pagination, role helpers, alert severity, notifications, retry policies, supervisor, semaphore and energy integration: they would add only easy members.
