# Wreckr verification model

Wreckr runs traffic scenarios against HTTP services and judges the outcome. This project models
its hard core in Dafny and proves what the design promises, over all inputs and all
interleavings.

- **Runs and their logs.** `RunEvents`, `RunLifecycle` and `MemoryStore` model the in-memory
  store: each method holds the store's lock, so it is one atomic step on one run. `PostgresStore`
  models the transactional store, where a status change and its event are separate transactions
  that may fail or commit without the client learning of it, and proves that it simulates the
  memory store.
- **Cancellation.** `WorkerProtocol` interleaves any number of `Execute` attempts (retried,
  duplicated, crashed), their cancellation monitors, API cancel handlers (`CancelHandler`) and
  the handler that enqueues the run, over a store each of whose writes may commit, commit without
  an answer, or be rolled back, and each of whose reads may fail. `WorkerFutures` says which
  cancellations win, and `WorkerRuns` when an attempt starts, executes and leaves a run.
  `WorkerReports` compares the uploaded report with the stored one, and `WorkerSchedules` gives
  schedules from the creation of a run that the design does not rule out.
  `ServerProtocol` interleaves any number of in-process runs and handlers over the two cancel
  maps, the mode of a server without a queue, over the memory store, whose writes do not fail.
  `WorkerAnswers` and `ServerAnswers` say what the answers of the handlers mean, and `ServerRuns`
  when a run is executed.
- **Scenarios and versions.** `Environment` models `os.ExpandEnv`. `Scenarios` models slices and
  header maps as shared memory, since `WithEnv` and `Normalized` write through them.
  `SavedVersions` says when saving and starting runs leave the saved versions alone, and
  `RunStamps` when the version stamp of a run names the version it was given.
- **Traffic.** `TrafficPool` and `TrafficRace` are step relations of the worker pool and the race
  barrier over a common vocabulary, `TrafficPlan`. `RequestLimiter` and `Guardrails` bound the
  pace of a limiter, and `TrafficPacing`, `PoolPacing` and `RacePacing` that of the traffic.
- **Events on the wire.** `EventStream` models the server-sent event stream with resume ids
  (section 9.2, Server-sent events, of the HTML Living Standard) over the Postgres store, whose
  reads may fail or be cut, and `StreamEnds` how streams end; `EventView` is the list that the console keeps.
- **Verdict.** `Reports` and `Verdict` go from response records to the report of a run, and
  `InterruptedRuns` to that of a run cut short.
- **Translations.** `K6Plan`, `CounterKeys`, `K6Counters` and `LostResponses` relate the compiled
  k6 script and its summary to the built-in runner; `JsonPath` is the path language of probes.
- `Prelude`, `Decimal`, `Text` and `Sorting` hold the sequence, number and text vocabulary.

Code that works by changing things in place is modelled by methods over classes, arrays and
loops, each proved against a function; protocols are step relations over values, with theorems
about every sequence of allowed actions. Durations are real numbers; an integer is bounded where
its width matters (resume ids, indexes, statuses).

## Where the code differs from what one would expect

- A cancel answered with 202 can lose, in both modes: `WorkerSchedules.AcceptedCancelCanLose`,
  `ServerProtocol.AcceptedCancelCanLose`. `CancelWinsExactly` of `ServerProtocol` and of
  `WorkerFutures` gives the exact condition.
- A look for a request that fails counts as no request, so even a request logged in time can lose:
  `WorkerSchedules.LoggedRequestCanLose`; `WorkerFutures.CancelWinsBlindExactly` is the exact
  condition while the run is not delivered again, and with another delivery no cancel of an open
  run is certain: `WorkerFutures.NoCancelIsCertain`.
- `Execute` ignores that a write failed, and a run it cannot read again counts as absent. It can
  return, and its queue entry is then acknowledged, with the run still queued or running for good:
  `WorkerSchedules.ReturnedYetQueued`, `ReturnedYetRunning`, `ReturnedUnread`,
  `SeenRequestCanBeLost`; exactly when, `WorkerProtocol.ReturnLeavesOpenIff`. A run ends terminal
  exactly when some finishing write took effect: `WorkerProtocol.TerminalIffWritten`.
- The uploaded report can contradict the stored one: `WorkerSchedules.BlobCanContradictStore`; they
  agree exactly as `WorkerReports.UploadedAgreesIff` says. The version stamp is only ever on the
  stored one.
- `run_started` can repeat, and events can follow the terminal event: exactly how often and when,
  `RunLifecycle.StartedEventsAre` and `TerminalEventIsLastIff`.
- The console does not listen to the worker's events, so a console that watches a run whose attempt
  is retried can show its log with a gap: `StreamEnds.ConsoleHasGap`, and exactly when,
  `EventStream.ConsoleGapIff`.
- A stream can close before its terminal event (`StreamEnds.ClosesEarly`), and a resume id beyond
  the log closes it with nothing sent (`StreamEnds.StaleIdClosesEmpty`), as does a failed listing of
  a finished run (`StreamEnds.FailedListingCloses`); exactly when a closed stream has sent the
  terminal event, `StreamEnds.ClosesWithTerminalIff`. A run that cannot be read closes the stream
  while it is open: `StreamEnds.OpenRunCloses`.
- In Postgres a finished run can be left without its terminal event for good:
  `PostgresStore.EventsCanBeLost`, and exactly when, `PostgresStore.TerminalRowIff`.
- A run whose context was done early can pass, with nothing or a part of its plan sent:
  `InterruptedRuns.NothingSentCanPass`, `InterruptedPassesIff`.
- An environment one of whose values holds a reference, or ends inside one, lets later runs rewrite
  saved versions in place: `Scenarios.SavedTextStaysIff`; `SavedVersions.RunRewritesSavedVersion`
  does so in an environment of two variables.
- Rates whose period is cut down too much let more through than they say:
  `RequestLimiter.FirstSecondKeptIff`.
- Responses with a status that has no counter are missing from k6 reports:
  `LostResponses.UntrackedAreLost`.
- The version stamp of a run can name another version than the one it was given, after an update
  between the handler's two calls, and an inline scenario sent with the id of a saved one is
  stamped with that one: `RunStamps.StaleContent`, `StampOfAnother`; a failed read leaves it out:
  `UnstampedContent`. Exactly when it is right: `StampHonestIff`.
- `getReport` of the Postgres store selects a column of `runs` that the migrations never create
  (apps/api/internal/store/postgres.go:984-988), so a report read with its run has no stamp while
  the list of runs has it: `PostgresStore.FetchedAgreesIff`.

## Model

| member | source | states |
|---|---|---|
| RunEvents.AppendedEffect | apps/api/internal/store/memory.go:448-465 | Appending keeps sequence numbers exactly 1..n and adds exactly the appended kind to the terminal kinds and to the cancel requests |
| RunLifecycle.ApplyInv | apps/api/internal/store/memory.go:275-478 | Every store operation that the runner, the worker or the API performs keeps the invariant: numbered log, at most one cancel request, a report exactly on passed, failed and canceled runs with the stamp of the run, and one terminal event of the matching kind exactly on terminal runs |
| RunLifecycle.ReplayInv | apps/api/internal/store/memory.go:275-478 | The invariant holds after every sequence of operations |
| RunLifecycle.ReplayEvolves | apps/api/internal/store/memory.go:275-478 | Between any two moments of any sequence: ranks never fall, a terminal record is frozen, the log only grows at its end, identity and version stamp stay |
| RunLifecycle.NoFinisherStaysOpen | apps/api/internal/store/memory.go:275-294 | Without a finishing operation a run stays open, and it is running exactly when it was or was marked started |
| RunLifecycle.FirstFinisherDecides | apps/api/internal/store/memory.go:296-387 | Whatever the sequence, the final record is the outcome of the first complete, cancel or error operation; all later ones change nothing |
| RunLifecycle.RequestRecorded | apps/api/internal/store/memory.go:406-425 | A cancel request is on the log exactly when one arrived before any finishing operation |
| RunLifecycle.TerminalEventIffTerminal | apps/api/internal/store/memory.go:467-478 | A terminal event is on the log exactly when the status is terminal, at most once, and of the kind of the status |
| RunLifecycle.TerminalEventIsLastIff | apps/api/internal/store/memory.go:433-437 | The terminal event is the last of the log exactly when nothing was appended after the operation that finished the run |
| RunLifecycle.StartedEventsAre | apps/api/internal/store/memory.go:275-294 | run_started is logged exactly once for every time the run was marked started before it was first finished |
| MemoryStore.Memory.constructor | apps/api/internal/store/memory.go:86-94 | A new store is empty and valid |
| MemoryStore.Memory.CreateScenario | apps/api/internal/store/memory.go:154-165 | A new scenario gets version 1 and points at it; no saved version changes and the store stays valid |
| MemoryStore.Memory.UpdateScenario | apps/api/internal/store/memory.go:167-184 | An existing scenario gets the next version number and points at it, all earlier versions stay; an unknown one changes nothing |
| MemoryStore.Memory.GetScenarioVersion | apps/api/internal/store/memory.go:212-223 | Finds a version exactly when the number lies in 1..n, and then the one at that place |
| MemoryStore.Memory.AppendLocked | apps/api/internal/store/memory.go:448-465 | The event gets the next sequence number at the end of the log of its run |
| MemoryStore.Memory.CreateRun | apps/api/internal/store/memory.go:225-273 | A queued run with its run_queued event and the stamp of the given version, of the current one, or none; all other runs stay; a stamp names a saved version |
| MemoryStore.Memory.MarkRunStarted | apps/api/internal/store/memory.go:275-294 | Performs exactly the start operation on one run, nothing else changes, validity is kept |
| MemoryStore.Memory.CompleteRun | apps/api/internal/store/memory.go:296-336 | Performs exactly the complete operation on one run, nothing else changes, validity is kept |
| MemoryStore.Memory.CancelRun | apps/api/internal/store/memory.go:338-365 | Performs exactly the cancel operation on one run, nothing else changes, validity is kept |
| MemoryStore.Memory.ErrorRun | apps/api/internal/store/memory.go:367-387 | Performs exactly the error operation on one run, nothing else changes, validity is kept |
| MemoryStore.Memory.IsRunCancelRequested | apps/api/internal/store/memory.go:480-487 | True exactly when the log of the run holds a cancel request |
| MemoryStore.Memory.RequestRunCancel | apps/api/internal/store/memory.go:406-425 | Accepted exactly when the run is open, and then a request is on the log, logged once |
| MemoryStore.Memory.AppendRunEvent | apps/api/internal/store/memory.go:433-437 | Appends to one log, whether or not the run exists, and keeps validity for kinds the store does not own |
| MemoryStore.PerformedKeeps | apps/api/internal/store/memory.go:275-465 | An operation on one run keeps every cell and every version stamp of the store good |
| MemoryStore.StampsForever | apps/api/internal/store/memory.go:154-273 | Version stamps stay empty or name a saved version for as long as versions only grow |
| Scenarios.ExpandRequestEnv | apps/api/internal/scenario/schema.go:257-269 | In-place expansion of a shared slice and its header maps: exactly the expanded requests when no header map is shared within it, and no write to anything when all is expanded already |
| Scenarios.NormalizeRequests | apps/api/internal/scenario/schema.go:245-255 | In-place normalization of a shared slice: exactly the normalized requests, new header maps only where there was none, and no change to a normal slice |
| Scenarios.WithEnv | apps/api/internal/scenario/schema.go:148-167 | The scenario value with its text expanded, its slices and maps expanded in place, untouched when expansion fixes them |
| Scenarios.Normalized | apps/api/internal/scenario/schema.go:114-146 | The defaults filled in, the slices normalized in place, untouched when they are normal |
| Scenarios.NormalizeIdempotent | apps/api/internal/scenario/schema.go:245-255 | Normalizing twice is normalizing once |
| Scenarios.NormalTrafficMeans | apps/api/internal/scenario/schema.go:118-129 | The defaults make every traffic usable and change only what was not: to load, one worker, one iteration, three attempts |
| Scenarios.NormalizeRequestMeans | apps/api/internal/scenario/schema.go:245-255 | A request without a verb gets GET, any other verb is put in capital letters, a missing header map is made, and nothing else changes |
| Environment.ClosedExpands | apps/api/internal/scenario/schema.go:148-167 | A text in which no reference is cut off by its end is expanded by itself, whatever follows it |
| Environment.PlainExpands | apps/api/internal/scenario/schema.go:148-167 | Text without a dollar sign is left as it is, in every environment |
| Environment.NamedReference | apps/api/internal/scenario/schema.go:148-167 | A dollar and a name of letters, digits and underscores that does not begin with a digit reads that variable, however the text goes on behind the name; one that is not set reads as nothing |
| Environment.SpecialReference | apps/api/internal/scenario/schema.go:148-167 | A dollar and one of the special characters or a digit reads the variable of that one character |
| Environment.BadReferences | apps/api/internal/scenario/schema.go:148-167 | A dollar before any other character or at the end stays; empty braces and a brace that does not close are dropped |
| Environment.IdempotentIff | apps/api/internal/scenario/schema.go:148-167 | Expanding twice is expanding once for all texts if and only if every value whose name can be written in a reference is itself closed and expands to itself |
| Environment.PlainValuesAreStable | apps/api/internal/scenario/schema.go:148-167 | Values without a dollar sign are enough for that |
| Environment.ChainedIsUnstable | apps/api/internal/scenario/schema.go:148-167 | Two variables, one read through the other, are enough against it |
| Scenarios.PreparedRequestStaysIff | apps/api/internal/scenario/schema.go:245-269 | A prepared request is left alone by a second preparation exactly when a second expansion would leave each of its texts alone |
| Scenarios.SavedTextStaysIff | apps/api/internal/scenario/schema.go:114-167 | Prepared text is never changed by a later preparation, whatever the text, exactly when the environment is stable in that sense |
| Scenarios.PlainStays | apps/api/internal/scenario/schema.go:257-269 | Text without a dollar sign stays, in every environment |
| SavedVersions.Prepare | apps/api/internal/scenario/schema.go:114-167 | WithEnv then Normalized: what the slices and header maps hold afterwards, and what is written when the slices are settled: nothing, or the target headers alone |
| SavedVersions.PrepareNew | apps/api/internal/httpapi/server.go:187-199 | Preparing a newly decoded scenario touches no saved version, and leaves the scenario settled exactly when none of its texts would be expanded further a second time |
| SavedVersions.ResolveTarget | apps/api/internal/httpapi/server.go:533-588 | The request's target or the scenario's own; an unknown one is an error; with a target the scenario gets its base URL and a new header map in which its own headers win |
| SavedVersions.SaveScenario | apps/api/internal/httpapi/server.go:187-285 | Saving, in any environment, new or as a next version: the store stays valid, a version holding the prepared requests is added exactly on success, and saved versions stay settled exactly when the new one is |
| SavedVersions.FindSaved | apps/api/internal/httpapi/server.go:312-331 | Which version a run starts from: the one with the number asked for, or the one the scenario points at; only one asked for by number is handed on to CreateRun |
| SavedVersions.PrepareSafe | apps/api/internal/scenario/schema.go:114-167 | Preparing a scenario that shares nothing with the saved versions, or shares only what is settled, leaves every saved version reading as before |
| SavedVersions.NewIsBeside | apps/api/internal/httpapi/server.go:309-310 | A scenario of the request is safe to prepare beside all saved versions |
| SavedVersions.SettledIsBeside | apps/api/internal/httpapi/server.go:312-331 | So is a saved version of settled ones |
| SavedVersions.CreateFrom | apps/api/internal/httpapi/server.go:340-352 | The second half of starting a run: admitted exactly when valid and within the caps; the stamp is that of the store at that moment; saved versions read as before when the scenario is safe to prepare |
| SavedVersions.StartRun | apps/api/internal/httpapi/server.go:295-352 | When no other handler runs in between, a run started from a saved version, with or without a target, changes no slice and no header map of any settled version and is stamped with that version |
| SavedVersions.RunRewritesSavedVersion | apps/api/internal/httpapi/server.go:295-352 | An environment of two variables and a scenario whose saved version reads otherwise after the first run from it |
| RunStamps.ExecOk | apps/api/internal/store/memory.go:154-273 | Whatever handlers do, versions stay numbered 1..n, the record points at the last, and none disappears |
| RunStamps.LookFinds | apps/api/internal/httpapi/server.go:312-331 | A handler that can read the store finds the saved version of the number asked for, if there is one, or else the one that the scenario points at |
| RunStamps.StampHonestIff | apps/api/internal/httpapi/server.go:309-352 | For every interleaving between lookup and creation: the stamp names the version whose content the run holds exactly if that was asked for by number, or was the current one, the scenario was not saved again in between and CreateRun could read it, or the scenario came in the request without the id of a scenario that is saved by then and that CreateRun could read |
| RunStamps.StaleContent | apps/api/internal/store/memory.go:243-246 | A schedule in which the run holds version 1 and is stamped 2 |
| RunStamps.StampOfAnother | apps/api/internal/httpapi/server.go:309-310 | A schedule in which a scenario of the request is stamped with a saved version |
| RunStamps.UnstampedContent | apps/api/internal/store/postgres.go:454-461 | A schedule in which a run from a saved scenario has no stamp, since CreateRun could not read the scenario |
| WorkerProtocol.AppendIfMissingLoop | apps/api/internal/runexec/executor.go:138-145 | The value is appended unless it is there, and everything there stays in its place |
| WorkerProtocol.NextInv | apps/api/internal/runexec/executor.go:24-120 | Every step of attempts, monitors, cancel handlers and the enqueueing handler, with writes that commit, are not acknowledged or are rolled back and with reads that succeed or fail, keeps the protocol invariant |
| WorkerProtocol.ExecInv | apps/api/internal/runexec/executor.go:24-120 | The invariant holds in every interleaving, with any number of retried, duplicated and crashed attempts |
| WorkerProtocol.FinisherSawNoRequest | apps/api/internal/runexec/executor.go:70-86 | An attempt that finished a run otherwise than canceled found no cancel request on the log at its last look that succeeded; one that canceled it found one |
| WorkerProtocol.ReturnedMeansTerminalIff | apps/api/internal/runexec/executor.go:24-86 | An attempt that returned has left the run terminal exactly when its last write was not rolled back and it did not return because it could not read the run, unless somebody else finished the run |
| WorkerProtocol.ReturnLeavesOpenIff | apps/api/internal/runexec/executor.go:25-86 | The step by which an attempt returns leaves the run open exactly when the run was open and this read of the run fails or finds it still queued, or this write is rolled back |
| WorkerProtocol.TerminalIffWritten | apps/api/internal/runexec/executor.go:44-86 | An open run ends terminal exactly when some finishing write of the schedule took effect |
| WorkerRuns.FinishedRunIsNotExecuted | apps/api/internal/runexec/executor.go:25-56 | Once a run is finished, no attempt that has not reached the runner by then ever does, nor one delivered later, in any interleaving |
| WorkerRuns.StartedRunIsNotStarted | apps/api/internal/runexec/executor.go:51-53 | An attempt that does not find the run queued never starts it |
| WorkerRuns.ReturnsIff | apps/api/internal/runexec/executor.go:25-86 | Exactly which steps make an attempt return: a read of the run that fails or finds it finished, a second read that finds it still queued, and its finishing write, whatever becomes of it |
| WorkerRuns.RunnerIsWatched | apps/api/internal/runexec/executor.go:59-64 | While its runner is at work an attempt has a cancellation monitor that was started, in any interleaving |
| WorkerRuns.MonitorSetsFlag | apps/api/internal/runexec/executor.go:99-120 | A monitor that can read the log sets the flag in two steps once a request is on it |
| WorkerRuns.FlagMeansCancel | apps/api/internal/runexec/executor.go:70-77 | An attempt whose flag is set before it is loaded neither completes the run nor reports an error, in any interleaving, even if its own look at the log fails |
| WorkerRuns.SeenMeansFlagged | apps/api/internal/runexec/executor.go:99-120 | A monitor that has seen a request sets the flag, whatever stops it later, unless the attempt crashes |
| WorkerRuns.EnqueueFailureIs | apps/api/internal/httpapi/server.go:355-357 | A run whose task cannot be queued is errored with that error, unless it was finished or the write is rolled back |
| WorkerFutures.CancelWinsExactly | apps/api/internal/runexec/executor.go:44-86 | With a request on the log of an open run, every future in which no check fails ends canceled if and only if no live attempt is past its last check and the enqueueing handler is done |
| WorkerFutures.RivalCanWin | apps/api/internal/runexec/executor.go:80-86 | Such an attempt, or an enqueueing still to come, finishes the run otherwise in some future without a failed check |
| WorkerFutures.CancelWinsBlindExactly | apps/api/internal/runexec/executor.go:44-86 | With checks that fail, every future of an open run without another delivery ends canceled if and only if the enqueueing handler is done and no attempt can still finish the run otherwise: all but those that have seen the request, through their own look or their monitor's, that are gone, or that will find the run queued |
| WorkerFutures.CanFinishOtherwise | apps/api/internal/runexec/executor.go:25-86 | Every attempt of that kind does finish the run otherwise in some future, from wherever it stands |
| WorkerFutures.NoCancelIsCertain | apps/api/internal/runexec/executor.go:44-86 | An open run always has a future that ends otherwise than canceled, by one more delivery |
| WorkerFutures.SoleExecutorHonoursRequest | apps/api/internal/runexec/executor.go:70-79 | With a single live attempt, a request logged before its check and no check that fails, the run is canceled by the time the attempt returns exactly when some finishing write took effect; otherwise it is still open with the request on its log, after a write rolled back or a run not read |
| WorkerReports.UploadedAgreesIff | apps/api/internal/runexec/executor.go:70-97 | In every interleaving the uploaded and the stored report have the same status exactly when the run was canceled and the last uploader's runner had produced no report, or it was completed and that runner came to the verdict of the finisher's |
| WorkerProtocol.LateCancelReportStatus | apps/api/internal/runexec/executor.go:71-76 | The report of a late cancel is what the runner reported with the note of the cancellation at the end, unless it was there, or the error the runner ended with and the note; its status is canceled exactly when there was no report |
| WorkerSchedules.BlobCanContradictStore | apps/api/internal/runexec/executor.go:83-84 | A schedule from the creation of the run after which the uploaded report says passed and the stored one says canceled |
| WorkerSchedules.AcceptedCancelCanLose | apps/api/internal/runexec/executor.go:80-86 | A schedule from the creation of the run after which the cancel was answered with 202 and the run is terminal and not canceled |
| WorkerSchedules.ReturnedYetQueued | apps/api/internal/runexec/executor.go:51-57 | A schedule whose attempt returns without an error with the run still queued: its start was rolled back |
| WorkerSchedules.ReturnedYetRunning | apps/api/internal/runexec/executor.go:83-85 | A schedule whose attempt uploads its report and returns without an error with the run still running: its completion was rolled back |
| WorkerSchedules.ReturnedUnread | apps/api/internal/runexec/executor.go:54-57 | A schedule whose attempt returns without an error with the run still running and no write rolled back: it could not read the run it had started |
| WorkerSchedules.LoggedRequestCanLose | apps/api/internal/runexec/executor.go:70-84 | A schedule in which a request is logged and answered with 202 while the only attempt is at work, the check after it fails, and the run completes |
| WorkerSchedules.SeenRequestCanBeLost | apps/api/internal/runexec/executor.go:44-48 | A schedule in which the only attempt sees the request, the cancel is answered with 202, and the run stays open |
| WorkerAnswers.AnswersExactly | apps/api/internal/httpapi/server.go:409-430 | In every interleaving, exactly when a handler answers 404 (the run could not be read), 409 (it was finished, or the request was not acknowledged) and 202 (the request was acknowledged, and a run looked up as queued was canceled by the handler itself) |
| WorkerAnswers.QueuedRunIsCanceled | apps/api/internal/httpapi/server.go:424-428 | A handler that found the run queued and answered 202 has made that cancel; if it was not rolled back the run is finished, and canceled with the report of the override unless it was finished before |
| WorkerAnswers.HandlerStepFinishesIff | apps/api/internal/httpapi/server.go:424-425 | A step of a handler finishes an open run exactly when it is the cancel of a run looked up as queued, and that is not rolled back |
| ServerProtocol.CancelMaps.RegisterRunCancel | apps/api/internal/httpapi/server.go:590-594 | Registers one run and leaves the rest |
| ServerProtocol.CancelMaps.RequestRunCancel | apps/api/internal/httpapi/server.go:596-608 | True exactly when the run is registered, and only then marks it |
| ServerProtocol.CancelMaps.FinishRunCancel | apps/api/internal/httpapi/server.go:610-617 | Tells whether the run was marked and removes it from both maps |
| ServerProtocol.CancelReportKeeps | apps/api/internal/httpapi/server.go:504-509 | The report of a canceled run keeps what the runner produced, or its error, and ends with the cancellation note |
| ServerProtocol.NextInv | apps/api/internal/httpapi/server.go:409-517 | Every step of any number of in-process runs and cancel handlers keeps the invariant |
| ServerProtocol.HitMeansCanceled | apps/api/internal/httpapi/server.go:487-517 | Whenever a cancel finds the run registered, that run ends canceled, in every interleaving |
| ServerProtocol.MapsDrained | apps/api/internal/httpapi/server.go:590-617 | Marked runs are registered runs, and after executeRun returns neither map mentions the run and the run is terminal |
| ServerProtocol.CancelWinsExactly | apps/api/internal/httpapi/server.go:487-517 | An open run is bound to end canceled if and only if its request is marked or executeRun has already taken it |
| ServerProtocol.AcceptedCancelCanLose | apps/api/internal/httpapi/server.go:409-430 | A schedule from the empty server after which the cancel was answered with 202 and the run is terminal and not canceled |
| ServerAnswers.AnswersExactly | apps/api/internal/httpapi/server.go:409-430 | The same for runs that the server executes: exactly when the answer is 409 and 202, never 404, and a handler that finds the run registered has handed the cancel to executeRun |
| ServerAnswers.QueuedRunIsCanceled | apps/api/internal/httpapi/server.go:424-428 | A handler that found the run queued and later not registered has, once it answers 202, left it finished, and canceled with the report of the override unless it was finished before |
| ServerAnswers.HandlerStepFinishesIff | apps/api/internal/httpapi/server.go:424-425 | A step of a handler finishes an open run exactly when it is the cancel of a run looked up as queued and not registered |
| ServerRuns.CanceledRunIsNotExecuted | apps/api/internal/httpapi/server.go:492-497 | A run that is canceled before executeRun has sent it to the runner never gets there, in any interleaving |
| ServerRuns.ReturnedRunIsFinal | apps/api/internal/httpapi/server.go:485-517 | Once executeRun has returned, neither the run nor its log changes any more, in any interleaving with cancel handlers |
| PostgresStore.Tables.InsertEvent | apps/api/internal/store/postgres.go:1008-1057 | The next sequence number of that run, refused for an unknown run, other runs untouched |
| PostgresStore.Tables.MarkRunStarted | apps/api/internal/store/postgres.go:503-516 | The status update of one open run and whether a row matched |
| PostgresStore.Tables.ErrorRun | apps/api/internal/store/postgres.go:621-640 | The status update of one open run and whether a row matched |
| PostgresStore.Tables.FinishRunWithReport | apps/api/internal/store/postgres.go:570-619 | Status and report of one open run in one transaction |
| PostgresStore.Tables.CompleteRun | apps/api/internal/store/postgres.go:526-533 | The first transaction of completing a run |
| PostgresStore.Tables.CancelRun | apps/api/internal/store/postgres.go:555-559 | The first transaction of canceling a run |
| PostgresStore.Tables.IsRunCancelRequested | apps/api/internal/store/postgres.go:835-848 | True exactly when a row of the run is a cancel request |
| PostgresStore.Tables.RequestRunCancel | apps/api/internal/store/postgres.go:774-833 | Accepted exactly when the run is open; the request is inserted once, in the same transaction |
| PostgresStore.StepSimulated | apps/api/internal/store/postgres.go:503-646 | One transaction, committed, unacknowledged or rolled back, is one memory operation or none |
| PostgresStore.PostgresSimulatesMemory | apps/api/internal/store/postgres.go:503-646 | Over every interleaving and failure the store is one the memory store could reach: same durable record, same requests and runner events in order, and each lifecycle event exactly once as a row or among those owed or lost |
| PostgresStore.SameRequests | apps/api/internal/store/postgres.go:774-848 | Both stores agree on status, openness and whether a cancel was requested |
| PostgresStore.RowsAreSafe | apps/api/internal/store/postgres.go:503-646 | Rows are exactly 1..n, at most one cancel request, at most one terminal event, none on an open run, and a terminal run has it exactly when it is neither owed nor lost |
| PostgresStore.TerminalRowIff | apps/api/internal/store/postgres.go:526-646 | A run has its terminal event as a row exactly when the step that finished it was acknowledged and a later transaction committed the event of that very finish |
| PostgresStore.EventsCanBeLost | apps/api/internal/store/postgres.go:526-553 | A schedule that leaves a finished run without any event |
| PostgresStore.FetchedAgreesIff | apps/api/internal/store/postgres.go:970-998 | A report read with its run has no stamp, so GetRun and the list of runs agree exactly on runs without a report or without a stamp |
| PostgresStore.StatusColumnAgreesIff | apps/api/internal/store/postgres.go:604-614 | The status that Postgres keeps for a report, which is the run's, is the report's own, except of a run that passed with a report that says canceled |
| EventView.AppendRunEvent | apps/web/components/run-console.tsx:268-275 | The loop and the sort compute the merged list |
| EventView.MergedMeaning | apps/web/components/run-console.tsx:268-275 | An arrival takes the place of its sequence number in a sorted, duplicate-free list and all else stays |
| EventView.MergedAllMeaning | apps/web/components/run-console.tsx:268-275 | After any arrivals the list is sorted and duplicate-free and holds the last arrival of every sequence number |
| EventView.ShownGrows | apps/web/components/run-console.tsx:151-157 | The next entry of the log is merged when it is of a kind listened to and leaves no trace otherwise |
| EventView.ShownIsPrefixIff | apps/web/components/run-console.tsx:73-89 | What is shown is a prefix of the log exactly when no streamed entry that is not listened to comes before one that is |
| EventStream.ResumeRoundTrip | apps/api/internal/httpapi/server.go:642-669 | An id the server wrote is read back as the same sequence number |
| EventStream.BadResumeStartsOver | apps/api/internal/httpapi/server.go:642-652 | Resuming from the beginning happens exactly for texts that are not 64-bit integers or not positive |
| EventStream.WriteNew | apps/api/internal/httpapi/server.go:461-472 | One poll writes exactly the entries after the resume id and ends at the length of the log |
| EventStream.HasTerminalEvent | apps/api/internal/httpapi/server.go:632-640 | True exactly when some event is terminal |
| EventStream.StreamIsExact | apps/api/internal/httpapi/server.go:441-485 | In every interleaving of commits, lost and delayed events, listings and reads that fail or are cut, writes, breaks and reconnects: a stream has sent exactly the rows k+1..m, m being the most rows one of its listings returned, the client has received one unbroken piece of the log, and the console shows what it loaded and, of what it received, exactly the kinds it listens to |
| EventStream.ConsoleGapIff | apps/web/components/run-console.tsx:149-161 | Exactly when a console shows a prefix of the log |
| EventStream.ReconnectKeeps | apps/api/internal/httpapi/server.go:642-652 | A reconnect resumes exactly behind the last entry received |
| StreamEnds.ClosesWithTerminalIff | apps/api/internal/httpapi/server.go:461-477 | For every resume id and every outcome of the reads: a stream at its check has sent the terminal event exactly when, at the last listing, the run had finished and its terminal event was a row that the id does not skip and that some listing of the connection got to; after a whole listing no row is out of reach |
| StreamEnds.CheckClosesIff | apps/api/internal/httpapi/server.go:474-477 | The check closes the stream exactly when the run has finished or cannot be read, and otherwise waits for the next poll |
| StreamEnds.ClosesEarly | apps/api/internal/httpapi/server.go:462-477 | From every open run a schedule in which the stream closes without the terminal event, though that is committed: the run finishes between listing and check |
| StreamEnds.StaleIdClosesEmpty | apps/api/internal/httpapi/server.go:464-477 | A resume id at or beyond the end of a finished log closes the stream with nothing sent |
| StreamEnds.OpenRunCloses | apps/api/internal/httpapi/server.go:474-477 | A schedule in which the stream of an open run is closed by a check that cannot read the run |
| StreamEnds.FailedListingCloses | apps/api/internal/httpapi/server.go:462-477 | A schedule in which a failed listing closes the stream of a finished run with nothing sent, its terminal event being a row |
| StreamEnds.ReachesCheck | apps/api/internal/httpapi/server.go:461-477 | Undisturbed, a stream about to list reaches the check of that poll, however the listing ends |
| StreamEnds.PollsAgain | apps/api/internal/httpapi/server.go:461-477 | A check that does not close the stream is followed by the next poll, with nothing sent in between |
| StreamEnds.FinishedRunIsCaughtUp | apps/api/internal/httpapi/server.go:441-485 | After the run has finished a reconnect sends what the client lacks of the rows listed, and then the stream ends, however its reads end; the client has every row exactly when the listing was whole or it lacked none; the terminal event is among the rows exactly when it is neither owed nor lost |
| StreamEnds.CreatedStore | apps/api/internal/store/postgres.go:418-502 | Creating a run and committing its event leaves the store that the next row starts from |
| StreamEnds.ConsoleHasGap | apps/web/components/run-console.tsx:73-89 | A console that watches a queued run whose first attempt fails and whose retry starts it: it has received all rows and does not show a prefix of them |
| TrafficPool.NextInv | apps/api/internal/runner/runner.go:90-135 | Every step of producer, workers, limiter and context keeps the pool invariant |
| TrafficPool.NothingTwice | apps/api/internal/runner/runner.go:90-135 | In every interleaving the records of an iteration are a prefix of its request-major order, and no iteration, request and attempt is recorded twice |
| TrafficPool.EverythingOnce | apps/api/internal/runner/runner.go:90-135 | A pool that returned with the context never done holds exactly one record for every iteration, request and attempt |
| TrafficPool.NotStuck | apps/api/internal/runner/runner.go:95-134 | Until it returns the pool has an enabled step of its own, if need be after the next tick |
| TrafficPool.MeasureDrops | apps/api/internal/runner/runner.go:95-134 | Every step of the pool lowers one measure; ticks and cancellation leave it |
| TrafficPool.AlwaysEnds | apps/api/internal/runner/runner.go:95-134 | In every interleaving the number of steps of the pool is bounded from its state |
| PoolPacing.StartsAreTicks | apps/api/internal/runner/runner.go:106-110 | In every interleaving of a limited pool the records and the requests under way are together exactly the ticks taken, and no more are taken than the ticker made |
| PoolPacing.StopsSoon | apps/api/internal/runner/runner.go:97-117 | Once the context is done a pool records at most one more request for each worker that is sending or waits on the limiter, an unlimited one only what is being sent |
| PoolPacing.SleepsBetweenAttempts | apps/api/internal/runner/runner.go:111-117 | In every interleaving a retry storm with a backoff sleeps exactly once after each attempt but the last of a request, and no other traffic sleeps |
| PoolPacing.PoolIsPaced | apps/api/internal/runner/runner.go:106-110 | On the clock of the limiter, from any moment on: the requests started equal those the limiter passed, stay within its budget in its first second, those of setup included, and within the budget and two more in any second |
| PoolPacing.PoolCanBeTimed | apps/api/internal/runner/runner.go:463-484 | Every schedule of a limited pool can happen on that clock |
| PoolPacing.LimitedIff | apps/api/internal/httpapi/server.go:526-531 | A run has a limiter exactly when its author or the cap gives it a rate |
| PoolPacing.AdmittedPoolIsPaced | apps/api/internal/httpapi/server.go:526-531 | Under a positive cap the pool of an admitted run is limited, and if its rate keeps its budget has no more records than the cap in its first second |
| TrafficRace.NextInv | apps/api/internal/runner/runner.go:137-171 | Every step of main loop, racers, limiter and context keeps the race invariant |
| TrafficRace.RoundsAreSeparate | apps/api/internal/runner/runner.go:137-171 | A barrier in every interleaving: records come round by round, all rounds before the last started are complete, nobody records twice |
| TrafficRace.EveryRacerOnce | apps/api/internal/runner/runner.go:137-171 | Without cancellation every round has exactly one record for each racer |
| TrafficRace.NotStuck | apps/api/internal/runner/runner.go:137-171 | Until it returns the race has an enabled step of its own, if need be after the next tick |
| TrafficRace.AlwaysEnds | apps/api/internal/runner/runner.go:137-171 | In every interleaving the number of steps of the race is bounded from its state |
| RacePacing.StartsAreTicks | apps/api/internal/runner/runner.go:160-164 | In every interleaving of a limited race the records and the requests under way are together exactly the ticks taken, and no more are taken than the ticker made |
| RacePacing.StopsSoon | apps/api/internal/runner/runner.go:139-164 | Once the context is done a race records at most one more request for each racer that is sending or waits on the limiter, an unlimited one only what is being sent |
| RacePacing.RaceIsPaced | apps/api/internal/runner/runner.go:160-164 | On the clock of the limiter, from any moment on: the requests started equal those the limiter passed, stay within its budget in its first second, those of setup included, and within the budget and two more in any second |
| RacePacing.RaceCanBeTimed | apps/api/internal/runner/runner.go:463-484 | Every schedule of a limited race can happen on that clock |
| RacePacing.AdmittedRaceIsPaced | apps/api/internal/httpapi/server.go:526-531 | Under a positive cap the race of an admitted run is limited, and if its rate keeps its budget has no more records than the cap in its first second |
| RequestLimiter.FirstWindow | apps/api/internal/runner/runner.go:463-484 | From the making of the limiter until time s at most s / d requests get through |
| RequestLimiter.AnyWindow | apps/api/internal/runner/runner.go:463-484 | Any closed window of length s lets at most s / d + 2 requests through |
| RequestLimiter.Paced | apps/api/internal/runner/runner.go:463-484 | Both bounds for one second and the interval of a rate, over every schedule of ticks and requests |
| RequestLimiter.BudgetIsRateIff | apps/api/internal/runner/runner.go:463-472 | A second holds exactly as many intervals as the rate asks for if and only if the remainder of the division is below the interval |
| RequestLimiter.SmallRatesAreExact | apps/api/internal/runner/runner.go:463-472 | That holds for every rate from 1 to 31622 |
| RequestLimiter.FirstSecondKeptIff | apps/api/internal/runner/runner.go:463-484 | For exactly which rates no schedule lets more requests than the rate through in the first second |
| RequestLimiter.KeepsBudgetIff | apps/api/internal/runner/runner.go:463-472 | Which rates have a second of at most as many intervals as they ask for; all up to 31622 do |
| RequestLimiter.RateExceeded | apps/api/internal/runner/runner.go:467 | A rate for which a schedule lets more through |
| RequestLimiter.WindowIsTight | apps/api/internal/runner/runner.go:474-484 | A schedule that reaches rate + 2 within one second |
| RequestLimiter.AdmittedRunIsPaced | apps/api/internal/httpapi/server.go:526-531 | Under a positive cap every admitted run has a rate within it, and if that rate keeps its budget, as all up to 31622 do, the run starts at most the cap in its first second and cap + 2 in any second |
| Guardrails.AdmittedRunIsCapped | apps/api/internal/httpapi/server.go:526-531 | Under a positive cap every admitted run has a limiter: at the rate of its author, or else at the largest rate that is admitted; without a cap it has none exactly when the author set none, and nothing else of the traffic changes |
| Guardrails.AdmittedIff | apps/api/internal/scenario/schema.go:183-202 | Exactly which traffic is admitted once the defaults are filled in, by its type, its negative numbers and the caps that are set |
| Reports.PercentileBrackets | apps/api/internal/report/report.go:163-178 | The percentile lies between the two order statistics around its position, both in range |
| Reports.PercentileMonotone | apps/api/internal/report/report.go:163-178 | The percentile is monotone in p |
| Reports.PercentileAt | apps/api/internal/report/report.go:170-175 | At the position of an order statistic the percentile is that one |
| Reports.PercentileBetween | apps/api/internal/report/report.go:170-177 | Between two positions it goes in a straight line from the one to the other |
| Reports.Summarize | apps/api/internal/report/report.go:101-134 | The loop computes the summary function |
| Reports.LatencyIsOrdered | apps/api/internal/report/report.go:123-133 | min, p50, p95, p99 and max are in order, the average lies between min and max, and both ends are durations that occur and bound all |
| Reports.LatencyIs | apps/api/internal/report/report.go:123-133 | p50, p95 and p99 are the percentiles 0.5, 0.95 and 0.99 of the durations, and the average times their number is their sum |
| Reports.StatusCountsMeaning | apps/api/internal/report/report.go:106-118 | The count under a key is the number of records with that key |
| Reports.KeysAreStatuses | apps/api/internal/report/report.go:113-117 | Two records have the same key exactly when they have the same status or neither has one, and a key reads back as the status |
| Reports.StatusCountsSumToTotal | apps/api/internal/report/report.go:106-118 | The status counts sum to the number of records |
| Reports.SummaryPermutes | apps/api/internal/report/report.go:101-134 | The summary does not depend on the order of the records |
| Reports.Build | apps/api/internal/report/report.go:72-99 | The loops compute the report function |
| Reports.VerdictMeaning | apps/api/internal/report/report.go:84-97 | Failed exactly when a threshold or invariant failed or a record has an error, and never canceled |
| Reports.FailuresMeaning | apps/api/internal/report/report.go:84-89 | The failures are exactly the failing checks in order, thresholds before invariants |
| Reports.VerdictPermutes | apps/api/internal/report/report.go:72-99 | The report depends on the bag of records only, but for the list of responses itself |
| Verdict.EvaluateThresholds | apps/api/internal/runner/runner.go:273-302 | One check for each limit given, with that limit: the error rate passes exactly when no more than limit * n of the n records have an error; the p95 exactly when the value at position 0.95 (n - 1) of the sorted durations, in proportion between two neighbours, is within the limit |
| Verdict.ThresholdsMeaning | apps/api/internal/runner/runner.go:273-302 | The same of the threshold checks wherever they are used |
| Verdict.P95Meaning | apps/api/internal/runner/runner.go:289-299 | A p95 within the limit means at least floor(0.95 (n - 1)) + 1 records within it, through sort and interpolation; with as many as the upper position asks for it is within the limit, and with just one fewer exactly when the line between the two durations is |
| Verdict.ErrorRateMeaning | apps/api/internal/runner/runner.go:277-287 | The error rate is within the limit exactly when the records with errors are at most that share |
| Verdict.EvaluateResponseCount | apps/api/internal/runner/runner.go:365-399 | The loop counts exactly the indexes of records with the name and status asked for, passes exactly when that number meets equals, min and max, where given, and its message names the number and exactly the bounds given |
| Verdict.CountMeaning | apps/api/internal/runner/runner.go:365-399 | The same of the response counts wherever they are used |
| Verdict.EvaluateInvariants | apps/api/internal/runner/runner.go:304-315 | One result per count or probe, in order, none for other types |
| Verdict.RunControlRequests | apps/api/internal/runner/runner.go:317-363 | Records and checks up to the first error, that one included, or up to an interruption |
| Verdict.HasFailedCheck | apps/api/internal/runner/runner.go:604-611 | True exactly when some check failed |
| Verdict.ControlFailsIff | apps/api/internal/runner/runner.go:317-363 | The checks fail exactly when the last request sent has an error; stopping early without one is an interruption |
| Verdict.RunWithOptions | apps/api/internal/runner/runner.go:47-88 | The composition computes the report of the whole run |
| Verdict.PassedMeans | apps/api/internal/runner/runner.go:47-88 | A run passes exactly when setup, teardown, thresholds, invariants and all collected records are clean, whatever part of the plan was sent |
| Verdict.FailedSetupIsTheReport | apps/api/internal/runner/runner.go:62-65 | A failing setup ends the run with a report about the setup requests sent, one failure naming the last of them |
| Verdict.TeardownIs | apps/api/internal/runner/runner.go:82-87 | The records and checks of a teardown are in the report exactly when its last request sent has an error; the run is then failed and names that request between the failing thresholds and the failing invariants |
| InterruptedRuns.InvariantsFailIff | apps/api/internal/runner/runner.go:304-315 | Some invariant check fails exactly when a count is not accepted, or a probe has no reply or fails by it |
| InterruptedRuns.NothingSentCanPass | apps/api/internal/runner/runner.go:47-88 | A run whose context was done before anything was sent passes exactly when its thresholds are not negative, no invariant is a probe, and in every response count equals is 0, min at most 0 and max at least 0, where given |
| InterruptedRuns.InterruptedPassesIff | apps/api/internal/runner/runner.go:90-135 | A pool cut short by its context passes exactly when nothing that was sent met an error, no invariant is a probe, and counts and limits accept the records at hand, whatever part of the plan they are |
| InterruptedRuns.PartialPlanCanPass | apps/api/internal/runner/runner.go:90-135 | A schedule that sends one request of two before the context is done, and the run passes |
| Verdict.ReportPermutes | apps/api/internal/runner/runner.go:76-87 | The report of the whole run does not depend on the order of the collected records |
| Verdict.PoolVerdictIsScheduleFree | apps/api/internal/runner/runner.go:90-135 | Two finished pools of any sizes and schedules come to the same report, given the same answers |
| Verdict.RaceVerdictIsScheduleFree | apps/api/internal/runner/runner.go:137-171 | Two finished races come to the same report, given the same answers |
| K6Plan.SendDefault | apps/api/internal/k6script/compiler.go:125-147 | The loops of the generated function send attempt by attempt, or once |
| K6Plan.SameWork | apps/api/internal/k6script/compiler.go:125-172 | For every traffic type and size the script sends each request exactly as often as the built-in plan |
| K6Plan.SameDefaultAttempts | apps/api/internal/k6script/compiler.go:129-132 | The script and the normalization agree on the attempts of a retry storm that names none |
| K6Plan.PoolSendsTheSame | apps/api/internal/runner/runner.go:67-74 | Every finished pool has sent, request by request, what the script sends |
| K6Plan.RaceSendsTheSame | apps/api/internal/runner/runner.go:67-74 | Every finished race has sent, request by request, what the script sends |
| K6Plan.StatusCodesToTrack | apps/api/internal/k6script/compiler.go:174-189 | The default codes and then the expected ones that are new, without repeats |
| CounterKeys.FindSubmatchIff | apps/api/internal/runner/k6_runner.go:150 | The reading of a key is a quoted match if there is one and otherwise a bare match |
| CounterKeys.EscapeUnique | apps/api/internal/k6script/compiler.go:204 | No escape of a character begins the escape of another |
| CounterKeys.EscapeReadsBack | apps/api/internal/k6script/compiler.go:204 | Every escape is read by the Go language as the character it was printed for, whatever follows, and has the length that the kind of character asks for |
| CounterKeys.KeyInjective | apps/api/internal/k6script/compiler.go:200-219 | Distinct names or codes have distinct keys, for all names |
| CounterKeys.GoodKeyReadsBack | apps/api/internal/runner/k6_runner.go:158-168 | Printing and reading undo each other on nonempty names of printable characters without quote and backslash and on codes that are not negative |
| CounterKeys.ReadsBackIff | apps/api/internal/runner/k6_runner.go:158-168 | And on no others |
| CounterKeys.CharactersReadBackIff | apps/api/internal/runner/k6_runner.go:158-168 | By the characters: exactly the nonempty names of characters from the blank to the tilde without quote and backslash, or printable beyond ASCII, with a code that is not negative |
| K6Counters.ReconstructRecords | apps/api/internal/runner/k6_runner.go:145-186 | Whatever order the metrics are walked in, each record occurs as often as the counts of its keys add up to, has the average duration, and has an error, which names its status, exactly when that is 0 or from 500 up |
| K6Counters.TotalIsCounter | apps/api/internal/runner/k6_runner.go:158-184 | In a summary that exports some counters, each record stands exactly as often as its counter says |
| K6Counters.CountsSurvive | apps/api/internal/runner/k6_runner.go:145-201 | A response count over the rebuilt records is the sum of the matching counters |
| K6Counters.FailuresSurvive | apps/api/internal/runner/k6_runner.go:170-184 | The failed requests of the report are the sum of the counters with such a status, and its records fail it exactly when one of them is not zero |
| K6Counters.WalkOrderLeavesNoTrace | apps/api/internal/runner/k6_runner.go:158-184 | Two walks over one summary give the same report |
| K6Counters.CounterThresholds | apps/api/internal/k6script/compiler.go:200-219 | The counter thresholds are exactly the keys of tracked pairs |
| K6Counters.HasCounterIff | apps/api/internal/k6script/compiler.go:174-221 | A status has a counter exactly when it is a default one or expected by a request of that name |
| LostResponses.RecordsAre | apps/api/internal/runner/k6_runner.go:145-186 | For all names and statuses: the records are what the responses with a counter that reads back leave, each as often as it occurred, and all others are lost |
| LostResponses.UntrackedAreLost | apps/api/internal/runner/k6_runner.go:145-186 | With names that are printed as they are: every response with a tracked status comes back under its name and status, and what the report lacks are exactly the others |
| LostResponses.ThrottledIsLost | apps/api/internal/k6script/compiler.go:174-189 | Two responses, 200 and 429, to a request that expects no status in particular: the report knows one |
| JsonPath.ParseSegment | apps/api/internal/scenario/jsonpath.go:68-91 | The loop computes the segment or fails |
| JsonPath.LookupJSONPath | apps/api/internal/scenario/jsonpath.go:10-66 | The loop computes the lookup, with its order of errors, and never leaves the bounds of a list |
| JsonPath.LookupMeaning | apps/api/internal/scenario/jsonpath.go:10-66 | The whole value for the empty path and $, no path without the prefix, and otherwise what the elementary accesses of its segments find as far as they can be read |
| JsonPath.SegmentRoundTripIff | apps/api/internal/scenario/jsonpath.go:68-91 | Printing and parsing a segment undo each other exactly when its name has no opening bracket |
| JsonPath.WalkSelects | apps/api/internal/scenario/jsonpath.go:24-65 | A lookup makes the elementary accesses of its segments from left to right; it is missing what one does not find, and invalid only if it gets as far as an unreadable segment |
| JsonPath.LookupComposes | apps/api/internal/scenario/jsonpath.go:24-65 | Looking up a joined path is looking up its tail in what its head finds, for all texts |
| JsonPath.PathRoundTrip | apps/api/internal/scenario/jsonpath.go:24-91 | A printed path splits and parses into the segments it was printed from, and looking it up follows exactly those |
## Left out

- RunRecord timestamps, clock-derived ids and event metadata; ids are taken to be fresh and messages are the fixed texts of the store.
- Get and list operations of the stores, which copy what is there.
- The target store, JSON decoding, HTTP exchanges, response bodies and URL resolution; a request is a step that leads to an arbitrary record, a probe is refused or leads to an arbitrary check, and ids come without blanks around them.
- Redis, S3, the k6 process, SQL text, row and advisory locks; retries are environment steps and transactions are atomic, failing or unacknowledged steps.
- Failing reads by the get and list endpoints, which then answer that nothing is there; the reads of the protocols above do fail.
- HitMeansCanceled: like MapsDrained, takes every write to commit, as those of the memory store do. A server runs scenarios itself only when it is built without a queue, which the shipped API command never does.
- RowsAreSafe: does not say that an acknowledged event is ever inserted, since a client may stop between its two transactions.
- HandleError: which worker events it appends is covered by one action that appends any event of a kind the store does not own.
- Scenario.Validate, the allowlists, the metadata host check and body size limits; only the numeric caps are modelled, the rest is a yes or no that the handlers are given.
- The environment is one map that does not change while the process runs; texts are sequences of characters, of which only ASCII ones matter to os.ExpandEnv.
- Two requests that write to the same saved version at once: each preparation is one step of the sequential methods, and `RunStamps` interleaves only the calls on the store.
- Upper case is that of ASCII text; unicode.IsPrint beyond ASCII is a parameter of the key printer.
- ExpandRequestEnv: for slices that share a header map between requests only the frame and the settled case are stated, since decoding never builds such slices.
- Invariants of a scenario are kept as requests for the in-place edits, which treat them alike but for fields they do not have.
- NotStuck: fairness of the Go scheduler and the ticker is assumed, as is that every request returns.
- SameWork: compares how often each request is sent; the ten minute limit of the script, its pacing and its distribution over virtual users are not modelled.
- Setup and teardown in the script, which send every request where the built-in runner stops at the first error.
- parseThresholds of the k6 runner and the latency values it copies from the summary.
- CountsSurvive: takes the summary to hold the counters under the printed keys; how k6 names its metrics is not part of this model.
- Floating-point rounding, formatting of report and check texts, metrics, configuration, the command line, the demo service and the rest of the console.
