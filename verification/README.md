# Verified model of the capture, enhancement and scan services

The SDK server runs long jobs on behalf of connected clients: photographs from a document camera,
enhancement of page images, TWAIN scans.  This project models the parts of it in which several
threads, tables and external providers meet, and proves what they keep over every run.

* **Capture scheduler** (the `Capture...` modules but the pipeline).  A command
  reserves a task, consumes quota, and starts or aborts it.  A started task has a capture thread;
  the captured image goes into a queue per device, drained by a thread made on demand.
  `CaptureModel` holds the service fields as a value and one function per region under `mu_`;
  the thread vector is a sequence of program counters.  `CaptureWorld` adds the storage lifecycle
  lock, the clock and a history.  A run is any sequence of regions and commands.  The class
  `CaptureTaskService` updates the same fields in place, method by method, and each method is
  proved to do what the function does; `CaptureCommand.CommandDesk` is the reserve, quota, start
  or abort section of the two commands, with threads moving in between.
* **Image enhancement** (`EnhanceModel`, `EnhanceRuns`, `EnhanceUsage`, `EnhanceService`,
  `EnhanceOutcome`, `EnhanceTaskService`, `EnhanceOutputs`).  One task is a row, a thread and a cancel flag.  Cancels and the
  destructor may come between any two regions.  `EnhanceService` shows that every task of the
  whole service is at every moment where a run of that task on its own leads.
* **Cleanup** (`StorageCleanup`): the check over both services, the provider, the clearing of the
  tables, with threads and cancels in between.
* **Pipeline** (`CaptureGraph`, `CapturePipeline`): the graph of stages and assets of one run.
* **TWAIN** (`TwainCache`, `TwainPages`, `TwainRaces`): finalisation of scans and the cache that keeps it from
  repeating, with the commands one after the other and with any number of them in flight.
* **Base64** (`Base64Payload`): the decoder of image payloads against section 4 of RFC 4648.
* **Records** (`Redaction`, `RuntimeRecordService`): the ring of recent records and the masking of
  secrets in it.

Device and connection names are numbers in the order of the names (0 is the empty name) and task ids are their sequence
numbers.  Whatever the code cannot decide - provider results, file operations, thread creation,
quota answers - is an unconstrained argument, so every theorem holds for all of it.

## What does not hold in general

Some properties that the code seems meant to have fail for some inputs.  The project keeps the code
as it is and proves when they hold.

* A hard-grab ends its acquisition by erasing the acquisition slot of its device whoever holds it.
  The slots are exact over a run iff no hard-grab does that to an occupied slot
  (`CaptureRuns.SlotExclusion`); `CaptureRuns.AHardGrabCanStealASlot` is a run in which two manual
  tasks acquire on one device.
* Aborting a reservation erases the cooldown of the device, also one set by another reservation.
  The rate limit therefore depends on the storage lock
  (`CaptureRollback.UnlockedReservationsBreakTheLimit`).
* `retry_after_ms` drops the fraction of a millisecond, so a client that waits exactly that long is
  refused again unless the remainder is whole or below one millisecond
  (`CaptureRollback.RetryDelaySuffices`).
* A cancel of an enhancement task is ignored from the start of the last enabled step on, although
  it is accepted (`EnhanceRuns.CancelComesTooLate`).
* A failed pipeline run can carry the code for success: exactly when the first thing that fails is a
  shot that reports success without an image, or a conversion that reports success without
  converting (`CapturePipelineContext.Run`, `CapturePipeline.ARunThatFailsQuietly`).
* Two pages of one capture can get the same token, also through the fallback name.  They then share
  one final asset, and the first page is lost from the result; where the provider names no file the
  second conversion even overwrites the first file.  Pages keep final assets of their own iff their
  tokens differ (`CapturePipelineContext.Run`, `CapturePipeline.ARunThatLosesAPage`).
* `twain.scan_get` runs without the storage lock.  The comment at
  `application/command_application_service.cpp:3199` counts on the cache to avoid a second
  conversion.  When a query overlaps a conversion its stale copy can overwrite the finished entry,
  which then stays "converting" (`TwainRaces.StaleCopyWins`, `TwainCache.StuckStaysStuck`), and two
  queries that both look before either marks convert twice (`TwainRaces.TwoQueriesConvertTwice`).
  The document is made once and stays final iff no command acts on a look taken before it was
  stored (`TwainRaces.SoundIff`); what to check before and after it is stored is in
  `TwainRaces.EarlyIff` and `TwainRaces.SafeIff`.
* The cache protects documents only.  When the provider shows a scan for images again with its raw
  pages, they are converted once more and the finished entry is overwritten, even without overlap
  (`TwainPages.PagesStayIff`).

## Model

| member | source | states |
|---|---|---|
| CaptureTaskService.CaptureTaskService.ReserveTask | application/capture_task_service.cpp:137-188 | the fields after a reservation or refusal, and the answer with its code and retry delay, on the service as updated in place; what they mean is in the `CaptureAcceptance` rows |
| CaptureTaskService.CaptureTaskService.StartReservedTask | application/capture_task_service.cpp:190-232 | a thread is pushed and the task becomes active, or everything the reservation added is taken back when no thread can be made |
| CaptureTaskService.CaptureTaskService.AbortReservedTask | application/capture_task_service.cpp:234-244 | removes the reservation if it is still waiting and touches nothing otherwise |
| CaptureTaskService.CaptureTaskService.ActiveTaskCount | application/capture_task_service.cpp:288-301 | the loop counts exactly the rows that are neither succeeded nor failed, reserved ones included |
| CaptureTaskService.CaptureTaskService.ClearFinishedTasks | application/capture_task_service.cpp:303-316 | the loop erases exactly the rows without an active worker from both tables and counts each once |
| CaptureTaskService.CaptureTaskService.GetSessionSummary | application/capture_task_service.cpp:775-791 | every device of the connection is listed once, in key order, with its counters, and the totals are their sums |
| CaptureTaskService.CaptureTaskService.BeginCapture | application/capture_task_service.cpp:318-332 | the thread takes its request and marks the row as capturing, or ends if the row is gone |
| CaptureTaskService.CaptureTaskService.CaptureAndStage | application/capture_task_service.cpp:333-358 | what the provider call and the staging decide: commit or failure; no table is touched |
| CaptureTaskService.CaptureTaskService.CommitCapture | application/capture_task_service.cpp:359-387 | the captured commit: request, row, slot, counters, queue and threads all as specified |
| CaptureTaskService.CaptureTaskService.Enqueue | application/capture_task_service.cpp:374-386 | the task is queued and its device has a queue thread, or the queue is exactly what it was and the thread finishes the task itself |
| CaptureTaskService.CaptureTaskService.CompleteCaptureFailure | application/capture_task_service.cpp:658-683 | the new state after a failed capture |
| CaptureTaskService.CaptureTaskService.PopQueue | application/capture_task_service.cpp:401-424 | the first id leaves the queue and its row is marked, or the thread gives up the device and ends |
| CaptureTaskService.CaptureTaskService.CompleteProcessingTask | application/capture_task_service.cpp:685-724 | status, counters and active set after a pipeline result, on the fields; what they mean is in `CaptureOutcome.OutcomeFollowsAnswer` and `CaptureOutcome.FinishCounts` |
| CaptureTaskService.CaptureTaskService.Destroy | application/capture_task_service.cpp:112-130 | the index loop over a thread vector that still grows ends, no thread ever pushed is live afterwards, and there are at most twice as many threads as capture threads at its start |
| CaptureAcceptance.AcceptedIff | application/capture_task_service.cpp:137-188 | a reservation is accepted iff the device is named, the profile known, the slot of that device free and its cooldown over; each refusal code iff its own condition is the first to fail |
| CaptureAcceptance.AcceptedAdds | application/capture_task_service.cpp:176-184 | an accepted reservation adds one row, its request, 1500 ms of cooldown and, for a manual capture, the slot of its device, and nothing else |
| CaptureAcceptance.OnlyOwnDeviceMatters | application/capture_task_service.cpp:160-174 | two services that agree on the slot and the cooldown of the device give the same answer, whatever the other devices do |
| CaptureAcceptance.LimitedIffHot | application/capture_task_service.cpp:166-174 | in every reachable state a device is cooling down iff a reservation of it that was not rolled back since lies less than 1500 ms behind |
| CaptureAcceptance.BusyIffAcquires | application/capture_task_service.cpp:162-164 | with exact slots a device is busy iff a manual task of that device is in acquisition |
| CaptureAcceptance.AcceptedOverRuns | application/capture_task_service.cpp:137-188 | over all runs with exact slots, the answer to a reservation from the tasks and the history alone |
| CaptureAcceptance.CommitsIff | application/capture_task_service.cpp:333-358 | a capture thread commits iff there is an image, from the request or from a provider call that worked, and it could be staged; otherwise it fails |
| CaptureOutcome.OutcomeFollowsAnswer | application/capture_task_service.cpp:685-724 | in every reachable state a captured task that is over succeeded iff the answer of its one pipeline run has a good status, or an empty one with code 0, counts as processed iff moreover the code is 0, carries that code, and failed with code 1900 if it had no run; a task that was not captured failed and skipped processing |
| CaptureOutcome.FinishCounts | application/capture_task_service.cpp:709-718 | the processed counter rises by one iff the code is 0 and the status good or empty, the failed counter otherwise, and pending falls |
| CaptureOutcome.PipelineDecides | application/capture_task_service.cpp:696-707 | a row that reflects a succeeded pipeline run succeeds and counts as processed, one that reflects a failed run fails, even with the code for success |
| CaptureOutcome.RunAndReport | application/capture_pipeline_service.cpp:738-762 | every run of the pipeline gives the scheduler a good answer iff it succeeded and a bad one otherwise |
| CaptureOwnership.CommitRefusedKeeps | application/capture_task_service.cpp:380-386 | when no queue thread can be made the queue was empty and is again, so exactly the id just pushed is taken back, the task stays with its own thread, and every other task is where it was |
| CaptureOwnership.StepKeeps | application/capture_task_service.cpp:318-441 | every region of every thread keeps the ownership invariant: each live task is held by exactly one of reservation, capture thread, queue, queue thread |
| CaptureOwnership.MoveKeeps | application/capture_task_service.cpp:137-441 | the same for every command and thread move together |
| CaptureOwnership.ReserveKeeps | application/capture_task_service.cpp:160-184 | a reservation keeps the invariant and opens the reserved section |
| CaptureOwnership.StartKeeps | application/capture_task_service.cpp:192-231 | starting, or failing to start, keeps the invariant and closes the section |
| CaptureOwnership.AbortKeeps | application/capture_task_service.cpp:234-244 | aborting keeps the invariant and closes the section |
| CaptureOwnership.CommitKeeps | application/capture_task_service.cpp:359-387 | the captured commit keeps the invariant whether or not a queue thread exists or can be made |
| CaptureOwnership.PopKeeps | application/capture_task_service.cpp:405-424 | taking from the queue, or ending because it is empty, keeps the invariant |
| CaptureOwnership.ClearedRows | application/capture_task_service.cpp:303-316 | with no reservation open, cleanup removes a row iff it is terminal, and no row that a thread holds |
| CaptureOwnership.ClearKeeps | application/capture_task_service.cpp:303-316 | cleanup keeps the ownership invariant |
| CaptureEffects.RowMoves | application/capture_task_service.cpp:318-441 | a thread move changes at most one row, an existing one that is not reserved, in the order queued, capturing, captured, queued, running, over |
| CaptureRuns.ExclusiveConsumer | application/capture_task_service.cpp:374-424 | in every reachable state a device is processing iff exactly one live queue thread serves it, and a nonempty queue has such a thread |
| CaptureRuns.FirstInFirstOut | application/capture_task_service.cpp:374-424 | per device, the ids queued so far are the ids popped so far followed by the queue |
| CaptureRuns.NoTaskLost | application/capture_task_service.cpp:359-441 | a task is captured at most once, finished at most once and only if captured, and exactly once when all threads are done |
| CaptureRuns.OnePhysicalCapture | application/capture_task_service.cpp:333-374 | a task calls CaptureStill at most once over a whole run and a hard-grab task never |
| CaptureRuns.RateLimited | application/capture_task_service.cpp:150-184 | accepted reservations of one device that were not rolled back are at least 1500 ms apart in every run under the storage lock |
| CaptureRuns.CountersConserved | application/capture_task_service.cpp:370-373 | each counter is the tally of its history, pending is the number of captured unfinished rows, captured = processed + pending + processing failures |
| CaptureRuns.PendingNeverUnderflows | application/capture_task_service.cpp:709-718 | whenever a completion runs, the pending counter is positive, so the guard hides nothing |
| CaptureRuns.Quiescence | application/capture_task_service.cpp:318-441 | after any run the threads alone make finitely many moves, bounded by a measure, and when none can move and no reservation is open every task is over and every set and queue empty |
| CaptureRuns.ActiveMeansStarted | application/capture_task_service.cpp:192-231 | tasks and requests have the same keys, and a task is active iff it is started and not over |
| CaptureRuns.SlotMeansManualAcquisition | application/capture_task_service.cpp:162-180 | an occupied slot always belongs to a manual task in acquisition |
| CaptureRuns.SlotExclusion | application/capture_task_service.cpp:369 | the slots are exact, one manual acquisition each, throughout a run iff no hard-grab gives up an occupied slot |
| CaptureRuns.PoliteRunsAreExact | application/capture_task_service.cpp:162-180 | no manual reservation during a hard-grab acquisition of the same device implies exact slots all along |
| CaptureRuns.AHardGrabCanStealASlot | application/capture_task_service.cpp:369 | a run in which two manual tasks acquire on one device |
| CaptureRateLimit.MoveLimited | application/capture_task_service.cpp:150-184 | every move keeps the spacing invariant although rollback erases cooldown entries |
| CaptureSlots.StealBreaks | application/capture_task_service.cpp:674 | a hard-grab that erases an occupied slot always destroys exactness |
| CaptureQuiescence.StepDescends | application/capture_task_service.cpp:318-441 | every thread move lowers the measure, including those that make a thread |
| CaptureQuiescence.DoneMeansAtRest | application/capture_task_service.cpp:405-424 | when all threads are done, all tasks are over and every queue and set is empty |
| CaptureRuns.TwiceTheCaptureThreads | application/capture_task_service.cpp:375-379 | in every reachable state there are at most twice as many threads as capture threads |
| CaptureRollback.RefusalLeavesNoTrace | application/capture_task_service.cpp:204-244 | reserve, any thread moves, then abort or a failed start, equals the thread moves alone but for a used number and an expired cooldown entry |
| CaptureRenaming.RefusalIsInvisible | application/capture_task_service.cpp:160-244 | after a refused command every later run is possible exactly as without it, with the same answers and the same history, task numbers shifted |
| CaptureRenaming.NoLaterDifference | application/capture_task_service.cpp:137-441 | the same for any state and any expired cooldown entry: moves, answers, counters and history agree over all later runs |
| CaptureRenaming.StepShifts | application/capture_task_service.cpp:318-441 | every region of every thread does the same on states that differ in a skipped task number |
| CaptureRollback.UnlockedReservationsBreakTheLimit | application/command_application_service.cpp:2301-2304 | without the storage lock two reservations 1 ms apart are both accepted |
| CaptureRollback.RetryDelaySuffices | application/capture_task_service.cpp:166-174 | waiting the advertised delay is enough iff the remaining cooldown is whole milliseconds or below one |
| CaptureCommand.CommandDesk.Take | application/command_application_service.cpp:4048-4076 | the command ends with one new started task, or with the state its threads alone would have reached; also the hard-grab command at lines 2796-2828 |
| CaptureCommand.SessionBalances | application/capture_task_service.cpp:775-791 | the session totals balance against the history of the connection |
| StorageCleanup.StorageDesk.CleanupTemp | application/command_application_service.cpp:6324-6408 | either no row goes, or both services are empty afterwards and the count is the sum of the table sizes at the start; always busy if a capture task or scan was active at the start, busy only if something is active, with the counts seen; with nothing active the provider alone decides |
| StorageCleanup.StorageDesk.ClearTables | application/command_application_service.cpp:6378-6381 | with nothing active both clears leave empty tables and count every row |
| StorageCleanup.NothingToKeep | application/capture_task_service.cpp:303-316 | with no active task under the storage lock no row survives the clear |
| EnhanceRuns.TurnKeepsShape | application/image_enhance_task_service.cpp:496-761 | every move of worker or cancel keeps row and program counter in step, never lowers the progress and changes the status only along the allowed edges |
| EnhanceRuns.ProgressNeverFalls | application/image_enhance_task_service.cpp:501-613 | along every run progress stays in 0..100 and never falls |
| EnhanceRuns.ProgressRises | application/image_enhance_task_service.cpp:550 | the integer division behind the progress bar is monotone, between 10 and 80, and 10 plus the share of 70 rounded down |
| EnhanceRuns.WorkDescends | application/image_enhance_task_service.cpp:525-761 | every worker move brings its end closer and a cancel does not put it off |
| EnhanceRuns.CancelTakesEffect | application/image_enhance_task_service.cpp:420-450 | after a cancel at any moment of any run at most one more step starts, none if the task was queued; with an enabled step ahead no quota is asked for and the task ends failed iff a step threw or failed unskipped, which can only be the one in flight, and cancelled otherwise |
| EnhanceRuns.CancelIsEffective | application/image_enhance_task_service.cpp:525-557 | the same from any state of a stopping task, with the outcome that is already decided there |
| EnhanceRuns.CancelComesTooLate | application/image_enhance_task_service.cpp:616-629 | with no enabled step ahead the rest of the run is the same with and without the cancel |
| EnhanceUsage.QuotaMatchesUsage | application/image_enhance_task_service.cpp:574-609 | quota is asked for only after good outputs came back and each enabled step returned once, for exactly the sum of max(1, pages) over successful online steps |
| EnhanceUsage.FinalStatus | application/image_enhance_task_service.cpp:734-760 | the task ends completed iff it had pages, what came back for them was a converted document or at least one image, and nothing was refused or threw; it then shows as many outputs as came back; capabilities were asked for in key order, at most once, all of them if completed |
| EnhanceUsage.EarnedKeysAre | application/image_enhance_task_service.cpp:152-174 | the keys of the usage map are the capabilities something is owed to, once each |
| EnhanceUsage.UsageFits | application/image_enhance_task_service.cpp:607-609 | one step adds to the usage map what that step owes |
| EnhanceUsage.StepEarns | application/image_enhance_task_service.cpp:565-609 | a successful online step costs the pages it returned, or else those it was given, and at least one; the next step is given what it returned |
| EnhanceUsage.ChargedIff | application/image_enhance_task_service.cpp:126-143 | which step types are charged to which capability |
| EnhanceUsage.AskedInOrder | application/image_enhance_task_service.cpp:152-174 | capabilities are asked for in the order of their names |
| EnhanceOutcome.EndedHow | application/image_enhance_task_service.cpp:496-761 | how every task ends, with cancels anywhere: cancelled only if asked to stop and before anything went wrong; otherwise failed iff a step threw or failed unskipped, no page was left, the outputs could not be made or quota was refused, and every enabled step ran once in order unless one went wrong |
| EnhanceOutcome.UndisturbedCompletesIff | application/image_enhance_task_service.cpp:496-761 | a task that nobody asked to stop completes iff none of these happened |
| EnhanceOutcome.EveryTaskEnds | application/image_enhance_task_service.cpp:472-494 | the same for every ended task of the service, from what the service did for it |
| EnhanceService.EveryTaskIsAStory | application/image_enhance_task_service.cpp:325-494 | in every run of the service each of its tasks is where a run of that task alone leads, with the same history of steps and requests |
| EnhanceService.EndedTasksAreAccountedFor | application/image_enhance_task_service.cpp:734-761 | an ended task of the service is completed iff good outputs came back to its thread and it met no refusal, with as many outputs; its thread asked for quota in key order, for all that is owed if completed |
| EnhanceService.EveryRequestIsJustified | application/image_enhance_task_service.cpp:152-174 | every request for quota that the service made came after good outputs and was for exactly what the steps of that task earned |
| EnhanceService.InactiveMeansOver | application/image_enhance_task_service.cpp:488-494 | a task is active iff its thread is live, an active task has its row, an inactive row is in a final status |
| EnhanceService.CancelHolds | application/image_enhance_task_service.cpp:420-450 | after an effective cancel no later command or thread of the service lets the task complete |
| EnhanceService.GoneStaysGone | application/image_enhance_task_service.cpp:457-470 | a row that cleanup removed never comes back |
| EnhanceService.MoveOnJob | application/image_enhance_task_service.cpp:325-470 | any move of the service is, for one task, nothing or one move of its own run |
| EnhanceService.StartedIff | application/image_enhance_task_service.cpp:325-403 | a task starts iff there are inputs, all exist, and provider, directory and thread can be had; the code of each refusal iff its own condition is the first to fail |
| EnhanceService.CancelledIff | application/image_enhance_task_service.cpp:420-450 | a cancel is accepted iff the task is there and belongs to the caller; a queued row is then cancelled at once and any other only marked |
| EnhanceTaskService.ImageEnhanceTaskService.StartTask | application/image_enhance_task_service.cpp:325-403 | refusals with their codes, a new row with its thread, or nothing left of it when no thread can be made |
| EnhanceTaskService.ImageEnhanceTaskService.Cancel | application/image_enhance_task_service.cpp:420-450 | unknown task, other connection, or flag and row changed together |
| EnhanceTaskService.ImageEnhanceTaskService.ActiveTaskCount | application/image_enhance_task_service.cpp:452-455 | zero iff no thread is live |
| EnhanceTaskService.ImageEnhanceTaskService.ClearFinishedTasks | application/image_enhance_task_service.cpp:457-470 | the loop erases exactly the inactive rows with their flags and counts each once |
| EnhanceTaskService.ImageEnhanceTaskService.BeginTask | application/image_enhance_task_service.cpp:501-522 | first region of the worker on the fields |
| EnhanceTaskService.ImageEnhanceTaskService.NextStep | application/image_enhance_task_service.cpp:525-557 | head of the step loop: skip, stop, start or leave |
| EnhanceTaskService.ImageEnhanceTaskService.FinishStep | application/image_enhance_task_service.cpp:568-618 | region after a step: failure, skip, pages, usage and progress |
| EnhanceTaskService.ImageEnhanceTaskService.FinishOutputs | application/image_enhance_task_service.cpp:636-731 | completed with its outputs, or failed, on the fields; which of the two is in `EnhanceUsage.FinalStatus` and `EnhanceOutcome.EndedHow` |
| EnhanceOutputs.WriteImagePages | application/image_enhance_task_service.cpp:691-713 | outputs are numbered from 1 without a gap, in page order, one for each page that can be written; the other pages keep their files |
| EnhanceOutputs.OutputsAreTold | application/image_enhance_task_service.cpp:691-713 | pages that were written have different outputs, in page order |
| EnhanceOutputs.WrittenIff | application/image_enhance_task_service.cpp:691-713 | a page is written, as the next output, iff it is in its place or can be copied there, or its conversion works, or without a converter its copy; otherwise it keeps its file and takes no number |
| EnhanceTaskService.ImageEnhanceTaskService.ConfirmOnlineEnhanceQuota | application/image_enhance_task_service.cpp:145-175 | the loop asks in key order, stops at the first refusal and decides the final row as the settling moves do |
| EnhanceTaskService.ImageEnhanceTaskService.LastRegions | application/image_enhance_task_service.cpp:472-494 | final row, failure after an exception, and leaving the active set |
| EnhanceTaskService.ImageEnhanceTaskService.RunWorker | application/image_enhance_task_service.cpp:496-762 | whatever a worker does next changes its own task as specified and keeps the invariant |
| EnhanceTaskService.ImageEnhanceTaskService.Destroy | application/image_enhance_task_service.cpp:303-318 | returns with no live thread and no active task, no row lost |
| CapturePipeline.CapturePipelineContext.Run | application/capture_pipeline_service.cpp:738-762 | unique asset ids; all stage inputs and succeeded outputs present; success iff image, page and every conversion work; on success the stages are exactly those of the answers, in order, thumbnails included, every page asset and every thumbnail that could be made is there with its file (for different tokens), and so are the files of the original; final assets are pairwise different iff the page tokens are; failed with the code for success iff the first thing that fails is a shot or conversion that reports success |
| CapturePipeline.EveryThumbnail | application/capture_pipeline_service.cpp:376-401 | in the stages of a successful run each enabled thumbnail of the original and of every page has a stage named after its asset, with that asset as input, that succeeded iff there is a file for it; a disabled one has none |
| CapturePipeline.AnswersMean | application/capture_pipeline_service.cpp:738-762 | what makes a run succeed, in the answers themselves |
| CapturePipeline.PagesMean | application/capture_pipeline_service.cpp:299-374 | the pages of a run: the original alone if the provider did not process it, the one file if it named no page, and otherwise its pages with a file, in order |
| CapturePipeline.CapturePipelineContext.MakePages | application/capture_pipeline_service.cpp:738-762 | the first half of a run leaves exactly the stages of image, original thumbnail and pages, and their files |
| CapturePipeline.CapturePipelineContext.CaptureRaw | application/capture_pipeline_service.cpp:184-297 | calls CaptureStill iff no image is there yet; success exactly when an image is staged; which failures carry no code |
| CapturePipeline.CapturePipelineContext.PageProcess | application/capture_pipeline_service.cpp:299-374 | fails only if the provider names pages and none has a file; otherwise exactly the pages with a file, named in order, or the original; the fallback stage precedes its asset but ends with it present |
| CapturePipeline.CapturePipelineContext.ProcessOutputWorkflow | application/capture_pipeline_service.cpp:376-401 | every output gets its stages, enabled thumbnails included, and its final asset, or the first failing conversion ends the run with its code; under each final id the last page is shown |
| CapturePipeline.CapturePipelineContext.GenerateThumbnail | application/capture_pipeline_service.cpp:652-680 | writes no other asset, finishes one thumbnail stage whose asset is the generated or copied file, never fails the run |
| CapturePipeline.CapturePipelineContext.ApplyColorModeForOutput | application/capture_pipeline_service.cpp:542-563 | never fails, falls back to the page, touches only its asset |
| CapturePipeline.CapturePipelineContext.FormatConvertForOutput | application/capture_pipeline_service.cpp:565-602 | exact success condition, final asset with its file, only that asset |
| CapturePipeline.CapturePipelineContext.AddAsset | application/capture_pipeline_service.cpp:482-491 | replaces or appends; ids stay unique and every other asset is as before |
| CapturePipeline.SamePages | application/capture_pipeline_service.cpp:598-599 | final assets are told apart exactly as page tokens are, and apart they show each page its own file |
| CapturePipeline.TokensCanClash | application/capture_pipeline_service.cpp:500 | a given page name and a fallback name can be the same token |
| CapturePipeline.ARunThatLosesAPage | application/capture_pipeline_service.cpp:565-602 | a run that succeeds with two pages of which the result shows only the second, even when both conversions write the same file |
| CapturePipeline.ARunThatFailsQuietly | application/capture_pipeline_service.cpp:585-590 | a run that has failed with the code for success |
| CaptureGraph.IdsAreTold | application/capture_pipeline_service.cpp:604-650 | the id strings of different assets are different, whatever the tokens |
| CaptureGraph.TokenOfToken | application/capture_pipeline_service.cpp:101-112 | sanitising a clean token changes nothing |
| CaptureGraph.TokenIsClean | application/capture_pipeline_service.cpp:101-112 | a token has only lower-case letters, digits and hyphens |
| CaptureGraph.TokenDrops | application/capture_pipeline_service.cpp:101-112 | a character is dropped iff it is no ASCII letter, digit, hyphen or underscore |
| CaptureGraph.SameToken | application/capture_pipeline_service.cpp:101-112 | names of such characters have the same token iff they differ only in case and underscores for hyphens |
| TwainCache.TwainDesk.FinalizeTwainScanTask | application/command_application_service.cpp:3164-3402 | cache, task and converter calls after finalisation, on the cache as updated in place; what is shown is in `TwainPages.PushedPages` and `TwainPages.PushedDocument` |
| TwainCache.TwainDesk.HandleTwainScanGet | application/command_application_service.cpp:6240-6289 | the command on the cache and what it shows; a final cached document is shown unchanged without a converter call |
| TwainCache.TwainDesk.HandleTwainScan | application/command_application_service.cpp:6225-6230 | the started scan is finalised and stored under the id of the answer, if it has one |
| TwainCache.TwainDesk.DispatchTwainScanTaskEvent | application/command_application_service.cpp:3418-3428 | a pushed snapshot is finalised and stored |
| TwainCache.TwainDesk.HandleTwainScanCancel | application/command_application_service.cpp:6291-6309 | marks the cached task and changes nothing else |
| TwainCache.TwainDesk.ConvertImagePages | application/command_application_service.cpp:3253-3290 | the page loop yields all pages or fails at the first that cannot be converted |
| TwainCache.ConvertsIff | application/command_application_service.cpp:3175-3215 | exactly when the document converter is called |
| TwainCache.FinalStaysFinal | application/command_application_service.cpp:3190-3214 | once final, no snapshot, query or cancel of that scan converts again and the entry stays final |
| TwainCache.ConvertedOnce | application/command_application_service.cpp:3371-3401 | in every serialised run from the empty cache nothing is converted after its document was produced |
| TwainCache.MoveKeeps | application/command_application_service.cpp:6222-6309 | each command keeps the cache invariant |
| TwainPages.PushedPages | application/command_application_service.cpp:3216-3301 | a finished scan whose pages lack the requested suffix is shown and cached as completed with exactly the converted pages in order iff the directory can be made and every page converts, and otherwise as failed with its own pages; no other entry changes |
| TwainPages.PushedDocument | application/command_application_service.cpp:3350-3401 | a finished scan for a document that is neither made nor on its way is shown and cached as completed with exactly the files of the converter iff the directory can be made and the converter succeeds, and otherwise as failed |
| TwainPages.AnswersFromCacheIff | application/command_application_service.cpp:6250-6277 | a query does not depend on the provider iff the cached task is completed, failed or cancelled |
| TwainPages.FailedStays | application/command_application_service.cpp:6262-6277 | a query of a failed or cancelled task shows the entry and changes nothing |
| TwainPages.PagesStayIff | application/command_application_service.cpp:3216-3301 | along every run the pages stay final and are not converted again iff no snapshot of the scan comes in that is not final itself; queries of the cached task and cancels do no harm |
| TwainRaces.StaleCopyWins | application/command_application_service.cpp:3190-3214 | a query that looked during the conversion stores its copy after the document: the entry is back to converting |
| TwainRaces.TwoQueriesConvertTwice | application/command_application_service.cpp:3190-3197 | two queries that both look before either marks convert twice, and the later mark overwrites the entry that was final |
| TwainRaces.SoundIff | application/command_application_service.cpp:3164-3402 | over all interleavings from an idle service: no conversion follows a good one and the stored document stays final iff no command marks, stores or converts from a look taken before the document was stored |
| TwainRaces.StaysFinalIff | application/command_application_service.cpp:3350-3357 | the same from any moment at which the document is stored |
| TwainRaces.SafeIff | application/command_application_service.cpp:3190-3197 | at that moment every continuation is safe iff no command in flight is about to mark, convert, or store something else |
| TwainRaces.EarlyIff | application/command_application_service.cpp:3190-3357 | at any moment before a document is made, all continuations in which no command looks while another is past its look are sound iff no command in flight is going to convert while another one is behind |
| TwainRaces.SoloLooksAreEnough | application/command_application_service.cpp:3190-3197 | a whole run in which no look for the scan is taken while another command is past its own is sound and converts once |
| TwainRaces.SoundMeansOnce | application/command_application_service.cpp:3371-3401 | a run without such late moves converts nothing again after its document was made |
| TwainRaces.AloneIsSerial | application/command_application_service.cpp:3418-3428 | a pushed snapshot that runs without interruption does what the serialised model says |
| TwainRaces.AloneIsSerialGet | application/command_application_service.cpp:6240-6289 | and so does a query |
| TwainCache.StuckStaysStuck | application/command_application_service.cpp:1856-1865 | and it stays so until the provider itself shows the document |
| Base64Payload.DecodeBase64ImagePayload | application/command_application_service.cpp:2072-2114 | fails iff the payload has a foreign character or is too short, and otherwise returns the whole bytes of its bit string, although the accumulator wraps at 32 bits |
| Base64Payload.RoundTrip | application/command_application_service.cpp:2072-2114 | every nonempty byte sequence comes back from its encoding, padded or not, with whitespace anywhere |
| Base64Payload.RoundTripWithPrefix | application/command_application_service.cpp:2076-2079 | the same behind a data prefix |
| Base64Payload.EncodingsAreTexts | application/command_application_service.cpp:2082-2087 | the encoding of section 4 of RFC 4648 and its unpadded form are among those texts |
| Base64Payload.SpacesDoNotMatter | application/command_application_service.cpp:2082-2087 | whitespace may be inserted at any place |
| Base64Payload.FailsIff | application/command_application_service.cpp:2100-2113 | the decoder fails iff a character before the first '=' is foreign or fewer than two letters come before it |
| Base64Payload.DecodesOneWay | application/command_application_service.cpp:2072-2114 | the decoder's promise determines its result |
| Base64Payload.SameByte | application/command_application_service.cpp:2106-2109 | shifting and masking the wrapped accumulator reads the byte of the unbounded one |
| Base64Payload.BuildTable | application/command_application_service.cpp:2089-2093 | the table holds the place of each letter and -1 elsewhere |
| Base64Payload.AlphabetIs | application/command_application_service.cpp:2089-2093 | the letters are A-Z, a-z, 0-9, + and / in this order, and no other byte has a value |
| Base64Payload.SpacesAre | application/command_application_service.cpp:2081-2087 | exactly tab, line feed, vertical tab, form feed, carriage return and space are dropped |
| Base64Payload.TestVectors | application/command_application_service.cpp:2072-2114 | the encoding that round trips is that of RFC 4648, by three test vectors of its section 10 |
| Redaction.RedactMasks | application/runtime_record_service.cpp:49-69 | at any depth the value of a sensitive key is a mask |
| Redaction.RedactKeepsTheRest | application/runtime_record_service.cpp:49-69 | keys, array lengths and leaves outside sensitive values stay |
| Redaction.RedactTwice | application/runtime_record_service.cpp:49-69 | redaction is idempotent |
| Redaction.FixedIffMasked | application/runtime_record_service.cpp:49-69 | a value is its own redaction iff all its secrets are masked |
| Redaction.MaskOfMask | application/runtime_record_service.cpp:39-47 | masking a mask changes nothing |
| Redaction.SensitiveIff | application/runtime_record_service.cpp:26-37 | a key is sensitive iff it is one of nine names up to the case of ASCII letters |
| Redaction.CaseDoesNotMatter | application/runtime_record_service.cpp:19-24 | keys that differ only in case are equally sensitive |
| Redaction.RedactTells | application/runtime_record_service.cpp:49-69 | two values have the same redaction iff they differ only in what masks hide |
| RuntimeRecordService.RuntimeRecordService.PushLocked | application/runtime_record_service.cpp:158-165 | the history grows by the entry with the next id and the ring is its last `capacity` entries |
| RuntimeRecordService.RuntimeRecordService.BuildRecordsJson | application/runtime_record_service.cpp:123-156 | the newest-first, filtered, limited view of the last `capacity` pushes ever made, every preview printed from masked values |
| RuntimeRecordService.RuntimeRecordService.RecordCommandRequest | application/runtime_record_service.cpp:77-99 | the pushed entry, its fallback request id and its preview |
| RuntimeRecordService.RuntimeRecordService.RecordRuntimeEvent | application/runtime_record_service.cpp:101-121 | the pushed entry, its type and status by code and its preview |
| RuntimeRecordService.PreviewHidesSecrets | application/runtime_record_service.cpp:167-173 | however values are printed, previews do not tell apart payloads that differ only in what masks hide |
| RuntimeRecordService.IdsFall | application/runtime_record_service.cpp:123-165 | records come with falling ids, without a gap if unfiltered, and no more than the limit |
| RuntimeRecordService.ChosenHasAll | application/runtime_record_service.cpp:135-139 | only the limit can leave out an entry that passes the filter |
| RuntimeRecordService.NewestOfKind | application/runtime_record_service.cpp:123-156 | a query returns retained entries of the kind asked for and leaves out only such that are older than all it returns, when it returns as many as asked for: 100 by default, never more than 500 |
| RuntimeRecordService.PreviewIs | application/runtime_record_service.cpp:167-173 | a preview is the printed redaction, or its first 1600 characters and an ellipsis |
| RuntimeRecordService.FieldIs | application/runtime_record_service.cpp:175-200 | a field is read iff the object has it with the right kind of value |

## Left out

- Event publication: sinks and stage callbacks are no-ops that do not throw; a queued cancel publishes `cancelled` twice, so no claim is made about how often an event is sent.
- Stage lists, assets, messages and timestamps of capture rows, page and output contents of enhancement rows: only statuses, phases, progress, counts and codes are kept.
- Integer width: counters, sequence numbers, progress and page counts are unbounded; only the Base64 accumulator wraps.
- Exceptions: modelled for provider calls of an enhancement worker; elsewhere a throwing call would end the process or the command.
- Result status strings of the pipeline other than empty, succeeded and failed, as seen by the capture scheduler.
- CaptureTaskService.CaptureTaskService.CaptureAndStage: the files that the staging step copies are one success or failure.
- EnhanceTaskService.ImageEnhanceTaskService.FinishOutputs: the number of pages written is an answer; the loop that writes them is `EnhanceOutputs.WriteImagePages`.
- StorageCleanup.StorageDesk.CleanupTemp: scan tables and image asset indexes enter only as sizes, because queries without the storage lock change the scan tables at any time.
- CapturePipeline.CapturePipelineContext.Run: image sizes, kinds, content types and messages of assets and stages are not kept; the scale of the output is one flag, since float rounding is not the point.
- TwainCache.ConvertedOnce: storage cleanup and the overwrites on connection close and shutdown (lines 7093-7096 and 7125-7128) are outside the runs, formats and suffixes are already normalised, and output directories, assets and messages are not kept; the same goes for `TwainPages` and `TwainRaces`.
- TwainPages.PagesStayIff: with the commands one after the other only; the cache promises nothing for images even then, so their interleavings are left to `TwainRaces`, whose theorems are about documents.
- Condition-variable timeouts: a capture that times out is a provider answer with an error code.
- The quota, session and authorization services, the facades, HTTP and WebSocket servers, configuration, logging, video sessions and the dispatch of commands: thin or I/O; they appear as arguments.
- SANE scans and file upload commands: they would only add members like the TWAIN ones.
