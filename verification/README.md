# ESPScheduler: a verified model

This project models ESPScheduler, a cron, sun, moon and one-shot job scheduler for the
ESP32, and proves what it promises over every run. It covers

* the schedule calculator: field masks, validation, the bounded searches for the next
  occurrence and the periodic-window arithmetic (`ScheduleField`, `Calendar`,
  `PeriodicWindow`, `ScheduleCalculator`, `CronCoverage`);
* the two containers under the core, an array heap and an open-addressing id index
  (`DueHeap`, `IdIndex`);
* the scheduler core, twice: as a transition system whose labels are the atomic pieces of
  API calls, ticks and completion events (`CoreModel`, `CoreInvariant`, `CoreSteps`,
  `CoreHistory`, `CoreBehaviour`, `CoreTheorems`, `CorePause`, `CoreLiveness`,
  `DispatchPass`, `CronPass`, `OneShots`, `OneShotTimes`, `DueOrder`, `CoreLimits`,
  `OneJob`), and as the class that updates its table, lists, index and heap in place
  (`SchedulerCore`). The class carries the run it
  has taken as a ghost trace; `Valid()` says that its abstract state is what the model
  reaches by that trace, and every method says which steps it appends, so the theorems
  about runs and their continuations hold of every object;
* the command hand-off between callers and the service task, with any number of commands
  and any interleaving (`CommandHandoff`);
* the service loop and how long it sleeps (`Service`).

`dafny verify dfyconfig.toml` checks everything.

## Assumptions

* Time is integer seconds. The local zone is a fixed offset of whole minutes over the
  Gregorian calendar; sunrise, sunset and moon phase are arbitrary functions of time.
* Doubles are real numbers.
* The answers of the allocator and of the executors are parameters, so a statement covers
  every combination of successes and failures. The id index decides by itself when it has
  to grow, and only then asks.
* Inline callbacks do not call back into the scheduler, and executors report each accepted
  invocation at most once: an event that matches its record is for an invocation in flight.
  Completions lost in a full queue simply stay in flight.
* Ids, generations and the running count do not wrap around.
* Semaphore and queue operations and the abandoned flag are atomic.

## Notes on the code

* Line 199 of the repository's README promises classic cron OR semantics for the two day
  fields. In the code the month always has to match as well, and only `any()` counts as
  unrestricted: a day field built by `every(1)` matches every day and so cancels the other
  day field (`CronCoverage.DayRuleVacuousIff`). The model follows the code.
* Promises a reader might expect hold only under a condition. For each the exact condition
  is proved, and a run that breaks the promise: that a refreshed job has no next run before
  the refresh and that a refused submit only delays (`CoreLimits`), and that no due time is
  submitted twice or out of order (`DueOrder`).
* A pass can leave a job that has run out of occurrences in the pending list until the next
  drain; the service does not wake for it (`DispatchPass.PassPends`,
  `DispatchPass.RunsOutIff`, `CoreLimits.RunsOutHappens`).
* For an inline job the code raises the running count before it schedules the next
  occurrence; the class counts after, as nothing in between reads the count.
* The branch for a negative minute of the day in the cron search cannot be taken under a
  fixed offset and has no counterpart.

## Model

| member | source | states |
|---|---|---|
| ScheduleFields.Any | src/esp_scheduler/schedule/schedule_field.cpp:3-7 | the field matches every value |
| ScheduleFields.Only | src/esp_scheduler/schedule/schedule_field.cpp:9-16 | matches exactly the value, and nothing when the value is outside 0..63 |
| ScheduleFields.Range | src/esp_scheduler/schedule/schedule_field.cpp:18-27 | matches v iff from <= v <= to; an invalid range matches nothing |
| ScheduleFields.Every | src/esp_scheduler/schedule/schedule_field.cpp:29-38 | matches exactly the multiples of a positive step up to 63 |
| ScheduleFields.RangeEvery | src/esp_scheduler/schedule/schedule_field.cpp:40-49 | matches exactly from, from + step, ... up to to; invalid arguments match nothing |
| ScheduleFields.List | src/esp_scheduler/schedule/schedule_field.cpp:51-65 | matches exactly the listed values; one out-of-range value empties the whole field |
| ScheduleFields.WithinRangeExact | src/esp_scheduler/schedule/schedule_calculator.cpp:35-57 | the mask test accepts a field iff the field matches some value of the range, although bits outside the range may be set too (for the ranges validation asks about, all within 0..62) |
| Calendar.RoundToNextMinute | src/esp_scheduler/schedule/schedule_calculator.cpp:27-33 | the first whole minute at or after a time |
| ScheduleCalculator.NextCronIsLeast | src/esp_scheduler/schedule/schedule_calculator.cpp:112-155 | cron search is exact: the answer is the least whole minute at or after the start that matches month, hour, minute and the OR day rule; no answer means no match in the whole window |
| ScheduleCalculator.ComputeNextCron | src/esp_scheduler/schedule/schedule_calculator.cpp:112-155 | the minute-by-minute loop, with its rebuilding of the time from hour and minute, computes that least match |
| ScheduleCalculator.SearchMinutes | src/esp_scheduler/schedule/schedule_calculator.cpp:116-154 | at most 366*24*60 tests of the cursor find the first hit of any predicate |
| ScheduleCalculator.NextSunIsFirst | src/esp_scheduler/schedule/schedule_calculator.cpp:157-181 | the sun search answers for the first local day, from the start day on, whose offset event is not past, and never with a past event |
| ScheduleCalculator.ComputeNextSun | src/esp_scheduler/schedule/schedule_calculator.cpp:157-181 | the 732-day loop computes that answer |
| ScheduleCalculator.UnwrappedIsSampled | src/esp_scheduler/schedule/schedule_calculator.cpp:67-76 | after any number of samples the unwrapped angle equals the sampled one up to whole turns, so the window test on it is the window test on the sample |
| ScheduleCalculator.FirstPhaseIsFirst | src/esp_scheduler/schedule/schedule_calculator.cpp:183-224 | an answer of the phase search is the first sample at which the unwrapped phase enters its window |
| ScheduleCalculator.NoPhaseMissed | src/esp_scheduler/schedule/schedule_calculator.cpp:183-224 | no answer means the phase enters its window at no sample of the search window reached without a gap |
| ScheduleCalculator.NextMoonPhaseIsFirst | src/esp_scheduler/schedule/schedule_calculator.cpp:183-224 | over the whole window of a search: the answer is the first crossing, and no answer means there is none reached without a gap |
| ScheduleCalculator.ComputeNextMoonPhase | src/esp_scheduler/schedule/schedule_calculator.cpp:183-224 | the loop, with the previous sample carried along and a missing sample ending the search, computes that answer |
| ScheduleCalculator.ComputeNextMoonIllumination | src/esp_scheduler/schedule/schedule_calculator.cpp:226-267 | the same for the illumination loop |
| ScheduleCalculator.FirstIlluminationIsFirst | src/esp_scheduler/schedule/schedule_calculator.cpp:226-267 | the illumination search answers with the first sample at which the percentage enters its window; no answer means there is none reached without a gap |
| ScheduleCalculator.ComputeNext | src/esp_scheduler/schedule/schedule_calculator.cpp:298-318 | answers every kind as the almanac and the specification say: a one-shot with its own time, cron with its least match, sunrise and sunset with the first offset event of their own kind not before the rounded start, the moon kinds with their first crossing |
| ScheduleCalculator.NextAnswers | src/esp_scheduler/schedule/schedule_calculator.cpp:298-318 | the calculator the core uses gives those answers |
| ScheduleCalculator.CronMatchExact | src/esp_scheduler/schedule/schedule_calculator.cpp:118-148 | a cron specification fires exactly at local minutes whose month, hour and minute match and whose day matches both day fields if one is unrestricted, either otherwise |
| ScheduleCalculator.ValidateExact | src/esp_scheduler/schedule/schedule_calculator.cpp:269-296 | validation accepts exactly the specifications whose fields can match, and whose offsets, angles and percentages are in bounds |
| ScheduleCalculator.IlluminationCrossedIff | src/esp_scheduler/schedule/schedule_calculator.cpp:244-259 | a crossing is reported iff the first sample is outside the window and some value on the way to the second is inside |
| ScheduleCalculator.NextNotBefore | src/esp_scheduler/schedule/schedule_calculator.cpp:298-318 | no recurring search, of any kind and over any sky, answers with a time before its start |
| ScheduleCalculator.CalculatorNeverEarly | src/esp_scheduler/schedule/schedule_calculator.cpp:298-318 | so the calculator meets what the core's termination rests on |
| CronCoverage.YearSuffices | src/esp_scheduler/schedule/schedule_calculator.cpp:112-155 | 366 days are enough from every start time for a validated cron specification that admits a date other than 29 February |
| CronCoverage.AlwaysFoundExactly | src/esp_scheduler/schedule/schedule_calculator.cpp:269-276 | exact condition: every start time finds an occurrence iff such a date is admitted |
| CronCoverage.AdmittedByFields | src/esp_scheduler/schedule/schedule_calculator.cpp:128-148 | the same condition on the fields alone: day of month unrestricted, or day of week restricted, or some matched month has a matched day that exists every year |
| CronCoverage.OnlyLeapDaysMiss | src/esp_scheduler/schedule/schedule_calculator.cpp:112-155 | otherwise the search from 1 March 1972 finds nothing |
| CronCoverage.LeapMidnightRunsOut | src/esp_scheduler/schedule/schedule_calculator.cpp:112-155 | midnight of a 29 February matches, and the search from the minute after finds nothing |
| CronCoverage.DayRuleVacuousIff | src/esp_scheduler/schedule/schedule_calculator.cpp:128-143 | with both day fields restricted, every day is admitted iff one of the fields matches all its values |
| CronCoverage.WindowIsTight | src/esp_scheduler/schedule/schedule_calculator.cpp:6-6 | the bound is tight: for midnight of 1 March across a leap year the match is the last minute searched |
| PeriodicWindow.UnwrapFollows | src/esp_scheduler/schedule/schedule_calculator.cpp:59-76 | unwrapping stays congruent to the sample modulo 360 and moves by at most 180 degrees |
| PeriodicWindow.ValueWindowExact | src/esp_scheduler/schedule/schedule_calculator.cpp:78-86 | the one-point test is true iff some whole number of turns brings the window onto the value |
| PeriodicWindow.SegmentIntersectsPeriodicWindow | src/esp_scheduler/schedule/schedule_calculator.cpp:88-110 | the finite loop over periods decides the unbounded question: true iff some whole number of turns shifts the window onto the segment, within epsilon |
| PeriodicWindow.WindowIsPeriodic | src/esp_scheduler/schedule/schedule_calculator.cpp:78-86 | congruent angles are inside the window together |
| DueHeaps.RootIsMinimal | src/esp_scheduler/core/due_heap.h:41-43 | the root of an ordered array is a minimum-epoch entry |
| DueHeaps.DueHeap.Push | src/esp_scheduler/core/due_heap.h:19-35 | keeps the heap order and adds exactly the entry; a failed push changes nothing |
| DueHeaps.DueHeap.Pop | src/esp_scheduler/core/due_heap.h:45-73 | returns a minimum-epoch entry and removes exactly it |
| DueHeaps.DueHeap.SiftDown | src/esp_scheduler/core/due_heap.h:53-71 | the downward loop terminates, restores the order and keeps the multiset |
| IdIndexes.FindCell | src/esp_scheduler/core/runtime_containers.h:255-273 | the probe loop finds the id or crosses only other cells up to an Empty one |
| IdIndexes.FreeCell | src/esp_scheduler/core/runtime_containers.h:381-421 | the insert probe returns the id's cell or the first free cell of its path; the code after the loop is never reached |
| IdIndexes.SchedulerIdIndex.Get | src/esp_scheduler/core/runtime_containers.h:255-273 | lookup in the abstract map, for any hash function |
| IdIndexes.SchedulerIdIndex.Remove | src/esp_scheduler/core/runtime_containers.h:275-297 | removes the id from the map and reports whether it was there |
| IdIndexes.SchedulerIdIndex.Clear | src/esp_scheduler/core/runtime_containers.h:299-312 | empties the map |
| IdIndexes.SchedulerIdIndex.Set | src/esp_scheduler/core/runtime_containers.h:245-253 | updates the map; a failed set changes no mapping and happens only for id 0 or a refused allocation |
| IdIndexes.SchedulerIdIndex.EnsureCapacityForInsert | src/esp_scheduler/core/runtime_containers.h:368-379 | keeps the map and leaves room for one more id below seven tenths of the table, with no more tombstones than ids |
| IdIndexes.SchedulerIdIndex.InsertOrAssign | src/esp_scheduler/core/runtime_containers.h:381-421 | always succeeds and updates the map; reachability without crossing an Empty cell, unique keys and exact counts are kept |
| IdIndexes.SchedulerIdIndex.Rehash | src/esp_scheduler/core/runtime_containers.h:423-459 | growth and same-size rehash keep the map and drop all tombstones; the reinsertion rollback is unreachable |
| CoreSteps.StepKeeps | src/esp_scheduler/core/scheduler_core.cpp:29-595 | every API call, tick and completion step keeps the invariant that ties table, free list, pending list, index, heap, in-flight invocations and history together |
| CoreSteps.ReachableInv | src/esp_scheduler/core/scheduler_core.cpp:29-595 | so every run reaches only states that satisfy it |
| CoreHistory.StepEvolves | src/esp_scheduler/core/scheduler_core.cpp:136-157 | slots change only to the same job, to nothing at a higher generation, or to a job with a new id; canceled jobs stay canceled; only live jobs are submitted |
| CoreBehaviour.OthersUntouched | src/esp_scheduler/core/scheduler_core.cpp:29-595 | a step on one slot leaves every other job's record and submissions alone |
| CoreBehaviour.AddStoresJob | src/esp_scheduler/core/scheduler_core.cpp:179-252 | the new record holds the given job, idle, under a fresh indexed id |
| CoreBehaviour.AddArms | src/esp_scheduler/core/scheduler_core.cpp:199-241 | an unpaused job added on a valid clock is armed from now, a one-shot job for its own time |
| CoreBehaviour.AddWaits | src/esp_scheduler/core/scheduler_core.cpp:236-249 | on an invalid clock it waits to be searched from now; a paused one has no run to come |
| CoreBehaviour.CancelFreesIdle | src/esp_scheduler/core/scheduler_core.cpp:254-266 | an idle job's slot is free at once and one generation on; a running one only loses its runs to come |
| CoreBehaviour.PauseStops | src/esp_scheduler/core/scheduler_core.cpp:268-278 | pausing takes away every run to come and leaves what is running alone |
| CoreBehaviour.ResumeWaits | src/esp_scheduler/core/scheduler_core.cpp:280-292 | an idle job waits to be searched from the resume time, even if it was listed already; a running one is only unpaused |
| CoreBehaviour.RefreshArms | src/esp_scheduler/core/scheduler_core.cpp:309-336 | a recurring job that may run is armed for what its schedule gives from now; one that may not is marked |
| CoreBehaviour.DrainArms | src/esp_scheduler/core/scheduler_core.cpp:98-118 | an idle ready job is armed from its start time, a one-shot job for its own time; any other slot is left without a next run |
| CoreBehaviour.BusyJobWaitsOrSkips | src/esp_scheduler/core/scheduler_core.cpp:552-559 | a due job that may not run beside itself is not submitted: a QueueOne job is marked for that due time, any other loses the run |
| CoreBehaviour.QueuedRunIsSubmitted | src/esp_scheduler/core/scheduler_core.cpp:474-506 | a QueueOne job that comes due while it runs is submitted for that very due time when it finishes, however much later, unless it is paused, resumed, refreshed or canceled |
| CoreBehaviour.AsyncTaken | src/esp_scheduler/core/scheduler_core.cpp:424-472 | an asynchronous job whose executor takes it is submitted once and counted in flight; its next run is what the schedule gives a minute after the due time |
| CoreBehaviour.AsyncRefused | src/esp_scheduler/core/scheduler_core.cpp:445-452 | with the executor missing, unsuitable or full nothing is submitted or counted, and the job is retried a second later |
| CoreBehaviour.InlineTaken | src/esp_scheduler/core/scheduler_core.cpp:382-422 | an inline job has run and finished when the step ends; its next run is what the schedule gives a minute after the due time, or it waits from now; a one-shot job is gone |
| CoreBehaviour.InlineRefused | src/esp_scheduler/core/scheduler_core.cpp:391-412 | a refused inline job is not submitted and retried a second later |
| CoreBehaviour.CompletionCountsDown | src/esp_scheduler/core/scheduler_core.cpp:489-530 | with other invocations in flight, or a next run armed, a completion only counts down |
| CoreBehaviour.CompletionFreesCanceled | src/esp_scheduler/core/scheduler_core.cpp:503-506 | the last completion of a canceled job frees its slot |
| CoreBehaviour.QueuedRunTaken | src/esp_scheduler/core/scheduler_core.cpp:474-487 | a completion submits the queued run for its own due time and leaves no next run |
| CoreBehaviour.QueuedRunRefused | src/esp_scheduler/core/scheduler_core.cpp:445-452 | a refused queued run is retried a second later |
| CoreBehaviour.IdleJobWaits | src/esp_scheduler/core/scheduler_core.cpp:508-524 | a completion that leaves a recurring job idle has it searched from the time of the completion, whether it was refreshed while running or had run out |
| CoreBehaviour.FinishedJobIsRearmed | src/esp_scheduler/core/scheduler_core.cpp:98-118 | the first drain of that slot arms it for exactly what the schedule gives from the completion |
| CoreTheorems.NextDueIsExact | src/esp_scheduler/core/scheduler_core.cpp:580-587 | in every reachable state a valid top of the lazily pruned heap is the earliest next run a scan of the table finds, and an empty heap means there is none |
| CoreTheorems.ConservationAndOverlap | src/esp_scheduler/core/scheduler_core.cpp:403-530 | each count equals the invocations in flight, the total equals all in flight, a job that is not AllowParallel has at most one, and a queued run implies QueueOne with exactly one in flight, live, not paused and no next run |
| CoreTheorems.OneShotOnceAndNotEarly | src/esp_scheduler/core/scheduler_core.cpp:403-458 | a one-shot job is submitted at most once in any run and never before its time |
| OneShots.DueOneShotIsSubmitted | src/esp_scheduler/core/scheduler_core.cpp:403-472 | its partner: in every finished pass from any state, a due one-shot job whose executor accepts has been submitted, once in the whole run and for the time it was armed for; an inline job has left the index, any other is in flight with no next run |
| OneShotTimes.OneShotIsArmedForItsTime | src/esp_scheduler/core/scheduler_core.cpp:41-55 | in every run a one-shot job is armed for its own time, or for a second after a refused dispatch of it, and for no other |
| OneShotTimes.OneShotIsSubmittedForItsTime | src/esp_scheduler/core/scheduler_core.cpp:403-472 | so its submission is for its own time unless its dispatch was refused before |
| OneShotTimes.SubmissionsComeFrom | src/esp_scheduler/core/scheduler_core.cpp:372-472 | a step submits at most once, for the time of the due entry dispatched or of the queued run, and only dispatches and completions submit |
| OneShots.CompletionRetiresOneShot | src/esp_scheduler/core/scheduler_core.cpp:489-530 | whatever happened meanwhile, the completion of a one-shot invocation in flight retires the job, drops its id and submits nothing |
| CoreTheorems.CancelIsFinal | src/esp_scheduler/core/scheduler_core.cpp:254-266 | after a successful cancel no continuation of the run submits that id |
| CorePause.PausedIsSilent | src/esp_scheduler/core/scheduler_core.cpp:268-278 | after a pause, until that very job is resumed, no step of any continuation submits its id: not completions, refreshes, stale pending or heap entries, nor reuse of the slot |
| CoreTheorems.CancelAllDrains | src/esp_scheduler/core/scheduler_core.cpp:294-307 | once every job is canceled, any run without a further addJob that has nothing left in flight has emptied the table, the index and the counts |
| CoreTheorems.DeliveryDrains | src/esp_scheduler/core/scheduler_core.cpp:489-530 | delivering the in-flight completions, in any order and each at its own time and with its own answers, is such a run |
| CoreTheorems.StaleEntryNeverDispatches | src/esp_scheduler/core/scheduler_core.cpp:120-128 | a heap entry made for one job never becomes valid for another, however often the slot is reused |
| CoreTheorems.EntriesLagFreeSlots | src/esp_scheduler/core/scheduler_core.cpp:120-157 | no heap entry is ahead of its slot's generation, and entries of a free slot are strictly behind |
| CoreTheorems.CompletionsStillMatch | src/esp_scheduler/core/scheduler_core.cpp:564-578 | a genuine completion always still matches its record's id and generation |
| CoreTheorems.ContainersAgree | src/esp_scheduler/core/scheduler_core.cpp:136-157 | index maps id to slot iff the slot is occupied by id; free-list entries are distinct unoccupied slots |
| CoreTheorems.FailedAddChangesNothing | src/esp_scheduler/core/scheduler_core.cpp:169-252 | an addJob that fails at any allocation leaves live jobs, index, free list, heap and pending list as they were |
| CoreLiveness.NoLiveJobIsLost | src/esp_scheduler/core/scheduler_core.cpp:64-118 | if allocations succeed, every live unpaused job is in the heap, or pending and idle, or running, or its last search found nothing; every unoccupied slot is on the free list |
| DispatchPass.DispatchTerminates | src/esp_scheduler/core/scheduler_core.cpp:532-562 | every dispatching turn lowers the sum of (now - epoch + 1) over due heap entries |
| DispatchPass.PassIsInOrder | src/esp_scheduler/core/scheduler_core.cpp:532-562 | within one pass dispatches happen in nondecreasing due time across all jobs |
| DispatchPass.PassIsRun | src/esp_scheduler/core/scheduler_core.cpp:532-562 | a pass is a stretch of a run, so everything said of runs holds of it |
| DispatchPass.NothingDueLeft | src/esp_scheduler/core/scheduler_core.cpp:532-562 | when the heap holds nothing due, no job is due |
| DispatchPass.PassPends | src/esp_scheduler/core/scheduler_core.cpp:489-530 | if the heap can grow, a pass leaves in the pending list only inline recurring jobs whose search from their last due time found nothing |
| DispatchPass.RunsOutIff | src/esp_scheduler/core/scheduler_core.cpp:508-524 | an accepted dispatch of an inline recurring job ends with the job pending from now iff the search from its due time found nothing |
| CronPass.CronDuesAreExact | src/esp_scheduler/core/scheduler_core.cpp:382-472 | a pass dispatches an accepted cron job, inline or asynchronous and allowed to run in parallel, at exactly the matching minutes from its next run through now, none missed or doubled, until a gap exceeds the search window |
| CoreLimits.StaleStartIff | src/esp_scheduler/core/scheduler_core.cpp:88-118 | after a refresh at now and the drain that follows, a job has a next run before now iff it was still listed as pending, is idle, and has an occurrence before now from the time it was listed with |
| CoreLimits.StaleStartHappens | src/esp_scheduler/core/scheduler_core.cpp:309-336 | a run in which that happens: added on an invalid clock, refreshed before it was drained |
| CoreLimits.DrainAll | src/esp_scheduler/core/scheduler_core.cpp:98-118 | a complete drain recomputes every listed slot from its own start time, however often it is listed, and touches no other |
| DueOrder.DispatchOrderly | src/esp_scheduler/core/scheduler_core.cpp:372-472 | a dispatch of a recurring job submits its next run and moves on to a later one, or moves it on without submitting, never back |
| DueOrder.CompleteOrderly | src/esp_scheduler/core/scheduler_core.cpp:474-530 | so does a completion, unless a queued run meets a clock behind its due time |
| DueOrder.DuesIncrease | src/esp_scheduler/core/scheduler_core.cpp:41-118 | over any run from its addition on, the due times submitted for a recurring job strictly increase if every restart of its search begins after the last of them |
| DueOrder.RefreshAheadIff | src/esp_scheduler/core/scheduler_core.cpp:309-336 | exact condition: after a refresh the next run is later than the last due time submitted iff the refresh time rounds up past it |
| DueOrder.DrainAheadIff | src/esp_scheduler/core/scheduler_core.cpp:98-118 | the same for the drain that follows a resume, a completion or an add, with the start time the job was queued with |
| DueOrder.DispatchInOrderIff | src/esp_scheduler/core/scheduler_core.cpp:372-472 | the next accepted dispatch keeps the due times increasing iff the next run is later than all of them |
| DueOrder.RepeatHappens | src/esp_scheduler/core/scheduler_core.cpp:280-336 | runs that submit an every-minute job twice for one minute: by a refresh within it, and by a pause and resume |
| CoreLimits.FailedSubmitSkipsIff | src/esp_scheduler/core/scheduler_core.cpp:403-472 | a dispatch refused and later accepted skips occurrences iff one lies between its due time and the retry time plus a minute, and skips no other |
| CoreLimits.EveryMinuteSkips | src/esp_scheduler/core/scheduler_core.cpp:403-472 | a run in which a refused submit makes an every-minute job lose the next minute |
| CoreLimits.RunsOutHappens | src/esp_scheduler/core/scheduler_core.cpp:508-524 | a run, for any 29 February, that leaves a live yearly-leap-day job pending with an empty heap |
| SchedulerCores.SchedulerCore.Reached | src/esp_scheduler/core/scheduler_core.cpp:29-595 | the object's state is the one the model reaches by the object's trace, so every theorem about runs holds of it |
| SchedulerCores.SchedulerCore.GoneSince | src/esp_scheduler/core/scheduler_core.cpp:254-266 | an id gone at some point of the trace is still gone and has not been submitted since, through whatever calls and ticks followed |
| SchedulerCores.SchedulerCore.AddJob | src/esp_scheduler/core/scheduler_core.cpp:169-252 | appends exactly that step; returns an id iff every allocation it needed succeeded; the id is then live; a failure changes nothing observable |
| SchedulerCores.SchedulerCore.CancelJob | src/esp_scheduler/core/scheduler_core.cpp:254-266 | succeeds iff a live job has the id; cancels that slot and nothing else; afterwards no live job carries the id and none ever will |
| SchedulerCores.SchedulerCore.PauseJob | src/esp_scheduler/core/scheduler_core.cpp:268-278 | succeeds iff a live job has the id; that slot alone loses its next run, pending mark and queued run |
| SchedulerCores.SchedulerCore.ResumeJob | src/esp_scheduler/core/scheduler_core.cpp:280-292 | resumes that slot and nothing else; an idle job is queued for scheduling; fails exactly for an unknown id or when an idle job not yet queued cannot be queued |
| SchedulerCores.SchedulerCore.CancelAll | src/esp_scheduler/core/scheduler_core.cpp:294-307 | appends one cancel per live job in table order and nothing else; afterwards no job in the table is live |
| SchedulerCores.SchedulerCore.RefreshAllSchedules | src/esp_scheduler/core/scheduler_core.cpp:309-336 | appends one refresh per live unpaused recurring job in table order and nothing else; each is recomputed from now, or marked until it stops running; all other records are untouched |
| SchedulerCores.SchedulerCore.FindJobSlot | src/esp_scheduler/core/scheduler_core.cpp:29-39 | finds the slot of a live job with the id, or there is none in the whole table |
| SchedulerCores.SchedulerCore.QueueSlot | src/esp_scheduler/core/scheduler_core.cpp:64-86 | queues a job at most once and reports failure only when the list could not grow |
| SchedulerCores.SchedulerCore.DrainPendingSchedules | src/esp_scheduler/core/scheduler_core.cpp:98-118 | on a valid clock appends exactly one drain per entry of the old list and empties it; on an invalid one changes nothing |
| SchedulerCores.SchedulerCore.PruneInvalidDueEntries | src/esp_scheduler/core/scheduler_core.cpp:130-134 | appends only prunes, until the top is valid or the heap is empty |
| SchedulerCores.SchedulerCore.DispatchInlineJob | src/esp_scheduler/core/scheduler_core.cpp:372-422 | inline dispatch with completion inside submit, including retry after a refused submit |
| SchedulerCores.SchedulerCore.DispatchAsyncJob | src/esp_scheduler/core/scheduler_core.cpp:424-472 | asynchronous dispatch, including retry and the deferred run |
| SchedulerCores.SchedulerCore.HandleCompletion | src/esp_scheduler/core/scheduler_core.cpp:474-530 | completion: count down, then queued run, cancellation, refresh, rescheduling or retirement |
| SchedulerCores.SchedulerCore.HandleEvent | src/esp_scheduler/core/scheduler_core.cpp:564-578 | an event that names the record of its slot is completed, any other is ignored; if it was in flight, or names no record, that is a step of the model |
| SchedulerCores.SchedulerCore.RetireJob | src/esp_scheduler/core/scheduler_core.cpp:136-157 | blanks the slot at the next generation, drops the id and returns the slot to the free list if that can hold it |
| SchedulerCores.SchedulerCore.DispatchDue | src/esp_scheduler/core/scheduler_core.cpp:532-562 | terminates; on a valid clock appends one drain per pending entry and then one pass from the drained state, nothing else, leaves no heap entry and no job due at or before now, and pending only jobs that ran out; on an invalid clock changes nothing |
| SchedulerCores.SchedulerCore.NextDueEpoch | src/esp_scheduler/core/scheduler_core.cpp:580-587 | returns exactly the earliest next run of any live job, or none, and drops only stale heap entries |
| SchedulerCores.SchedulerCore.ActiveInvocationCount | src/esp_scheduler/core/scheduler_core.cpp:589-595 | the loop over the table counts exactly the invocations in flight |
| CommandHandoff.NeverTouchedAfterFree | src/esp_scheduler/scheduler.cpp:20-44 | over all interleavings no command is touched after deletion by either side and none is deleted twice |
| CommandHandoff.AnswersAreFinal | src/esp_scheduler/service/scheduler_service.cpp:179-200 | a result is read only after the service finished writing it; an answered command is deleted once, by its caller; the default failure is returned only when the service was stopped |
| CommandHandoff.RefusedNeverExecutes | src/esp_scheduler/service/scheduler_service.cpp:160-165 | a command refused by a full or closed queue is never received or executed, and its caller deletes it |
| CommandHandoff.SendRefusedIff | src/esp_scheduler/service/scheduler_service.cpp:160-165 | a command is refused iff the queue is gone or full, else queued last; the queue never outgrows its depth |
| CommandHandoff.FirstInFirstOut | src/esp_scheduler/service/scheduler_service.cpp:179-200 | commands are handled in the order sent, each executed at most once |
| CommandHandoff.FreedOnceUnlessAbandonedLate | src/esp_scheduler/service/scheduler_service.cpp:127-145 | once both sides are done a command was deleted exactly once, or never if it was abandoned without the service seeing it |
| CommandHandoff.LeaksIffTooLate | src/esp_scheduler/service/scheduler_commands.cpp:14-33 | exact condition: no continuation at all deletes an abandoned command iff, when it was abandoned, the service had already read the flag or the command sat in a queue whose final drain was over |
| CommandHandoff.AbandonedInTimeIsFreed | src/esp_scheduler/service/scheduler_service.cpp:190-199 | otherwise, in every continuation in which both sides are done with it, the service has deleted it exactly once |
| CommandHandoff.ServiceFinishes | src/esp_scheduler/service/scheduler_service.cpp:179-200 | from every reachable state of a serving or draining service, steps of the service alone finish everything queued, in the same mode |
| CommandHandoff.LateCheckLeaks | src/esp_scheduler/service/scheduler_service.cpp:190-199 | an interleaving that leaks because the flag was read too early |
| CommandHandoff.SendAfterDrainLeaks | src/esp_scheduler/service/scheduler_service.cpp:127-148 | an interleaving that leaks because the command was sent between the last receive and the deletion of the queue |
| Services.NextWakeMs | src/esp_scheduler/service/scheduler_service.cpp:11-40 | the wait is max(0, min(next due, next local midnight) - now) seconds, at most a day, so the 32-bit millisecond value loses nothing and the idle poll is never chosen |
| Services.NextLocalMidnight | src/esp_scheduler/service/scheduler_service.cpp:26-30 | the computed midnight is the start of the very next local day |
| Services.SchedulerService.DrainEvents | src/esp_scheduler/service/scheduler_service.cpp:202-213 | every queued event is handled, in order, whatever the queue holds; if no record has more events than invocations in flight, the run is extended by exactly these completions |
| Services.SchedulerService.RefreshTimeContextIfNeeded | src/esp_scheduler/service/scheduler_service.cpp:215-229 | schedules are refreshed iff that was requested or the local day differs from the one last seen; nothing else is appended to the run |
| Services.SchedulerService.Turn | src/esp_scheduler/service/scheduler_service.cpp:231-252 | one loop turn appends the completions, the refresh if needed, the drain, one pass and prunes, and nothing else; the request is cleared and the local day remembered; on a valid clock nothing due is left, pending jobs are only ones that ran out, and the sleep ends exactly at the earliest armed run or midnight, more than zero and at most a day; the published count equals what is in flight |

## Left out

- FreeRTOS tasks, queue creation, queue sets, tick conversion, stack and PSRAM options: foreign calls.
- Forced deletion of the service task when stop() times out, and begin/end across restarts: the hand-off ends when the queue is closed.
- ESPDate internals, daylight-saving transitions and the astronomy behind sun and moon events: the library is not part of this model.
- Floating-point rounding and non-finite values, which validation rejects: doubles are reals.
- 64-bit mask arithmetic: a mask is the set of its one bits.
- Re-entrant API calls from callbacks and counter wrap-around: excluded by the assumptions.
- Executors' own queues and tasks: an executor is a yes-or-no answer to submit and a later event.
- jobCount, getJobInfo, job names, callback payloads and dedicated-task options beyond the executor-id test: nothing else in the core reads them.
- The caller's object that GetJobInfoCommand writes to: only the command object's own lifetime is modelled.
- drainCommands as a loop over the core's calls: its hand-off is modelled in CommandHandoff, and each call it makes is a method of SchedulerCore.
- v1_compat, API forwarding, result types, examples and scripts.
- SchedulerArray's element moves and destructors: growth may fail and then changes nothing; the free list's capacity is kept because a failed push there loses a slot.
- SchedulerCores.SchedulerCore.HandleEvent: for an event that names a record but is not in flight it states the new state, not that a run reaches it, because executors are assumed to report each invocation at most once.
- Services.SchedulerService.DrainEvents: the same, for a queue that holds more events for a record than invocations in flight.
- Services.SchedulerService.Turn: a job that is only pending after the pass is not waited for, as in the code.
- SchedulerCores.SchedulerCore.AddJob: job names and callbacks appear only as success or failure of their checks.
