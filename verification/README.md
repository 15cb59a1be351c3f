# Verified model of the planning engine

A Dafny 4.11 model of the deterministic core of the life-planning service: the scheduler and its weekly quota,
the plan tree store and the calendar export built on it, the schedule diff and the reconciliation that reads it,
the direction run, and two small counting cores (profile streaks, request rate limiting). `dafny verify dfyconfig.toml`
checks everything.

Code that updates state in place is a class whose methods are proved against a specification function of the old
state (`ensures State() == ...`); loops are methods with invariants; pure code is functions. What the code promises
is then proved of those functions, for all inputs, all runs, or all reachable states. The specification functions
themselves are held to account by laws that speak in fields and numbers only (minutes as sixty million microseconds,
weekdays as `(day + 6) % 7`, literal texts and statuses), so that none of them can be changed without breaking one.

## The parts

| file | what it holds |
|---|---|
| `Order.dfy` | stable sorting, filtering, mapping and summing of lists, and how they interact |
| `Template.dfy` | the relative plan a model proposes, its flattening, and the rules its validator enforces (`WellFormed`) |
| `Placement.dfy` | the sorted sweep for the first free start, and the three-level search over days, slots and windows |
| `Rounding.dfy`, `Spread.dfy` | round-half-to-even, and the even spread of occurrences over days |
| `Quota.dfy` | the weekly cut under a total order |
| `Schedule.dfy` | the fold over weeks |
| `ScheduleBooks.dfy`, `ScheduleLaws.dfy`, `Provenance.dfy`, `Landing.dfy` | the accounting of every occurrence, what holds of every schedule, where its tasks come from and where they land |
| `PlanStore.dfy`, `StoreLaws.dfy` | the store of milestones, tasks and slots, and replacing one plan in it |
| `TreeRows.dfy`, `TreeRoundTrip.dfy` | a milestone tree as flat rows, and rebuilding it from them |
| `Exports.dfy` | the calendar, the export record, the queue, and every use case that touches them |
| `ExportInvariant.dfy`, `ExportLaws.dfy`, `ExportRuns.dfy` | the invariant tying calendars to schedules, row by row, over whole pushes, and over whole runs |
| `ExportRecords.dfy`, `ExportHealing.dfy`, `ExportLoss.dfy` | which calendars exist and which are recorded; which plans a run loses, how they come back, and that nothing else brings them back |
| `Regeneration.dfy`, `StaleEvents.dfy` | a plan generated anew while it is exported, and what becomes of its old events |
| `Diff.dfy`, `Reconciliation.dfy` | the keyed comparison of two schedules and the classification of a revision |
| `Validation.dfy`, `GeneratePlan.dfy`, `Baseline.dfy` | the retry loop, plan generation, and the baseline that never drifts |
| `StudioRuns.dfy` | runs in which generations and all other use cases mix: what is stored, followed, lost and recorded |
| `Report.dfy`, `Verdict.dfy` | the validation of reports and of verdicts |
| `DirectionRun.dfy`, `DirectionSteps.dfy`, `DirectionLaws.dfy`, `DirectionEnds.dfy` | the run state machine in small steps, what each step keeps, what holds of all runs, and how runs begin and end |
| `Profile.dfy`, `RateLimit.dfy`, `Decimals.dfy` | buckets, weeks and streaks; the expiring counter and the fixed-window limiter; numerals in keys |

Instants are integer microseconds and days are proleptic ordinals (day 1 a Monday). A time zone is an arbitrary function from
(day, minute of day) to an instant, so windows of any real length, including negative ones, are covered. The language model's
answers are an arbitrary function of what each call is told; a calendar call may raise at any point.

## What the proofs found

- **First fit can overrun its window.** The sweep returns as soon as the next taken block leaves room, without looking
  at the window's end. `FirstFitExact` states when the answer is nevertheless the leftmost fit inside the window (an
  if-and-only-if over all inputs); `FirstFitOverrunWitness` is the 300-minute task in a one-hour window.
- **Marker names can clash.** A task named `checkpoint_` plus a milestone key can share its (key, week, occurrence) with
  that milestone's marker. `KeysAreUniqueExactly`: among the schedules a stored plan can have, keys are unique if and only if
  no such task is active in its milestone's week with its first occurrence kept by the quota. `OccurrencesAreUnique` says
  that of any schedule nothing else repeats a key, `MarkerNameClash` how often a marker's key is carried.
- **A full push that fails over a recorded calendar leaves a tangle**: slots point into the new calendar while the record
  keeps the old one. `FullKeeps` and `RunsFollowExactly` say exactly when; `TangleWitness` is a run from an unexported store:
  two requests before the worker gets to them, a push that succeeds and one that fails. A push queued by a request and
  delivered next never does it (`RequestedPushIsSafe`). The damage never spreads and never mends by itself: over every run a
  calendar follows its plan if and only if the plan is not lost, that is tangled, or generated anew as below, and since then
  neither unexported, pushed in full, nor generated anew under an empty calendar (`EveryRunFollowsTheRest`, `TangleHeals`).
- **A plan can be generated anew under its calendar.** The generation job does not look at the plan's state, so a redelivered
  one exchanges the rows of an exported plan. That breaks the invariant exactly when the calendar holds events
  (`StudioRunsFollowExactly`). Whatever happens then, short of an unexport or a full push of the plan, the incremental push
  that next succeeds leaves every old event in place beside one new event per exported task (`RegenerationDoubles`).
- **Calendars can be orphaned.** A full push that fails after creating its calendar, or succeeds over a recorded one, leaves
  a calendar no record names. `CalendarsAreRecordedExactly`: every calendar is recorded at the end of a run if and only if no
  push of the run did that; nothing ever cleans an orphan up.
- **Avoidance and rounding.** Completion is rounded to four decimals before it is compared with one half, so the threshold
  is 0.49995; this matters from 10001 planned tasks on (`RoundingIsHarmlessExactly`). A plan left without tasks counts as
  completion 0 and reads as avoidance.
- **Repeated dimensions.** The configuration check accepts a dimension listed twice; the degraded analysis then stores
  two reports for it, which the rule it replaces would reject (`BareAnalysisIsCleanExactly`). `ReadyRunsReportOnceExactly`
  says exactly which ready runs report a dimension twice, `RepeatedDimensionWitness` is a run that ends ready and does.
- **Windows are aligned.** The limiter's documentation says a window starts at the first request of a burst; the key
  contains the aligned window number, so windows are aligned to the clock. The model follows the code.
- **Reconciliation never names a revision**: no use case moves a task or a slot time, and a generation stores a new baseline
  with the tree, so the comparison of the live schedule with the stored baseline is always empty (`ReconcileNeverRevises`).

## Model

| member | source | states |
|---|---|---|
| Placement.FindFirstFit | services/engine/domain/scheduler.py:338-356 | the sweep over the sorted, widened blocks, early return included, computes the specification `FirstFit` |
| Placement.FirstFitExact | services/engine/domain/scheduler.py:338-356 | the result is the least start inside the window that keeps the gap from everything taken, and none exactly when there is no such start, if and only if the sweep does not return early past the window's end; a window as long as the duration is enough |
| Placement.FirstFitKeepsGap | services/engine/domain/scheduler.py:345-356 | any start found, overrun or not, keeps the gap from every taken range, overlapping ones included |
| Placement.FirstFitOverrunWitness | services/engine/domain/scheduler.py:351-352 | a concrete input on which the start found does not fit its window |
| Placement.FirstFitIgnoresOrder | services/engine/domain/scheduler.py:347 | permuting the taken ranges does not change the result |
| Placement.FindPlace | services/engine/domain/scheduler.py:316-335 | the nested loops with early returns compute `Place` |
| Placement.PlaceIsLexicographicallyFirst | services/engine/domain/scheduler.py:300-335 | the place found is the one at the lexicographically first (day shift, slot, window) that admits a fit, and none exactly when none does |
| Placement.PlaceStaysInWeek | services/engine/domain/scheduler.py:316-334 | the place is the first attempt's that fits; the day lies between the target day and the earlier of the maximal shift and the week's end; the length is the task's duration; the start lies at or after the window's opening, is the opening when the window is shorter than the task, and the end lies in the window exactly unless the sweep overruns |
| Placement.PlaceKeepsGap | services/engine/domain/scheduler.py:326-334 | whatever is placed keeps the gap from everything taken |
| Placement.PlaceIgnoresOrder | services/engine/domain/scheduler.py:300-335 | the order of the taken ranges is irrelevant to the place found |
| Placement.WindowsAreListed | services/engine/domain/capacity.py:78-83 | the windows tried are exactly those configured for the weekday and slot, by start and then by end |
| Rounding.RoundIsNearest | services/engine/domain/scheduler.py:288 | Python's `round` of a quotient is within half a unit, ties going to the even neighbour |
| Spread.SpreadEnds | services/engine/domain/scheduler.py:287-288 | the first occurrence takes the first candidate and the last one the last |
| Spread.CapNeverBinds | services/engine/domain/scheduler.py:288 | the cap by the last index never has an effect |
| Spread.SpreadStep | services/engine/domain/scheduler.py:288 | successive indices differ by the floor or the ceiling of (L-1)/(n-1), whatever the rounding does |
| Spread.SpreadMonotone | services/engine/domain/scheduler.py:288 | indices never decrease, and strictly increase when there are at most as many occurrences as candidates |
| Spread.CandidatesAreTheAllowedDays | services/engine/domain/scheduler.py:291-294 | the candidates are exactly the days of the week the hint is open to, weekday by weekday, in order, and there is at least one |
| Spread.TargetDaysAreSpread | services/engine/domain/scheduler.py:274-288 | one day per occurrence, from the first candidate to the last, non-decreasing, all different when they fit |
| Spread.TargetDaysAreNearest | services/engine/domain/scheduler.py:282-288 | each occurrence takes the candidate whose place is nearest to its share of the way, ties to even; a single one takes the first |
| Quotas.CutToQuota | services/engine/domain/scheduler.py:206-250 | the loop that subtracts and records until the total fits computes `ApplyQuota` |
| Quotas.CutOrderRanksEveryArea | services/engine/domain/quota.py:37-40 | every area has exactly one rank, the area to drop first has rank 0, the others keep the question's order |
| Quotas.CutIsExact | services/engine/domain/scheduler.py:216-250 | kept and trimmed partition what was planned; what is kept fits the ceiling; undoing the last trim exceeds it; only costed occurrences are trimmed; the trimmed ones are a prefix of the cut order |
| Quotas.CutInMinutes | services/engine/domain/scheduler.py:216-255 | the same in minutes of sessions and habits, checkpoints and rest days being free; what is planned is every occurrence of every active task, and each trimmed one is recorded with its key, week, occurrence and area |
| Quotas.DropIsShortest | services/engine/domain/scheduler.py:232-236 | the prefix dropped is the shortest that brings the total under the ceiling |
| Quotas.CutIsMonotone | services/engine/domain/scheduler.py:222-250 | for a larger allowance the trimmed list is a prefix of the one for a smaller allowance |
| Quotas.CutIsFair | services/engine/domain/scheduler.py:224-236 | every costed occurrence that ranks before a trimmed one was trimmed too: those of an area to be cut earlier, later occurrences in the same area, and the same occurrence of a later task of the area |
| Quotas.KeptOccurrencesArePrefix | services/engine/domain/scheduler.py:211-214 | the occurrences a task keeps are the first ones |
| Scheduler.FindTargets | services/engine/domain/scheduler.py:261-271 | the loop that works each task's days out once computes `Targets` |
| Scheduler.TargetsDropNothing | services/engine/domain/scheduler.py:267-271 | no occurrence is dropped for want of a day, and each gets the day the spread gives it |
| Scheduler.FindCheckpointAreas | services/engine/domain/scheduler.py:390-397 | the dictionary holds each milestone's first task's area, career without a task |
| Scheduler.PlaceTargets | services/engine/domain/scheduler.py:155-192 | one week's placing loop, threading the occupied list, computes `PlaceAll` |
| Scheduler.MakeMarkers | services/engine/domain/scheduler.py:194-198 | the markers of a week are those of the milestones that target it |
| Scheduler.ComputeSchedule | services/engine/domain/scheduler.py:124-200 | the whole fold over weeks computes `Schedule` |
| ScheduleLaws.TimedTasksKeepApart | services/engine/domain/scheduler.py:138-174 | across all weeks any two timed tasks are at least the configured minutes apart, and every timed task is at least that far from every busy block, even when busy blocks overlap |
| ScheduleLaws.ScheduleIgnoresBusyOrder | services/engine/domain/scheduler.py:144-200 | permuting the busy list yields the identical result |
| ScheduleLaws.WorkIsConserved | services/engine/domain/scheduler.py:150-200 | every requested (key, week, occurrence) is placed once, or trimmed once, or its key is reported unplaced; nothing else is placed or trimmed; all-day tasks are always placed; markers are one per milestone in its week |
| ScheduleLaws.KeysAreUniqueExactly | services/engine/domain/scheduler.py:150-198 | of a schedule that leaves nothing unplaced, (key, week, occurrence) is unique if and only if no task named like a marker is active in its milestone's week with its first occurrence kept by the quota |
| ScheduleLaws.OccurrencesAreUnique | services/engine/domain/scheduler.py:176-198 | of any schedule, unplaced tasks included, (key, week, occurrence) is unique unless the occurrence is the first and a task active in that week is named like the marker of a milestone that targets it |
| ScheduleLaws.MarkerNameClash | services/engine/domain/scheduler.py:373-377 | where a task active in a milestone's week is named like its marker, timed or all-day, the key is carried by two tasks if the quota keeps the task's first occurrence and by one if not, unless the task is timed and reported unplaced |
| ScheduleLaws.WeeklyQuotaHolds | services/engine/domain/scheduler.py:150-192 | timed minutes per week of the final schedule never exceed the quota |
| ScheduleLaws.ScheduleIsOrdered | services/engine/domain/scheduler.py:416-418 | tasks come out by start, key and occurrence, numbered in that order |
| ScheduleLaws.MarkersFallOnSunday | services/engine/domain/scheduler.py:371 | the day computed is the only Sunday of the week |
| Provenance.EveryTaskStems | services/engine/domain/scheduler.py:176-198 | every scheduled task carries the fields of a template task active in that week, on the day the spread gives it when it is all-day, or is the marker of a milestone on the Sunday of its week, in the area of the milestone's first task |
| Landing.ScheduleIsGreedy | services/engine/domain/scheduler.py:138-200 | the schedule is the sorted and numbered outcome of placing tasks one by one, week after week and in template order, each timed one at its first fit given the busy blocks and the tasks placed before it |
| Landing.TimedTasksLandInWindows | services/engine/domain/scheduler.py:155-192 | every timed task is an occurrence of a template task that the quota keeps, at the first day shift from its spread day, slot of its hint and window that admits a fit among what was taken by then, at that fit, for its duration; it ends after the window exactly when the sweep overran |
| Landing.TimedTasksKeepToTheirWeek | services/engine/domain/scheduler.py:300-335 | a timed task lasts its template task's minutes, in its own week, on its spread day or at most the allowed days later, in a configured window of its slot on that weekday, never before the window opens and over by its closing if the window is long enough |
| Landing.AllDayTasksFillTheirDay | services/engine/domain/scheduler.py:157-158 | an all-day task runs from the configured hour of a day of its own week to midnight: a template task on a hinted day, a milestone's marker, named `checkpoint_` and its key, on the Sunday |
| Landing.UnplacedIsHonest | services/engine/domain/scheduler.py:169-172 | a key is reported unplaced only for a timed occurrence the quota keeps that is neither placed nor trimmed, and for which no window on offer has room beside the busy blocks and everything placed |
| Landing.UnplacedOnce | services/engine/domain/scheduler.py:169-171 | a key is reported unplaced at most once |
| PlanStore.InMemoryPlanTreeRepo.ReplaceTree | packages/repo/memory/planning.py:89-136 | dropping the plan, storing milestones shallow first with parents looked up by key, and tasks with their slots, computes `Replaced` |
| StoreLaws.TasksAreStored | packages/repo/memory/planning.py:117-136 | afterwards the plan's tasks are the scheduled ones in order, each with all its fields, pending, filed under the stored milestone of its key, with a slot at its times that knows no event |
| StoreLaws.MilestonesAreStored | packages/repo/memory/planning.py:102-116 | and its milestones are the template's, each with all its fields, dated by its week, and pointing at the stored row of its parent |
| PlanStore.MilestonesAreListed | packages/repo/memory/planning.py:138-140 | the milestones listed are the plan's, each as often as stored, sorted by depth and position |
| PlanStore.ScheduleIsListedInOrder | packages/repo/memory/planning.py:142-154 | the schedule listed is sorted by start and sort order |
| ExportInvariant.ScheduledRows | packages/repo/memory/planning.py:142-154 | the rows listed are exactly the plan's tasks, each once, with its own slot |
| ExportInvariant.DirtyRowsAre | packages/repo/memory/planning.py:156-158 | the dirty rows are exactly those of the plan never synced or completed since, each once |
| PlanStore.InMemoryPlanTreeRepo.SetTaskStatus | packages/repo/memory/planning.py:171-174 | exactly the named task changes |
| PlanStore.InMemoryPlanTreeRepo.BulkSetStatus | packages/repo/memory/planning.py:176-183 | the updates are applied in turn, those of other plans' tasks skipped |
| ExportRuns.BulkSkipsForeign | packages/repo/memory/planning.py:176-183 | a bulk write leaves the tasks of other plans as they are, whatever ids it names |
| PlanStore.InMemoryPlanTreeRepo.CountsByStatus | packages/repo/memory/planning.py:185-190 | the counting loop counts the plan's tasks by status |
| PlanStore.CountsCoverThePlan | packages/repo/memory/planning.py:185-190 | every task of the plan is counted exactly once |
| PlanStore.CountsGrow | packages/repo/memory/planning.py:185-190 | one more task of the plan raises exactly the count its status names |
| PlanStore.InMemoryPlanTreeRepo.MarkDirty | packages/repo/memory/planning.py:192-195 | only the sync time of that slot is cleared |
| PlanStore.InMemoryPlanTreeRepo.MarkSynced | packages/repo/memory/planning.py:197-204 | only the sync bookkeeping of that slot changes |
| StoreLaws.ReplaceKeepsSound | packages/repo/memory/planning.py:89-136 | ids stay distinct, every task has its own slot, fresh ids are unused |
| StoreLaws.ReplaceLeavesOthers | packages/repo/memory/planning.py:95-100 | every other plan's milestones, schedule and dirty rows are exactly as before |
| TreeRoundTrip.BuildTree | services/api/application/plans.py:240-251 | the one-pass rebuild links every row under its parent, in row order, and returns the roots |
| TreeRows.WalkTopLevel | services/engine/domain/plan_template.py:157-175 | the walk files exactly the top level under its own parent, in sibling order |
| TreeRoundTrip.ListedRowsAreTheNewRows | packages/repo/memory/planning.py:89-140 | what is listed right after a replacement is what was stored, shallow first |
| TreeRoundTrip.RebuildUndoesFlatten | services/api/application/plans.py:240-251 | for every template the validator accepts, rebuilding the stored rows gives back the same nested tree with the same sibling order, whatever else the store holds |
| StoreLaws.StoreAndRead | services/api/application/plans.py:240-251 | storing a template's tree and reading it back, in one method over the store: the objects read show the template's own nested tree |
| Exports.ExportService.Sync | services/api/application/exports.py:234-259 | one row: remove, create or update its event and record where it landed, or raise and change nothing |
| ExportInvariant.RowTells | services/api/application/exports.py:234-259 | when one row's sync raises, and what it leaves otherwise, in fields: the event removed, created under the next number or brought up to date, and the slot's reference and sync time |
| Exports.ExportService.SyncAll | services/api/application/exports.py:230-231 | the loop over the rows stops at the first call that raises |
| Exports.ExportService.PushExport | services/api/application/exports.py:202-270 | a whole push job, from delivery to the record, failing wherever a calendar call fails |
| Exports.ExportService.UpdateTask | services/api/application/plans.py:187-204 | the status change, the dirty mark and the queued push |
| ExportRuns.UpdateLands | services/api/application/plans.py:187-204 | a status change is granted exactly for a task of the caller's own plan; then that task has the status, and is completed now if and only if it is done, its slot is dirty, one push is queued if there is a calendar, and nothing else changes |
| Exports.ExportService.Checkin | services/api/application/checkins.py:79-112 | the bulk status write, the dirty marks and the queued push, or a refusal that changes nothing |
| ExportRuns.CheckinIsTaken | services/api/application/checkins.py:87-91 | a check-in is taken exactly from the plan's owner and for tasks of the plan only |
| Exports.ExportService.Request | services/api/application/exports.py:90-117 | refusals, the queued record and the queued job |
| ExportRuns.RequestLands | services/api/application/exports.py:90-121 | when a request is granted and which refusal it gets otherwise; the record is queued with calendar and last sync kept, and one job is queued, incremental exactly where there is a calendar |
| Exports.ExportService.Unexport | services/api/application/exports.py:162-173 | the calendar deleted, every reference forgotten, the record dropped |
| ExportRuns.UnexportLands | services/api/application/exports.py:162-173 | when an unexport goes through and which refusal it gets otherwise, and all that it changes |
| Exports.ExportService.SetStatus | services/api/application/plans.py:160-167 | only the allowed moves between plan states |
| ExportRuns.SetStatusLands | services/api/application/plans.py:40-46 | a plan is started from a draft and put away from a draft or while active, by its owner, and in no other way |
| ExportInvariant.FollowsAfterRow | services/api/application/exports.py:234-259 | syncing one row adds it to the tasks the calendar follows: its event is current, shared with no other task, and no event is orphaned |
| ExportInvariant.SyncRowsKeeps | services/api/application/exports.py:229-232 | a push over any rows gets through some first k of them; those are clean and followed, all else is untouched |
| ExportLaws.IncrementalKeeps | services/api/application/exports.py:223-232 | an incremental push keeps the invariant whichever call fails, and mirrors the plan when it succeeds |
| ExportLaws.FullKeeps | services/api/application/exports.py:217-232 | a full push keeps the invariant exactly when it does not fail between its first and its last event over a recorded calendar, and mirrors the plan when it succeeds |
| ExportRuns.StepKeeps | services/api/application/exports.py:64-270 | every use case, however it ends, keeps the invariant, the tangle being the one exception |
| ExportRuns.StepsAreUseCases | services/api/application/exports.py:64-270 | the steps of a run are the use cases themselves, at the time each bears, and a refusal changes nothing |
| ExportRuns.RunsFollowExactly | services/api/application/exports.py:64-270 | over every run on one clock the invariant holds at every moment if and only if no step leaves a tangle |
| ExportRuns.EverySuccessfulPushMirrors | services/api/application/exports.py:202-232 | from a store nothing was exported from, through any such run, every successful push leaves no dirty row and a calendar that mirrors the plan |
| ExportRuns.MirrorHoldsEachEventOnce | services/api/domain/calendar_mapping.py:77-98 | a mirrored calendar holds exactly one event per exportable task, equal to the mapping of its current state |
| ExportRuns.MirrorTells | services/api/domain/calendar_mapping.py:72-112 | in fields and literal texts: one event per task of the plan that is no rest day, with its title and tick, description, times, most specific colour and identity, and not one event more |
| ExportRuns.IncrementalAgreesWithFull | services/api/application/exports.py:210-232 | full or incremental, a successful push leaves the same events: those of the plan as it stood |
| ExportRuns.TangleWitness | services/api/application/exports.py:103-117 | a run of four steps from a store nothing was exported from: the invariant holds up to the last push, which leaves a tangle, and fails after it |
| ExportRuns.RequestedPushIsSafe | services/api/application/exports.py:103-117 | the push a request queues cannot tangle when it is delivered next |
| ExportRuns.PushIsRecorded | services/api/application/exports.py:232-270 | a success records calendar and time, a failure keeps what was recorded, other plans' records stand |
| ExportRuns.UnexportForgets | services/api/application/exports.py:162-173 | afterwards nothing of the plan points at an event, all of it is dirty, and the next request starts over with a full push |
| ExportRuns.CheckinLands | services/api/application/checkins.py:88-112 | each ticked task stands as its last tick says and is dirty, all else is as before, and at most one incremental push is queued |
| ExportRuns.StatusShows | services/api/domain/calendar_mapping.py:101-106 | done and missed show in the event; pending and skipped look alike |
| ExportRuns.StepDisturbsNothing | packages/repo/memory/planning.py:171-204 | no use case moves a task, a time or a milestone |
| ExportRecords.PushStaysApart | services/api/application/exports.py:210-232 | any push, over tangled rows too, leaves other plans' slots and other calendars alone, and creates at most the one calendar |
| ExportRecords.StepRecordsExactly | services/api/application/exports.py:162-270 | after any use case every calendar is recorded if and only if every one was before and the step is no full push that fails after creating its calendar or succeeds over a recorded one |
| ExportHealing.StepKeepsRest | services/api/application/exports.py:64-270 | every use case, however it ends, keeps the calendars of all plans that are not lost: a tangle loses its plan, an unexport or a full push that succeeds brings it back |
| ExportLoss.StepLosesExactly | services/api/application/exports.py:202-270 | and the lost ones stay broken until then: a task refers to no event of the recorded calendar, or an event of it is no task's, through every other use case |
| ExportLoss.PushMirrorsExactly | services/api/application/exports.py:210-232 | a push that succeeds mirrors its plan if and only if it is full or the plan is not lost |
| ExportHealing.TangleHeals | services/api/application/exports.py:162-232 | after a tangle, an unexport of the plan restores the invariant, and a full push that then succeeds mirrors the plan and orphans no calendar |
| Regeneration.RegenerationFollowsExactly | services/engine/application/generate_plan.py:102-161 | exchanging a plan's rows keeps the invariant if and only if no calendar recorded for it holds events |
| StaleEvents.RegenerationDoubles | services/api/application/exports.py:219-232 | after a regeneration, through any use cases that neither unexport the plan nor push it in full: the incremental push that next succeeds leaves every event of the old plan in the calendar, and beside them exactly one per exported task of the new plan |
| Diffs.KeyListIsTheUnion | services/engine/domain/diff.py:98-111 | one entry per key of either schedule, strictly by week, key, occurrence |
| Diffs.ByKeyTells | services/engine/domain/diff.py:98-106 | tasks are aligned on week, key and occurrence; of several with the same the last is seen, with its own title and times |
| Diffs.OneStrictListing | services/engine/domain/diff.py:100-102 | there is only one such listing, whatever order a set enumerates in |
| Diffs.DiffRecoversBoth | services/engine/domain/diff.py:96-125 | the `before` and `after` sides recover both schedules as maps |
| Diffs.DiffSwaps | services/engine/domain/diff.py:96-151 | swapping the arguments swaps added with removed, shortened with lengthened, before with after, and nothing else |
| Diffs.EntriesSpeak | services/engine/domain/diff.py:114-143 | what each kind says about the two sides, a move outranking a change of length, and the entry's title |
| Diffs.UnchangedExactly | services/engine/domain/diff.py:128-143 | all entries are unchanged if and only if both schedules hold the same occurrences at the same times |
| Diffs.RemovedLessAdded | services/engine/domain/reconciliation.py:144-145 | removed minus added is the drop in distinct occurrences |
| Reconciliation.BelowHalf | services/engine/domain/reconciliation.py:128 | the rounded completion is below one half if and only if done is below 0.49995 of planned, or nothing was planned |
| Reconciliation.RoundingIsHarmlessExactly | services/engine/domain/reconciliation.py:128-150 | for which numbers of planned tasks the rounded threshold agrees with one half, if and only if |
| Reconciliation.ExecutionTells | services/engine/domain/reconciliation.py:122-129 | all counted tasks were planned, and the completion is the share done to the nearest ten-thousandth, none where nothing was planned |
| Reconciliation.AvoidanceExactly | services/engine/domain/reconciliation.py:136-152 | avoidance if and only if distinct occurrences fell and completion was below the threshold |
| Reconciliation.AvoidanceMeansLessThanHalf | services/engine/domain/reconciliation.py:136-152 | below 10000 planned tasks: if and only if occurrences fell and less than half was done |
| Reconciliation.NoRevisionExactly | services/engine/domain/reconciliation.py:146-148 | no revision if and only if no occurrence came, went or moved |
| Validation.CompleteValidated | packages/llm/validation.py:39-74 | the retry loop computes `Completed`, for any model, rules, fallback and number of attempts |
| Validation.OutcomeMeans | packages/llm/validation.py:55-74 | the first clean answer is accepted; a call that raises ends it; otherwise every answer was rejected and the fallback decides; each call is told the complaints about the one before |
| Validation.CallsAreTold | packages/llm/validation.py:59-62 | the first call is told nothing; a call after a rejected answer is told its number, the complaints about that answer, and the answer |
| Validation.ViolationsConcat | packages/llm/validation.py:65 | the complaints are those of each rule in turn |
| Validation.AcceptedExactly | packages/llm/validation.py:58-67 | something is accepted if and only if some answer within reach is clean and no earlier call raised |
| PlanGeneration.PlanGenerator.Generate | services/engine/application/generate_plan.py:102-161 | one generation job: the stored tree, plan and structure, or a plan marked failed |
| PlanGeneration.GenerationLands | services/engine/application/generate_plan.py:102-196 | an accepted template leaves a draft with its title, its milestones and schedule stored, and a baseline that depicts the schedule task by task; any other job for a plan marks it failed and changes nothing else |
| PlanGeneration.RuleTells | services/engine/application/generate_plan.py:254-283 | the one business rule complains of exactly the keys that found no place, and never of a cut |
| PlanGeneration.ScheduleHangs | services/engine/domain/scheduler.py:176-198 | every scheduled task belongs to a milestone that is stored, so the store's lookup never fails |
| Baseline.ReplacedShowsSchedule | services/engine/application/generate_plan.py:174-196 | right after storing, the live schedule is the baseline, in the same order |
| Baseline.CurrentTells | services/engine/application/reconcile.py:101-115 | the comparison reads every task of the plan in order, with its key, week, occurrence and title, and its slot's times |
| Baseline.ActsAre | services/engine/application/generate_plan.py:102-161 | the acts of a run are the use cases and generation jobs themselves, and a use case leaves the structures alone |
| Baseline.PerformNeverDrifts | services/engine/application/reconcile.py:97-125 | every use case and every generation, accepted or failed, keeps each plan's live schedule equal to its baseline |
| Baseline.ReconcileNeverRevises | services/engine/application/reconcile.py:97-125 | over every run, generations included, the diff against the baseline is all unchanged and reconciliation names no revision |
| StudioRuns.StoredPlanIsComplete | services/engine/application/generate_plan.py:254-285 | over every run, each stored plan is one accepted generation's: nothing is unplaced, the store shows its schedule, and every requested occurrence is live once or was trimmed |
| StudioRuns.StudioRunsFollowExactly | services/engine/application/generate_plan.py:102-161 | over every run with generations in it the invariant holds at every moment if and only if nothing tangles and no accepted generation meets a recorded calendar with events |
| StudioRuns.EveryRunFollowsTheRest | services/api/application/exports.py:64-270 | over every run, generations included and whatever fails, a calendar follows its plan if and only if the plan is not lost |
| StudioRuns.SuccessfulPushesMirror | services/api/application/exports.py:202-232 | over every run, a push that succeeds leaves a calendar that mirrors the plan, and no dirty row, if and only if the push is full or the plan is not lost |
| StudioRuns.CalendarsAreRecordedExactly | services/api/application/exports.py:217-270 | over every run, every calendar is recorded at the end if and only if no push of the run orphaned one |
| Reports.NothingMissingExactly | services/engine/domain/report.py:71-82 | no complaint if and only if every required dimension has a report and none has two |
| Reports.ReportComplaintsTell | services/engine/domain/report.py:71-82 | which complaint is made, exactly when |
| Reports.RequiredConcat | services/engine/domain/dimensions.py:69-75 | a configured dimension is required, as often as configured and in that order, unless it waits for a source that was not uploaded |
| Reports.BareAnalysisIsCleanExactly | services/engine/application/run_direction.py:274-298 | the degraded reports meet the rule if and only if no required dimension repeats |
| Verdicts.VerdictViolations | services/engine/domain/verdict.py:115-159 | the list the loop grows is `Complaints`, item by item |
| Verdicts.ComplaintsTell | services/engine/domain/verdict.py:115-159 | which complaint is made of which code, exactly when |
| Verdicts.NoComplaintsExactly | services/engine/domain/verdict.py:115-159 | no complaint if and only if every expected code is scored once and no other, and every verdict has five items, both stances, and cites only available dimensions |
| DirectionSteps.MovesAreLegal | services/engine/domain/run.py:24-36 | every step of every run keeps its status or makes one of the six moves, and the transition table holds exactly these |
| DirectionLaws.TerminalIsFinal | services/engine/application/run_direction.py:231-235 | a run that is over keeps its row, reports and verdicts through any step, redelivery included |
| DirectionLaws.OverForGood | services/engine/application/run_direction.py:89-106 | the same through any number of further steps |
| DirectionLaws.OneRunInFlight | services/api/application/direction.py:118-128 | in every reachable state a user has at most one run that is not over, and it is the latest |
| DirectionSteps.StepKeepsInv | services/engine/application/run_direction.py:89-201 | starts, deliveries, each half of a job, failures and crashes, interleaved in any order, keep the invariant |
| DirectionLaws.ReadyRunsAreFounded | services/engine/application/run_direction.py:156-201 | in every reachable state a ready run's verdicts are in bijection with the codes it was scored against, filed under the right role models, five items each, both stances, every citation backed by a report of the same run, degraded analyses included |
| DirectionEnds.ReadyRunsAreJudged | services/engine/application/run_direction.py:156-201 | the same in rows and fields: one verdict row per code, filed under the last role model with that code, five items, some for and some against, each about a dimension with a report row of the run |
| DirectionSteps.ReportsRepeatExactly | services/engine/application/run_direction.py:274-298 | an analysis reports some dimension twice if and only if it finds its uploads, is degraded, and the dimensions those uploads require repeat |
| DirectionLaws.ReadyRunsReportOnceExactly | services/engine/domain/report.py:71-82 | in every reachable state a ready run's reports come from one analysis of the run, and no dimension has two of them if and only if that analysis does not repeat |
| DirectionLaws.RepeatedDimensionWitness | services/engine/application/run_direction.py:274-298 | a run that ends ready with two reports of one dimension |
| DirectionRuns.InMemoryDirectionRunRepo.FindLatest | packages/repo/memory/direction.py:59-61 | the first of the user's runs with the greatest creation time |
| DirectionSteps.LatestIsLast | packages/repo/memory/direction.py:59-61 | with increasing creation times, that is the user's last run |
| DirectionRuns.InMemoryReportRepo.ReplaceForRun | packages/repo/memory/direction.py:82-91 | the run's reports are exchanged, other runs' kept |
| DirectionSteps.ReplacedReports | packages/repo/memory/direction.py:82-95 | listing a run afterwards gives exactly its new reports, any other run exactly its old ones |
| DirectionRuns.RunDirection.StartDirectionRun | services/api/application/direction.py:118-128 | the guard and the new pending run |
| DirectionRuns.RunDirection.Run | services/engine/application/run_direction.py:89-106 | a job run alone ends as the five steps of the machine do |
| DirectionEnds.JobEnds | services/engine/application/run_direction.py:89-106 | a job run alone ends ready if and only if there were reports, role models and accepted verdicts, which are then what is stored whole; in every other case it ends failed |
| DirectionEnds.RedeliveryEnds | services/engine/application/run_direction.py:93-106 | a job delivered again for a run left half way ends it failed; for a run that is over it changes nothing |
| DirectionEnds.WorkersEnd | services/engine/application/run_direction.py:104-106 | an exception fails the run, a dead worker leaves it as it stands |
| DirectionEnds.StartsExactly | services/api/application/direction.py:118-128 | in every reachable state a start creates a pending run if and only if there is data and the user has no run pending, analyzing or recommending |
| DirectionRuns.JobIsFiveSteps | services/engine/application/run_direction.py:89-106 | a whole job is delivery, analysis, advance, recommendation and finish |
| Profiles.FillBuckets | services/engine/domain/profile.py:150-156 | the filing loop gives each dimension exactly the window's events classified under it, unclassified ones included |
| Profiles.FiledExactly | services/engine/domain/profile.py:150-156 | a bucket holds exactly the events within the days, first and last included, that are the last under their reference and whose reference was last classified under it, or never and it is the unclassified one |
| Profiles.EachRefOnce | services/engine/domain/profile.py:150 | every reference stands for one event, the last that carried it |
| Profiles.BucketsPartition | services/engine/domain/profile.py:152-159 | any measure of the buckets adds up to that of the window's events |
| Profiles.LongestStreak | services/engine/domain/profile.py:190-198 | the scan returns the length of the longest run of consecutive weeks |
| Profiles.StreakAgainstWeeks | services/engine/domain/profile.py:166-167 | the streak is at most the weeks present, and equal if and only if the weeks are contiguous |
| Profiles.WeeksAreSevenDays | services/engine/domain/profile.py:186-187 | an event's week is counted in seven days from the window's first |
| Profiles.WindowIsWholeWeeks | services/engine/domain/profile.py:200-203 | a window of n weeks has 7 n days, its last day included |
| Profiles.WeeksPresentAreBounded | services/engine/domain/profile.py:186-203 | a window of n weeks shows at most n different weeks |
| RateLimit.DictCache.Incr | packages/cache/dict_cache.py:39-47 | a live counter goes up and keeps its expiry; a missing or dead one starts over at 1 |
| RateLimit.IncrementTells | packages/cache/dict_cache.py:39-47 | the value and expiry left, in fields, and that no other counter changes |
| RateLimit.RateLimitMiddleware.Handle | services/api/adapters/http/middleware.py:57-71 | the counting rule on the cache |
| RateLimit.KeysAreDistinct | services/api/adapters/http/middleware.py:64 | two counters share a key only if they are one caller's in one window |
| RateLimit.EveryCounterIsRight | services/api/adapters/http/middleware.py:63-66 | over every sequence of requests each caller gets exactly min(requests, limit) through per aligned window; the counter outlives its window |
| RateLimit.GoesThroughExactly | services/api/adapters/http/middleware.py:60-71 | a request goes through if and only if it is exempt or fewer than the limit came before it in its window |
| RateLimit.AtMostTwiceTheLimit | services/api/adapters/http/middleware.py:63-66 | in any half-open interval one window long at most twice the limit goes through |
| RateLimit.TwiceTheLimitIsReached | services/api/adapters/http/middleware.py:63-66 | and that bound is reached: twice the limit passes in an interval one window long around the edge between two windows |

## Left out

- Role model catalogue, questions, hypotheses, uploads, importers, view models, prompts and narration: they would only add easy members.
- PostgreSQL, Redis, queue, HTTP and Google adapters: the in-memory repositories and a map of calendars stand for them.
- Interleaving inside one push or two workers on one job: the code takes no lock there; one queue job is one atomic step, and a run's own job runs alone (its steps do interleave with everything else).
- A calendar call that raises is taken to have had no effect: a created calendar or event whose answer is lost is not modelled.
- There is one export target, and no unknown one to refuse; error texts, activation stamps, check-in notes and the check-in history are dropped.
- Identifiers are numbers handed out in order instead of random ones, so uniqueness of identifiers is part of the model.
- Float arithmetic: the completion share and the spread are exact quotients, rounded half to even; hours, shares and dimension shifts are not modelled.
- The reason text of a trimmed occurrence and the wording of validation messages; a complaint is a constructor or a key.
- The time zone database, date overflow, and the parsing of stored instants back from text.
- `shape_rules` appears as the predicate its acceptance establishes (`WellFormed`), not as a function that lists its complaints.
- The cache's plain get, set and delete: only its counter matters to the limiter.
- Counters in the cache are kept as numbers instead of decimal strings; the limiter and the cache read one clock.
- `success_criteria`, `assumptions` and the quota copied into a plan's structure; the start date policy.
