# CPU scheduling simulator: scheduling engine, results and process editor

This project models the core of a browser-based simulator of CPU scheduling (`script.js`).
The user keeps a list of processes. Each process has an id, an arrival time, a CPU burst, a
priority and a colour. Four schedulers turn that list into a timeline of
`{process, start, end, color}` intervals:

- first-come-first-served;
- non-preemptive shortest-job-first;
- non-preemptive priority, where a smaller number means a higher priority;
- round robin with a time quantum.

From a finished timeline, `calculateResults` builds one results row per scheduled process:
completion, turnaround and waiting time. `showResults` then averages the rows and derives the
CPU utilisation. Around the engine sit the editor and the start button:

- the process editor adds, deletes and clears processes;
- an undo/redo history stores a copy of the list after every edit;
- the page starts with four sample processes;
- the start button checks its inputs, reads the quantum field and dispatches on the selected
  algorithm.

The modules follow the program's structure.

- `Types`: processes, intervals, the invariant of an editable list (`ValidProcesses`), and
  `processes.find`.
- `Timeline`: the properties every complete schedule has (`WellFormedSchedule`):
  - intervals are ordered and never overlap;
  - no interval starts before its process arrives;
  - every process gets exactly its burst.
- `Sorting`: `Array.prototype.sort` with the schedulers' comparators. It is a stable sort, as
  section 22.1.3.27 of ECMA-262 (10th edition) requires.
- `Fcfs`, `Picker` (SJF and Priority) and `RoundRobin`. Each scheduler is an imperative method
  proved equal to a specification function. Lemmas prove properties of those functions.
- `Results`: `calculateResults` and the integer sums behind the averages.
- `Editor`: the checks of `addProcess`, `deleteProcess`, `clearAllProcesses`, the history, and
  a `Session` class holding the page's `processes`, `history` and `historyIndex`.
- `Simulation`: `startSimulation`, and what the results table then shows.

Round robin is modelled as written, including two behaviours that surprise a reader:

- After a slice, the rescan finds the process just run: it is unflagged and has work left, so
  the rescan enqueues it again *before* the explicit re-enqueue appends it once more.
- One copy is then dequeued after the work is done, so a zero-length slice `[t, t)` is emitted.

Two lemmas show this. `RoundRobin.StepEnqueuesTwice` is the general statement.
`RoundRobin.LoneSchedule` works one process with burst 3 under quantum 2, giving the intervals
`[0,2)`, `[2,3)` and `[3,3)`.

Two further behaviours of the code are easy to misread:

- Under quantum 2 the sample list opens `P1 [0,2)`, `P1 [2,4)`, `P2 [4,6)`
  (`RoundRobin.SampleOpening`). Textbook round robin would run P2 second: `P1 [0,2)`,
  `P2 [2,4)`, `P3 [4,6)`, `P1 [6,8)`.
- A quantum longer than every burst does not make round robin first-come-first-served. The
  rescan enqueues the processes that arrived during a slice in list order, not arrival order.
  `Simulation.LargeQuantumNotFcfs` shows that the two can differ. It uses A (arrival 2, burst
  1), B (arrival 1, burst 1) and C (arrival 0, burst 3), listed in that order, under quantum 5.
  Round robin gives `C [0,3)`, `A [3,4)`, `B [4,5)`; FCFS gives `C [0,3)`, `B [3,4)`, `A [4,5)`.
- The extra copy of a process left in the queue is dequeued only after the processes ahead of
  it have run. `calculateResults` takes a process's completion as the latest end of its
  intervals, and this includes that empty slice. So under round robin, completion, turnaround
  and waiting can lie beyond the end of the process's real work.

## Model

| member | source | states |
|---|---|---|
| Types.Find | script.js:715 | the found process is the first in the list with the id; nothing is found exactly when no process has the id |
| Types.FindUnique | script.js:715 | with unique ids, looking up a listed process's id finds that very process |
| Sorting.StableSort | script.js:352 | the sorted copy is a permutation of the list and is in comparator order |
| Sorting.StableSortIsStable | script.js:352 | processes the comparator ranks equal keep their input order |
| Sorting.SortHeadIsFirstMin | script.js:391-392 | the head of the sorted copy is the first element that no other element precedes |
| Sorting.SortedRemoveAt | script.js:404 | removing an entry keeps a sorted list sorted |
| Timeline.WorkFitsBeforeCompletion | script.js:717-719 | in an ordered timeline whose intervals for a process start at `from` or later, that process's CPU time is at most its completion minus `from` |
| Timeline.MaxEnd | script.js:697 | the maximum end bounds every interval's end and is reached by one of them |
| Timeline.CompleteRunsWellFormed | script.js:356-368 | runs of every process once, for its whole burst, after its arrival and without overlap, form a well-formed schedule |
| Fcfs.ScheduleFCFS | script.js:351-371 | the loop threading the clock returns exactly the FCFS schedule of the list |
| Fcfs.FcfsRunsAt | script.js:356-367 | the i-th run is the i-th process of the sorted copy; it starts at the later of the previous end and its arrival, and lasts its burst |
| Fcfs.FcfsWellFormed | script.js:351-371 | FCFS runs each process of a valid list once, to completion, never before it arrives and without overlap; the timeline is well formed |
| Fcfs.FcfsTiesKeepInputOrder | script.js:352 | processes that arrive together run in their list order |
| Fcfs.FcfsSchedule | script.js:351-371 | one interval per process |
| Fcfs.FcfsReorder | script.js:351-371 | when no two processes arrive together, every reordering of the list gets the same schedule |
| Fcfs.SortedByArrivalUnique | script.js:352 | two orderings of the same processes, both sorted by arrival with no shared arrival, are the same list |
| Fcfs.TrioFcfs | script.js:351-371 | A (arrival 2), B (arrival 1), C (arrival 0) run C [0,3), B [3,4), A [4,5) |
| Fcfs.FcfsSample | script.js:351-371 | on the sample list: P1 [0,5), P2 [5,8), P3 [8,16), P4 [16,22) |
| Picker.SchedulePicking | script.js:383-405 | the shared `while (remaining.length > 0)` loop returns exactly the picking schedule for its criterion |
| Picker.ScheduleSJF | script.js:373-408 | `scheduleSJF` returns the picking schedule that minimises the burst |
| Picker.SchedulePriority | script.js:410-445 | `schedulePriority` returns the picking schedule that minimises the priority number |
| Picker.Best | script.js:384-392 | no choice exactly when nothing has arrived; otherwise the choice has arrived, no arrived process has a smaller value, and every arrived process before it has a larger one |
| Picker.ChoiceIsBest | script.js:391-404 | the source's `indexOf` of the head of the stably sorted arrived processes is the position `Best` describes |
| Picker.ChosenUnique | script.js:391-392 | only one position meets the selection rule |
| Picker.PickRunsFirst | script.js:383-404 | each run starts at the clock, or at the first remaining arrival when the CPU was idle; it runs a chosen process for its burst, and the loop continues without it from the run's end |
| Picker.PickIdle | script.js:386-389 | jumping an idle clock to the first remaining arrival changes no later run, and afterwards some process has arrived |
| Picker.PickScheduleRule | script.js:373-405 | over the whole run from the arrival-sorted list: each run starts at its clock, or when the CPU was idle at its own arrival, which no later run's arrival precedes; each process run had the smallest criterion value among the arrived, ties going to the earlier arrival; processes tying on both run in list order |
| Picker.PickRunsFollowRule | script.js:383-405 | from any list sorted by arrival, every run of the loop follows the selection rule |
| Picker.PickRunsTied | script.js:383-405 | the loop runs processes that tie on arrival and criterion in their order in the list it starts from |
| Picker.PickSchedule | script.js:373-445 | one interval per process |
| Picker.PickWellFormed | script.js:373-445 | SJF and Priority run each process of a valid list once, to completion, after arrival and without overlap; the timeline is well formed |
| Picker.SjfSample | script.js:373-408 | SJF on the sample list: P1 [0,5), P2 [5,8), P4 [8,14), P3 [14,22) |
| Picker.PrioritySample | script.js:410-445 | Priority on the sample list: P1 [0,5), P2 [5,8), P3 [8,16), P4 [16,22) |
| RoundRobin.HasWork | script.js:466 | true exactly when some remaining burst is positive |
| RoundRobin.EnqueueArrived | script.js:459-472 | the array scan leaves the flags and queue the scan function describes |
| RoundRobin.RunHead | script.js:479-494 | shift, slice of `min(quantum, remaining)` and its interval, as the dispatch function describes |
| RoundRobin.Pass | script.js:467-506 | one pass of the loop on the arrays is one `Step` of the state |
| RoundRobin.ScheduleRoundRobin | script.js:447-510 | the array-based loop returns exactly the round-robin schedule of the list |
| RoundRobin.EnqueueKeeps | script.js:467-472 | after a scan every flagged process is in the queue; every arrived process with work left is flagged |
| RoundRobin.StepKeeps | script.js:466-507 | each pass keeps the loop invariant and lowers the measure (work left, idle ticks to the next arrival, queue length): the loop ends |
| RoundRobin.StepExhausted | script.js:479-494 | dequeuing a copy with no work left emits a zero-length interval at the clock and changes nothing else but the queue |
| RoundRobin.LoopExit | script.js:466 | the loop stops with an empty queue and every remaining burst zero |
| RoundRobin.LoopExtends | script.js:486-491 | the loop only appends to the schedule |
| RoundRobin.StepEnqueuesTwice | script.js:496-506 | a slice that leaves work puts its process back twice: once by the rescan among the new arrivals, once at the tail |
| RoundRobin.RrSchedule | script.js:447-510 | with unique ids, the schedule is well formed (ordered slices starting after arrival, each process getting exactly its burst) and no slice is longer than the quantum |
| RoundRobin.Step | script.js:467-506 | a pass appends at most one interval and keeps the schedule so far |
| RoundRobin.TrioSchedule | script.js:447-510 | A (arrival 2), B (arrival 1), C (arrival 0), listed in that order, under quantum 5: C [0,3), A [3,4), B [4,5) |
| RoundRobin.LoneSchedule | script.js:447-510 | one process with burst 3 under quantum 2 gets [0,2), [2,3) and the empty slice [3,3) |
| RoundRobin.SampleOpening | script.js:447-510 | on the sample list with quantum 2 the schedule opens P1 [0,2), P1 [2,4), P2 [4,6) |
| Results.Distinct | script.js:712 | each id once, in the order of its first occurrence: the same members as the input, no duplicates, and an earlier entry is first found earlier in the input |
| Results.RowOf | script.js:715-728 | the row fails exactly when no process has the id, and names the id otherwise |
| Results.RowMeaning | script.js:715-728 | the row carries the process's arrival and burst; its completion is the latest end of that process's intervals; turnaround and waiting follow |
| Results.CompletionIsLastEnd | script.js:716-717 | the maximum end is reached by one of the process's intervals and bounds all of them |
| Results.RowsOfFails | script.js:714-715 | building the rows succeeds exactly when every id names a process |
| Results.RowsOfRows | script.js:714-729 | the rows are the rows of the ids, one each, in order |
| Results.SortById | script.js:731 | the sorted rows are a permutation of the rows, in id order |
| Results.CalculateResults | script.js:710-732 | a successful result is sorted by id and has one row per distinct scheduled id |
| Results.TotalWaiting | script.js:695 | with no negative waiting time the sum is not negative |
| Results.TotalTurnaround | script.js:696 | with no negative turnaround the sum is not negative |
| Results.TotalBurst | script.js:698 | with every burst at least 1 the sum is at least the number of rows |
| Results.CalculateResultsFails | script.js:710-732 | `calculateResults` succeeds exactly when every scheduled id names a listed process |
| Results.CalculateResultsRows | script.js:710-732 | the result is sorted by id; it has one row per distinct scheduled id and no id twice; every scheduled id has a row, and each row is that id's row |
| Results.RowOfScheduled | script.js:715-719 | in a well-formed schedule a process's row exists and its waiting time is never negative |
| Results.WellFormedResults | script.js:710-732 | for a well-formed schedule of a valid list the table exists; every row shows its process's arrival and burst with non-negative waiting; every process has a row |
| Results.ResultTotals | script.js:695-698 | summed turnaround equals summed waiting plus summed burst, so the averages differ by the average burst |
| Results.UtilisationBounded | script.js:695-699 | the table of a non-empty well-formed schedule is non-empty, and the summed bursts lie between 0 and `maxTime`: utilisation is between 0% and 100% |
| Editor.CheckNewProcess | script.js:139-176 | a process is accepted exactly when the id is non-empty and unused and the three numbers are in range, and then it takes palette entry `length % 12`; otherwise the error is the first failing check in source order: a missing id, a duplicate id (naming it), then a bad arrival, burst or priority, each reported exactly when every earlier check passes |
| Editor.AddKeepsValid | script.js:170-178 | appending an accepted process keeps the list valid |
| Editor.DeleteAt | script.js:190-191 | an index in range removes exactly that entry; an index past the end removes nothing |
| Editor.DeleteKeepsValid | script.js:190-191 | deleting keeps the list valid and the other processes in order |
| Editor.PushColoured | script.js:61-66 | pushing keeps the list's prefix and adds one entry per sample: the sample itself, coloured by its position modulo 12 |
| Editor.SamplesLoaded | script.js:54-67 | loading the samples into the empty list gives palette entries 0 to 3 |
| Editor.SamplesValid | script.js:55-58 | the sample list is valid |
| Editor.Saved | script.js:75-81 | saving keeps the list, drops the copies after the current one, pushes a copy of the list and points at it |
| Editor.Undone | script.js:83-91 | undo keeps the history; it does nothing when disabled, otherwise it steps back one copy and restores it |
| Editor.Redone | script.js:93-101 | redo keeps the history; it does nothing when disabled, otherwise it steps forward one copy and restores it |
| Editor.SavedConsistent | script.js:75-105 | saving an edit keeps the state consistent; redo is then disabled, and undo is disabled exactly when there was no earlier copy |
| Editor.UndoRevertsEdit | script.js:75-101 | undo right after saving an edit restores the previous list, and redo brings the edit back |
| Editor.UndoConsistent | script.js:83-91 | undo keeps the state consistent |
| Editor.RedoConsistent | script.js:93-101 | redo keeps the state consistent |
| Editor.UndoThenRedo | script.js:83-101 | when undo is enabled, undo then redo restores the state |
| Editor.RedoThenUndo | script.js:83-101 | when redo is enabled, redo then undo restores the state |
| Editor.ButtonsDisabled | script.js:103-105 | undo is disabled exactly when undo would change nothing, and likewise redo |
| Editor.Session.constructor | script.js:54-71 | the page starts with the four samples in palette entries 0 to 3 and one saved copy |
| Editor.Session.SaveState | script.js:75-81 | `saveState` performs the saving step |
| Editor.Session.Undo | script.js:83-91 | `undo` performs the undo step and keeps the state consistent |
| Editor.Session.Redo | script.js:93-101 | `redo` performs the redo step and keeps the state consistent |
| Editor.Session.AddProcess | script.js:139-188 | returns the outcome of the checks; on success push and save, on refusal no change |
| Editor.Session.DeleteProcess | script.js:190-192 | splice then save, keeping the state consistent |
| Editor.Session.ClearAllProcesses | script.js:197-206 | nothing on an empty list or without confirmation; otherwise empty the list and save |
| Simulation.QuantumOf | script.js:275 | the quantum is never 0; a present non-zero field is kept as it is; it is 2 exactly for a missing or zero field (or 2 itself), and negative exactly for a negative field |
| Simulation.StartSimulation | script.js:256-293 | the start returns the schedule of the selected algorithm, or the reason there is none |
| Simulation.Simulate | script.js:256-293 | the start fails exactly on an empty list, while a run is in progress, or for round robin with a negative quantum |
| Simulation.SimulateFails | script.js:257-290 | a start fails exactly on an empty list, while a run is in progress, or for round robin with a negative quantum |
| Simulation.SimulateWellFormed | script.js:278-293 | every algorithm yields a well-formed schedule of a valid list |
| Simulation.WellFormedNonEmpty | script.js:257-260 | a schedule that gives every process of a non-empty list its burst is not empty |
| Simulation.LargeQuantumNotFcfs | script.js:447-510 | with a quantum longer than every burst, round robin and FCFS still give different schedules for A, B, C listed against their arrival order |
| Simulation.SimulationResults | script.js:256-297 | after a successful start the table exists and is non-empty; every process has a row with its own arrival and burst; no waiting time is negative, so neither is their sum behind the average; utilisation is between 0% and 100% |

## Left out

- The DOM: rendering, error messages, the Gantt chart, the animation and its timers, pause,
  resume and reset, the sortable table, the theme and the sidebar. None of these affect the
  computed values.
- Reading the form is a parameter: `trim` gives the id, and `Number.parseInt` gives an
  `Option<int>` where `None` stands for `NaN`. The `confirm` dialog is a `confirmed` flag.
- The divisions in `showResults` are not modelled: the two averages, `cpuUtil` and
  `throughput`, and their `toFixed(2)` formatting. They are floating point. The model proves
  the integer sums and bounds those divisions depend on.
- Colours are palette indices (`processes.length % 12`) rather than the palette's strings.
- `localeCompare` is modelled as code-unit lexicographic order; locale collation lies outside
  the model.
- `Array.prototype.sort` is modelled by a stable insertion sort; only its result is modelled,
  not the engine's algorithm.
- `remaining.indexOf(proc)` looks objects up by identity; the model looks them up by value.
  These agree whenever ids are unique, which the editor guarantees. The model's `Best` is
  proved equal to the source's choice (`Picker.ChoiceIsBest`).
- `RoundRobin.ScheduleRoundRobin` requires a positive quantum and non-negative bursts. With a
  negative quantum the source's loop never ends, so `Simulation.Simulate` returns
  `NeverFinishes` instead of a schedule.
- `simulationRunning` is a parameter of the start: setting it and clearing it belong to the
  animation, which is not modelled.
- The schedulers take the process list as a parameter rather than reading the global list.
  `Simulation.Simulate` requires `ValidProcesses`, the invariant every list the editor builds
  satisfies (`Editor.Session.Valid`).
- Editor.DeleteAt: the index is a `nat`, because the page only passes indices of rendered
  rows; a negative `splice` index, which counts from the end, is not modelled.
- Numbers are JavaScript doubles, exact only up to 2^53. The model uses unbounded integers,
  so it does not capture rounding of very large times, bursts or sums.
- `JSON.parse(JSON.stringify(...))` deep copies are not modelled separately: lists are values
  here, so a copy and the original can never alias.
