# Round-robin CPU scheduling, modelled and verified in Dafny

The repository simulates preemptive round-robin CPU scheduling. It takes processes with an
arrival time and a burst time, plus a time quantum. It runs the process at the head of a
ready queue for at most one quantum, requeues it while it has time left, and reports a
timeline of execution intervals plus per-process waiting and turnaround times. The
repository has three separate implementations of this loop, and they differ in small
ways. Each one is modelled as written, in its own module:

| module | source | clock starts at | entry recorded | idle step | metrics |
|---|---|---|---|---|---|
| `RoundRobin` | sheduler/round_robin.py, `round_robin_scheduling` | 1 | `(pid, clock - exec, clock)`, then the clock advances | jump to the next arrival | waiting charged to every queued process per slice; `turnaround = clock - arrival`; both averages |
| `JobRoundRobin` | sheduler/round_robin_simulator.py, `round_robin` | earliest arrival | `[clock, clock + exec]` | move the first unfinished job into the queue and jump to its arrival | completion records `(job, at, bt, ft, tat, wat)` sorted by `(at, job)`, and the Gantt chart |
| `RoundRobinSimulator` | round_robin_simulator.py, `simulate_round_robin` | 0 | `(pid, clock, clock + exec)` | clock + 1 | `turnaround = clock - arrival`, `waiting = turnaround - burst + exec` |

Shared vocabulary lives in `Scheduling` (`scheduling.dfy`):

- `Proc(id, arrival, burst)` and `Interval(id, start, stop)`;
- the service a process received (`Served`) and its last slice (`LastOf`);
- sums over the per-id dictionaries (`Total`) and their mean;
- the number of pending processes an admission pass moves (`Arrived`).

`StableSort` (`stable_sort.dfy`) models Python's `sort(key=...)`: a stable insertion sort
proved sorted, a permutation, and stable per key.

Each loop is imperative Dafny. The queue, the pending list and the timeline are `seq`s
and the dictionaries are `map`s. Methods reassign them, as the source mutates its deques,
lists and dicts. Each loop is a `while` loop whose invariant is a named predicate (`Inv`).
One iteration is a method (`Step` or `Iteration`), proved to keep `Inv` with lemmas about
admission and slices. A final lemma (`Concluded` or the `...Concluded` lemmas) turns the
invariant at loop exit into the promised results.

Variants 1 and 3 number the processes by their position in the arrival-sorted list. A
ghost list `qk` gives, for each queue slot, the position of the process it holds. This is
how the proofs show that the queue has no duplicates and never overlaps the pending list.

## Model

| member | source | states |
|---|---|---|
| Scheduling.Min | round_robin_simulator.py:42 | `min(quantum, remaining)` is at most both arguments and equal to one of them |
| Scheduling.ServedAppend | sheduler/round_robin.py:33 | appending an entry adds its length to its own process's service and leaves every other process's service unchanged |
| Scheduling.LastOfAppend | round_robin_simulator.py:46 | after appending an entry, it is the last entry of its process; other processes keep their last entry |
| Scheduling.ChronologicalAppend | round_robin_simulator.py:46-47 | an entry that starts no earlier than the previous stop keeps the timeline chronological |
| Scheduling.ChronologicalOrdered | round_robin_simulator.py:46-47 | in a chronological timeline every entry stops before any later entry starts, not only the next one |
| Scheduling.Arrived | sheduler/round_robin.py:23 | the admission count: every process before it has arrived by the clock, and the first process after it has not |
| Scheduling.ArrivedIdempotent | sheduler/round_robin.py:23-25 | a second admission pass at the same clock admits nothing |
| Scheduling.Positions | sheduler/round_robin.py:15-18 | distinct ids give a position map from id to list position |
| Scheduling.IndexedDistinct | sheduler/round_robin.py:15-18 | a list with a position map has distinct ids |
| Scheduling.TotalUpdate | sheduler/round_robin.py:32 | changing one dictionary entry changes the sum of values by the difference |
| Scheduling.TotalZero | sheduler/round_robin_simulator.py:19 | with non-negative entries the sum is non-negative, and it is zero exactly when every entry is zero |
| Scheduling.TotalPermutation | sheduler/round_robin.py:54-55 | the sum of the dictionary values does not depend on the order of the processes |
| Scheduling.Mean | sheduler/round_robin.py:54-55 | the average is 0 when there are no processes; otherwise average times count equals the sum |
| Scheduling.MeanReordered | sheduler/round_robin.py:54-55 | the average is the same over any ordering of the processes |
| Scheduling.InitialKeys | sheduler/round_robin.py:15-18 | dictionaries built with one entry per sorted process have exactly the input ids as keys |
| Scheduling.SortedSetup | sheduler/round_robin.py:9 | sorting keeps the ids distinct and the bursts positive |
| StableSort.Insert | sheduler/round_robin.py:9 | insertion adds exactly one element |
| StableSort.SortByKey | sheduler/round_robin.py:9 | the sorted list is in non-decreasing key order and is a permutation of the input |
| StableSort.InsertSorted | sheduler/round_robin.py:9 | inserting into a sorted list keeps it sorted |
| StableSort.SortStable | sheduler/round_robin.py:9 | for every key, the elements with that key keep their input order |
| StableSort.SortDistinct | sheduler/round_robin.py:9 | sorting keeps distinct ids distinct |
| RoundRobin.StopsRisingOrdered | sheduler/round_robin.py:33-34 | in the timeline each entry stops strictly later than every earlier entry |
| RoundRobin.AdmitArrived | sheduler/round_robin.py:23-25 | the pass pops exactly the arrived prefix of the pending list and appends its ids to the queue in order |
| RoundRobin.Charged | sheduler/round_robin.py:37-38 | charging the queued ids in turn keeps the dictionary's keys |
| RoundRobin.ChargedValue | sheduler/round_robin.py:37-38 | charging adds `exec` to each entry once per occurrence of its id in the queue, and nothing to other entries |
| RoundRobin.ChargeWaiting | sheduler/round_robin.py:37-38 | the loop's result is the charged dictionary: every id gains `exec` once per occurrence in the queue; the keys are kept |
| RoundRobin.ChargedOnce | sheduler/round_robin.py:37-38 | with a duplicate-free queue, each queued id is charged exactly `exec` and every other id nothing |
| RoundRobin.ChargedByPosition | sheduler/round_robin.py:37-38 | the charge restated per process: charged exactly when its position is queued |
| RoundRobin.SliceCharge | sheduler/round_robin.py:37-38 | with the queue invariant, the slice charges exactly the other queued processes `exec` each, by id and by position |
| RoundRobin.QueueDistinct | sheduler/round_robin.py:24-25 | the queue never holds an id twice |
| RoundRobin.QueueApart | sheduler/round_robin.py:24-25 | no queued id is still in the pending list |
| RoundRobin.AdmitQueue | sheduler/round_robin.py:23-25 | admission keeps the queue invariant: only admitted processes with time left, each once, all of them queued |
| RoundRobin.AdmitService | sheduler/round_robin.py:23-25 | admitted processes have arrived, are unserved and have their whole burst left; service, waiting and turnaround facts carry over |
| RoundRobin.AdmitFrame | sheduler/round_robin.py:23-25 | admission changes no dictionary |
| RoundRobin.AdmitStep | sheduler/round_robin.py:23-25 | an admission pass keeps the loop invariant and leaves the rest of the sorted list pending |
| RoundRobin.IdleStep | sheduler/round_robin.py:48-51 | with an empty queue, moving the clock forward keeps the invariant |
| RoundRobin.SliceService | sheduler/round_robin.py:31-34 | a slice adds `exec` to the head's service and takes it off its remaining time; other processes keep their service and last entry |
| RoundRobin.SliceTimeline | sheduler/round_robin.py:33-34 | the entry `(pid, clock - exec, clock)` of length 1 to quantum keeps the timeline invariant: known ids, rising stops, none ending before arrival |
| RoundRobin.SliceWaiting | sheduler/round_robin.py:37-38 | charging the queued processes keeps waiting plus service within the time since arrival |
| RoundRobin.SliceTurnaround | sheduler/round_robin.py:45-46 | a process that finishes gets `turnaround = clock - arrival`, at least waiting plus burst; unfinished processes keep turnaround 0 |
| RoundRobin.SliceQueue | sheduler/round_robin.py:41-42 | if the head goes to the tail exactly when it has time left and leaves the queue otherwise, the queue invariant is kept |
| RoundRobin.SliceFrame | sheduler/round_robin.py:31-46 | a slice keeps every dictionary's keys |
| RoundRobin.SliceStep | sheduler/round_robin.py:28-46 | one slice keeps the loop invariant and strictly lowers the total remaining time |
| RoundRobin.Dispatch | sheduler/round_robin.py:27-51 | the new state is as `Dispatched` states. With a head `pid`, `exec = min(quantum, remaining)`, the entry is `(pid, clock - exec, clock)`, the clock and remaining time move by `exec`, every other queued id gains `exec` per occurrence, `pid` goes to the tail exactly when time is left, and turnaround is set exactly when it reaches 0. With an empty queue the clock jumps to the first pending arrival, or stays, and nothing else changes |
| RoundRobin.DispatchCharge | sheduler/round_robin.py:27-38 | under the queue invariant, a dispatched slice charges every other queued process the slice length once, and no other process |
| RoundRobin.SliceKeeps | sheduler/round_robin.py:27-46 | a slice as `Dispatched` states keeps the loop invariant and strictly lowers the total remaining time |
| RoundRobin.RunHead | sheduler/round_robin.py:27-51 | the new state is as `Dispatched` states (see `Dispatch`). The invariant is kept, and the keys of the remaining-time dictionary too. A slice strictly lowers total remaining time and charges exactly the other queued processes the slice length, once each. With an empty queue and processes pending, the clock moves strictly forward |
| RoundRobin.Step | sheduler/round_robin.py:21-51 | the arrived prefix of the pending list is popped and its ids appended to the queue (`admitted`); then the head of `admitted` is dispatched as `Dispatched` states. The invariant is kept. Remaining time falls, or the clock jumps strictly forward to the first pending arrival |
| RoundRobin.Initially | sheduler/round_robin.py:12-18 | the initial state (clock 1, empty queue and timeline, fresh dictionaries) satisfies the loop invariant |
| RoundRobin.Dictionaries | sheduler/round_robin.py:15-18 | the four dictionaries hold one entry per process: zero waiting and turnaround, arrival and the whole burst |
| RoundRobin.Schedule | sheduler/round_robin.py:21-51 | the loop ends with every process admitted and an empty queue, invariant intact |
| RoundRobin.AllFinished | sheduler/round_robin.py:21 | at loop exit every process was served its whole burst and has its turnaround and waiting facts |
| RoundRobin.Reordered | sheduler/round_robin.py:9 | the completion facts hold for the caller's order of the processes as well |
| RoundRobin.Concluded | sheduler/round_robin.py:21-51 | at loop exit: dictionary keys are the input ids; every process completed; entries are of known processes, 1 to quantum long, strictly rising in stop |
| RoundRobin.Averages | sheduler/round_robin.py:54-55 | both averages are 0 with no processes, otherwise average times count equals the sum of the dictionary |
| RoundRobin.RoundRobinScheduling | sheduler/round_robin.py:7-58 | every process served its burst; `turnaround = finish - arrival`; `0 <= waiting` and `waiting + burst <= turnaround`; entry and average facts as above |
| RoundRobinSimulator.AdmitArrived | round_robin_simulator.py:34-35 | the pass pops exactly the arrived prefix of the pending list and appends it to the queue in order |
| RoundRobinSimulator.QueueDistinct | round_robin_simulator.py:34-35 | the queue never holds a process twice |
| RoundRobinSimulator.QueueApart | round_robin_simulator.py:34-35 | no queued process is still in the pending list |
| RoundRobinSimulator.AdmitQueue | round_robin_simulator.py:34-35 | admission keeps the queue invariant: only admitted processes with time left, each once, all of them queued |
| RoundRobinSimulator.AdmitService | round_robin_simulator.py:34-35 | admitted processes have arrived and have their whole burst left |
| RoundRobinSimulator.AdmitFrame | round_robin_simulator.py:34-35 | admission changes no dictionary |
| RoundRobinSimulator.AdmitFinished | round_robin_simulator.py:34-35 | newly admitted processes have time left, so completion metrics are unaffected |
| RoundRobinSimulator.AdmitStep | round_robin_simulator.py:34-35 | an admission pass keeps the loop invariant |
| RoundRobinSimulator.IdleStep | round_robin_simulator.py:57-59 | with an empty queue, one idle unit keeps the invariant |
| RoundRobinSimulator.SliceService | round_robin_simulator.py:42-47 | a slice adds `exec` to the head's service and takes it off its remaining time; a process that finishes has a clock of at least arrival plus burst |
| RoundRobinSimulator.SliceTimeline | round_robin_simulator.py:46-47 | the entry `(pid, clock, clock + exec)` starts after its arrival and after every earlier entry |
| RoundRobinSimulator.SliceFinished | round_robin_simulator.py:53-55 | a process that finishes gets `turnaround = clock - arrival >= burst` and `waiting = turnaround - burst + exec` |
| RoundRobinSimulator.SliceQueue | round_robin_simulator.py:50-51 | if the head goes to the tail exactly when it has time left and leaves the queue otherwise, the queue invariant is kept |
| RoundRobinSimulator.SliceStep | round_robin_simulator.py:37-55 | one slice keeps the invariant and strictly lowers the total remaining time |
| RoundRobinSimulator.SliceKeeps | round_robin_simulator.py:37-55 | a slice as `Dispatched` states keeps the loop invariant and strictly lowers the total remaining time |
| RoundRobinSimulator.RunHead | round_robin_simulator.py:37-59 | the new state is as `Dispatched` states. With a head `p`, `exec = min(quantum, remaining)`, the entry is `(p, clock, clock + exec)`, the clock and remaining time move by `exec`, and `p` goes to the tail exactly when time is left. When `p` finishes, `turnaround = clock - arrival` and `waiting = turnaround - burst + exec`; otherwise neither dictionary changes. With an empty queue the clock advances by exactly 1 and nothing else changes. The invariant is kept, and a slice lowers total remaining time |
| RoundRobinSimulator.Step | round_robin_simulator.py:32-59 | the arrived prefix of the pending list is popped and appended to the queue (`admitted`); then the head of `admitted` runs as `Dispatched` states. The invariant is kept. Remaining time falls, or the clock moves one unit towards the next arrival |
| RoundRobinSimulator.Initially | round_robin_simulator.py:25-29 | the initial state (clock 0, empty queue and timeline, fresh dictionaries) satisfies the invariant |
| RoundRobinSimulator.Dictionaries | round_robin_simulator.py:27-29 | the three dictionaries hold one entry per process: zero waiting and turnaround, the whole burst remaining |
| RoundRobinSimulator.Schedule | round_robin_simulator.py:32-59 | the loop ends with every process admitted and an empty queue, invariant intact |
| RoundRobinSimulator.AllFinished | round_robin_simulator.py:32 | at loop exit every process was served its whole burst, has its metrics, and no entry starts before its arrival |
| RoundRobinSimulator.Reordered | round_robin_simulator.py:21 | the completion facts hold for the caller's order of the processes as well |
| RoundRobinSimulator.Concluded | round_robin_simulator.py:32-59 | at loop exit: keys are the input ids; every process completed; entries 1 to quantum long, of known processes, non-overlapping and in time order |
| RoundRobinSimulator.SimulateRoundRobin | round_robin_simulator.py:20-59 | every process served its burst; `turnaround = last stop - arrival >= burst`; `waiting = turnaround - burst + exec`; entries in time order, none before arrival |
| JobRoundRobin.Label | sheduler/round_robin_simulator.py:8 | the label of job `i` is the character with code `65 + i` |
| JobRoundRobin.LabelIndex | sheduler/round_robin_simulator.py:8 | a label gives back its input position |
| JobRoundRobin.Labelled | sheduler/round_robin_simulator.py:7-9 | job `i` is labelled `chr(65 + i)` with the `i`-th arrival and burst; `zip` stops at the shorter list |
| JobRoundRobin.JobsInfoSpec | sheduler/round_robin_simulator.py:7-10 | the sorted jobs are a permutation of the labelled jobs, in arrival order, with distinct labels; jobs that arrive together keep input order |
| JobRoundRobin.JobsFromInput | sheduler/round_robin_simulator.py:7-10 | every sorted job is the input job its label names, and every input job is among them |
| JobRoundRobin.Remaining | sheduler/round_robin_simulator.py:17 | the dictionary maps every job to its burst |
| JobRoundRobin.NewArrivals | sheduler/round_robin_simulator.py:36-41 | a job is a new arrival exactly when it has arrived by the clock, is not queued and is unfinished; the result is in arrival order |
| JobRoundRobin.NewArrivalsInOrder | sheduler/round_robin_simulator.py:36-41 | the new arrivals are a subsequence of the job list: entry `i` is `info[idx[i]]` with `idx` strictly increasing. With distinct labels in the job list, no new arrival appears twice |
| JobRoundRobin.Reindexed | sheduler/round_robin_simulator.py:36-41 | positions in the tail of the job list become positions in the whole list, with the head at position 0 in front when it is taken, still strictly increasing |
| JobRoundRobin.PositionsDistinct | sheduler/round_robin_simulator.py:36-41 | picking entries at strictly increasing positions of a list with distinct labels gives distinct labels |
| JobRoundRobin.IndexOf | sheduler/round_robin_simulator.py:50 | the position of the first occurrence |
| JobRoundRobin.RemoveFirst | sheduler/round_robin_simulator.py:50 | `list.remove` deletes the first occurrence only |
| JobRoundRobin.RecordKeyOrder | sheduler/round_robin_simulator.py:62 | the integer sort key orders records exactly as the tuple `(at, job)` does |
| JobRoundRobin.ZeroLeftAppend | sheduler/round_robin_simulator.py:19 | the count of finished entries in a list splits over concatenation |
| JobRoundRobin.ZeroLeftSame | sheduler/round_robin_simulator.py:19 | the count depends only on which jobs have no time left |
| JobRoundRobin.DispatchStep | sheduler/round_robin_simulator.py:20-22 | with an empty ready queue the first unfinished job is dispatched and the clock moves forward to its arrival |
| JobRoundRobin.SliceService | sheduler/round_robin_simulator.py:26-33 | a slice adds `exec` to the head's service and takes it off its remaining time |
| JobRoundRobin.SliceUnfinished | sheduler/round_robin_simulator.py:47-50 | a finished job is removed from the unfinished list once; every other unfinished job stays |
| JobRoundRobin.UnfinishedRemove | sheduler/round_robin_simulator.py:50 | removing one entry keeps the unfinished-list invariant and every other job |
| JobRoundRobin.SliceReady | sheduler/round_robin_simulator.py:36-44 | the queue after the slice holds only known jobs that have arrived by the new clock |
| JobRoundRobin.SliceChart | sheduler/round_robin_simulator.py:28-33 | the entry `[clock, clock + exec]` keeps the chart in time order with entries at most a quantum long |
| JobRoundRobin.SliceRecords | sheduler/round_robin_simulator.py:47-56 | a record has `ft = clock`, `tat = ft - at`, `wat = tat - bt >= 0` and belongs to a job served its whole burst |
| JobRoundRobin.SliceAdmitted | sheduler/round_robin_simulator.py:36-44 | when the new queue is empty, the first unfinished job arrives no earlier than the clock, so the jump of line 22 never moves the clock back |
| JobRoundRobin.SliceMeasure | sheduler/round_robin_simulator.py:26-27 | each slice makes progress: the total remaining time falls, or it stays the same and the number of queued jobs with no time left falls (a zero-length slice of a stale copy) |
| JobRoundRobin.SliceStep | sheduler/round_robin_simulator.py:24-59 | one slice keeps the loop invariant; the total remaining time falls, or it stays the same and the number of queued jobs with no time left falls (a zero-length slice of a stale copy) |
| JobRoundRobin.Slice | sheduler/round_robin_simulator.py:24-59 | the new state is as `Sliced` states. The head `ready[0]` runs `min(quantum, remaining)` from the clock, with the entry `[clock, clock + exec]`. With time left, the queue becomes the rest, then the new arrivals, then the head, and nothing else changes. Otherwise the queue is the rest plus the new arrivals, the first copy of the head leaves the unfinished list, and the record `(job, at, bt, clock, clock - at, clock - at - bt)` is appended |
| JobRoundRobin.Step | sheduler/round_robin_simulator.py:24-59 | the slice is as `Sliced` states; the invariant is kept; the total remaining time falls, or it stays the same and the number of queued jobs with no time left falls (a zero-length slice of a stale copy); the unfinished list never grows |
| JobRoundRobin.Iteration | sheduler/round_robin_simulator.py:19-59 | with an empty ready queue, `unfinished[0]` is dispatched at its arrival and runs as `Sliced` states on `[unfinished[0]]` and `unfinished[1..]`; otherwise `ready[0]` runs from the clock as `Sliced` states. The invariant is kept and one entry is appended; the total remaining time falls, or it stays the same and the number of queued jobs with no time left falls (a zero-length slice of a stale copy); a dispatch shrinks the unfinished list |
| JobRoundRobin.Initially | sheduler/round_robin_simulator.py:12-17 | the initial state satisfies the loop invariant |
| JobRoundRobin.InitialLists | sheduler/round_robin_simulator.py:16-17 | every job starts unfinished and unserved |
| JobRoundRobin.FirstPass | sheduler/round_robin_simulator.py:19 | with at least one job the loop condition holds on entry |
| JobRoundRobin.Pending | sheduler/round_robin_simulator.py:19-21 | while time is left, the ready queue or the unfinished list is non-empty, so the dispatch of line 21 never pops an empty list |
| JobRoundRobin.Finish | sheduler/round_robin_simulator.py:19 | after at least one slice, the state at loop exit gives the chart, service and record facts |
| JobRoundRobin.LoneJob | sheduler/round_robin_simulator.py:19-22 | with one job longer than the quantum, the first slice leaves it with time left |
| JobRoundRobin.Setup | sheduler/round_robin_simulator.py:12-17 | the initial state: nothing queued, all jobs unfinished with their whole burst, clock at the first arrival |
| JobRoundRobin.RunWhileUnfinished | sheduler/round_robin_simulator.py:19-59 | the loop as written ends when no time is left or the unfinished list is empty; a lone job longer than the quantum gets one entry and no record |
| JobRoundRobin.RunToCompletion | sheduler/round_robin_simulator.py:19-59 | the loop run until no time is left ends with total remaining time 0 |
| JobRoundRobin.Schedule | sheduler/round_robin_simulator.py:12-59 | the loop as written yields a well-formed chart and records |
| JobRoundRobin.ScheduleToCompletion | sheduler/round_robin_simulator.py:12-59 | the corrected loop leaves no job with time left |
| JobRoundRobin.ChartConcluded | sheduler/round_robin_simulator.py:15-33 | the chart starts at the earliest arrival; every entry is an input job, at or after its arrival, at most a quantum long, in time order |
| JobRoundRobin.RecordsConcluded | sheduler/round_robin_simulator.py:47-62 | every record is an input job served its burst with `tat = ft - at` and `wat = tat - bt >= 0`; records sorted by `(at, job)` |
| JobRoundRobin.ServiceConcluded | sheduler/round_robin_simulator.py:26-56 | no job is served more than its burst; a job served its whole burst has a record |
| JobRoundRobin.RoundRobin | sheduler/round_robin_simulator.py:6-64 | `IndexError` exactly for empty input; otherwise the chart, record and service facts; a lone job longer than the quantum gets one entry and no record |
| JobRoundRobin.RoundRobinToCompletion | sheduler/round_robin_simulator.py:6-64 | the same facts, and every input job is served its whole burst |

## Left out

- Presentation is not modelled: pandas DataFrames, `display`, styling, the plotting script and the `main` drivers. They only format or print the results.
- Averages are exact `real`s. IEEE floating-point rounding is not modelled.
- `RoundRobin.RoundRobinScheduling` and `RoundRobinSimulator.SimulateRoundRobin` sort and empty the caller's list in place. The model works on a copy; the caller's list being changed is not modelled.
- `RoundRobinSimulator.SimulateRoundRobin`: the `max_time_units` parameter is unused by the loop, and the returned DataFrame is built only from the timeline. The model returns the timeline and both dictionaries.
- Preconditions the source leaves implicit, because it misbehaves otherwise:
  - quantum at least 1 (with 0 the loop never ends);
  - bursts at least 1;
  - distinct ids for variants 1 and 3 (their dictionaries are keyed by id).
- Variant 2 on empty input raises `IndexError` (line 15). This is the `IndexError` outcome, not a precondition.
- `JobRoundRobin.Label`: job counts of 0xD800 - 65 or more are outside the model. Those labels would reach surrogate code points, which a Dafny `char` cannot hold.
- `JobRoundRobin.RoundRobin` claims no uniqueness. Its ready queue can hold a job twice. The job just run is off the queue but still unfinished, so lines 36-44 can admit it as a new arrival, and line 59 then requeues it as well. A second copy of a finished job runs for 0 units and is recorded again. So the chart may contain zero-length entries and a job may have two records. The model states only what holds for every input.
- The time origin differs from the textbook definition of round robin (clock from the earliest arrival, `waiting = turnaround - burst`). The code is followed:
  - variant 1 starts at 1;
  - variant 3 starts at 0;
  - variant 1 records `(clock - exec, clock)` before advancing, so its turnaround is the last entry's stop plus its length, minus arrival (`FinishedAt`);
  - variant 1 accumulates waiting per slice, so only `waiting + burst <= turnaround` holds;
  - because variant 1 records `(clock - exec, clock)` with the clock not yet advanced, its entries can overlap and can start before the process arrives (quantum 3 with `('A', 0, 1)` and `('B', 0, 3)` gives `(A, 0, 1)` then `(B, -1, 2)`), so for variant 1 only rising stops and stop at or after arrival are proved (`StopsRisingOrdered`, `EndsAfterArrival`), not the non-overlap proved for variant 3;
  - variant 3 sets `waiting = turnaround - burst + exec` of the final slice.

## Findings

| source | as written | input that shows it | evidently intended | confidence | as-written member | corrected member |
|---|---|---|---|---|---|---|
| sheduler/round_robin_simulator.py:19 | the loop runs `while sum(remaining) > 0 and unfinished_jobs`; line 21 pops the dispatched job from `unfinished_jobs`, so the loop can stop while that job still has time left | arrival `[0]`, burst `[3]`, quantum `1`: one chart entry `A [0, 1]` and no completion record | loop until no job has time left, so every job is served its whole burst and recorded | high; not executed | JobRoundRobin.RoundRobin | JobRoundRobin.RoundRobinToCompletion |
