/**
 * The scheduling loop of `simulate_round_robin` in round_robin_simulator.py.
 * The clock starts at 0, an idle step advances it by one unit, a preempted
 * process is requeued before the next admission pass, and a finishing
 * process gets `turnaround = clock - arrival` and
 * `waiting = turnaround - burst + exec` of its final slice.
 */
module RoundRobinSimulator {
  import opened Scheduling
  import opened StableSort

  /**
   * Admission (lines 34-35): while the head of `pending` has arrived by
   * `clock`, it is popped and appended to the ready queue.
   */
  method AdmitArrived(pending: seq<Proc>, queue: seq<Proc>, clock: int)
    returns (pending': seq<Proc>, queue': seq<Proc>)
    ensures pending' == pending[Arrived(pending, clock)..]
    ensures queue' == queue + pending[..Arrived(pending, clock)]
  {
    pending', queue' := pending, queue;
    ghost var n := 0;
    while pending' != [] && pending'[0].arrival <= clock
      invariant n <= |pending| && pending' == pending[n..]
      invariant queue' == queue + pending[..n]
      invariant forall i :: 0 <= i < n ==> pending[i].arrival <= clock
    {
      assert pending[..n + 1] == pending[..n] + [pending'[0]];
      queue' := queue' + [pending'[0]];
      pending' := pending'[1..];
      n := n + 1;
    }
  }

  /**
   * The fixed frame of the loop: the arrival-sorted input with its position
   * map, and one dictionary entry per process in each dictionary.
   */
  ghost predicate Frame(sorted: seq<Proc>, pos: map<ProcId, int>, quantum: int, next: nat,
                        waiting: map<ProcId, int>, turnaround: map<ProcId, int>, rem: map<ProcId, int>)
  {
    && quantum >= 1
    && next <= |sorted|
    && Indexed(sorted, pos)
    && (forall k :: 0 <= k < |sorted| ==>
          sorted[k].burst >= 1 && sorted[k].id in rem && sorted[k].id in waiting && sorted[k].id in turnaround)
    && waiting.Keys == rem.Keys && turnaround.Keys == rem.Keys
  }

  /**
   * What the loop keeps about the ready queue. `qk` gives, for each queue
   * slot, the position in the arrival-sorted list of the process it holds:
   * only admitted processes (positions below `next`, so never a pending one),
   * each at most once, each with time left; and every admitted process with
   * time left is queued.
   */
  ghost predicate QueueOk(sorted: seq<Proc>, next: nat, queue: seq<Proc>, qk: seq<int>, rem: map<ProcId, int>)
  {
    && |qk| == |queue|
    && (forall i :: 0 <= i < |qk| ==>
          0 <= qk[i] < next <= |sorted| && queue[i] == sorted[qk[i]]
          && sorted[qk[i]].id in rem && rem[sorted[qk[i]].id] > 0)
    && (forall i, j :: 0 <= i < j < |qk| ==> qk[i] != qk[j])
    && (forall k :: 0 <= k < next && k < |sorted| && sorted[k].id in rem && rem[sorted[k].id] > 0 ==> k in qk)
  }

  /** The ready queue holds each process at most once (lines 34-35, 50-51). */
  lemma QueueDistinct(sorted: seq<Proc>, pos: map<ProcId, int>, next: nat, queue: seq<Proc>, qk: seq<int>,
                      rem: map<ProcId, int>)
    requires Indexed(sorted, pos) && QueueOk(sorted, next, queue, qk, rem)
    ensures forall i, j :: 0 <= i < j < |queue| ==> queue[i].id != queue[j].id
  {
    forall i, j | 0 <= i < j < |queue|
      ensures queue[i].id != queue[j].id
    {
      assert pos[queue[i].id] == qk[i] && pos[queue[j].id] == qk[j];
    }
  }

  /** The ready queue and the pending list share no process (lines 34-35, 38). */
  lemma QueueApart(sorted: seq<Proc>, pos: map<ProcId, int>, next: nat, pending: seq<Proc>,
                   queue: seq<Proc>, qk: seq<int>, rem: map<ProcId, int>)
    requires Indexed(sorted, pos) && QueueOk(sorted, next, queue, qk, rem)
    requires next <= |sorted| && pending == sorted[next..]
    ensures forall i, j :: 0 <= i < |queue| && 0 <= j < |pending| ==> queue[i].id != pending[j].id
  {
    forall i, j | 0 <= i < |queue| && 0 <= j < |pending|
      ensures queue[i].id != pending[j].id
    {
      assert pending[j] == sorted[next + j];
      assert pos[queue[i].id] == qk[i] < next;
    }
  }

  /**
   * Remaining time stays in [0, burst] and is the burst minus the time
   * served; pending processes are untouched; an admitted process arrived by
   * now and everything it was served came after its arrival.
   */
  ghost predicate ServiceOk(sorted: seq<Proc>, next: nat, clock: int,
                            timeline: seq<Interval<ProcId>>, rem: map<ProcId, int>)
    requires Keyed(sorted, rem)
  {
    && (forall k :: 0 <= k < |sorted| ==>
          0 <= rem[sorted[k].id] <= sorted[k].burst
          && Served(timeline, sorted[k].id) + rem[sorted[k].id] == sorted[k].burst)
    && (forall k :: next <= k < |sorted| ==> rem[sorted[k].id] == sorted[k].burst)
    && (forall k :: 0 <= k < next && k < |sorted| ==> clock >= sorted[k].arrival + Served(timeline, sorted[k].id))
  }

  /** Completion metrics of every finished process (lines 53-55). */
  ghost predicate FinishedOk(sorted: seq<Proc>, next: nat, timeline: seq<Interval<ProcId>>,
                             waiting: map<ProcId, int>, turnaround: map<ProcId, int>, rem: map<ProcId, int>)
    requires Keyed(sorted, rem) && Keyed(sorted, waiting) && Keyed(sorted, turnaround)
  {
    forall k :: 0 <= k < next && k < |sorted| && rem[sorted[k].id] == 0 ==>
      var id := sorted[k].id;
      && turnaround[id] == LastOf(timeline, id).stop - sorted[k].arrival
      && turnaround[id] >= sorted[k].burst
      && waiting[id] == turnaround[id] - sorted[k].burst + Length(LastOf(timeline, id))
  }

  /**
   * The timeline so far: entries of known processes, in order, none before
   * its process arrived, none after the clock.
   */
  ghost predicate TimelineOk(sorted: seq<Proc>, pos: map<ProcId, int>, quantum: int, clock: int,
                             timeline: seq<Interval<ProcId>>)
  {
    && clock >= 0
    && (forall j :: 0 <= j < |timeline| ==>
          && timeline[j].id in pos && 0 <= pos[timeline[j].id] < |sorted|
          && sorted[pos[timeline[j].id]].id == timeline[j].id
          && sorted[pos[timeline[j].id]].arrival <= timeline[j].start
          && 0 <= timeline[j].start && 1 <= Length(timeline[j]) <= quantum
          && timeline[j].stop <= clock)
    && Chronological(timeline)
  }

  /** Loop invariant of `SimulateRoundRobin`, over the arrival-sorted list `sorted`. */
  ghost predicate Inv(sorted: seq<Proc>, pos: map<ProcId, int>, quantum: int, next: nat,
                      queue: seq<Proc>, qk: seq<int>, clock: int, timeline: seq<Interval<ProcId>>,
                      waiting: map<ProcId, int>, turnaround: map<ProcId, int>, rem: map<ProcId, int>)
  {
    && Frame(sorted, pos, quantum, next, waiting, turnaround, rem)
    && QueueOk(sorted, next, queue, qk, rem)
    && ServiceOk(sorted, next, clock, timeline, rem)
    && FinishedOk(sorted, next, timeline, waiting, turnaround, rem)
    && TimelineOk(sorted, pos, quantum, clock, timeline)
  }

  /** Admitting the next `a` pending processes appends them to the queue with their positions. */
  lemma AdmitQueue(sorted: seq<Proc>, next: nat, next': nat, queue: seq<Proc>, qk: seq<int>,
                    queue': seq<Proc>, qk': seq<int>, rem: map<ProcId, int>)
    requires QueueOk(sorted, next, queue, qk, rem) && next <= next' <= |sorted|
    requires queue' == queue + sorted[next..next'] && qk' == qk + Range(next, next')
    requires forall k :: next <= k < next' ==> sorted[k].id in rem && rem[sorted[k].id] > 0
    ensures QueueOk(sorted, next', queue', qk', rem)
  {
    assert forall i :: |qk| <= i < |qk'| ==> qk'[i] == next + i - |qk| && queue'[i] == sorted[qk'[i]];
    forall k | 0 <= k < next' && k < |sorted| && sorted[k].id in rem && rem[sorted[k].id] > 0
      ensures k in qk'
    {
      if k >= next {
        assert qk'[|qk| + k - next] == k;
      }
    }
  }

  /** The admitted processes have arrived and have not been served. */
  lemma AdmitService(sorted: seq<Proc>, next: nat, next': nat, clock: int,
                     timeline: seq<Interval<ProcId>>, rem: map<ProcId, int>)
    requires Keyed(sorted, rem) && ServiceOk(sorted, next, clock, timeline, rem)
    requires next <= |sorted| && next' == next + Arrived(sorted[next..], clock)
    requires forall k :: 0 <= k < |sorted| ==> sorted[k].burst >= 1
    ensures ServiceOk(sorted, next', clock, timeline, rem)
    ensures forall k :: next <= k < next' ==> sorted[k].id in rem && rem[sorted[k].id] > 0
  {
    forall k | next <= k < next'
      ensures sorted[k].arrival <= clock
    {
      assert sorted[next..][k - next] == sorted[k];
    }
  }

  /** An admission pass keeps the invariant. */
  lemma AdmitStep(sorted: seq<Proc>, pos: map<ProcId, int>, quantum: int, next: nat, pending: seq<Proc>,
                  queue: seq<Proc>, qk: seq<int>, clock: int, timeline: seq<Interval<ProcId>>,
                  waiting: map<ProcId, int>, turnaround: map<ProcId, int>, rem: map<ProcId, int>,
                  a: nat, next': nat, queue': seq<Proc>, qk': seq<int>)
    requires Inv(sorted, pos, quantum, next, queue, qk, clock, timeline, waiting, turnaround, rem)
    requires pending == sorted[next..] && a == Arrived(pending, clock) && next' == next + a
    requires queue' == queue + pending[..a] && qk' == qk + Range(next, next')
    ensures pending[a..] == sorted[next'..]
    ensures Inv(sorted, pos, quantum, next', queue', qk', clock, timeline, waiting, turnaround, rem)
  {
    assert pending[..a] == sorted[next..next'];
    AdmitService(sorted, next, next', clock, timeline, rem);
    AdmitQueue(sorted, next, next', queue, qk, queue', qk', rem);
    AdmitFinished(sorted, next, next', timeline, waiting, turnaround, rem);
    AdmitFrame(sorted, pos, quantum, next, next', waiting, turnaround, rem);
  }

  /** Admission only moves the boundary between admitted and pending processes. */
  lemma AdmitFrame(sorted: seq<Proc>, pos: map<ProcId, int>, quantum: int, next: nat, next': nat,
                   waiting: map<ProcId, int>, turnaround: map<ProcId, int>, rem: map<ProcId, int>)
    requires Frame(sorted, pos, quantum, next, waiting, turnaround, rem) && next' <= |sorted|
    ensures Frame(sorted, pos, quantum, next', waiting, turnaround, rem)
  {
  }

  /** Newly admitted processes have time left, so none of them needs completion metrics yet. */
  lemma AdmitFinished(sorted: seq<Proc>, next: nat, next': nat, timeline: seq<Interval<ProcId>>,
                      waiting: map<ProcId, int>, turnaround: map<ProcId, int>, rem: map<ProcId, int>)
    requires Keyed(sorted, rem) && Keyed(sorted, waiting) && Keyed(sorted, turnaround)
    requires FinishedOk(sorted, next, timeline, waiting, turnaround, rem) && next <= next'
    requires forall k :: next <= k < next' && k < |sorted| ==> rem[sorted[k].id] > 0
    ensures FinishedOk(sorted, next', timeline, waiting, turnaround, rem)
  {
  }

  /** With nothing ready, one idle unit keeps the invariant. */
  lemma IdleStep(sorted: seq<Proc>, pos: map<ProcId, int>, quantum: int, next: nat,
                 qk: seq<int>, clock: int, timeline: seq<Interval<ProcId>>,
                 waiting: map<ProcId, int>, turnaround: map<ProcId, int>, rem: map<ProcId, int>)
    requires Inv(sorted, pos, quantum, next, [], qk, clock, timeline, waiting, turnaround, rem)
    ensures Inv(sorted, pos, quantum, next, [], qk, clock + 1, timeline, waiting, turnaround, rem)
  {
  }

  /** One slice of `exec` units for the process at position `kc`: its service and the clock grow together. */
  lemma SliceService(sorted: seq<Proc>, pos: map<ProcId, int>, next: nat, kc: int, exec: int,
                     clock: int, timeline: seq<Interval<ProcId>>, rem: map<ProcId, int>,
                     clock': int, timeline': seq<Interval<ProcId>>, r: int)
    requires Keyed(sorted, rem) && Indexed(sorted, pos)
    requires ServiceOk(sorted, next, clock, timeline, rem)
    requires 0 <= kc < next <= |sorted| && 0 <= exec <= rem[sorted[kc].id] && r == rem[sorted[kc].id] - exec
    requires clock' == clock + exec && timeline' == timeline + [Interval(sorted[kc].id, clock, clock')]
    ensures Keyed(sorted, rem[sorted[kc].id := r])
    ensures ServiceOk(sorted, next, clock', timeline', rem[sorted[kc].id := r])
    ensures forall k :: 0 <= k < |sorted| && k != kc ==> LastOf(timeline', sorted[k].id) == LastOf(timeline, sorted[k].id)
    ensures LastOf(timeline', sorted[kc].id) == Interval(sorted[kc].id, clock, clock')
    ensures r == 0 ==> clock' >= sorted[kc].arrival + sorted[kc].burst
  {
    var pid := sorted[kc].id;
    var e := Interval(pid, clock, clock');
    forall k | 0 <= k < |sorted|
      ensures Served(timeline', sorted[k].id) == Served(timeline, sorted[k].id) + (if k == kc then exec else 0)
      ensures LastOf(timeline', sorted[k].id) == if k == kc then e else LastOf(timeline, sorted[k].id)
    {
      assert k != kc ==> sorted[k].id != pid;
      ServedAppend(timeline, e, sorted[k].id);
      LastOfAppend(timeline, e, sorted[k].id);
    }
  }

  /** The entry of a slice starts at the clock, after its process arrived, and after every earlier entry. */
  lemma SliceTimeline(sorted: seq<Proc>, pos: map<ProcId, int>, quantum: int, kc: int,
                      clock: int, timeline: seq<Interval<ProcId>>, clock': int, timeline': seq<Interval<ProcId>>)
    requires TimelineOk(sorted, pos, quantum, clock, timeline) && Indexed(sorted, pos)
    requires 0 <= kc < |sorted| && sorted[kc].arrival <= clock
    requires clock + 1 <= clock' <= clock + quantum
    requires timeline' == timeline + [Interval(sorted[kc].id, clock, clock')]
    ensures TimelineOk(sorted, pos, quantum, clock', timeline')
  {
    assert forall j :: 0 <= j < |timeline| ==> timeline'[j] == timeline[j];
    ChronologicalAppend(timeline, Interval(sorted[kc].id, clock, clock'));
  }

  /** Finishing records the metrics of the finished process only; the others keep their last entry. */
  lemma SliceFinished(sorted: seq<Proc>, pos: map<ProcId, int>, next: nat, kc: int, exec: int, clock': int,
                      timeline: seq<Interval<ProcId>>, waiting: map<ProcId, int>,
                      turnaround: map<ProcId, int>, rem: map<ProcId, int>,
                      timeline': seq<Interval<ProcId>>, waiting': map<ProcId, int>,
                      turnaround': map<ProcId, int>, r: int)
    requires Keyed(sorted, rem) && Keyed(sorted, waiting) && Keyed(sorted, turnaround)
    requires Indexed(sorted, pos) && FinishedOk(sorted, next, timeline, waiting, turnaround, rem)
    requires 0 <= kc < next <= |sorted| && rem[sorted[kc].id] > 0
    requires forall k :: 0 <= k < |sorted| && k != kc ==> LastOf(timeline', sorted[k].id) == LastOf(timeline, sorted[k].id)
    requires LastOf(timeline', sorted[kc].id) == Interval(sorted[kc].id, clock' - exec, clock')
    requires r == 0 ==> clock' >= sorted[kc].arrival + sorted[kc].burst
    requires r > 0 ==> waiting' == waiting && turnaround' == turnaround
    requires r <= 0 ==>
      && turnaround' == turnaround[sorted[kc].id := clock' - sorted[kc].arrival]
      && waiting' == waiting[sorted[kc].id := turnaround'[sorted[kc].id] - sorted[kc].burst + exec]
    ensures Keyed(sorted, rem[sorted[kc].id := r]) && Keyed(sorted, waiting') && Keyed(sorted, turnaround')
    ensures FinishedOk(sorted, next, timeline', waiting', turnaround', rem[sorted[kc].id := r])
  {
    assert forall k :: 0 <= k < |sorted| && k != kc ==> sorted[k].id != sorted[kc].id;
  }

  /** The run process leaves the queue head and goes to the tail exactly when it has time left. */
  lemma SliceQueue(sorted: seq<Proc>, pos: map<ProcId, int>, next: nat, queue: seq<Proc>, qk: seq<int>,
                   rem: map<ProcId, int>, queue': seq<Proc>, qk': seq<int>, r: int)
    requires Indexed(sorted, pos) && QueueOk(sorted, next, queue, qk, rem) && queue != []
    requires r > 0 ==> queue' == queue[1..] + [queue[0]] && qk' == qk[1..] + [qk[0]]
    requires r <= 0 ==> queue' == queue[1..] && qk' == qk[1..]
    ensures QueueOk(sorted, next, queue', qk', rem[queue[0].id := r])
  {
    var kc := qk[0];
    var pid := queue[0].id;
    var rem' := rem[pid := r];
    assert forall k :: 0 <= k < |sorted| && k != kc ==> sorted[k].id != pid;
    assert forall i :: 0 <= i < |qk| - 1 ==> qk[1..][i] == qk[i + 1] && qk[i + 1] != kc;
    if r > 0 {
      assert forall i :: 0 <= i < |qk'| - 1 ==> qk'[i] == qk[i + 1];
    } else {
      forall k | 0 <= k < next && k < |sorted| && sorted[k].id in rem' && rem'[sorted[k].id] > 0
        ensures k in qk'
      {
        assert k in qk && k != kc;
      }
    }
  }

  /**
   * One slice keeps the invariant: the head runs for `exec`, its entry is
   * appended, the clock advances, and the head is requeued or finished.
   */
  lemma SliceStep(sorted: seq<Proc>, pos: map<ProcId, int>, quantum: int, next: nat, exec: int,
                  queue: seq<Proc>, qk: seq<int>, clock: int, timeline: seq<Interval<ProcId>>,
                  waiting: map<ProcId, int>, turnaround: map<ProcId, int>, rem: map<ProcId, int>,
                  queue': seq<Proc>, qk': seq<int>, clock': int, timeline': seq<Interval<ProcId>>,
                  waiting': map<ProcId, int>, turnaround': map<ProcId, int>, r: int)
    requires Inv(sorted, pos, quantum, next, queue, qk, clock, timeline, waiting, turnaround, rem)
    requires queue != [] && exec == Min(quantum, rem[queue[0].id]) && r == rem[queue[0].id] - exec
    requires clock' == clock + exec && timeline' == timeline + [Interval(queue[0].id, clock, clock')]
    requires r > 0 ==>
      queue' == queue[1..] + [queue[0]] && qk' == qk[1..] + [qk[0]] && waiting' == waiting && turnaround' == turnaround
    requires r <= 0 ==>
      && queue' == queue[1..] && qk' == qk[1..]
      && turnaround' == turnaround[queue[0].id := clock' - queue[0].arrival]
      && waiting' == waiting[queue[0].id := turnaround'[queue[0].id] - queue[0].burst + exec]
    ensures Inv(sorted, pos, quantum, next, queue', qk', clock', timeline', waiting', turnaround', rem[queue[0].id := r])
    ensures rem[queue[0].id := r].Keys == rem.Keys && Total(sorted, rem[queue[0].id := r]) < Total(sorted, rem)
  {
    var kc := qk[0];
    assert sorted[kc] == queue[0];
    SliceService(sorted, pos, next, kc, exec, clock, timeline, rem, clock', timeline', r);
    SliceTimeline(sorted, pos, quantum, kc, clock, timeline, clock', timeline');
    SliceFinished(sorted, pos, next, kc, exec, clock', timeline, waiting, turnaround, rem,
                  timeline', waiting', turnaround', r);
    SliceQueue(sorted, pos, next, queue, qk, rem, queue', qk', r);
    TotalAt(sorted, pos, rem, kc, r);
    KeysKept(rem, queue[0].id, r);
    if r <= 0 {
      KeysKept(waiting, queue[0].id, waiting'[queue[0].id]);
      KeysKept(turnaround, queue[0].id, turnaround'[queue[0].id]);
    }
  }

  /** Every process of `ps` was served its whole burst and has its completion metrics (lines 53-55). */
  ghost predicate Completed(ps: seq<Proc>, timeline: seq<Interval<ProcId>>,
                            waiting: map<ProcId, int>, turnaround: map<ProcId, int>)
  {
    forall i :: 0 <= i < |ps| ==>
      var p := ps[i];
      && p.id in waiting && p.id in turnaround
      && Served(timeline, p.id) == p.burst
      && turnaround[p.id] == LastOf(timeline, p.id).stop - p.arrival
      && turnaround[p.id] >= p.burst
      && waiting[p.id] == turnaround[p.id] - p.burst + Length(LastOf(timeline, p.id))
  }

  /** No entry of a process starts before the process arrived. */
  ghost predicate StartsAfterArrival(ps: seq<Proc>, timeline: seq<Interval<ProcId>>)
  {
    forall i, j :: 0 <= i < |ps| && 0 <= j < |timeline| && timeline[j].id == ps[i].id ==>
      ps[i].arrival <= timeline[j].start
  }

  /** Once every process is admitted and the queue is empty, every process is finished. */
  lemma AllFinished(sorted: seq<Proc>, pos: map<ProcId, int>, quantum: int, qk: seq<int>,
                    clock: int, timeline: seq<Interval<ProcId>>, waiting: map<ProcId, int>,
                    turnaround: map<ProcId, int>, rem: map<ProcId, int>)
    requires Inv(sorted, pos, quantum, |sorted|, [], qk, clock, timeline, waiting, turnaround, rem)
    ensures Completed(sorted, timeline, waiting, turnaround)
    ensures StartsAfterArrival(sorted, timeline)
  {
    forall k | 0 <= k < |sorted|
      ensures rem[sorted[k].id] == 0
    {
      assert k !in qk;
    }
    forall k, j | 0 <= k < |sorted| && 0 <= j < |timeline| && timeline[j].id == sorted[k].id
      ensures sorted[k].arrival <= timeline[j].start
    {
      assert pos[timeline[j].id] == k;
    }
  }

  /** Both properties are about the set of processes, not their order. */
  lemma Reordered(sorted: seq<Proc>, processes: seq<Proc>, timeline: seq<Interval<ProcId>>,
                  waiting: map<ProcId, int>, turnaround: map<ProcId, int>)
    requires multiset(sorted) == multiset(processes)
    requires Completed(sorted, timeline, waiting, turnaround) && StartsAfterArrival(sorted, timeline)
    ensures Completed(processes, timeline, waiting, turnaround) && StartsAfterArrival(processes, timeline)
  {
    forall i | 0 <= i < |processes|
      ensures exists k :: 0 <= k < |sorted| && sorted[k] == processes[i]
    {
      assert processes[i] in multiset(sorted);
    }
  }

  /**
   * The round-robin loop of lines 20-59. Returns the timeline and the two
   * dictionaries the source computes (it then builds its table from the
   * timeline alone).
   */
  method SimulateRoundRobin(processes: seq<Proc>, quantum: int)
    returns (timeline: seq<Interval<ProcId>>, waiting: map<ProcId, int>, turnaround: map<ProcId, int>)
    requires quantum >= 1
    requires forall i :: 0 <= i < |processes| ==> processes[i].burst >= 1
    requires DistinctIds(processes)
    ensures waiting.Keys == turnaround.Keys == Ids(processes)
    ensures Completed(processes, timeline, waiting, turnaround)
    ensures forall j :: 0 <= j < |timeline| ==>
      timeline[j].id in Ids(processes) && 0 <= timeline[j].start && 1 <= Length(timeline[j]) <= quantum
    ensures StartsAfterArrival(processes, timeline)
    ensures forall j, j' :: 0 <= j < j' < |timeline| ==> timeline[j].stop <= timeline[j'].start
  {
    // Sort processes by their arrival time
    var pending := SortByKey(processes, ArrivalOf);
    ghost var sorted := pending;
    ghost var pos := SortedSetup(processes, sorted);

    var rem;
    waiting, turnaround, rem := Dictionaries(sorted, pos, quantum, pending);
    InitialKeys(processes, sorted, rem);
    ghost var qk, clock;
    timeline, waiting, turnaround, rem, qk, clock := Schedule(sorted, pos, quantum, pending, waiting, turnaround, rem);
    Concluded(processes, sorted, pos, quantum, qk, clock, timeline, waiting, turnaround, rem);
  }

  /**
   * The state the loop starts from: the three dictionaries of lines 27-29
   * hold one entry per process, with the whole burst remaining.
   */
  ghost predicate Fresh(sorted: seq<Proc>, pos: map<ProcId, int>, quantum: int,
                        waiting: map<ProcId, int>, turnaround: map<ProcId, int>, rem: map<ProcId, int>)
  {
    && quantum >= 1 && Indexed(sorted, pos)
    && (forall k :: 0 <= k < |sorted| ==>
          && sorted[k].burst >= 1 && sorted[k].id in waiting && sorted[k].id in turnaround
          && sorted[k].id in rem && rem[sorted[k].id] == sorted[k].burst)
    && waiting.Keys == rem.Keys && turnaround.Keys == rem.Keys
  }

  /** With an empty queue and timeline at clock 0, the fresh dictionaries satisfy the loop invariant. */
  lemma Initially(sorted: seq<Proc>, pos: map<ProcId, int>, quantum: int, next: nat, queue: seq<Proc>,
                  qk: seq<int>, clock: int, timeline: seq<Interval<ProcId>>,
                  waiting: map<ProcId, int>, turnaround: map<ProcId, int>, rem: map<ProcId, int>)
    requires Fresh(sorted, pos, quantum, waiting, turnaround, rem)
    requires next == 0 && queue == [] && qk == [] && clock == 0 && timeline == []
    ensures Inv(sorted, pos, quantum, next, queue, qk, clock, timeline, waiting, turnaround, rem)
  {
  }

  /**
   * The three dictionaries of lines 27-29, keyed by the process ids: no
   * waiting or turnaround time yet, and the whole burst remaining.
   */
  method Dictionaries(ghost sorted: seq<Proc>, ghost pos: map<ProcId, int>, quantum: int, pending: seq<Proc>)
    returns (waiting: map<ProcId, int>, turnaround: map<ProcId, int>, rem: map<ProcId, int>)
    requires quantum >= 1 && pending == sorted && Indexed(sorted, pos)
    requires forall k :: 0 <= k < |sorted| ==> sorted[k].burst >= 1
    ensures Fresh(sorted, pos, quantum, waiting, turnaround, rem)
    ensures forall id :: id in rem ==> exists k :: 0 <= k < |sorted| && sorted[k].id == id
  {
    waiting := map k | 0 <= k < |pending| :: pending[k].id := 0;
    turnaround := map k | 0 <= k < |pending| :: pending[k].id := 0;
    rem := map k | 0 <= k < |pending| :: pending[k].id := pending[k].burst;
    assert forall k :: 0 <= k < |sorted| ==> rem[sorted[k].id] == sorted[k].burst;
    assert waiting.Keys == rem.Keys && turnaround.Keys == rem.Keys by {
      forall id | id in rem || id in waiting || id in turnaround
        ensures id in rem && id in waiting && id in turnaround
      {
        var k :| 0 <= k < |pending| && pending[k].id == id;
      }
    }
  }

  /**
   * The `while processes or queue` loop (lines 32-59), from an empty queue,
   * an empty timeline and the clock at 0, until every process is admitted
   * and the queue is empty.
   */
  method Schedule(ghost sorted: seq<Proc>, ghost pos: map<ProcId, int>, quantum: int, pending: seq<Proc>,
                  waiting: map<ProcId, int>, turnaround: map<ProcId, int>, rem: map<ProcId, int>)
    returns (timeline: seq<Interval<ProcId>>, waiting': map<ProcId, int>, turnaround': map<ProcId, int>,
             rem': map<ProcId, int>, ghost qk: seq<int>, ghost clock': int)
    requires pending == sorted && Fresh(sorted, pos, quantum, waiting, turnaround, rem)
    ensures Inv(sorted, pos, quantum, |sorted|, [], qk, clock', timeline, waiting', turnaround', rem')
    ensures rem'.Keys == rem.Keys
  {
    var pending := pending;
    var queue: seq<Proc> := [];
    var clock := 0;
    timeline, waiting', turnaround', rem' := [], waiting, turnaround, rem;
    ghost var next: nat := 0;
    qk := [];
    Initially(sorted, pos, quantum, next, queue, qk, clock, timeline, waiting', turnaround', rem');

    while pending != [] || queue != []
      invariant Inv(sorted, pos, quantum, next, queue, qk, clock, timeline, waiting', turnaround', rem')
      invariant pending == sorted[next..]
      invariant rem'.Keys == rem.Keys
      decreases Total(sorted, rem'), |pending|,
        if pending != [] && pending[0].arrival > clock then pending[0].arrival - clock else 0
    {
      TotalZero(sorted, rem');
      ghost var admitted;
      next, pending, admitted, queue, qk, clock, timeline, waiting', turnaround', rem' :=
        Step(sorted, pos, quantum, next, pending, queue, qk, clock, timeline, waiting', turnaround', rem');
    }
    clock' := clock;
  }

  /** What the finished loop establishes, restated over the caller's order of the processes. */
  lemma Concluded(processes: seq<Proc>, sorted: seq<Proc>, pos: map<ProcId, int>, quantum: int, qk: seq<int>,
                  clock: int, timeline: seq<Interval<ProcId>>, waiting: map<ProcId, int>,
                  turnaround: map<ProcId, int>, rem: map<ProcId, int>)
    requires multiset(sorted) == multiset(processes)
    requires Inv(sorted, pos, quantum, |sorted|, [], qk, clock, timeline, waiting, turnaround, rem)
    requires rem.Keys == Ids(processes)
    ensures waiting.Keys == turnaround.Keys == Ids(processes)
    ensures Completed(processes, timeline, waiting, turnaround)
    ensures forall j :: 0 <= j < |timeline| ==>
      timeline[j].id in Ids(processes) && 0 <= timeline[j].start && 1 <= Length(timeline[j]) <= quantum
    ensures StartsAfterArrival(processes, timeline)
    ensures forall j, j' :: 0 <= j < j' < |timeline| ==> timeline[j].stop <= timeline[j'].start
  {
    AllFinished(sorted, pos, quantum, qk, clock, timeline, waiting, turnaround, rem);
    Reordered(sorted, processes, timeline, waiting, turnaround);
    ChronologicalOrdered(timeline);
    forall j | 0 <= j < |timeline|
      ensures timeline[j].id in rem
    {
      assert sorted[pos[timeline[j].id]].id == timeline[j].id;
    }
  }

  /**
   * One dispatch (lines 37-59), from the queue the admission pass left: the
   * head runs for `exec = min(quantum, remaining)`, its entry
   * `(pid, clock, clock + exec)` is appended and the clock advances by
   * `exec`; the head goes back to the tail exactly when it has time left,
   * and otherwise gets `turnaround = clock - arrival` and
   * `waiting = turnaround - burst + exec`. With an empty queue only the
   * clock moves, by one unit.
   */
  predicate Dispatched(quantum: int, queue: seq<Proc>, clock: int, timeline: seq<Interval<ProcId>>,
                       waiting: map<ProcId, int>, turnaround: map<ProcId, int>, rem: map<ProcId, int>,
                       queue': seq<Proc>, clock': int, timeline': seq<Interval<ProcId>>,
                       waiting': map<ProcId, int>, turnaround': map<ProcId, int>, rem': map<ProcId, int>)
  {
    if queue != [] then
      var p := queue[0];
      && p.id in rem
      && var exec := Min(quantum, rem[p.id]);
      && clock' == clock + exec
      && timeline' == timeline + [Interval(p.id, clock, clock')]
      && rem' == rem[p.id := rem[p.id] - exec]
      && queue' == queue[1..] + (if rem[p.id] - exec > 0 then [p] else [])
      && (rem[p.id] - exec > 0 ==> waiting' == waiting && turnaround' == turnaround)
      && (rem[p.id] - exec <= 0 ==>
            turnaround' == turnaround[p.id := clock' - p.arrival]
            && waiting' == waiting[p.id := clock' - p.arrival - p.burst + exec])
    else
      && queue' == queue && clock' == clock + 1 && timeline' == timeline
      && waiting' == waiting && turnaround' == turnaround && rem' == rem
  }

  /**
   * One iteration of the loop (lines 34-57): the admission pass, then either
   * one slice for the head of the queue or one idle time unit. The total
   * remaining time falls, or the clock moves one unit towards the next
   * arrival.
   */
  method Step(ghost sorted: seq<Proc>, ghost pos: map<ProcId, int>, quantum: int, ghost next: nat,
              pending: seq<Proc>, queue: seq<Proc>, ghost qk: seq<int>, clock: int,
              timeline: seq<Interval<ProcId>>, waiting: map<ProcId, int>,
              turnaround: map<ProcId, int>, rem: map<ProcId, int>)
    returns (ghost next': nat, pending': seq<Proc>, ghost admitted: seq<Proc>, queue': seq<Proc>,
             ghost qk': seq<int>, clock': int, timeline': seq<Interval<ProcId>>, waiting': map<ProcId, int>,
             turnaround': map<ProcId, int>, rem': map<ProcId, int>)
    requires Inv(sorted, pos, quantum, next, queue, qk, clock, timeline, waiting, turnaround, rem)
    requires pending == sorted[next..] && (pending != [] || queue != [])
    ensures Inv(sorted, pos, quantum, next', queue', qk', clock', timeline', waiting', turnaround', rem')
    ensures pending' == sorted[next'..] && rem'.Keys == rem.Keys
    ensures pending' == pending[Arrived(pending, clock)..] && admitted == queue + pending[..Arrived(pending, clock)]
    ensures Dispatched(quantum, admitted, clock, timeline, waiting, turnaround, rem,
                       queue', clock', timeline', waiting', turnaround', rem')
    ensures Total(sorted, rem') < Total(sorted, rem)
      || (Total(sorted, rem') == Total(sorted, rem) && pending' == pending && pending != [] && clock < clock' <= pending[0].arrival)
  {
    // Add processes to the queue that have arrived
    ghost var a := Arrived(pending, clock);
    next' := next + a;
    ghost var qk1 := qk + Range(next, next');
    var queue1;
    pending', queue1 := AdmitArrived(pending, queue, clock);
    admitted := queue1;
    AdmitStep(sorted, pos, quantum, next, pending, queue, qk, clock, timeline, waiting, turnaround, rem, a, next', queue1, qk1);
    queue', qk', clock', timeline', waiting', turnaround', rem' :=
      RunHead(sorted, pos, quantum, next', queue1, qk1, clock, timeline, waiting, turnaround, rem);
  }

  /**
   * A slice as `Dispatched` describes it keeps the invariant and lowers the
   * total remaining time; `qk'` follows the queue.
   */
  lemma SliceKeeps(sorted: seq<Proc>, pos: map<ProcId, int>, quantum: int, next: nat,
                   queue: seq<Proc>, qk: seq<int>, clock: int, timeline: seq<Interval<ProcId>>,
                   waiting: map<ProcId, int>, turnaround: map<ProcId, int>, rem: map<ProcId, int>,
                   queue': seq<Proc>, clock': int, timeline': seq<Interval<ProcId>>,
                   waiting': map<ProcId, int>, turnaround': map<ProcId, int>, rem': map<ProcId, int>)
    returns (qk': seq<int>)
    requires Inv(sorted, pos, quantum, next, queue, qk, clock, timeline, waiting, turnaround, rem)
    requires queue != []
    requires Dispatched(quantum, queue, clock, timeline, waiting, turnaround, rem,
                        queue', clock', timeline', waiting', turnaround', rem')
    ensures Inv(sorted, pos, quantum, next, queue', qk', clock', timeline', waiting', turnaround', rem')
    ensures rem'.Keys == rem.Keys && Total(sorted, rem') < Total(sorted, rem)
  {
    var exec := Min(quantum, rem[queue[0].id]);
    var r := rem[queue[0].id] - exec;
    qk' := if r > 0 then qk[1..] + [qk[0]] else qk[1..];
    SliceStep(sorted, pos, quantum, next, exec, queue, qk, clock, timeline, waiting, turnaround, rem,
              queue', qk', clock', timeline', waiting', turnaround', r);
  }

  /**
   * The dispatch part of an iteration (lines 37-57): the head of the ready
   * queue runs for one slice and is requeued or retired, or, with an empty
   * queue, the clock moves one unit.
   */
  method RunHead(ghost sorted: seq<Proc>, ghost pos: map<ProcId, int>, quantum: int, ghost next: nat,
                 queue: seq<Proc>, ghost qk: seq<int>, clock: int,
                 timeline: seq<Interval<ProcId>>, waiting: map<ProcId, int>,
                 turnaround: map<ProcId, int>, rem: map<ProcId, int>)
    returns (queue': seq<Proc>, ghost qk': seq<int>, clock': int,
             timeline': seq<Interval<ProcId>>, waiting': map<ProcId, int>,
             turnaround': map<ProcId, int>, rem': map<ProcId, int>)
    requires Inv(sorted, pos, quantum, next, queue, qk, clock, timeline, waiting, turnaround, rem)
    ensures Inv(sorted, pos, quantum, next, queue', qk', clock', timeline', waiting', turnaround', rem')
    ensures rem'.Keys == rem.Keys
    ensures queue != [] ==> Total(sorted, rem') < Total(sorted, rem)
    ensures queue == [] ==> rem' == rem && clock' == clock + 1
    ensures Dispatched(quantum, queue, clock, timeline, waiting, turnaround, rem,
                       queue', clock', timeline', waiting', turnaround', rem')
  {
    timeline', waiting', turnaround', rem' := timeline, waiting, turnaround, rem;

    if queue != [] {
      var current := queue[0];
      queue' := queue[1..];
      var pid := current.id;

      // Calculate execution time
      var exec := Min(quantum, rem[pid]);
      var r := rem[pid] - exec;
      rem' := rem[pid := r];

      // Record the timeline
      timeline' := timeline + [Interval(pid, clock, clock + exec)];
      clock' := clock + exec;

      // If the process is not finished, put it back in the queue
      if rem'[pid] > 0 {
        queue' := queue' + [current];
      } else {
        // Process is finished, calculate turnaround time
        turnaround' := turnaround[pid := clock' - current.arrival];
        waiting' := waiting[pid := turnaround'[pid] - current.burst + exec];
      }
      qk' := SliceKeeps(sorted, pos, quantum, next, queue, qk, clock, timeline, waiting, turnaround, rem,
                        queue', clock', timeline', waiting', turnaround', rem');
    } else {
      // Increment current time if no process is ready to execute
      IdleStep(sorted, pos, quantum, next, qk, clock, timeline, waiting, turnaround, rem);
      queue', qk', clock' := queue, qk, clock + 1;
    }
  }
}
