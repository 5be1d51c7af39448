/**
 * The scheduling loop of `round_robin_scheduling` in sheduler/round_robin.py.
 * The clock starts at 1; the ready queue holds process ids; a slice of
 * `exec` units is recorded as `(pid, clock - exec, clock)` before the clock
 * advances; every process left waiting in the queue is charged `exec`; an
 * idle loop jumps the clock to the next arrival.
 */
module RoundRobin {
  import opened Scheduling
  import opened StableSort

  /** The ids of `ps`, in order. */
  function IdList(ps: seq<Proc>): (r: seq<ProcId>)
    ensures |r| == |ps|
    ensures forall i :: 0 <= i < |ps| ==> r[i] == ps[i].id
  {
    seq(|ps|, i requires 0 <= i < |ps| => ps[i].id)
  }

  /**
   * The clock after the slice recorded as `e`: the entry ends at the clock
   * the slice started from, and the clock then moves on by its length.
   */
  function FinishedAt(e: Interval<ProcId>): int
  {
    e.stop + Length(e)
  }

  /** Each entry stops strictly later than the one before it. */
  predicate StopsRising(t: seq<Interval<ProcId>>)
    decreases |t|
  {
    |t| <= 1 || (StopsRising(t[..|t| - 1]) && t[|t| - 2].stop < t[|t| - 1].stop)
  }

  lemma StopsRisingAppend(t: seq<Interval<ProcId>>, e: Interval<ProcId>)
    requires StopsRising(t) && (t != [] ==> t[|t| - 1].stop < e.stop)
    ensures StopsRising(t + [e])
  {
    assert (t + [e])[..|t|] == t;
  }

  /** Rising stops, stated pairwise. */
  lemma {:induction false} StopsRisingOrdered(t: seq<Interval<ProcId>>)
    requires StopsRising(t)
    ensures forall j, j' :: 0 <= j < j' < |t| ==> t[j].stop < t[j'].stop
  {
    if |t| > 1 {
      var init := t[..|t| - 1];
      StopsRisingOrdered(init);
      assert forall j :: 0 <= j < |init| ==> init[j] == t[j];
    }
  }

  /**
   * Admission (lines 23-25): while the head of `pending` has arrived by
   * `clock`, it is popped and its id is appended to the ready queue.
   */
  method AdmitArrived(pending: seq<Proc>, queue: seq<ProcId>, clock: int)
    returns (pending': seq<Proc>, queue': seq<ProcId>)
    ensures pending' == pending[Arrived(pending, clock)..]
    ensures queue' == queue + IdList(pending[..Arrived(pending, clock)])
  {
    pending', queue' := pending, queue;
    ghost var n := 0;
    while pending' != [] && pending'[0].arrival <= clock
      invariant n <= |pending| && pending' == pending[n..]
      invariant queue' == queue + IdList(pending[..n])
      invariant forall i :: 0 <= i < n ==> pending[i].arrival <= clock
    {
      assert IdList(pending[..n + 1]) == IdList(pending[..n]) + [pending'[0].id];
      queue' := queue' + [pending'[0].id];
      pending' := pending'[1..];
      n := n + 1;
    }
  }

  /**
   * What charging `exec` to every id in `s`, in turn, adds to the entry of
   * `id`: `exec` once per occurrence.
   */
  function ChargeOf(s: seq<ProcId>, id: ProcId, exec: int): (c: int)
    ensures id !in s ==> c == 0
  {
    if s == [] then 0 else ChargeOf(s[..|s| - 1], id, exec) + (if s[|s| - 1] == id then exec else 0)
  }

  /**
   * The dictionary after `exec` is added to the entry of every id of `s`,
   * in turn; an id the dictionary does not hold is passed over.
   */
  function Charged(waiting: map<ProcId, int>, s: seq<ProcId>, exec: int): (r: map<ProcId, int>)
    ensures r.Keys == waiting.Keys
  {
    if s == [] then waiting
    else
      var m := Charged(waiting, s[..|s| - 1], exec);
      var x := s[|s| - 1];
      if x in m then KeysKept(m, x, m[x] + exec); m[x := m[x] + exec] else m
  }

  /** Charging adds to every entry `exec` once per occurrence of its id. */
  lemma {:induction false} ChargedValue(waiting: map<ProcId, int>, s: seq<ProcId>, exec: int)
    ensures forall id :: id in waiting ==> Charged(waiting, s, exec)[id] == waiting[id] + ChargeOf(s, id, exec)
  {
    if s != [] {
      ChargedValue(waiting, s[..|s| - 1], exec);
    }
  }

  /**
   * The `for pid in queue` loop of lines 37-38: every id in `queue` is
   * charged `exec` once per occurrence, and nothing else changes.
   */
  method ChargeWaiting(waiting: map<ProcId, int>, queue: seq<ProcId>, exec: int)
    returns (waiting': map<ProcId, int>)
    requires forall i :: 0 <= i < |queue| ==> queue[i] in waiting
    ensures waiting' == Charged(waiting, queue, exec)
    ensures waiting'.Keys == waiting.Keys
    ensures forall id :: id in waiting ==> waiting'[id] == waiting[id] + ChargeOf(queue, id, exec)
  {
    waiting' := waiting;
    var i := 0;
    while i < |queue|
      invariant 0 <= i <= |queue|
      invariant waiting' == Charged(waiting, queue[..i], exec)
    {
      assert queue[..i + 1][..i] == queue[..i];
      waiting' := waiting'[queue[i] := waiting'[queue[i]] + exec];
      i := i + 1;
    }
    assert queue[..i] == queue;
    ChargedValue(waiting, queue, exec);
  }

  /**
   * The fixed frame of the loop: the arrival-sorted input with its position
   * map, and one entry per process in each dictionary (lines 15-18).
   */
  ghost predicate Frame(sorted: seq<Proc>, pos: map<ProcId, int>, quantum: int, next: nat,
                        arrival: map<ProcId, int>, waiting: map<ProcId, int>,
                        turnaround: map<ProcId, int>, rem: map<ProcId, int>)
  {
    && quantum >= 1
    && next <= |sorted|
    && Indexed(sorted, pos)
    && (forall k :: 0 <= k < |sorted| ==>
          && sorted[k].burst >= 1 && sorted[k].id in rem && sorted[k].id in waiting && sorted[k].id in turnaround
          && sorted[k].id in arrival && arrival[sorted[k].id] == sorted[k].arrival)
    && waiting.Keys == rem.Keys && turnaround.Keys == rem.Keys
  }

  /**
   * The ready queue: `qk` gives for each slot the position in the sorted
   * list of the process whose id it holds. Only admitted processes with
   * time left, each at most once; every admitted process with time left is
   * queued.
   */
  ghost predicate QueueOk(sorted: seq<Proc>, next: nat, queue: seq<ProcId>, qk: seq<int>, rem: map<ProcId, int>)
  {
    && |qk| == |queue|
    && (forall i :: 0 <= i < |qk| ==>
          0 <= qk[i] < next <= |sorted| && queue[i] == sorted[qk[i]].id
          && sorted[qk[i]].id in rem && rem[sorted[qk[i]].id] > 0)
    && (forall i, j :: 0 <= i < j < |qk| ==> qk[i] != qk[j])
    && (forall k :: 0 <= k < next && k < |sorted| && sorted[k].id in rem && rem[sorted[k].id] > 0 ==> k in qk)
  }

  /**
   * Remaining time stays in [0, burst] and is the burst minus the time
   * served; pending processes are untouched; admitted ones arrived by now.
   */
  ghost predicate ServiceOk(sorted: seq<Proc>, next: nat, clock: int,
                            timeline: seq<Interval<ProcId>>, rem: map<ProcId, int>)
    requires Keyed(sorted, rem)
  {
    && (forall k :: 0 <= k < |sorted| ==>
          0 <= rem[sorted[k].id] <= sorted[k].burst
          && Served(timeline, sorted[k].id) + rem[sorted[k].id] == sorted[k].burst)
    && (forall k :: next <= k < |sorted| ==> rem[sorted[k].id] == sorted[k].burst)
    && (forall k :: 0 <= k < next && k < |sorted| ==> sorted[k].arrival <= clock)
  }

  /**
   * Waiting time (lines 36-38) is never negative and is zero until
   * admission; an admitted process with time left has waited and run no
   * longer than it has been present.
   */
  ghost predicate WaitOk(sorted: seq<Proc>, next: nat, clock: int, timeline: seq<Interval<ProcId>>,
                         waiting: map<ProcId, int>, rem: map<ProcId, int>)
    requires Keyed(sorted, rem) && Keyed(sorted, waiting)
  {
    && (forall k :: 0 <= k < |sorted| ==> waiting[sorted[k].id] >= 0)
    && (forall k :: next <= k < |sorted| ==> waiting[sorted[k].id] == 0)
    && (forall k :: 0 <= k < next && k < |sorted| && rem[sorted[k].id] > 0 ==>
          waiting[sorted[k].id] + Served(timeline, sorted[k].id) <= clock - sorted[k].arrival)
  }

  /**
   * Turnaround time (lines 45-46) is zero while a process has time left;
   * once it has finished it is `finish - arrival`, and at least its waiting
   * time plus its burst.
   */
  ghost predicate TurnaroundOk(sorted: seq<Proc>, next: nat, timeline: seq<Interval<ProcId>>,
                               waiting: map<ProcId, int>, turnaround: map<ProcId, int>, rem: map<ProcId, int>)
    requires Keyed(sorted, rem) && Keyed(sorted, waiting) && Keyed(sorted, turnaround)
  {
    && (forall k :: 0 <= k < |sorted| && rem[sorted[k].id] > 0 ==> turnaround[sorted[k].id] == 0)
    && (forall k :: 0 <= k < next && k < |sorted| && rem[sorted[k].id] == 0 ==>
          && turnaround[sorted[k].id] == FinishedAt(LastOf(timeline, sorted[k].id)) - sorted[k].arrival
          && waiting[sorted[k].id] + sorted[k].burst <= turnaround[sorted[k].id])
  }

  /**
   * The timeline so far: entries of known processes, of length between 1
   * and the quantum, none ending before its process arrived, with rising
   * stops that all lie before the clock.
   */
  ghost predicate TimelineOk(sorted: seq<Proc>, pos: map<ProcId, int>, quantum: int, clock: int,
                             timeline: seq<Interval<ProcId>>)
  {
    && (forall j :: 0 <= j < |timeline| ==>
          && timeline[j].id in pos && 0 <= pos[timeline[j].id] < |sorted|
          && sorted[pos[timeline[j].id]].id == timeline[j].id
          && sorted[pos[timeline[j].id]].arrival <= timeline[j].stop
          && 1 <= Length(timeline[j]) <= quantum)
    && StopsRising(timeline)
    && (timeline != [] ==> timeline[|timeline| - 1].stop < clock)
  }

  /** Loop invariant of `RoundRobinScheduling`, over the arrival-sorted list `sorted`. */
  ghost predicate Inv(sorted: seq<Proc>, pos: map<ProcId, int>, quantum: int, next: nat,
                      queue: seq<ProcId>, qk: seq<int>, clock: int, timeline: seq<Interval<ProcId>>,
                      arrival: map<ProcId, int>, waiting: map<ProcId, int>,
                      turnaround: map<ProcId, int>, rem: map<ProcId, int>)
  {
    && Frame(sorted, pos, quantum, next, arrival, waiting, turnaround, rem)
    && QueueOk(sorted, next, queue, qk, rem)
    && ServiceOk(sorted, next, clock, timeline, rem)
    && WaitOk(sorted, next, clock, timeline, waiting, rem)
    && TurnaroundOk(sorted, next, timeline, waiting, turnaround, rem)
    && TimelineOk(sorted, pos, quantum, clock, timeline)
  }

  /** Admitting the next `a` pending processes appends their ids to the queue with their positions. */
  lemma AdmitQueue(sorted: seq<Proc>, next: nat, next': nat, queue: seq<ProcId>, qk: seq<int>,
                    queue': seq<ProcId>, qk': seq<int>, rem: map<ProcId, int>)
    requires QueueOk(sorted, next, queue, qk, rem) && next <= next' <= |sorted|
    requires queue' == queue + IdList(sorted[next..next']) && qk' == qk + Range(next, next')
    requires forall k :: next <= k < next' ==> sorted[k].id in rem && rem[sorted[k].id] > 0
    ensures QueueOk(sorted, next', queue', qk', rem)
  {
    var ids, ks := IdList(sorted[next..next']), Range(next, next');
    forall i | |qk| <= i < |qk'|
      ensures qk'[i] == next + (i - |qk|) && queue'[i] == sorted[qk'[i]].id
    {
      var d := i - |qk|;
      assert qk'[i] == ks[d] == next + d;
      assert queue'[i] == ids[d] == sorted[next..next'][d].id;
    }
    forall k | 0 <= k < next' && k < |sorted| && sorted[k].id in rem && rem[sorted[k].id] > 0
      ensures k in qk'
    {
      if k >= next {
        assert qk'[|qk| + (k - next)] == k;
      }
    }
  }

  /** The admitted processes have arrived and have not been served or charged. */
  lemma AdmitService(sorted: seq<Proc>, next: nat, a: nat, next': nat, clock: int, timeline: seq<Interval<ProcId>>,
                     waiting: map<ProcId, int>, turnaround: map<ProcId, int>, rem: map<ProcId, int>)
    requires Keyed(sorted, rem) && Keyed(sorted, waiting) && Keyed(sorted, turnaround)
    requires ServiceOk(sorted, next, clock, timeline, rem)
    requires WaitOk(sorted, next, clock, timeline, waiting, rem)
    requires TurnaroundOk(sorted, next, timeline, waiting, turnaround, rem)
    requires next' == next + a <= |sorted| && a == Arrived(sorted[next..], clock)
    requires forall k :: 0 <= k < |sorted| ==> sorted[k].burst >= 1
    ensures ServiceOk(sorted, next', clock, timeline, rem)
    ensures WaitOk(sorted, next', clock, timeline, waiting, rem)
    ensures TurnaroundOk(sorted, next', timeline, waiting, turnaround, rem)
    ensures forall k :: next <= k < next' ==> sorted[k].id in rem && rem[sorted[k].id] > 0
  {
    forall k | next <= k < next'
      ensures sorted[k].arrival <= clock
    {
      assert sorted[next..][k - next] == sorted[k];
    }
  }

  /** An admission pass keeps the invariant. */
  lemma AdmitStep(sorted: seq<Proc>, pos: map<ProcId, int>, quantum: int, next: nat, pending: seq<Proc>,
                  queue: seq<ProcId>, qk: seq<int>, clock: int, timeline: seq<Interval<ProcId>>,
                  arrival: map<ProcId, int>, waiting: map<ProcId, int>,
                  turnaround: map<ProcId, int>, rem: map<ProcId, int>,
                  a: nat, next': nat, queue': seq<ProcId>, qk': seq<int>)
    requires Inv(sorted, pos, quantum, next, queue, qk, clock, timeline, arrival, waiting, turnaround, rem)
    requires pending == sorted[next..] && a == Arrived(pending, clock) && next' == next + a
    requires queue' == queue + IdList(pending[..a]) && qk' == qk + Range(next, next')
    ensures pending[a..] == sorted[next'..]
    ensures Inv(sorted, pos, quantum, next', queue', qk', clock, timeline, arrival, waiting, turnaround, rem)
  {
    assert pending[..a] == sorted[next..next'];
    AdmitService(sorted, next, a, next', clock, timeline, waiting, turnaround, rem);
    AdmitQueue(sorted, next, next', queue, qk, queue', qk', rem);
    AdmitFrame(sorted, pos, quantum, next, next', arrival, waiting, turnaround, rem);
  }

  /** Admission only moves the boundary between admitted and pending processes. */
  lemma AdmitFrame(sorted: seq<Proc>, pos: map<ProcId, int>, quantum: int, next: nat, next': nat,
                   arrival: map<ProcId, int>, waiting: map<ProcId, int>,
                   turnaround: map<ProcId, int>, rem: map<ProcId, int>)
    requires Frame(sorted, pos, quantum, next, arrival, waiting, turnaround, rem) && next' <= |sorted|
    ensures Frame(sorted, pos, quantum, next', arrival, waiting, turnaround, rem)
  {
  }

  /**
   * With nothing ready the clock jumps to the next arrival (lines 50-51):
   * no admitted process has time left, so only the clock moves.
   */
  lemma IdleStep(sorted: seq<Proc>, pos: map<ProcId, int>, quantum: int, next: nat,
                 qk: seq<int>, clock: int, timeline: seq<Interval<ProcId>>, arrival: map<ProcId, int>,
                 waiting: map<ProcId, int>, turnaround: map<ProcId, int>, rem: map<ProcId, int>, clock': int)
    requires Inv(sorted, pos, quantum, next, [], qk, clock, timeline, arrival, waiting, turnaround, rem)
    requires clock' >= clock
    ensures Inv(sorted, pos, quantum, next, [], qk, clock', timeline, arrival, waiting, turnaround, rem)
  {
  }

  /** The ready queue holds each id at most once (lines 24-25, 41-42). */
  lemma QueueDistinct(sorted: seq<Proc>, pos: map<ProcId, int>, next: nat, queue: seq<ProcId>, qk: seq<int>,
                      rem: map<ProcId, int>)
    requires Indexed(sorted, pos) && QueueOk(sorted, next, queue, qk, rem)
    ensures forall i, j :: 0 <= i < j < |queue| ==> queue[i] != queue[j]
  {
    forall i, j | 0 <= i < j < |queue|
      ensures queue[i] != queue[j]
    {
      assert pos[queue[i]] == qk[i] && pos[queue[j]] == qk[j];
    }
  }

  /** The ready queue and the pending list share no id (lines 24-25, 28). */
  lemma QueueApart(sorted: seq<Proc>, pos: map<ProcId, int>, next: nat, pending: seq<Proc>,
                   queue: seq<ProcId>, qk: seq<int>, rem: map<ProcId, int>)
    requires Indexed(sorted, pos) && QueueOk(sorted, next, queue, qk, rem)
    requires next <= |sorted| && pending == sorted[next..]
    ensures forall i, j :: 0 <= i < |queue| && 0 <= j < |pending| ==> queue[i] != pending[j].id
  {
    forall i, j | 0 <= i < |queue| && 0 <= j < |pending|
      ensures queue[i] != pending[j].id
    {
      assert pending[j] == sorted[next + j];
      assert pos[queue[i]] == qk[i] < next;
    }
  }

  /** An id of a sequence without repeats is charged once if it occurs at all. */
  lemma {:induction false} OccursOnce(s: seq<ProcId>, id: ProcId, exec: int)
    requires forall i, j :: 0 <= i < j < |s| ==> s[i] != s[j]
    ensures ChargeOf(s, id, exec) == if id in s then exec else 0
  {
    if s != [] {
      var n := |s| - 1;
      assert s == s[..n] + [s[n]];
      OccursOnce(s[..n], id, exec);
      assert id in s <==> id in s[..n] || id == s[n];
    }
  }

  /** Charging a queue without repeats charges each queued id exactly once. */
  lemma ChargedOnce(waiting: map<ProcId, int>, waiting': map<ProcId, int>, queue: seq<ProcId>, exec: int)
    requires forall i, j :: 0 <= i < j < |queue| ==> queue[i] != queue[j]
    requires waiting' == Charged(waiting, queue, exec)
    ensures forall id :: id in waiting ==> waiting'[id] == waiting[id] + (if id in queue then exec else 0)
  {
    ChargedValue(waiting, queue, exec);
    forall id | id in waiting
      ensures waiting'[id] == waiting[id] + (if id in queue then exec else 0)
    {
      OccursOnce(queue, id, exec);
    }
  }

  /** Charging the queued ids charges exactly the queued positions. */
  lemma ChargedByPosition(sorted: seq<Proc>, pos: map<ProcId, int>, queue: seq<ProcId>, qk: seq<int>,
                          waiting: map<ProcId, int>, waiting': map<ProcId, int>, exec: int)
    requires Indexed(sorted, pos) && Keyed(sorted, waiting) && |qk| == |queue|
    requires forall i :: 0 <= i < |qk| ==> 0 <= qk[i] < |sorted| && queue[i] == sorted[qk[i]].id
    requires waiting'.Keys == waiting.Keys
    requires forall id :: id in waiting ==> waiting'[id] == waiting[id] + (if id in queue then exec else 0)
    ensures forall k :: 0 <= k < |sorted| ==>
      waiting'[sorted[k].id] == waiting[sorted[k].id] + (if k in qk then exec else 0)
  {
    forall k | 0 <= k < |sorted|
      ensures sorted[k].id in queue <==> k in qk
    {
      if sorted[k].id in queue {
        var i :| 0 <= i < |queue| && queue[i] == sorted[k].id;
        assert pos[sorted[qk[i]].id] == qk[i];
      }
      if k in qk {
        var i :| 0 <= i < |qk| && qk[i] == k;
        assert queue[i] == sorted[k].id;
      }
    }
  }

  /**
   * One slice for the process at position `kc` of `exec` units, entered as
   * `(id, clock - exec, clock)`: its service grows by `exec` and its last
   * entry is the new one; the other processes keep theirs.
   */
  lemma SliceService(sorted: seq<Proc>, pos: map<ProcId, int>, next: nat, kc: int, exec: int,
                     clock: int, timeline: seq<Interval<ProcId>>, rem: map<ProcId, int>,
                     clock': int, timeline': seq<Interval<ProcId>>, r: int)
    requires Keyed(sorted, rem) && Indexed(sorted, pos)
    requires ServiceOk(sorted, next, clock, timeline, rem)
    requires 0 <= kc < next <= |sorted| && 0 <= exec <= rem[sorted[kc].id] && r == rem[sorted[kc].id] - exec
    requires clock' == clock + exec && timeline' == timeline + [Interval(sorted[kc].id, clock - exec, clock)]
    ensures Keyed(sorted, rem[sorted[kc].id := r])
    ensures ServiceOk(sorted, next, clock', timeline', rem[sorted[kc].id := r])
    ensures forall k :: 0 <= k < |sorted| ==>
      Served(timeline', sorted[k].id) == Served(timeline, sorted[k].id) + (if k == kc then exec else 0)
    ensures forall k :: 0 <= k < |sorted| && k != kc ==> LastOf(timeline', sorted[k].id) == LastOf(timeline, sorted[k].id)
    ensures LastOf(timeline', sorted[kc].id) == Interval(sorted[kc].id, clock - exec, clock)
  {
    var pid := sorted[kc].id;
    var e := Interval(pid, clock - exec, clock);
    forall k | 0 <= k < |sorted|
      ensures Served(timeline', sorted[k].id) == Served(timeline, sorted[k].id) + (if k == kc then exec else 0)
      ensures LastOf(timeline', sorted[k].id) == if k == kc then e else LastOf(timeline, sorted[k].id)
    {
      assert k != kc ==> sorted[k].id != pid;
      ServedAppend(timeline, e, sorted[k].id);
      LastOfAppend(timeline, e, sorted[k].id);
    }
  }

  /** The entry of a slice ends at the clock, after its process arrived and after every earlier entry. */
  lemma SliceTimeline(sorted: seq<Proc>, pos: map<ProcId, int>, quantum: int, kc: int, exec: int,
                      clock: int, timeline: seq<Interval<ProcId>>, clock': int, timeline': seq<Interval<ProcId>>)
    requires TimelineOk(sorted, pos, quantum, clock, timeline) && Indexed(sorted, pos)
    requires 0 <= kc < |sorted| && sorted[kc].arrival <= clock && 1 <= exec <= quantum
    requires clock' == clock + exec && timeline' == timeline + [Interval(sorted[kc].id, clock - exec, clock)]
    ensures TimelineOk(sorted, pos, quantum, clock', timeline')
  {
    assert forall j :: 0 <= j < |timeline| ==> timeline'[j] == timeline[j];
    StopsRisingAppend(timeline, Interval(sorted[kc].id, clock - exec, clock));
  }

  /**
   * Waiting after a slice of the process at position `kc`: the queued
   * processes (positions `qr`) were charged `exec`, the running one was not
   * but was served `exec`.
   */
  lemma SliceWaiting(sorted: seq<Proc>, pos: map<ProcId, int>, next: nat, kc: int, exec: int, clock: int,
                     qr: seq<int>, timeline: seq<Interval<ProcId>>, waiting: map<ProcId, int>, rem: map<ProcId, int>,
                     clock': int, timeline': seq<Interval<ProcId>>, waiting': map<ProcId, int>, r: int)
    requires Keyed(sorted, rem) && Keyed(sorted, waiting) && Keyed(sorted, waiting') && Indexed(sorted, pos)
    requires WaitOk(sorted, next, clock, timeline, waiting, rem)
    requires 0 <= kc < next <= |sorted| && rem[sorted[kc].id] > 0 && exec >= 1 && r == rem[sorted[kc].id] - exec
    requires clock' == clock + exec
    requires forall i :: 0 <= i < |qr| ==> 0 <= qr[i] < next && qr[i] != kc
    requires forall k :: 0 <= k < next && k != kc && rem[sorted[k].id] > 0 ==> k in qr
    requires forall k :: 0 <= k < |sorted| ==>
      Served(timeline', sorted[k].id) == Served(timeline, sorted[k].id) + (if k == kc then exec else 0)
    requires forall k :: 0 <= k < |sorted| ==>
      waiting'[sorted[k].id] == waiting[sorted[k].id] + (if k in qr then exec else 0)
    ensures Keyed(sorted, rem[sorted[kc].id := r])
    ensures WaitOk(sorted, next, clock', timeline', waiting', rem[sorted[kc].id := r])
  {
    var rem' := rem[sorted[kc].id := r];
    assert forall k :: 0 <= k < |sorted| && k != kc ==> sorted[k].id != sorted[kc].id;
    assert forall k :: 0 <= k < |sorted| && k != kc ==> rem'[sorted[k].id] == rem[sorted[k].id];
  }

  /** Turnaround after a slice: set for the running process exactly when it finishes. */
  lemma SliceTurnaround(sorted: seq<Proc>, pos: map<ProcId, int>, next: nat, kc: int, exec: int,
                        clock: int, clock': int,
                        qr: seq<int>, timeline: seq<Interval<ProcId>>, waiting: map<ProcId, int>,
                        turnaround: map<ProcId, int>, rem: map<ProcId, int>,
                        timeline': seq<Interval<ProcId>>, waiting': map<ProcId, int>,
                        turnaround': map<ProcId, int>, pid: ProcId, r: int, tat: int)
    requires Keyed(sorted, rem) && Keyed(sorted, waiting) && Keyed(sorted, turnaround) && Indexed(sorted, pos)
    requires Keyed(sorted, waiting') && Keyed(sorted, turnaround')
    requires TurnaroundOk(sorted, next, timeline, waiting, turnaround, rem)
    requires 0 <= kc < next <= |sorted| && rem[sorted[kc].id] > 0 && exec >= 1 && r == rem[sorted[kc].id] - exec
    requires clock' == clock + exec
    requires waiting[sorted[kc].id] + Served(timeline, sorted[kc].id) <= clock - sorted[kc].arrival
    requires Served(timeline, sorted[kc].id) + rem[sorted[kc].id] == sorted[kc].burst
    requires forall i :: 0 <= i < |qr| ==> 0 <= qr[i] < |sorted| && qr[i] != kc && rem[sorted[qr[i]].id] > 0
    requires forall k :: 0 <= k < |sorted| && k != kc ==> LastOf(timeline', sorted[k].id) == LastOf(timeline, sorted[k].id)
    requires LastOf(timeline', sorted[kc].id) == Interval(sorted[kc].id, clock - exec, clock)
    requires forall k :: 0 <= k < |sorted| ==>
      waiting'[sorted[k].id] == waiting[sorted[k].id] + (if k in qr then exec else 0)
    requires r > 0 ==> turnaround' == turnaround
    requires pid == sorted[kc].id
    requires r <= 0 ==> turnaround' == turnaround[pid := tat] && tat == clock' - sorted[kc].arrival
    ensures Keyed(sorted, rem[sorted[kc].id := r])
    ensures TurnaroundOk(sorted, next, timeline', waiting', turnaround', rem[sorted[kc].id := r])
  {
    var rem' := rem[sorted[kc].id := r];
    assert forall k :: 0 <= k < |sorted| && k != kc ==> sorted[k].id != sorted[kc].id;
    assert forall k :: 0 <= k < |sorted| && k != kc ==> rem'[sorted[k].id] == rem[sorted[k].id];
    assert forall k :: 0 <= k < |sorted| && k != kc ==> turnaround'[sorted[k].id] == turnaround[sorted[k].id];
  }

  /** The run process leaves the queue head and goes to the tail exactly when it has time left. */
  lemma SliceQueue(sorted: seq<Proc>, pos: map<ProcId, int>, next: nat, queue: seq<ProcId>, qk: seq<int>,
                   rem: map<ProcId, int>, queue': seq<ProcId>, qk': seq<int>, r: int)
    requires Indexed(sorted, pos) && QueueOk(sorted, next, queue, qk, rem) && queue != []
    requires r > 0 ==> queue' == queue[1..] + [queue[0]] && qk' == qk[1..] + [qk[0]]
    requires r <= 0 ==> queue' == queue[1..] && qk' == qk[1..]
    ensures QueueOk(sorted, next, queue', qk', rem[queue[0] := r])
  {
    var kc := qk[0];
    var pid := queue[0];
    var rem' := rem[pid := r];
    assert forall k :: 0 <= k < |sorted| && k != kc ==> sorted[k].id != pid;
    assert forall i :: 0 <= i < |qk| - 1 ==> qk[1..][i] == qk[i + 1] && qk[i + 1] != kc;
    if r > 0 {
      assert forall i :: 0 <= i < |qk'| - 1 ==> qk'[i] == qk[i + 1];
    } else {
      forall k | 0 <= k < next && k < |sorted| && sorted[k].id in rem' && rem'[sorted[k].id] > 0
        ensures k in qk'
      {
        assert k in qk && k != kc;
      }
    }
  }

  /**
   * One slice keeps the invariant (lines 28-46): the head runs for `exec`,
   * its entry is appended, the clock advances, the rest of the queue is
   * charged, and the head is requeued or gets its turnaround.
   */
  lemma SliceStep(sorted: seq<Proc>, pos: map<ProcId, int>, quantum: int, next: nat, exec: int,
                  queue: seq<ProcId>, qk: seq<int>, clock: int, timeline: seq<Interval<ProcId>>,
                  arrival: map<ProcId, int>, waiting: map<ProcId, int>,
                  turnaround: map<ProcId, int>, rem: map<ProcId, int>,
                  queue': seq<ProcId>, qk': seq<int>, clock': int, timeline': seq<Interval<ProcId>>,
                  waiting': map<ProcId, int>, turnaround': map<ProcId, int>, r: int,
                  rem': map<ProcId, int>, tat: int)
    requires Inv(sorted, pos, quantum, next, queue, qk, clock, timeline, arrival, waiting, turnaround, rem)
    requires queue != [] && exec == Min(quantum, rem[queue[0]]) && r == rem[queue[0]] - exec
    requires rem' == rem[queue[0] := r]
    requires clock' == clock + exec && timeline' == timeline + [Interval(queue[0], clock - exec, clock)]
    requires waiting'.Keys == waiting.Keys
    requires forall k :: 0 <= k < |sorted| ==>
      waiting'[sorted[k].id] == waiting[sorted[k].id] + (if k in qk[1..] then exec else 0)
    requires r > 0 ==> queue' == queue[1..] + [queue[0]] && qk' == qk[1..] + [qk[0]] && turnaround' == turnaround
    requires r <= 0 ==>
      queue' == queue[1..] && qk' == qk[1..] && turnaround' == turnaround[queue[0] := tat]
      && tat == clock' - arrival[queue[0]]
    ensures Inv(sorted, pos, quantum, next, queue', qk', clock', timeline', arrival, waiting', turnaround', rem')
    ensures Total(sorted, rem') < Total(sorted, rem)
  {
    var kc := qk[0];
    assert sorted[kc].id == queue[0];
    SliceService(sorted, pos, next, kc, exec, clock, timeline, rem, clock', timeline', r);
    assert Keyed(sorted, waiting') && Keyed(sorted, turnaround');
    SliceTurnaround(sorted, pos, next, kc, exec, clock, clock', qk[1..], timeline, waiting, turnaround, rem,
                    timeline', waiting', turnaround', queue[0], r, tat);
    SliceWaiting(sorted, pos, next, kc, exec, clock, qk[1..], timeline, waiting, rem, clock', timeline', waiting', r);
    SliceTimeline(sorted, pos, quantum, kc, exec, clock, timeline, clock', timeline');
    SliceQueue(sorted, pos, next, queue, qk, rem, queue', qk', r);
    TotalAt(sorted, pos, rem, kc, r);
    KeysKept(rem, queue[0], r);
    if r <= 0 {
      KeysKept(turnaround, queue[0], turnaround'[queue[0]]);
    }
    SliceFrame(sorted, pos, quantum, next, arrival, waiting, turnaround, rem, waiting', turnaround', rem');
  }

  /** A slice changes the values of the dictionaries but not their keys. */
  lemma SliceFrame(sorted: seq<Proc>, pos: map<ProcId, int>, quantum: int, next: nat,
                   arrival: map<ProcId, int>, waiting: map<ProcId, int>,
                   turnaround: map<ProcId, int>, rem: map<ProcId, int>,
                   waiting': map<ProcId, int>, turnaround': map<ProcId, int>, rem': map<ProcId, int>)
    requires Frame(sorted, pos, quantum, next, arrival, waiting, turnaround, rem)
    requires waiting'.Keys == waiting.Keys && turnaround'.Keys == turnaround.Keys && rem'.Keys == rem.Keys
    ensures Frame(sorted, pos, quantum, next, arrival, waiting', turnaround', rem')
  {
  }

  /**
   * One dispatch (lines 27-51), from the queue the admission pass left: the
   * head runs for `exec = min(quantum, remaining)`, its entry
   * `(pid, clock - exec, clock)` is appended and the clock advances by
   * `exec`; each id left in the queue is charged `exec` of waiting time
   * per occurrence; the
   * head goes back to the tail exactly when it has time left, and gets
   * `turnaround = clock - arrival` when it has none. With an empty queue
   * only the clock moves, to the first pending arrival if there is one.
   */
  predicate Dispatched(quantum: int, pending: seq<Proc>, queue: seq<ProcId>, clock: int,
                       timeline: seq<Interval<ProcId>>, arrival: map<ProcId, int>, waiting: map<ProcId, int>,
                       turnaround: map<ProcId, int>, rem: map<ProcId, int>,
                       queue': seq<ProcId>, clock': int, timeline': seq<Interval<ProcId>>,
                       waiting': map<ProcId, int>, turnaround': map<ProcId, int>, rem': map<ProcId, int>)
  {
    if queue != [] then
      var pid := queue[0];
      && pid in rem && pid in arrival
      && var exec := Min(quantum, rem[pid]);
      && clock' == clock + exec
      && timeline' == timeline + [Interval(pid, clock - exec, clock)]
      && rem' == rem[pid := rem[pid] - exec]
      && waiting' == Charged(waiting, queue[1..], exec)
      && queue' == queue[1..] + (if rem[pid] - exec > 0 then [pid] else [])
      && turnaround' == (if rem[pid] - exec == 0 then turnaround[pid := clock' - arrival[pid]] else turnaround)
    else
      && queue' == queue && clock' == (if pending != [] then pending[0].arrival else clock)
      && timeline' == timeline && waiting' == waiting && turnaround' == turnaround && rem' == rem
  }

  /**
   * Lines 27-51 as code: one slice for the head of the queue, or, with an
   * empty queue, the jump to the first pending arrival.
   */
  method Dispatch(quantum: int, pending: seq<Proc>, queue: seq<ProcId>, clock: int,
                  timeline: seq<Interval<ProcId>>, arrival: map<ProcId, int>, waiting: map<ProcId, int>,
                  turnaround: map<ProcId, int>, rem: map<ProcId, int>)
    returns (queue': seq<ProcId>, clock': int, timeline': seq<Interval<ProcId>>, waiting': map<ProcId, int>,
             turnaround': map<ProcId, int>, rem': map<ProcId, int>)
    requires queue != [] ==> queue[0] in rem && queue[0] in arrival
    requires forall i :: 0 <= i < |queue| ==> queue[i] in waiting
    ensures Dispatched(quantum, pending, queue, clock, timeline, arrival, waiting, turnaround, rem,
                       queue', clock', timeline', waiting', turnaround', rem')
  {
    queue', clock' := queue, clock;
    timeline', waiting', turnaround', rem' := timeline, waiting, turnaround, rem;

    if queue != [] {
      var pid := queue[0];
      queue' := queue[1..];

      // Execute the process
      var exec := Min(quantum, rem[pid]);
      rem' := rem[pid := rem[pid] - exec];
      timeline' := timeline + [Interval(pid, clock - exec, clock)];
      clock' := clock + exec;

      // Update waiting time for other processes
      waiting' := ChargeWaiting(waiting, queue', exec);

      // Check if the process needs more time
      if rem'[pid] > 0 {
        queue' := queue' + [pid];
      }

      // Update turnaround time
      if rem'[pid] == 0 {
        turnaround' := turnaround[pid := clock' - arrival[pid]];
      }
    } else {
      // If no process is running and processes are pending, advance time
      if pending != [] {
        clock' := pending[0].arrival;
      }
    }
  }

  /**
   * The charge of a slice: every other queued process waits the length of
   * the slice, once, whether counted by id or by position in the arrival
   * order.
   */
  lemma SliceCharge(sorted: seq<Proc>, pos: map<ProcId, int>, next: nat, queue: seq<ProcId>, qk: seq<int>,
                    rem: map<ProcId, int>, waiting: map<ProcId, int>, waiting': map<ProcId, int>, exec: int)
    requires Indexed(sorted, pos) && Keyed(sorted, waiting) && QueueOk(sorted, next, queue, qk, rem)
    requires queue != [] && waiting' == Charged(waiting, queue[1..], exec)
    ensures forall id :: id in waiting ==>
      waiting'[id] == waiting[id] + (if id in queue[1..] then exec else 0)
    ensures forall k :: 0 <= k < |sorted| ==>
      waiting'[sorted[k].id] == waiting[sorted[k].id] + (if k in qk[1..] then exec else 0)
  {
    QueueDistinct(sorted, pos, next, queue, qk, rem);
    ChargedOnce(waiting, waiting', queue[1..], exec);
    ChargedByPosition(sorted, pos, queue[1..], qk[1..], waiting, waiting', exec);
  }

  /**
   * A slice as `Dispatched` describes it, taken apart: the length `exec`
   * of the slice, the time `r` the head has left, and the queue positions
   * `qk'` that follow the head to the tail or drop it.
   */
  lemma SliceParts(quantum: int, pending: seq<Proc>, queue: seq<ProcId>, qk: seq<int>, clock: int,
                   timeline: seq<Interval<ProcId>>, arrival: map<ProcId, int>, waiting: map<ProcId, int>,
                   turnaround: map<ProcId, int>, rem: map<ProcId, int>,
                   queue': seq<ProcId>, clock': int, timeline': seq<Interval<ProcId>>,
                   waiting': map<ProcId, int>, turnaround': map<ProcId, int>, rem': map<ProcId, int>)
    returns (exec: int, r: int, qk': seq<int>)
    requires queue != [] && |qk| == |queue|
    requires Dispatched(quantum, pending, queue, clock, timeline, arrival, waiting, turnaround, rem,
                        queue', clock', timeline', waiting', turnaround', rem')
    ensures queue[0] in rem && queue[0] in arrival
    ensures exec == Min(quantum, rem[queue[0]]) && r == rem[queue[0]] - exec && rem' == rem[queue[0] := r]
    ensures clock' == clock + exec && timeline' == timeline + [Interval(queue[0], clock - exec, clock)]
    ensures waiting' == Charged(waiting, queue[1..], exec)
    ensures r > 0 ==> queue' == queue[1..] + [queue[0]] && qk' == qk[1..] + [qk[0]] && turnaround' == turnaround
    ensures r <= 0 ==>
      queue' == queue[1..] && qk' == qk[1..] && turnaround' == turnaround[queue[0] := clock' - arrival[queue[0]]]
  {
    exec := Min(quantum, rem[queue[0]]);
    r := rem[queue[0]] - exec;
    qk' := if r > 0 then qk[1..] + [qk[0]] else qk[1..];
  }

  /**
   * A slice as `Dispatched` describes it charges every other queued process
   * the length of the slice, once.
   */
  lemma DispatchCharge(sorted: seq<Proc>, pos: map<ProcId, int>, quantum: int, next: nat,
                       pending: seq<Proc>, queue: seq<ProcId>, qk: seq<int>, clock: int,
                       timeline: seq<Interval<ProcId>>, arrival: map<ProcId, int>, waiting: map<ProcId, int>,
                       turnaround: map<ProcId, int>, rem: map<ProcId, int>,
                       queue': seq<ProcId>, clock': int, timeline': seq<Interval<ProcId>>,
                       waiting': map<ProcId, int>, turnaround': map<ProcId, int>, rem': map<ProcId, int>)
    requires Indexed(sorted, pos) && Keyed(sorted, waiting) && QueueOk(sorted, next, queue, qk, rem)
    requires queue != []
    requires Dispatched(quantum, pending, queue, clock, timeline, arrival, waiting, turnaround, rem,
                        queue', clock', timeline', waiting', turnaround', rem')
    ensures forall id :: id in waiting ==>
      waiting'[id] == waiting[id] + (if id in queue[1..] then clock' - clock else 0)
  {
    var exec, r, qk' := SliceParts(quantum, pending, queue, qk, clock, timeline, arrival, waiting, turnaround,
                                   rem, queue', clock', timeline', waiting', turnaround', rem');
    SliceCharge(sorted, pos, next, queue, qk, rem, waiting, waiting', exec);
  }

  /**
   * A slice as `Dispatched` describes it keeps the invariant and lowers the
   * total remaining time; `qk'` follows the queue.
   */
  lemma SliceKeeps(sorted: seq<Proc>, pos: map<ProcId, int>, quantum: int, next: nat,
                   pending: seq<Proc>, queue: seq<ProcId>, qk: seq<int>, clock: int,
                   timeline: seq<Interval<ProcId>>, arrival: map<ProcId, int>, waiting: map<ProcId, int>,
                   turnaround: map<ProcId, int>, rem: map<ProcId, int>,
                   queue': seq<ProcId>, clock': int, timeline': seq<Interval<ProcId>>,
                   waiting': map<ProcId, int>, turnaround': map<ProcId, int>, rem': map<ProcId, int>)
    returns (qk': seq<int>)
    requires Inv(sorted, pos, quantum, next, queue, qk, clock, timeline, arrival, waiting, turnaround, rem)
    requires queue != []
    requires Dispatched(quantum, pending, queue, clock, timeline, arrival, waiting, turnaround, rem,
                        queue', clock', timeline', waiting', turnaround', rem')
    ensures Inv(sorted, pos, quantum, next, queue', qk', clock', timeline', arrival, waiting', turnaround', rem')
    ensures Total(sorted, rem') < Total(sorted, rem)
  {
    var exec, r, qk1 := SliceParts(quantum, pending, queue, qk, clock, timeline, arrival, waiting, turnaround,
                                   rem, queue', clock', timeline', waiting', turnaround', rem');
    SliceCharge(sorted, pos, next, queue, qk, rem, waiting, waiting', exec);
    qk' := qk1;
    SliceStep(sorted, pos, quantum, next, exec, queue, qk, clock, timeline, arrival, waiting, turnaround, rem,
              queue', qk', clock', timeline', waiting', turnaround', r, rem', clock' - arrival[queue[0]]);
  }

  /**
   * The dispatch part of an iteration (lines 27-51), with the loop
   * invariant it keeps: a slice lowers the total remaining time and charges
   * exactly the other queued processes, each once; with an empty queue the
   * clock jumps strictly forward to the next arrival.
   */
  method RunHead(ghost sorted: seq<Proc>, ghost pos: map<ProcId, int>, quantum: int, ghost next: nat,
                 pending: seq<Proc>, queue: seq<ProcId>, ghost qk: seq<int>, clock: int,
                 timeline: seq<Interval<ProcId>>, arrival: map<ProcId, int>, waiting: map<ProcId, int>,
                 turnaround: map<ProcId, int>, rem: map<ProcId, int>)
    returns (queue': seq<ProcId>, ghost qk': seq<int>, clock': int,
             timeline': seq<Interval<ProcId>>, waiting': map<ProcId, int>,
             turnaround': map<ProcId, int>, rem': map<ProcId, int>)
    requires Inv(sorted, pos, quantum, next, queue, qk, clock, timeline, arrival, waiting, turnaround, rem)
    requires pending == sorted[next..] && (queue == [] && pending != [] ==> clock < pending[0].arrival)
    ensures Inv(sorted, pos, quantum, next, queue', qk', clock', timeline', arrival, waiting', turnaround', rem')
    ensures Dispatched(quantum, pending, queue, clock, timeline, arrival, waiting, turnaround, rem,
                       queue', clock', timeline', waiting', turnaround', rem')
    ensures rem'.Keys == rem.Keys
    ensures queue != [] ==> Total(sorted, rem') < Total(sorted, rem)
    ensures queue != [] ==> forall id :: id in waiting ==>
      waiting'[id] == waiting[id] + (if id in queue[1..] then clock' - clock else 0)
    ensures queue == [] && pending != [] ==> clock < clock'
  {
    queue', clock', timeline', waiting', turnaround', rem' :=
      Dispatch(quantum, pending, queue, clock, timeline, arrival, waiting, turnaround, rem);
    if queue != [] {
      qk' := SliceKeeps(sorted, pos, quantum, next, pending, queue, qk, clock, timeline, arrival, waiting, turnaround,
                        rem, queue', clock', timeline', waiting', turnaround', rem');
      DispatchCharge(sorted, pos, quantum, next, pending, queue, qk, clock, timeline, arrival, waiting, turnaround,
                     rem, queue', clock', timeline', waiting', turnaround', rem');
    } else {
      qk' := qk;
      IdleStep(sorted, pos, quantum, next, qk, clock, timeline, arrival, waiting, turnaround, rem, clock');
    }
  }

  /**
   * One iteration of the loop (lines 21-51): the admission pass, then one
   * slice for the head of the queue or, with nothing ready, the jump to the
   * next arrival. The total remaining time falls, or the clock jumps
   * strictly forward to the arrival of the first pending process.
   */
  method Step(ghost sorted: seq<Proc>, ghost pos: map<ProcId, int>, quantum: int, ghost next: nat,
              pending: seq<Proc>, queue: seq<ProcId>, ghost qk: seq<int>, clock: int,
              timeline: seq<Interval<ProcId>>, arrival: map<ProcId, int>, waiting: map<ProcId, int>,
              turnaround: map<ProcId, int>, rem: map<ProcId, int>)
    returns (ghost next': nat, pending': seq<Proc>, ghost admitted: seq<ProcId>, queue': seq<ProcId>,
             ghost qk': seq<int>, clock': int, timeline': seq<Interval<ProcId>>, waiting': map<ProcId, int>,
             turnaround': map<ProcId, int>, rem': map<ProcId, int>)
    requires Inv(sorted, pos, quantum, next, queue, qk, clock, timeline, arrival, waiting, turnaround, rem)
    requires pending == sorted[next..] && (pending != [] || queue != [])
    ensures Inv(sorted, pos, quantum, next', queue', qk', clock', timeline', arrival, waiting', turnaround', rem')
    ensures pending' == sorted[next'..] && rem'.Keys == rem.Keys
    ensures pending' == pending[Arrived(pending, clock)..] && admitted == queue + IdList(pending[..Arrived(pending, clock)])
    ensures Dispatched(quantum, pending', admitted, clock, timeline, arrival, waiting, turnaround, rem,
                       queue', clock', timeline', waiting', turnaround', rem')
    ensures Total(sorted, rem') < Total(sorted, rem)
      || (Total(sorted, rem') == Total(sorted, rem) && pending' == pending && pending != []
          && clock < clock' == pending[0].arrival)
  {
    // Add initially arrived processes to the queue
    ghost var a := Arrived(pending, clock);
    next' := next + a;
    ghost var qk1 := qk + Range(next, next');
    var queue1;
    pending', queue1 := AdmitArrived(pending, queue, clock);
    admitted := queue1;
    AdmitStep(sorted, pos, quantum, next, pending, queue, qk, clock, timeline, arrival, waiting, turnaround, rem,
              a, next', queue1, qk1);
    queue', qk', clock', timeline', waiting', turnaround', rem' :=
      RunHead(sorted, pos, quantum, next', pending', queue1, qk1, clock, timeline, arrival, waiting, turnaround, rem);
  }

  /**
   * `round_robin_scheduling` (lines 7-58): the timeline, the waiting and
   * turnaround dictionaries, and their averages. Every process is served
   * its whole burst in slices of at most one quantum, none recorded before
   * it arrived; its turnaround is the clock at which its last slice ended
   * minus its arrival, and covers its waiting time and its burst.
   */
  method RoundRobinScheduling(processes: seq<Proc>, quantum: int)
    returns (timeline: seq<Interval<ProcId>>, waiting: map<ProcId, int>, turnaround: map<ProcId, int>,
             avgWaiting: real, avgTurnaround: real)
    requires quantum >= 1
    requires forall i :: 0 <= i < |processes| ==> processes[i].burst >= 1
    requires DistinctIds(processes)
    ensures waiting.Keys == turnaround.Keys == Ids(processes)
    ensures Completed(processes, timeline, waiting, turnaround)
    ensures forall j :: 0 <= j < |timeline| ==> timeline[j].id in Ids(processes) && 1 <= Length(timeline[j]) <= quantum
    ensures EndsAfterArrival(processes, timeline)
    ensures forall j, j' :: 0 <= j < j' < |timeline| ==> timeline[j].stop < timeline[j'].stop
    ensures |processes| == 0 ==> avgWaiting == 0.0 && avgTurnaround == 0.0
    ensures |processes| > 0 ==>
      && avgWaiting * (|processes| as real) == Total(processes, waiting) as real
      && avgTurnaround * (|processes| as real) == Total(processes, turnaround) as real
  {
    // Sort processes by their arrival time
    var pending := SortByKey(processes, ArrivalOf);
    ghost var sorted := pending;
    ghost var pos := SortedSetup(processes, sorted);

    var arrival, rem;
    waiting, turnaround, rem, arrival := Dictionaries(sorted, pos, quantum, pending);
    InitialKeys(processes, sorted, rem);
    ghost var qk, clock;
    timeline, waiting, turnaround, rem, qk, clock :=
      Schedule(sorted, pos, quantum, pending, arrival, waiting, turnaround, rem);
    Concluded(processes, sorted, pos, quantum, qk, clock, timeline, arrival, waiting, turnaround, rem);

    avgWaiting, avgTurnaround := Averages(processes, pending, waiting, turnaround);
  }

  /**
   * Lines 53-55: the two averages over the dictionaries, 0 when there are
   * no processes.
   */
  method Averages(ghost processes: seq<Proc>, pending: seq<Proc>, waiting: map<ProcId, int>,
                  turnaround: map<ProcId, int>)
    returns (avgWaiting: real, avgTurnaround: real)
    requires multiset(pending) == multiset(processes)
    requires Keyed(processes, waiting) && Keyed(processes, turnaround)
    requires Keyed(pending, waiting) && Keyed(pending, turnaround)
    ensures |processes| == 0 ==> avgWaiting == 0.0 && avgTurnaround == 0.0
    ensures |processes| > 0 ==>
      && avgWaiting * (|processes| as real) == Total(processes, waiting) as real
      && avgTurnaround * (|processes| as real) == Total(processes, turnaround) as real
  {
    // Calculate average waiting and turnaround times
    avgWaiting := Mean(pending, waiting);
    avgTurnaround := Mean(pending, turnaround);
    MeanReordered(pending, processes, waiting);
    MeanReordered(pending, processes, turnaround);
  }

  /** Every process of `ps` was served its whole burst and has its metrics (lines 31-46). */
  ghost predicate Completed(ps: seq<Proc>, timeline: seq<Interval<ProcId>>,
                            waiting: map<ProcId, int>, turnaround: map<ProcId, int>)
  {
    forall i :: 0 <= i < |ps| ==>
      var p := ps[i];
      && p.id in waiting && p.id in turnaround
      && Served(timeline, p.id) == p.burst
      && turnaround[p.id] == FinishedAt(LastOf(timeline, p.id)) - p.arrival
      && 0 <= waiting[p.id] && waiting[p.id] + p.burst <= turnaround[p.id]
  }

  /** No entry of a process ends before the process arrived. */
  ghost predicate EndsAfterArrival(ps: seq<Proc>, timeline: seq<Interval<ProcId>>)
  {
    forall i, j :: 0 <= i < |ps| && 0 <= j < |timeline| && timeline[j].id == ps[i].id ==>
      ps[i].arrival <= timeline[j].stop
  }

  /**
   * The state the loop starts from: the four dictionaries of lines 15-18
   * hold one entry per process, with no waiting or turnaround time yet and
   * the whole burst remaining.
   */
  ghost predicate Fresh(sorted: seq<Proc>, pos: map<ProcId, int>, quantum: int, arrival: map<ProcId, int>,
                        waiting: map<ProcId, int>, turnaround: map<ProcId, int>, rem: map<ProcId, int>)
  {
    && quantum >= 1 && Indexed(sorted, pos)
    && (forall k :: 0 <= k < |sorted| ==>
          && sorted[k].burst >= 1 && sorted[k].id in arrival && arrival[sorted[k].id] == sorted[k].arrival
          && sorted[k].id in waiting && waiting[sorted[k].id] == 0
          && sorted[k].id in turnaround && turnaround[sorted[k].id] == 0
          && sorted[k].id in rem && rem[sorted[k].id] == sorted[k].burst)
    && waiting.Keys == rem.Keys && turnaround.Keys == rem.Keys
  }

  /** With an empty queue and timeline at clock 1, the fresh dictionaries satisfy the loop invariant. */
  lemma Initially(sorted: seq<Proc>, pos: map<ProcId, int>, quantum: int, next: nat, queue: seq<ProcId>,
                  qk: seq<int>, clock: int, timeline: seq<Interval<ProcId>>, arrival: map<ProcId, int>,
                  waiting: map<ProcId, int>, turnaround: map<ProcId, int>, rem: map<ProcId, int>)
    requires Fresh(sorted, pos, quantum, arrival, waiting, turnaround, rem)
    requires next == 0 && queue == [] && qk == [] && clock == 1 && timeline == []
    ensures Inv(sorted, pos, quantum, next, queue, qk, clock, timeline, arrival, waiting, turnaround, rem)
  {
  }

  /** The dictionaries of lines 15-18, keyed by the process ids. */
  method Dictionaries(ghost sorted: seq<Proc>, ghost pos: map<ProcId, int>, quantum: int, pending: seq<Proc>)
    returns (waiting: map<ProcId, int>, turnaround: map<ProcId, int>, rem: map<ProcId, int>,
             arrival: map<ProcId, int>)
    requires quantum >= 1 && pending == sorted && Indexed(sorted, pos)
    requires forall k :: 0 <= k < |sorted| ==> sorted[k].burst >= 1
    ensures Fresh(sorted, pos, quantum, arrival, waiting, turnaround, rem)
    ensures forall id :: id in rem ==> exists k :: 0 <= k < |sorted| && sorted[k].id == id
  {
    waiting := map k | 0 <= k < |pending| :: pending[k].id := 0;
    turnaround := map k | 0 <= k < |pending| :: pending[k].id := 0;
    rem := map k | 0 <= k < |pending| :: pending[k].id := pending[k].burst;
    arrival := map k | 0 <= k < |pending| :: pending[k].id := pending[k].arrival;
    assert forall k :: 0 <= k < |sorted| ==>
      rem[sorted[k].id] == sorted[k].burst && arrival[sorted[k].id] == sorted[k].arrival;
    assert waiting.Keys == rem.Keys && turnaround.Keys == rem.Keys by {
      forall id | id in rem || id in waiting || id in turnaround
        ensures id in rem && id in waiting && id in turnaround
      {
        var k :| 0 <= k < |pending| && pending[k].id == id;
      }
    }
  }

  /**
   * The `while processes or queue` loop (lines 21-51), from an empty queue,
   * an empty timeline and the clock at 1, until every process is admitted
   * and the queue is empty.
   */
  method Schedule(ghost sorted: seq<Proc>, ghost pos: map<ProcId, int>, quantum: int, pending: seq<Proc>,
                  arrival: map<ProcId, int>, waiting: map<ProcId, int>, turnaround: map<ProcId, int>,
                  rem: map<ProcId, int>)
    returns (timeline: seq<Interval<ProcId>>, waiting': map<ProcId, int>, turnaround': map<ProcId, int>,
             rem': map<ProcId, int>, ghost qk: seq<int>, ghost clock': int)
    requires pending == sorted && Fresh(sorted, pos, quantum, arrival, waiting, turnaround, rem)
    ensures Inv(sorted, pos, quantum, |sorted|, [], qk, clock', timeline, arrival, waiting', turnaround', rem')
    ensures rem'.Keys == rem.Keys
  {
    var pending := pending;
    var queue: seq<ProcId> := [];
    var clock := 1;
    timeline, waiting', turnaround', rem' := [], waiting, turnaround, rem;
    ghost var next: nat := 0;
    qk := [];
    Initially(sorted, pos, quantum, next, queue, qk, clock, timeline, arrival, waiting', turnaround', rem');

    while pending != [] || queue != []
      invariant Inv(sorted, pos, quantum, next, queue, qk, clock, timeline, arrival, waiting', turnaround', rem')
      invariant pending == sorted[next..]
      invariant rem'.Keys == rem.Keys
      decreases Total(sorted, rem'), |pending|, if pending != [] && pending[0].arrival > clock then 1 else 0
    {
      TotalZero(sorted, rem');
      ghost var admitted;
      next, pending, admitted, queue, qk, clock, timeline, waiting', turnaround', rem' :=
        Step(sorted, pos, quantum, next, pending, queue, qk, clock, timeline, arrival, waiting', turnaround', rem');
    }
    assert |sorted[next..]| == 0 && queue == [];
    clock' := clock;
  }

  /** Once every process is admitted and the queue is empty, every process is finished. */
  lemma AllFinished(sorted: seq<Proc>, pos: map<ProcId, int>, quantum: int, qk: seq<int>,
                    clock: int, timeline: seq<Interval<ProcId>>, arrival: map<ProcId, int>,
                    waiting: map<ProcId, int>, turnaround: map<ProcId, int>, rem: map<ProcId, int>)
    requires Inv(sorted, pos, quantum, |sorted|, [], qk, clock, timeline, arrival, waiting, turnaround, rem)
    ensures Completed(sorted, timeline, waiting, turnaround)
    ensures EndsAfterArrival(sorted, timeline)
  {
    forall k | 0 <= k < |sorted|
      ensures rem[sorted[k].id] == 0
    {
      assert k !in qk;
    }
    forall k, j | 0 <= k < |sorted| && 0 <= j < |timeline| && timeline[j].id == sorted[k].id
      ensures sorted[k].arrival <= timeline[j].stop
    {
      assert pos[timeline[j].id] == k;
    }
  }

  /** Both properties are about the set of processes, not their order. */
  lemma Reordered(sorted: seq<Proc>, processes: seq<Proc>, timeline: seq<Interval<ProcId>>,
                  waiting: map<ProcId, int>, turnaround: map<ProcId, int>)
    requires multiset(sorted) == multiset(processes)
    requires Completed(sorted, timeline, waiting, turnaround) && EndsAfterArrival(sorted, timeline)
    ensures Completed(processes, timeline, waiting, turnaround) && EndsAfterArrival(processes, timeline)
  {
    forall i | 0 <= i < |processes|
      ensures exists k :: 0 <= k < |sorted| && sorted[k] == processes[i]
    {
      assert processes[i] in multiset(sorted);
    }
  }

  /** What the finished loop establishes, restated over the caller's order of the processes. */
  lemma Concluded(processes: seq<Proc>, sorted: seq<Proc>, pos: map<ProcId, int>, quantum: int, qk: seq<int>,
                  clock: int, timeline: seq<Interval<ProcId>>, arrival: map<ProcId, int>,
                  waiting: map<ProcId, int>, turnaround: map<ProcId, int>, rem: map<ProcId, int>)
    requires multiset(sorted) == multiset(processes)
    requires Inv(sorted, pos, quantum, |sorted|, [], qk, clock, timeline, arrival, waiting, turnaround, rem)
    requires rem.Keys == Ids(processes)
    ensures waiting.Keys == turnaround.Keys == Ids(processes)
    ensures Completed(processes, timeline, waiting, turnaround)
    ensures forall j :: 0 <= j < |timeline| ==> timeline[j].id in Ids(processes) && 1 <= Length(timeline[j]) <= quantum
    ensures EndsAfterArrival(processes, timeline)
    ensures forall j, j' :: 0 <= j < j' < |timeline| ==> timeline[j].stop < timeline[j'].stop
    ensures Keyed(sorted, waiting) && Keyed(sorted, turnaround)
    ensures Keyed(processes, waiting) && Keyed(processes, turnaround)
  {
    AllFinished(sorted, pos, quantum, qk, clock, timeline, arrival, waiting, turnaround, rem);
    Reordered(sorted, processes, timeline, waiting, turnaround);
    StopsRisingOrdered(timeline);
    forall j | 0 <= j < |timeline|
      ensures timeline[j].id in rem
    {
      assert sorted[pos[timeline[j].id]].id == timeline[j].id;
    }
  }
}
