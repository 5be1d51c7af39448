/**
 * `round_robin(arrival_time, burst_time, time_quantum)` in
 * sheduler/round_robin_simulator.py. Jobs are labelled 'A', 'B', ... by
 * input position and sorted by arrival; the clock starts at the earliest
 * arrival; after each slice the jobs that have arrived, are unfinished and
 * are not queued join the ready queue before the job just run is requeued;
 * a job whose remaining time reaches 0 gets a completion record. The ready
 * queue may hold a job twice and a job may be recorded twice, so the model
 * claims neither uniqueness.
 */
module JobRoundRobin {
  import opened Scheduling
  import opened StableSort

  /**
   * Labels are `chr(65 + i)`. A Dafny `char` cannot hold the surrogate code
   * points from 0xD800 up, so the model covers inputs whose labels stay
   * below them.
   */
  const MaxJobs: int := 0xD800 - 65

  function Label(i: int): (c: char)
    requires 0 <= i < MaxJobs
    ensures c as int == 65 + i
  {
    (65 + i) as char
  }

  /** The number of jobs: `zip` stops at the shorter list. */
  function JobCount(arrival: seq<int>, burst: seq<int>): nat
  {
    if |arrival| <= |burst| then |arrival| else |burst|
  }

  /** Lines 7-9 before the sort: job `i` is labelled `chr(65 + i)` with `arrival[i]` and `burst[i]`. */
  function Labelled(arrival: seq<int>, burst: seq<int>): (js: seq<Proc>)
    requires JobCount(arrival, burst) <= MaxJobs
    ensures |js| == JobCount(arrival, burst)
    ensures forall i :: 0 <= i < |js| ==> js[i] == Proc([Label(i)], arrival[i], burst[i])
  {
    seq(JobCount(arrival, burst), i requires 0 <= i < JobCount(arrival, burst) =>
      Proc([Label(i)], arrival[i], burst[i]))
  }

  /** `processes_info` (lines 7-10): the labelled jobs sorted by arrival time. */
  function JobsInfo(arrival: seq<int>, burst: seq<int>): seq<Proc>
    requires JobCount(arrival, burst) <= MaxJobs
  {
    SortByKey(Labelled(arrival, burst), ArrivalOf)
  }

  /**
   * The sorted jobs are the labelled input jobs, one per input position,
   * with distinct labels, in non-decreasing arrival order; jobs that
   * arrive together keep their input order.
   */
  lemma JobsInfoSpec(arrival: seq<int>, burst: seq<int>)
    requires JobCount(arrival, burst) <= MaxJobs
    ensures |JobsInfo(arrival, burst)| == JobCount(arrival, burst)
    ensures multiset(JobsInfo(arrival, burst)) == multiset(Labelled(arrival, burst))
    ensures SortedBy(JobsInfo(arrival, burst), ArrivalOf)
    ensures DistinctIds(JobsInfo(arrival, burst))
    ensures forall t :: Filter(JobsInfo(arrival, burst), ArrivalOf, t) == Filter(Labelled(arrival, burst), ArrivalOf, t)
  {
    var js := Labelled(arrival, burst);
    forall i, j | 0 <= i < j < |js|
      ensures IdOf(js[i]) != IdOf(js[j])
    {
      assert js[i].id[0] != js[j].id[0];
    }
    SortDistinct(js, ArrivalOf, IdOf);
    assert DistinctBy(JobsInfo(arrival, burst), IdOf);
    forall t
      ensures Filter(JobsInfo(arrival, burst), ArrivalOf, t) == Filter(js, ArrivalOf, t)
    {
      SortStable(js, ArrivalOf, t);
    }
  }

  /**
   * The `new_arrivals` comprehension (lines 36-41): the jobs of `info`, in
   * its order, that have arrived by `clock`, are not in the ready queue and
   * are unfinished.
   */
  function NewArrivals(info: seq<Proc>, clock: int, ready: seq<Proc>, unfinished: seq<Proc>): (na: seq<Proc>)
    ensures forall p :: p in na <==> p in info && p.arrival <= clock && p !in ready && p in unfinished
    ensures SortedBy(info, ArrivalOf) ==> SortedBy(na, ArrivalOf)
  {
    if info == [] then []
    else
      var rest := NewArrivals(info[1..], clock, ready, unfinished);
      assert forall p :: p in rest ==> p in info[1..];
      if info[0].arrival <= clock && info[0] !in ready && info[0] in unfinished then [info[0]] + rest else rest
  }

  /**
   * The comprehension walks `info` once, in order: the new arrivals are the
   * entries of `info` at strictly increasing positions `idx`. So jobs that
   * arrive together join the queue in `info` order, and with distinct
   * labels no job joins twice.
   */
  lemma {:induction false} NewArrivalsInOrder(info: seq<Proc>, clock: int, ready: seq<Proc>, unfinished: seq<Proc>)
    returns (idx: seq<int>)
    ensures |idx| == |NewArrivals(info, clock, ready, unfinished)|
    ensures forall i :: 0 <= i < |idx| ==>
      0 <= idx[i] < |info| && NewArrivals(info, clock, ready, unfinished)[i] == info[idx[i]]
    ensures forall i, j :: 0 <= i < j < |idx| ==> idx[i] < idx[j]
    ensures DistinctIds(info) ==> DistinctIds(NewArrivals(info, clock, ready, unfinished))
  {
    var na := NewArrivals(info, clock, ready, unfinished);
    if info == [] {
      idx := [];
    } else {
      var rest := NewArrivals(info[1..], clock, ready, unfinished);
      var ridx := NewArrivalsInOrder(info[1..], clock, ready, unfinished);
      var take := info[0].arrival <= clock && info[0] !in ready && info[0] in unfinished;
      assert na == if take then [info[0]] + rest else rest;
      idx := Reindexed(info, rest, ridx, take);
    }
    if DistinctIds(info) {
      PositionsDistinct(info, na, idx);
    }
  }

  /**
   * Positions of `rest` in `info[1..]` become positions in `info`, with
   * `info[0]` at position 0 in front when it is taken.
   */
  lemma Reindexed(info: seq<Proc>, rest: seq<Proc>, ridx: seq<int>, take: bool) returns (idx: seq<int>)
    requires info != [] && |ridx| == |rest|
    requires forall i :: 0 <= i < |ridx| ==> 0 <= ridx[i] < |info| - 1 && rest[i] == info[1..][ridx[i]]
    requires forall i, j :: 0 <= i < j < |ridx| ==> ridx[i] < ridx[j]
    ensures |idx| == |if take then [info[0]] + rest else rest|
    ensures forall i :: 0 <= i < |idx| ==>
      0 <= idx[i] < |info| && (if take then [info[0]] + rest else rest)[i] == info[idx[i]]
    ensures forall i, j :: 0 <= i < j < |idx| ==> idx[i] < idx[j]
  {
    var shifted := Shifted(ridx);
    if take {
      var na := [info[0]] + rest;
      idx := [0] + shifted;
      forall i | 0 <= i < |idx|
        ensures 0 <= idx[i] < |info| && na[i] == info[idx[i]]
      {
        if i > 0 {
          assert idx[i] == shifted[i - 1] && na[i] == rest[i - 1];
        }
      }
      forall i, j | 0 <= i < j < |idx|
        ensures idx[i] < idx[j]
      {
        assert idx[j] == shifted[j - 1];
        if i > 0 {
          assert idx[i] == shifted[i - 1];
        }
      }
    } else {
      idx := shifted;
    }
  }

  /** Every position moved one place on. */
  function Shifted(idx: seq<int>): (r: seq<int>)
    ensures |r| == |idx| && forall i :: 0 <= i < |idx| ==> r[i] == idx[i] + 1
  {
    if idx == [] then [] else [idx[0] + 1] + Shifted(idx[1..])
  }

  /** Entries taken from distinct positions of a list with distinct ids have distinct ids. */
  lemma PositionsDistinct(info: seq<Proc>, na: seq<Proc>, idx: seq<int>)
    requires DistinctIds(info) && |idx| == |na|
    requires forall i :: 0 <= i < |idx| ==> 0 <= idx[i] < |info| && na[i] == info[idx[i]]
    requires forall i, j :: 0 <= i < j < |idx| ==> idx[i] < idx[j]
    ensures DistinctIds(na)
  {
    forall i, j | 0 <= i < j < |na|
      ensures na[i].id != na[j].id
    {
      assert na[i] == info[idx[i]] && na[j] == info[idx[j]] && idx[i] < idx[j];
    }
  }

  /** The position of the first occurrence of `x` in `s`. */
  function IndexOf(s: seq<Proc>, x: Proc): (i: nat)
    requires x in s
    ensures i < |s| && s[i] == x && x !in s[..i]
  {
    if s[0] == x then 0
    else
      assert s == [s[0]] + s[1..];
      1 + IndexOf(s[1..], x)
  }

  /** Python's `list.remove(x)` (line 50): drops the first occurrence of `x`. */
  function RemoveFirst(s: seq<Proc>, x: Proc): (r: seq<Proc>)
    requires x in s
    ensures r == s[..IndexOf(s, x)] + s[IndexOf(s, x) + 1..]
  {
    if s[0] == x then s[1..]
    else
      assert s == [s[0]] + s[1..];
      [s[0]] + RemoveFirst(s[1..], x)
  }

  /** A completion record (lines 51-56): the job's fields plus finish, turnaround and waiting time. */
  datatype Record = Record(job: ProcId, at: int, bt: int, ft: int, tat: int, wat: int)

  /** Unicode code points lie below this bound. */
  const CodeSpace: int := 0x110000

  /**
   * The sort key `(at, job)` of line 62 as one integer: a job label is a
   * single character, whose code point lies below `CodeSpace`.
   */
  function RecordKey(r: Record): int
  {
    r.at * CodeSpace + (if |r.job| == 1 then r.job[0] as int else 0)
  }

  /** Python's tuple order on `(at, job)` for single-character labels. */
  predicate RecordBefore(a: Record, b: Record)
    requires |a.job| == 1 && |b.job| == 1
  {
    a.at < b.at || (a.at == b.at && a.job[0] <= b.job[0])
  }

  /** The integer key orders records exactly as the tuple `(at, job)` does. */
  lemma RecordKeyOrder(a: Record, b: Record)
    requires |a.job| == 1 && |b.job| == 1
    ensures RecordKey(a) <= RecordKey(b) <==> RecordBefore(a, b)
  {
    var ca, cb := a.job[0] as int, b.job[0] as int;
    assert 0 <= ca < CodeSpace && 0 <= cb < CodeSpace;
    if a.at < b.at {
      assert a.at * CodeSpace + CodeSpace <= b.at * CodeSpace;
    } else if a.at > b.at {
      assert b.at * CodeSpace + CodeSpace <= a.at * CodeSpace;
    }
  }

  /** What `round_robin` returns, or the `IndexError` of line 15 on empty input. */
  datatype Outcome =
    | IndexError
    | Done(records: seq<Record>, gantt: seq<Interval<ProcId>>)

  /** The input position a label stands for (`ord(job) - 65`), or -1 for a string that is not a label. */
  function JobIndex(job: ProcId): int
  {
    if |job| == 1 then job[0] as int - 65 else -1
  }

  /** Labels and positions correspond one to one. */
  lemma LabelIndex(i: int)
    requires 0 <= i < MaxJobs
    ensures JobIndex([Label(i)]) == i
  {
  }

  /** Every sorted job is the labelled input job at the position its label stands for, and every input position appears. */
  lemma JobsFromInput(arrival: seq<int>, burst: seq<int>)
    requires JobCount(arrival, burst) <= MaxJobs
    ensures forall k :: 0 <= k < |JobsInfo(arrival, burst)| ==>
      var i := JobIndex(JobsInfo(arrival, burst)[k].id);
      0 <= i < JobCount(arrival, burst) && JobsInfo(arrival, burst)[k] == Proc([Label(i)], arrival[i], burst[i])
    ensures forall i :: 0 <= i < JobCount(arrival, burst) ==> Proc([Label(i)], arrival[i], burst[i]) in JobsInfo(arrival, burst)
  {
    var js, info := Labelled(arrival, burst), JobsInfo(arrival, burst);
    JobsInfoSpec(arrival, burst);
    forall k | 0 <= k < |info|
      ensures var i := JobIndex(info[k].id); 0 <= i < |js| && info[k] == js[i]
    {
      assert info[k] in multiset(js);
      var i :| 0 <= i < |js| && js[i] == info[k];
      LabelIndex(i);
    }
    forall i | 0 <= i < |js|
      ensures js[i] in info
    {
      assert js[i] in multiset(info);
    }
  }

  /** `remaining_time` as built at line 17: each job's burst, keyed by label, entered job by job. */
  function Remaining(info: seq<Proc>): (rem: map<ProcId, int>)
    requires DistinctIds(info)
    ensures Keyed(info, rem)
    ensures forall k :: 0 <= k < |info| ==> rem[info[k].id] == info[k].burst
    decreases |info|
  {
    if info == [] then map[]
    else
      var last := |info| - 1;
      assert forall k :: 0 <= k < last ==> info[..last][k] == info[k];
      Remaining(info[..last])[info[last].id := info[last].burst]
  }

  /** How many entries of `s` belong to jobs with no time left. */
  function ZeroLeft(s: seq<Proc>, rem: map<ProcId, int>): nat
    requires Keyed(s, rem)
  {
    if s == [] then 0 else (if rem[s[0].id] == 0 then 1 else 0) + ZeroLeft(s[1..], rem)
  }

  lemma {:induction false} ZeroLeftAppend(a: seq<Proc>, b: seq<Proc>, rem: map<ProcId, int>)
    requires Keyed(a + b, rem)
    ensures Keyed(a, rem) && Keyed(b, rem)
    ensures ZeroLeft(a + b, rem) == ZeroLeft(a, rem) + ZeroLeft(b, rem)
  {
    assert forall i :: 0 <= i < |a| ==> (a + b)[i] == a[i];
    assert forall i :: 0 <= i < |b| ==> (a + b)[|a| + i] == b[i];
    if a != [] {
      assert (a + b)[1..] == a[1..] + b;
      ZeroLeftAppend(a[1..], b, rem);
    } else {
      assert a + b == b;
    }
  }

  /** Counting depends only on whether each entry's remaining time is zero. */
  lemma {:induction false} ZeroLeftSame(s: seq<Proc>, rem: map<ProcId, int>, rem': map<ProcId, int>)
    requires Keyed(s, rem) && Keyed(s, rem')
    requires forall i :: 0 <= i < |s| ==> (rem[s[i].id] == 0 <==> rem'[s[i].id] == 0)
    ensures ZeroLeft(s, rem) == ZeroLeft(s, rem')
    ensures (forall i :: 0 <= i < |s| ==> rem[s[i].id] != 0) ==> ZeroLeft(s, rem) == 0
  {
    if s != [] {
      ZeroLeftSame(s[1..], rem, rem');
    }
  }

  // ---------------------------------------------------------------------
  // The state of the loop (lines 12-59)
  // ---------------------------------------------------------------------

  /** What stays fixed: jobs sorted by arrival and indexed by label, bursts of at least 1, every job keyed. */
  ghost predicate Frame(info: seq<Proc>, pos: map<ProcId, int>, quantum: int, rem: map<ProcId, int>)
  {
    && quantum >= 1 && Indexed(info, pos) && SortedBy(info, ArrivalOf) && Keyed(info, rem)
    && forall k :: 0 <= k < |info| ==> info[k].burst >= 1
  }

  /** `p` is one of the jobs, found through its label. */
  ghost predicate Known(info: seq<Proc>, pos: map<ProcId, int>, p: Proc)
  {
    p.id in pos && 0 <= pos[p.id] < |info| && info[pos[p.id]] == p
  }

  /** `unfinished_jobs` is the subsequence of jobs at the increasing positions `uk`, each with time left. */
  ghost predicate UnfinishedOk(info: seq<Proc>, unfinished: seq<Proc>, uk: seq<int>, rem: map<ProcId, int>)
    requires Keyed(info, rem)
  {
    && |uk| == |unfinished|
    && (forall i :: 0 <= i < |uk| ==> 0 <= uk[i] < |info| && unfinished[i] == info[uk[i]] && rem[info[uk[i]].id] > 0)
    && (forall i, j :: 0 <= i < j < |uk| ==> uk[i] < uk[j])
  }

  /** The ready queue holds jobs that have arrived. */
  ghost predicate ReadyOk(info: seq<Proc>, pos: map<ProcId, int>, ready: seq<Proc>, clock: int)
  {
    forall i :: 0 <= i < |ready| ==> Known(info, pos, ready[i]) && ready[i].arrival <= clock
  }

  /**
   * Remaining time lies in [0, burst] and is the burst minus what the chart
   * shows; what the chart shows fits between arrival and clock; a job with
   * time left is in the ready queue or among the unfinished jobs.
   */
  ghost predicate ServiceOk(info: seq<Proc>, ready: seq<Proc>, unfinished: seq<Proc>, rem: map<ProcId, int>,
                            clock: int, gantt: seq<Interval<ProcId>>)
    requires Keyed(info, rem)
  {
    forall k :: 0 <= k < |info| ==>
      && 0 <= rem[info[k].id] <= info[k].burst
      && Served(gantt, info[k].id) + rem[info[k].id] == info[k].burst
      && (Served(gantt, info[k].id) > 0 ==> Served(gantt, info[k].id) <= clock - info[k].arrival)
      && (rem[info[k].id] > 0 ==> info[k] in ready || info[k] in unfinished)
  }

  /** Chart entries belong to jobs, start no earlier than the job arrived, last at most a quantum, and are in time order before the clock. */
  ghost predicate ChartOk(info: seq<Proc>, pos: map<ProcId, int>, quantum: int, clock: int, gantt: seq<Interval<ProcId>>)
  {
    && (forall j :: 0 <= j < |gantt| ==>
          && gantt[j].id in pos && 0 <= pos[gantt[j].id] < |info| && info[pos[gantt[j].id]].id == gantt[j].id
          && info[pos[gantt[j].id]].arrival <= gantt[j].start && 0 <= Length(gantt[j]) <= quantum)
    && Chronological(gantt)
    && (gantt != [] ==> gantt[|gantt| - 1].stop <= clock)
  }

  /** A completion record of a job with no time left, with the formulas of lines 53-55. */
  ghost predicate Settled(info: seq<Proc>, pos: map<ProcId, int>, rem: map<ProcId, int>, clock: int, r: Record)
    requires Keyed(info, rem)
  {
    && r.job in pos && 0 <= pos[r.job] < |info|
    && var p := info[pos[r.job]];
    && p.id == r.job && p.arrival == r.at && p.burst == r.bt && rem[p.id] == 0
    && r.ft <= clock && r.tat == r.ft - r.at && r.wat == r.tat - r.bt && 0 <= r.wat
  }

  /** Every record is settled, and every job with no time left has a record. */
  ghost predicate RecordsOk(info: seq<Proc>, pos: map<ProcId, int>, rem: map<ProcId, int>, clock: int, solved: seq<Record>)
    requires Keyed(info, rem)
  {
    && (forall i :: 0 <= i < |solved| ==> Settled(info, pos, rem, clock, solved[i]))
    && (forall k :: 0 <= k < |info| && rem[info[k].id] == 0 ==> exists i :: 0 <= i < |solved| && solved[i].job == info[k].id)
  }

  /** Everything but admission. */
  ghost predicate Core(info: seq<Proc>, pos: map<ProcId, int>, quantum: int, ready: seq<Proc>, unfinished: seq<Proc>,
                       uk: seq<int>, rem: map<ProcId, int>, clock: int, gantt: seq<Interval<ProcId>>, solved: seq<Record>)
  {
    && Frame(info, pos, quantum, rem)
    && UnfinishedOk(info, unfinished, uk, rem)
    && ReadyOk(info, pos, ready, clock)
    && ServiceOk(info, ready, unfinished, rem, clock, gantt)
    && ChartOk(info, pos, quantum, clock, gantt)
    && RecordsOk(info, pos, rem, clock, solved)
  }

  /** With nothing ready, no unfinished job has arrived before the clock, so the jump of line 22 never goes back. */
  ghost predicate AdmittedOk(ready: seq<Proc>, unfinished: seq<Proc>, clock: int)
  {
    ready == [] && unfinished != [] ==> clock <= unfinished[0].arrival
  }

  ghost predicate Inv(info: seq<Proc>, pos: map<ProcId, int>, quantum: int, ready: seq<Proc>, unfinished: seq<Proc>,
                      uk: seq<int>, rem: map<ProcId, int>, clock: int, gantt: seq<Interval<ProcId>>, solved: seq<Record>)
  {
    Core(info, pos, quantum, ready, unfinished, uk, rem, clock, gantt, solved) && AdmittedOk(ready, unfinished, clock)
  }

  /**
   * Lines 20-22 keep everything but admission: the first unfinished job
   * moves to the ready queue and the clock, which never goes back, jumps
   * to its arrival.
   */
  lemma DispatchStep(info: seq<Proc>, pos: map<ProcId, int>, quantum: int, ready: seq<Proc>, unfinished: seq<Proc>,
                     uk: seq<int>, rem: map<ProcId, int>, clock: int, gantt: seq<Interval<ProcId>>, solved: seq<Record>)
    requires Inv(info, pos, quantum, ready, unfinished, uk, rem, clock, gantt, solved)
    requires ready == [] && unfinished != []
    ensures clock <= unfinished[0].arrival
    ensures Core(info, pos, quantum, [unfinished[0]], unfinished[1..], uk[1..], rem, unfinished[0].arrival, gantt, solved)
  {
    var u := unfinished[0];
    assert info[uk[0]] == u;
    assert unfinished == [u] + unfinished[1..];
    assert forall i :: 0 <= i < |uk| - 1 ==> uk[1..][i] == uk[i + 1];
  }

  /**
   * Service after the head `p` of the ready queue runs `exec` units: its
   * chart time grows and its remaining time falls by `exec`, and a job with
   * time left is still queued or unfinished.
   */
  lemma SliceService(info: seq<Proc>, pos: map<ProcId, int>, quantum: int, ready: seq<Proc>, unfinished: seq<Proc>,
                     rem: map<ProcId, int>, clock: int, gantt: seq<Interval<ProcId>>,
                     ready': seq<Proc>, unfinished': seq<Proc>, exec: int, r: int, clock': int,
                     gantt': seq<Interval<ProcId>>)
    requires Frame(info, pos, quantum, rem) && ReadyOk(info, pos, ready, clock) && ready != []
    requires ServiceOk(info, ready, unfinished, rem, clock, gantt)
    requires exec == Min(quantum, rem[ready[0].id]) && r == rem[ready[0].id] - exec
    requires clock' == clock + exec && gantt' == gantt + [Interval(ready[0].id, clock, clock')]
    requires forall q :: q in ready[1..] ==> q in ready'
    requires forall q :: q in unfinished && q != ready[0] ==> q in unfinished'
    requires r > 0 ==> ready[0] in ready'
    ensures Keyed(info, rem[ready[0].id := r])
    ensures ServiceOk(info, ready', unfinished', rem[ready[0].id := r], clock', gantt')
  {
    var p := ready[0];
    var k0 := pos[p.id];
    var e := Interval(p.id, clock, clock');
    assert ready == [p] + ready[1..];
    forall k | 0 <= k < |info|
      ensures Served(gantt', info[k].id) == Served(gantt, info[k].id) + (if k == k0 then exec else 0)
    {
      ServedAppend(gantt, e, info[k].id);
    }
  }

  /** `unfinished_jobs` loses the job that ran exactly when it finished and was still listed (lines 47-50). */
  lemma SliceUnfinished(info: seq<Proc>, pos: map<ProcId, int>, quantum: int, ready: seq<Proc>, unfinished: seq<Proc>,
                        uk: seq<int>, rem: map<ProcId, int>, clock: int, r: int, unfinished': seq<Proc>, uk': seq<int>)
    requires Frame(info, pos, quantum, rem) && ReadyOk(info, pos, ready, clock) && ready != []
    requires UnfinishedOk(info, unfinished, uk, rem) && r >= 0
    requires r > 0 || ready[0] !in unfinished ==> unfinished' == unfinished && uk' == uk
    requires r == 0 && ready[0] in unfinished ==>
      && unfinished' == unfinished[..IndexOf(unfinished, ready[0])] + unfinished[IndexOf(unfinished, ready[0]) + 1..]
      && uk' == uk[..IndexOf(unfinished, ready[0])] + uk[IndexOf(unfinished, ready[0]) + 1..]
    ensures Keyed(info, rem[ready[0].id := r])
    ensures UnfinishedOk(info, unfinished', uk', rem[ready[0].id := r])
    ensures forall q :: q in unfinished && q != ready[0] ==> q in unfinished'
    ensures forall q :: q in unfinished' ==> q in unfinished
  {
    var p := ready[0];
    var k0 := pos[p.id];
    var rem' := rem[p.id := r];
    assert forall i :: 0 <= i < |uk| ==> (uk[i] == k0 <==> unfinished[i] == p);
    if r == 0 && p in unfinished {
      var x := IndexOf(unfinished, p);
      assert forall i :: 0 <= i < x ==> unfinished[..x][i] == unfinished[i];
      UnfinishedRemove(info, unfinished, uk, rem, rem', x);
    }
  }

  /** Dropping position `x` from the unfinished list keeps its shape when the other jobs keep their remaining time. */
  lemma UnfinishedRemove(info: seq<Proc>, unfinished: seq<Proc>, uk: seq<int>, rem: map<ProcId, int>,
                         rem': map<ProcId, int>, x: int)
    requires Keyed(info, rem) && Keyed(info, rem') && UnfinishedOk(info, unfinished, uk, rem) && 0 <= x < |uk|
    requires forall i :: 0 <= i < |uk| && i != x ==> rem'[info[uk[i]].id] == rem[info[uk[i]].id]
    ensures UnfinishedOk(info, unfinished[..x] + unfinished[x + 1..], uk[..x] + uk[x + 1..], rem')
    ensures forall q :: q in unfinished && q != unfinished[x] ==> q in unfinished[..x] + unfinished[x + 1..]
    ensures forall q :: q in unfinished[..x] + unfinished[x + 1..] ==> q in unfinished
  {
    var unfinished', uk' := unfinished[..x] + unfinished[x + 1..], uk[..x] + uk[x + 1..];
    assert forall i :: 0 <= i < |uk'| ==> uk'[i] == if i < x then uk[i] else uk[i + 1];
    assert forall i :: 0 <= i < |uk'| ==> unfinished'[i] == if i < x then unfinished[i] else unfinished[i + 1];
    forall q | q in unfinished && q != unfinished[x]
      ensures q in unfinished'
    {
      var i :| 0 <= i < |unfinished| && unfinished[i] == q;
      if i < x {
        assert unfinished'[i] == q;
      } else {
        assert i != x && unfinished'[i - 1] == unfinished[i];
      }
    }
  }

  /** The ready queue after a slice holds jobs that have arrived by the new clock. */
  lemma SliceReady(info: seq<Proc>, pos: map<ProcId, int>, ready: seq<Proc>, clock: int, clock': int,
                   na: seq<Proc>, ready': seq<Proc>)
    requires Indexed(info, pos) && ReadyOk(info, pos, ready, clock) && ready != [] && clock <= clock'
    requires forall q :: q in na ==> q in info && q.arrival <= clock'
    requires ready' == ready[1..] + na || ready' == ready[1..] + na + [ready[0]]
    ensures ReadyOk(info, pos, ready', clock')
  {
    forall i | 0 <= i < |ready'|
      ensures Known(info, pos, ready'[i]) && ready'[i].arrival <= clock'
    {
      if i < |ready| - 1 {
        assert ready'[i] == ready[i + 1];
      } else if i < |ready| - 1 + |na| {
        assert ready'[i] == na[i - |ready| + 1];
      } else {
        assert ready'[i] == ready[0];
      }
    }
  }

  /** The entry `[clock, clock + exec]` of line 28 keeps the chart in order (line 33 moves the clock to its end). */
  lemma SliceChart(info: seq<Proc>, pos: map<ProcId, int>, quantum: int, ready: seq<Proc>, clock: int,
                   gantt: seq<Interval<ProcId>>, exec: int, clock': int, gantt': seq<Interval<ProcId>>)
    requires Indexed(info, pos) && ReadyOk(info, pos, ready, clock) && ready != []
    requires ChartOk(info, pos, quantum, clock, gantt)
    requires 0 <= exec <= quantum && clock' == clock + exec
    requires gantt' == gantt + [Interval(ready[0].id, clock, clock')]
    ensures ChartOk(info, pos, quantum, clock', gantt')
  {
    assert forall j :: 0 <= j < |gantt| ==> gantt'[j] == gantt[j];
    ChronologicalAppend(gantt, Interval(ready[0].id, clock, clock'));
  }

  /** A job whose remaining time reaches 0 gets the record of lines 51-56; earlier records stay settled. */
  lemma SliceRecords(info: seq<Proc>, pos: map<ProcId, int>, quantum: int, ready: seq<Proc>, unfinished: seq<Proc>,
                     rem: map<ProcId, int>, clock: int, gantt: seq<Interval<ProcId>>, solved: seq<Record>,
                     exec: int, r: int, clock': int, solved': seq<Record>)
    requires Frame(info, pos, quantum, rem) && ReadyOk(info, pos, ready, clock) && ready != []
    requires ServiceOk(info, ready, unfinished, rem, clock, gantt)
    requires RecordsOk(info, pos, rem, clock, solved)
    requires exec == Min(quantum, rem[ready[0].id]) && r == rem[ready[0].id] - exec && clock' == clock + exec
    requires r > 0 ==> solved' == solved
    requires r <= 0 ==> solved' == solved + [Record(ready[0].id, ready[0].arrival, ready[0].burst,
                                                    clock', clock' - ready[0].arrival,
                                                    clock' - ready[0].arrival - ready[0].burst)]
    ensures Keyed(info, rem[ready[0].id := r])
    ensures RecordsOk(info, pos, rem[ready[0].id := r], clock', solved')
  {
    var p := ready[0];
    var k0 := pos[p.id];
    var rem' := rem[p.id := r];
    assert forall k :: 0 <= k < |info| && k != k0 ==> rem'[info[k].id] == rem[info[k].id];
    assert forall i :: 0 <= i < |solved| ==> solved'[i] == solved[i];
    forall k | 0 <= k < |info| && rem'[info[k].id] == 0
      ensures exists i :: 0 <= i < |solved'| && solved'[i].job == info[k].id
    {
      if k == k0 {
        if r > 0 {
        } else {
          assert solved'[|solved|].job == info[k].id;
        }
      } else {
        var i :| 0 <= i < |solved| && solved[i].job == info[k].id;
        assert solved'[i].job == info[k].id;
      }
    }
  }

  /** After a slice, a ready queue left empty means no unfinished job has arrived yet. */
  lemma SliceAdmitted(info: seq<Proc>, ready: seq<Proc>, unfinished: seq<Proc>, unfinished': seq<Proc>,
                      clock': int, na: seq<Proc>, ready': seq<Proc>)
    requires ready != [] && na == NewArrivals(info, clock', ready[1..], unfinished)
    requires forall q :: q in unfinished ==> q in info
    requires forall q :: q in unfinished' ==> q in unfinished
    requires ready' == ready[1..] + na || ready' == ready[1..] + na + [ready[0]]
    ensures AdmittedOk(ready', unfinished', clock')
  {
    if ready' == [] && unfinished' != [] {
      var u := unfinished'[0];
      assert u in unfinished && u !in ready[1..];
      assert u !in na;
    }
  }

  /**
   * Each slice makes progress: the total remaining time falls, or a job
   * with nothing left was popped (a zero-length slice), which leaves one
   * fewer such entry in the ready queue because new arrivals all have
   * time left.
   */
  lemma SliceMeasure(info: seq<Proc>, pos: map<ProcId, int>, quantum: int, ready: seq<Proc>, unfinished: seq<Proc>,
                     uk: seq<int>, rem: map<ProcId, int>, clock: int, clock': int, exec: int, r: int,
                     na: seq<Proc>, ready': seq<Proc>)
    requires Frame(info, pos, quantum, rem) && ReadyOk(info, pos, ready, clock) && ready != []
    requires ReadyOk(info, pos, ready', clock') && UnfinishedOk(info, unfinished, uk, rem)
    requires forall k :: 0 <= k < |info| ==> rem[info[k].id] >= 0
    requires exec == Min(quantum, rem[ready[0].id]) && r == rem[ready[0].id] - exec
    requires forall q :: q in na ==> q in unfinished
    requires r > 0 ==> ready' == ready[1..] + na + [ready[0]]
    requires r <= 0 ==> ready' == ready[1..] + na
    ensures Keyed(info, rem[ready[0].id := r]) && Keyed(ready, rem) && Keyed(ready', rem[ready[0].id := r])
    ensures Total(info, rem[ready[0].id := r]) < Total(info, rem)
      || (Total(info, rem[ready[0].id := r]) == Total(info, rem)
          && ZeroLeft(ready', rem[ready[0].id := r]) < ZeroLeft(ready, rem))
  {
    var p := ready[0];
    var k0 := pos[p.id];
    var rem' := rem[p.id := r];
    TotalAt(info, pos, rem, k0, r);
    if exec == 0 {
      assert rem[p.id] == 0 && r == 0;
      assert ready[1..] + na == ready';
      ZeroLeftAppend(ready[1..], na, rem');
      ZeroLeftSame(ready[1..], rem, rem');
      forall i | 0 <= i < |na|
        ensures rem'[na[i].id] != 0
      {
        assert na[i] in unfinished;
      }
      ZeroLeftSame(na, rem', rem');
    }
  }

  /**
   * One slice keeps the invariant and makes progress: the pieces above put
   * together for the state that lines 24-59 produce.
   */
  lemma SliceStep(info: seq<Proc>, pos: map<ProcId, int>, quantum: int, ready: seq<Proc>, unfinished: seq<Proc>,
                  uk: seq<int>, rem: map<ProcId, int>, clock: int, gantt: seq<Interval<ProcId>>, solved: seq<Record>,
                  exec: int, r: int, rem': map<ProcId, int>, clock': int, gantt': seq<Interval<ProcId>>, na: seq<Proc>,
                  ready': seq<Proc>, unfinished': seq<Proc>, uk': seq<int>, solved': seq<Record>, x: int)
    requires Core(info, pos, quantum, ready, unfinished, uk, rem, clock, gantt, solved) && ready != []
    requires exec == Min(quantum, rem[ready[0].id]) && r == rem[ready[0].id] - exec && rem' == rem[ready[0].id := r]
    requires clock' == clock + exec && gantt' == gantt + [Interval(ready[0].id, clock, clock')]
    requires na == NewArrivals(info, clock', ready[1..], unfinished)
    requires r > 0 ==> ready' == ready[1..] + na + [ready[0]] && unfinished' == unfinished && uk' == uk && solved' == solved
    requires r <= 0 ==> ready' == ready[1..] + na
    requires r <= 0 ==> solved' == solved + [Record(ready[0].id, ready[0].arrival, ready[0].burst,
                                                    clock', clock' - ready[0].arrival,
                                                    clock' - ready[0].arrival - ready[0].burst)]
    requires r <= 0 && ready[0] !in unfinished ==> unfinished' == unfinished && uk' == uk
    requires r <= 0 && ready[0] in unfinished ==>
      && x == IndexOf(unfinished, ready[0])
      && unfinished' == unfinished[..x] + unfinished[x + 1..] && uk' == uk[..x] + uk[x + 1..]
    ensures Keyed(info, rem')
    ensures Inv(info, pos, quantum, ready', unfinished', uk', rem', clock', gantt', solved')
    ensures Keyed(ready, rem) && Keyed(ready', rem')
    ensures Total(info, rem') < Total(info, rem)
      || (Total(info, rem') == Total(info, rem)
          && ZeroLeft(ready', rem') < ZeroLeft(ready, rem))
  {
    assert Known(info, pos, ready[0]) && 0 <= rem[info[pos[ready[0].id]].id];
    assert forall q :: q in ready[1..] ==> q in ready';
    assert forall q :: q in unfinished ==> q in info;
    SliceUnfinished(info, pos, quantum, ready, unfinished, uk, rem, clock, r, unfinished', uk');
    SliceService(info, pos, quantum, ready, unfinished, rem, clock, gantt, ready', unfinished', exec, r, clock', gantt');
    SliceReady(info, pos, ready, clock, clock', na, ready');
    SliceChart(info, pos, quantum, ready, clock, gantt, exec, clock', gantt');
    SliceRecords(info, pos, quantum, ready, unfinished, rem, clock, gantt, solved, exec, r, clock', solved');
    SliceAdmitted(info, ready, unfinished, unfinished', clock', na, ready');
    SliceMeasure(info, pos, quantum, ready, unfinished, uk, rem, clock, clock', exec, r, na, ready');
  }

  /**
   * Lines 24-59: the head of the ready queue runs `min(quantum, remaining)`
   * units, its entry goes on the chart and the clock advances; the jobs
   * that have arrived by then, are not queued and are unfinished join the
   * queue; then the job that ran is requeued behind them or, when it is
   * done, leaves `unfinished_jobs` and gets its completion record.
   */
  predicate Sliced(info: seq<Proc>, quantum: int, ready: seq<Proc>, unfinished: seq<Proc>,
                   rem: map<ProcId, int>, clock: int, gantt: seq<Interval<ProcId>>, solved: seq<Record>,
                   ready': seq<Proc>, unfinished': seq<Proc>, rem': map<ProcId, int>, clock': int,
                   gantt': seq<Interval<ProcId>>, solved': seq<Record>)
  {
    && ready != [] && ready[0].id in rem
    && clock' == clock + Min(quantum, rem[ready[0].id])
    && gantt' == gantt + [Interval(ready[0].id, clock, clock')]
    && rem' == rem[ready[0].id := rem[ready[0].id] - (clock' - clock)]
    && (rem'[ready[0].id] > 0 ==>
          && ready' == ready[1..] + NewArrivals(info, clock', ready[1..], unfinished) + [ready[0]]
          && unfinished' == unfinished && solved' == solved)
    && (rem'[ready[0].id] <= 0 ==>
          && ready' == ready[1..] + NewArrivals(info, clock', ready[1..], unfinished)
          && unfinished' == (if ready[0] in unfinished then RemoveFirst(unfinished, ready[0]) else unfinished)
          && solved' == solved + [Record(ready[0].id, ready[0].arrival, ready[0].burst,
                                         clock', clock' - ready[0].arrival, clock' - ready[0].arrival - ready[0].burst)])
  }

  /** Lines 24-59 as code. */
  method Slice(info: seq<Proc>, quantum: int, ready: seq<Proc>, unfinished: seq<Proc>,
               rem: map<ProcId, int>, clock: int, gantt: seq<Interval<ProcId>>, solved: seq<Record>)
    returns (ready': seq<Proc>, unfinished': seq<Proc>, rem': map<ProcId, int>, clock': int,
             gantt': seq<Interval<ProcId>>, solved': seq<Record>)
    requires ready != [] && ready[0].id in rem
    ensures Sliced(info, quantum, ready, unfinished, rem, clock, gantt, solved,
                   ready', unfinished', rem', clock', gantt', solved')
  {
    var p := ready[0];
    var rest := ready[1..];

    var exec := Min(quantum, rem[p.id]);
    rem' := rem[p.id := rem[p.id] - exec];
    gantt' := gantt + [Interval(p.id, clock, clock + exec)];
    clock' := clock + exec;

    // Jobs arriving during the slice, then the job that ran
    ready' := rest + NewArrivals(info, clock', rest, unfinished);
    unfinished', solved' := unfinished, solved;
    if rem'[p.id] == 0 {
      if p in unfinished {
        unfinished' := RemoveFirst(unfinished, p);
      }
      solved' := solved + [Record(p.id, p.arrival, p.burst, clock', clock' - p.arrival, clock' - p.arrival - p.burst)];
    } else {
      ready' := ready' + [p];
    }
  }

  /** One slice of the queue head, together with the invariant it keeps and the measure it lowers. */
  method Step(info: seq<Proc>, ghost pos: map<ProcId, int>, quantum: int, ready: seq<Proc>, unfinished: seq<Proc>,
              ghost uk: seq<int>, rem: map<ProcId, int>, clock: int, gantt: seq<Interval<ProcId>>,
              solved: seq<Record>)
    returns (ready': seq<Proc>, unfinished': seq<Proc>, ghost uk': seq<int>, rem': map<ProcId, int>, clock': int,
             gantt': seq<Interval<ProcId>>, solved': seq<Record>)
    requires Core(info, pos, quantum, ready, unfinished, uk, rem, clock, gantt, solved) && ready != []
    ensures Inv(info, pos, quantum, ready', unfinished', uk', rem', clock', gantt', solved')
    ensures Keyed(ready, rem) && Keyed(ready', rem')
    ensures Total(info, rem') < Total(info, rem)
      || (Total(info, rem') == Total(info, rem) && ZeroLeft(ready', rem') < ZeroLeft(ready, rem))
    ensures Sliced(info, quantum, ready, unfinished, rem, clock, gantt, solved,
                   ready', unfinished', rem', clock', gantt', solved')
    ensures ready[0].id in rem' && |unfinished'| <= |unfinished|
  {
    ready', unfinished', rem', clock', gantt', solved' :=
      Slice(info, quantum, ready, unfinished, rem, clock, gantt, solved);
    ghost var p := ready[0];
    ghost var x := if p in unfinished then IndexOf(unfinished, p) else -1;
    uk' := if rem'[p.id] <= 0 && p in unfinished then uk[..x] + uk[x + 1..] else uk;
    assert |unfinished'| <= |unfinished| && ready[0].id in rem';
    SliceStep(info, pos, quantum, ready, unfinished, uk, rem, clock, gantt, solved,
              clock' - clock, rem[p.id] - (clock' - clock), rem', clock', gantt',
              NewArrivals(info, clock', ready[1..], unfinished), ready', unfinished', uk', solved', x);
  }

  /**
   * One pass of the loop body (lines 20-59). With an empty ready queue the
   * first unfinished job is moved into it and the clock jumps to its
   * arrival; then one slice runs. The new chart entry starts at the clock,
   * never before, and the loop's measure falls.
   */
  method Iteration(info: seq<Proc>, ghost pos: map<ProcId, int>, quantum: int, ready: seq<Proc>,
                   unfinished: seq<Proc>, ghost uk: seq<int>, rem: map<ProcId, int>, clock: int,
                   gantt: seq<Interval<ProcId>>, solved: seq<Record>)
    returns (ready': seq<Proc>, unfinished': seq<Proc>, ghost uk': seq<int>, rem': map<ProcId, int>, clock': int,
             gantt': seq<Interval<ProcId>>, solved': seq<Record>)
    requires Inv(info, pos, quantum, ready, unfinished, uk, rem, clock, gantt, solved)
    requires ready != [] || unfinished != []
    requires info != [] && Started(info, ready, unfinished, clock, gantt)
    ensures Inv(info, pos, quantum, ready', unfinished', uk', rem', clock', gantt', solved')
    ensures Started(info, ready', unfinished', clock', gantt')
    ensures Keyed(ready, rem) && Keyed(ready', rem') && Total(info, rem') >= 0
    ensures Total(info, rem') < Total(info, rem)
      || (Total(info, rem') == Total(info, rem) && ZeroLeft(ready', rem') < ZeroLeft(ready, rem))
    ensures |gantt'| == |gantt| + 1 && gantt'[..|gantt|] == gantt && gantt'[|gantt|].stop == clock'
    ensures gantt'[|gantt|].start == if ready == [] then unfinished[0].arrival else clock
    ensures clock <= gantt'[|gantt|].start
    ensures ready == [] ==> |unfinished'| < |unfinished|
    ensures gantt'[|gantt|].id in rem' && (rem'[gantt'[|gantt|].id] > 0 ==> solved' == solved)
    ensures ready == [] ==> Sliced(info, quantum, [unfinished[0]], unfinished[1..], rem, unfinished[0].arrival, gantt, solved,
                                   ready', unfinished', rem', clock', gantt', solved')
    ensures ready != [] ==> Sliced(info, quantum, ready, unfinished, rem, clock, gantt, solved,
                                   ready', unfinished', rem', clock', gantt', solved')
  {
    var ready1, unfinished1, clock1 := ready, unfinished, clock;
    ghost var uk1 := uk;
    if ready == [] && unfinished != [] {
      DispatchStep(info, pos, quantum, ready, unfinished, uk, rem, clock, gantt, solved);
      ready1, unfinished1 := [unfinished[0]], unfinished[1..];
      uk1 := uk[1..];
      clock1 := ready1[0].arrival;
      assert rem[ready1[0].id] > 0 && ready1[1..] == [];
    }
    ready', unfinished', uk', rem', clock', gantt', solved' :=
      Step(info, pos, quantum, ready1, unfinished1, uk1, rem, clock1, gantt, solved);
    assert gantt'[..|gantt|] == gantt;
    TotalZero(info, rem');
  }

  /** The job list sorted by arrival with at least one job, a positive quantum and bursts of at least 1. */
  ghost predicate Start(info: seq<Proc>, pos: map<ProcId, int>, quantum: int)
  {
    && info != [] && quantum >= 1 && Indexed(info, pos) && SortedBy(info, ArrivalOf)
    && forall k :: 0 <= k < |info| ==> info[k].burst >= 1
  }

  /** The state built at lines 12-17. */
  ghost predicate Fresh(info: seq<Proc>, ready: seq<Proc>, unfinished: seq<Proc>, uk: seq<int>,
                        rem: map<ProcId, int>, clock: int, gantt: seq<Interval<ProcId>>, solved: seq<Record>)
  {
    && info != [] && DistinctIds(info)
    && ready == [] && unfinished == info && |uk| == |info| && (forall i :: 0 <= i < |uk| ==> uk[i] == i)
    && Keyed(info, rem) && (forall k :: 0 <= k < |info| ==> rem[info[k].id] == info[k].burst)
    && clock == info[0].arrival && gantt == [] && solved == []
  }

  /** Before the first slice nothing is queued, every job is unfinished and the clock is at the first arrival; afterwards the chart starts there and ends at the clock. */
  ghost predicate Started(info: seq<Proc>, ready: seq<Proc>, unfinished: seq<Proc>, clock: int,
                          gantt: seq<Interval<ProcId>>)
    requires info != []
  {
    if gantt == [] then ready == [] && unfinished == info && clock == info[0].arrival
    else gantt[0].start == info[0].arrival && gantt[|gantt| - 1].stop == clock
  }

  lemma Initially(info: seq<Proc>, pos: map<ProcId, int>, quantum: int, ready: seq<Proc>, unfinished: seq<Proc>,
                  uk: seq<int>, rem: map<ProcId, int>, clock: int, gantt: seq<Interval<ProcId>>, solved: seq<Record>)
    requires Start(info, pos, quantum) && Fresh(info, ready, unfinished, uk, rem, clock, gantt, solved)
    ensures Inv(info, pos, quantum, ready, unfinished, uk, rem, clock, gantt, solved)
    ensures Started(info, ready, unfinished, clock, gantt)
  {
    InitialLists(info, rem, ready, unfinished, uk, clock, gantt);
  }

  /** At the start every job is unfinished with its whole burst left and nothing on the chart. */
  lemma InitialLists(info: seq<Proc>, rem: map<ProcId, int>, ready: seq<Proc>, unfinished: seq<Proc>, uk: seq<int>,
                     clock: int, gantt: seq<Interval<ProcId>>)
    requires Keyed(info, rem) && forall k :: 0 <= k < |info| ==> rem[info[k].id] == info[k].burst >= 1
    requires unfinished == info && |uk| == |info| && (forall i :: 0 <= i < |uk| ==> uk[i] == i) && gantt == []
    ensures UnfinishedOk(info, unfinished, uk, rem)
    ensures ServiceOk(info, ready, unfinished, rem, clock, gantt)
  {
    assert forall i :: 0 <= i < |uk| ==> uk[i] == i;
    forall k | 0 <= k < |info|
      ensures info[k] in unfinished && Served(gantt, info[k].id) == 0
    {
      assert unfinished[k] == info[k];
    }
  }

  /** Before the first slice every job still has its whole burst left, so the loop runs at least once. */
  lemma FirstPass(info: seq<Proc>, pos: map<ProcId, int>, quantum: int, ready: seq<Proc>, unfinished: seq<Proc>,
                  uk: seq<int>, rem: map<ProcId, int>, clock: int, gantt: seq<Interval<ProcId>>, solved: seq<Record>)
    requires Core(info, pos, quantum, ready, unfinished, uk, rem, clock, gantt, solved)
    requires info != [] && gantt == []
    ensures Total(info, rem) > 0
  {
    assert Served(gantt, info[0].id) == 0;
    TotalZero(info, rem);
  }

  /** While some job has time left, the ready queue or the unfinished list is not empty. */
  lemma Pending(info: seq<Proc>, pos: map<ProcId, int>, quantum: int, ready: seq<Proc>, unfinished: seq<Proc>,
                uk: seq<int>, rem: map<ProcId, int>, clock: int, gantt: seq<Interval<ProcId>>, solved: seq<Record>)
    requires Core(info, pos, quantum, ready, unfinished, uk, rem, clock, gantt, solved)
    requires Total(info, rem) > 0
    ensures ready != [] || unfinished != []
  {
    TotalZero(info, rem);
    var k :| 0 <= k < |info| && rem[info[k].id] != 0;
  }

  /** What the loop leaves behind: the chart, each job's service against its remaining time, and the records. */
  ghost predicate Outcomes(info: seq<Proc>, pos: map<ProcId, int>, quantum: int, rem: map<ProcId, int>,
                           gantt: seq<Interval<ProcId>>, solved: seq<Record>)
  {
    && info != [] && Keyed(info, rem) && gantt != [] && gantt[0].start == info[0].arrival
    && ChartOk(info, pos, quantum, gantt[|gantt| - 1].stop, gantt)
    && (forall k :: 0 <= k < |info| ==>
          0 <= rem[info[k].id] && Served(gantt, info[k].id) + rem[info[k].id] == info[k].burst)
    && RecordsOk(info, pos, rem, gantt[|gantt| - 1].stop, solved)
  }

  /** When the loop ends after at least one slice, the state gives the outcomes, with the clock at the chart's last stop. */
  lemma Finish(info: seq<Proc>, pos: map<ProcId, int>, quantum: int, ready: seq<Proc>, unfinished: seq<Proc>,
               uk: seq<int>, rem: map<ProcId, int>, clock: int, gantt: seq<Interval<ProcId>>, solved: seq<Record>)
    requires Inv(info, pos, quantum, ready, unfinished, uk, rem, clock, gantt, solved)
    requires info != [] && Started(info, ready, unfinished, clock, gantt) && gantt != []
    ensures Outcomes(info, pos, quantum, rem, gantt, solved)
  {
    var last := gantt[|gantt| - 1].stop;
    assert last == clock;
    assert ChartOk(info, pos, quantum, last, gantt);
    assert RecordsOk(info, pos, rem, last, solved);
  }

  /** With one job and a burst over the quantum, the first slice leaves it unfinished and unrecorded. */
  lemma LoneJob(info: seq<Proc>, pos: map<ProcId, int>, quantum: int, ready: seq<Proc>, unfinished: seq<Proc>,
                uk: seq<int>, rem: map<ProcId, int>, clock: int, gantt: seq<Interval<ProcId>>, solved: seq<Record>)
    requires Core(info, pos, quantum, ready, unfinished, uk, rem, clock, gantt, solved)
    requires |info| == 1 && info[0].burst > quantum && |gantt| == 1
    ensures gantt[0].id in rem && rem[gantt[0].id] > 0
  {
    assert pos[gantt[0].id] == 0;
    assert gantt == [] + [gantt[0]];
    ServedAppend([], gantt[0], info[0].id);
  }

  /** Lines 12-17: nothing queued, every job unfinished with its whole burst left, the clock at the first arrival. */
  method Setup(info: seq<Proc>, ghost pos: map<ProcId, int>, quantum: int)
    returns (ready: seq<Proc>, unfinished: seq<Proc>, ghost uk: seq<int>, rem: map<ProcId, int>, clock: int,
             gantt: seq<Interval<ProcId>>, solved: seq<Record>)
    requires Start(info, pos, quantum)
    ensures Fresh(info, ready, unfinished, uk, rem, clock, gantt, solved)
    ensures Inv(info, pos, quantum, ready, unfinished, uk, rem, clock, gantt, solved)
    ensures Started(info, ready, unfinished, clock, gantt)
    ensures Keyed(ready, rem) && Total(info, rem) >= 0
  {
    IndexedDistinct(info, pos);
    ready := [];
    unfinished := info;
    clock := info[0].arrival;
    rem := Remaining(info);
    gantt, solved := [], [];
    uk := seq(|info|, i => i);
    Initially(info, pos, quantum, ready, unfinished, uk, rem, clock, gantt, solved);
    TotalZero(info, rem);
  }

  /**
   * The loop of lines 19-59 as written: it runs while some job has time
   * left and `unfinished_jobs` is not empty. A single job whose burst
   * exceeds the quantum leaves the list at line 21 and the loop stops
   * after its first slice.
   */
  method RunWhileUnfinished(info: seq<Proc>, ghost pos: map<ProcId, int>, quantum: int, ready: seq<Proc>,
                            unfinished: seq<Proc>, ghost uk: seq<int>, rem: map<ProcId, int>, clock: int,
                            gantt: seq<Interval<ProcId>>, solved: seq<Record>)
    returns (ready': seq<Proc>, unfinished': seq<Proc>, ghost uk': seq<int>, rem': map<ProcId, int>, clock': int,
             gantt': seq<Interval<ProcId>>, solved': seq<Record>)
    requires Inv(info, pos, quantum, ready, unfinished, uk, rem, clock, gantt, solved)
    requires info != [] && Started(info, ready, unfinished, clock, gantt)
    requires Keyed(ready, rem) && Total(info, rem) >= 0
    requires |info| == 1 && info[0].burst > quantum ==> solved == [] && (gantt != [] ==> unfinished == [] && |gantt| == 1)
    ensures Inv(info, pos, quantum, ready', unfinished', uk', rem', clock', gantt', solved')
    ensures Started(info, ready', unfinished', clock', gantt')
    ensures Total(info, rem') == 0 || unfinished' == []
    ensures |info| == 1 && info[0].burst > quantum ==> solved' == [] && (gantt' != [] ==> |gantt'| == 1)
  {
    ready', unfinished', uk', rem', clock', gantt', solved' := ready, unfinished, uk, rem, clock, gantt, solved;
    while Total(info, rem') > 0 && unfinished' != []
      invariant Inv(info, pos, quantum, ready', unfinished', uk', rem', clock', gantt', solved')
      invariant Started(info, ready', unfinished', clock', gantt')
      invariant Keyed(ready', rem') && Total(info, rem') >= 0
      invariant |info| == 1 && info[0].burst > quantum ==>
        solved' == [] && (gantt' != [] ==> unfinished' == [] && |gantt'| == 1)
      decreases Total(info, rem'), ZeroLeft(ready', rem')
    {
      ready', unfinished', uk', rem', clock', gantt', solved' :=
        Iteration(info, pos, quantum, ready', unfinished', uk', rem', clock', gantt', solved');
      if |info| == 1 && info[0].burst > quantum {
        LoneJob(info, pos, quantum, ready', unfinished', uk', rem', clock', gantt', solved');
      }
    }
  }

  /** The loop as evidently intended: it runs while any job has time left. */
  method RunToCompletion(info: seq<Proc>, ghost pos: map<ProcId, int>, quantum: int, ready: seq<Proc>,
                         unfinished: seq<Proc>, ghost uk: seq<int>, rem: map<ProcId, int>, clock: int,
                         gantt: seq<Interval<ProcId>>, solved: seq<Record>)
    returns (ready': seq<Proc>, unfinished': seq<Proc>, ghost uk': seq<int>, rem': map<ProcId, int>, clock': int,
             gantt': seq<Interval<ProcId>>, solved': seq<Record>)
    requires Inv(info, pos, quantum, ready, unfinished, uk, rem, clock, gantt, solved)
    requires info != [] && Started(info, ready, unfinished, clock, gantt)
    requires Keyed(ready, rem) && Total(info, rem) >= 0
    ensures Inv(info, pos, quantum, ready', unfinished', uk', rem', clock', gantt', solved')
    ensures Started(info, ready', unfinished', clock', gantt')
    ensures Total(info, rem') == 0
  {
    ready', unfinished', uk', rem', clock', gantt', solved' := ready, unfinished, uk, rem, clock, gantt, solved;
    while Total(info, rem') > 0
      invariant Inv(info, pos, quantum, ready', unfinished', uk', rem', clock', gantt', solved')
      invariant Started(info, ready', unfinished', clock', gantt')
      invariant Keyed(ready', rem') && Total(info, rem') >= 0
      decreases Total(info, rem'), ZeroLeft(ready', rem')
    {
      Pending(info, pos, quantum, ready', unfinished', uk', rem', clock', gantt', solved');
      ready', unfinished', uk', rem', clock', gantt', solved' :=
        Iteration(info, pos, quantum, ready', unfinished', uk', rem', clock', gantt', solved');
    }
  }

  /**
   * Lines 12-59 as written. With a single job whose burst exceeds the
   * quantum, the chart has one entry and there is no record.
   */
  method Schedule(info: seq<Proc>, ghost pos: map<ProcId, int>, quantum: int)
    returns (gantt: seq<Interval<ProcId>>, solved: seq<Record>, ghost rem: map<ProcId, int>)
    requires Start(info, pos, quantum)
    ensures Outcomes(info, pos, quantum, rem, gantt, solved)
    ensures |info| == 1 && info[0].burst > quantum ==> solved == [] && |gantt| == 1
  {
    var ready, unfinished, remaining, clock;
    ghost var uk;
    ready, unfinished, uk, remaining, clock, gantt, solved := Setup(info, pos, quantum);
    ready, unfinished, uk, remaining, clock, gantt, solved :=
      RunWhileUnfinished(info, pos, quantum, ready, unfinished, uk, remaining, clock, gantt, solved);
    if gantt == [] {
      FirstPass(info, pos, quantum, ready, unfinished, uk, remaining, clock, gantt, solved);
    }
    Finish(info, pos, quantum, ready, unfinished, uk, remaining, clock, gantt, solved);
    rem := remaining;
  }

  /** Lines 12-59 with the loop running until no job has time left: every job is served its whole burst. */
  method ScheduleToCompletion(info: seq<Proc>, ghost pos: map<ProcId, int>, quantum: int)
    returns (gantt: seq<Interval<ProcId>>, solved: seq<Record>, ghost rem: map<ProcId, int>)
    requires Start(info, pos, quantum)
    ensures Outcomes(info, pos, quantum, rem, gantt, solved)
    ensures forall k :: 0 <= k < |info| ==> rem[info[k].id] == 0
  {
    var ready, unfinished, remaining, clock;
    ghost var uk;
    ready, unfinished, uk, remaining, clock, gantt, solved := Setup(info, pos, quantum);
    ready, unfinished, uk, remaining, clock, gantt, solved :=
      RunToCompletion(info, pos, quantum, ready, unfinished, uk, remaining, clock, gantt, solved);
    if gantt == [] {
      FirstPass(info, pos, quantum, ready, unfinished, uk, remaining, clock, gantt, solved);
    }
    Finish(info, pos, quantum, ready, unfinished, uk, remaining, clock, gantt, solved);
    TotalZero(info, remaining);
    rem := remaining;
  }

  // ---------------------------------------------------------------------
  // The result in terms of the input lists
  // ---------------------------------------------------------------------

  /**
   * The chart: every entry belongs to an input job, starts no earlier than
   * its arrival and lasts at most a quantum; entries are in time order; the
   * first starts at the earliest arrival (line 15).
   */
  ghost predicate ChartReported(arrival: seq<int>, burst: seq<int>, quantum: int, gantt: seq<Interval<ProcId>>)
    requires JobCount(arrival, burst) <= MaxJobs
  {
    var n := JobCount(arrival, burst);
    && gantt != []
    && (forall i :: 0 <= i < n ==> gantt[0].start <= arrival[i])
    && (exists i :: 0 <= i < n && gantt[0].start == arrival[i])
    && (forall j :: 0 <= j < |gantt| ==>
          var i := JobIndex(gantt[j].id);
          && 0 <= i < n && gantt[j].id == [Label(i)]
          && arrival[i] <= gantt[j].start && 0 <= Length(gantt[j]) <= quantum)
    && Chronological(gantt)
  }

  /**
   * The records: each is an input job served its whole burst, finished by
   * the end of the chart, with `tat = ft - at` and `wat = tat - bt >= 0`;
   * the list is in `(at, job)` order (line 62).
   */
  ghost predicate RecordsReported(arrival: seq<int>, burst: seq<int>, records: seq<Record>, gantt: seq<Interval<ProcId>>)
    requires JobCount(arrival, burst) <= MaxJobs && gantt != []
  {
    var n := JobCount(arrival, burst);
    && (forall j :: 0 <= j < |records| ==>
          var i := JobIndex(records[j].job);
          && 0 <= i < n && records[j].job == [Label(i)] && records[j].at == arrival[i] && records[j].bt == burst[i]
          && Served(gantt, records[j].job) == burst[i] && records[j].ft <= gantt[|gantt| - 1].stop
          && records[j].tat == records[j].ft - records[j].at
          && records[j].wat == records[j].tat - records[j].bt && 0 <= records[j].wat)
    && (forall j, j' :: 0 <= j < j' < |records| ==>
          |records[j].job| == 1 && |records[j'].job| == 1 && RecordBefore(records[j], records[j']))
  }

  /** Service: no job is served more than its burst, and a job served its whole burst has a record. */
  ghost predicate ServiceReported(arrival: seq<int>, burst: seq<int>, records: seq<Record>, gantt: seq<Interval<ProcId>>)
    requires JobCount(arrival, burst) <= MaxJobs
  {
    forall i :: 0 <= i < JobCount(arrival, burst) ==>
      && Served(gantt, [Label(i)]) <= burst[i]
      && (Served(gantt, [Label(i)]) == burst[i] ==> exists j :: 0 <= j < |records| && records[j].job == [Label(i)])
  }

  lemma ChartConcluded(arrival: seq<int>, burst: seq<int>, quantum: int, pos: map<ProcId, int>,
                       rem: map<ProcId, int>, gantt: seq<Interval<ProcId>>, solved: seq<Record>)
    requires JobCount(arrival, burst) <= MaxJobs
    requires Outcomes(JobsInfo(arrival, burst), pos, quantum, rem, gantt, solved)
    requires SortedBy(JobsInfo(arrival, burst), ArrivalOf)
    ensures ChartReported(arrival, burst, quantum, gantt)
  {
    var info := JobsInfo(arrival, burst);
    JobsFromInput(arrival, burst);
    forall i | 0 <= i < JobCount(arrival, burst)
      ensures gantt[0].start <= arrival[i]
    {
      var k :| 0 <= k < |info| && info[k] == Proc([Label(i)], arrival[i], burst[i]);
      assert k == 0 || ArrivalOf(info[0]) <= ArrivalOf(info[k]);
    }
    assert gantt[0].start == arrival[JobIndex(info[0].id)];
    forall j | 0 <= j < |gantt|
      ensures var i := JobIndex(gantt[j].id);
        && 0 <= i < JobCount(arrival, burst) && gantt[j].id == [Label(i)]
        && arrival[i] <= gantt[j].start && 0 <= Length(gantt[j]) <= quantum
    {
      var k := pos[gantt[j].id];
      assert info[k].id == gantt[j].id;
    }
  }

  lemma RecordsConcluded(arrival: seq<int>, burst: seq<int>, quantum: int, pos: map<ProcId, int>,
                         rem: map<ProcId, int>, gantt: seq<Interval<ProcId>>, solved: seq<Record>, records: seq<Record>)
    requires JobCount(arrival, burst) <= MaxJobs
    requires Outcomes(JobsInfo(arrival, burst), pos, quantum, rem, gantt, solved)
    requires records == SortByKey(solved, RecordKey)
    ensures RecordsReported(arrival, burst, records, gantt)
  {
    var info := JobsInfo(arrival, burst);
    JobsFromInput(arrival, burst);
    forall j | 0 <= j < |records|
      ensures var i := JobIndex(records[j].job);
        && 0 <= i < JobCount(arrival, burst) && records[j].job == [Label(i)]
        && records[j].at == arrival[i] && records[j].bt == burst[i]
        && Served(gantt, records[j].job) == burst[i] && records[j].ft <= gantt[|gantt| - 1].stop
        && records[j].tat == records[j].ft - records[j].at
        && records[j].wat == records[j].tat - records[j].bt && 0 <= records[j].wat
    {
      assert records[j] in multiset(solved);
      var x :| 0 <= x < |solved| && solved[x] == records[j];
      assert Settled(info, pos, rem, gantt[|gantt| - 1].stop, solved[x]);
      var k := pos[records[j].job];
      assert info[k].id == records[j].job;
    }
    forall j, j' | 0 <= j < j' < |records|
      ensures |records[j].job| == 1 && |records[j'].job| == 1 && RecordBefore(records[j], records[j'])
    {
      RecordKeyOrder(records[j], records[j']);
    }
  }

  lemma ServiceConcluded(arrival: seq<int>, burst: seq<int>, quantum: int, pos: map<ProcId, int>,
                         rem: map<ProcId, int>, gantt: seq<Interval<ProcId>>, solved: seq<Record>, records: seq<Record>)
    requires JobCount(arrival, burst) <= MaxJobs
    requires Outcomes(JobsInfo(arrival, burst), pos, quantum, rem, gantt, solved)
    requires multiset(records) == multiset(solved)
    ensures ServiceReported(arrival, burst, records, gantt)
    ensures (forall k :: 0 <= k < |JobsInfo(arrival, burst)| ==> rem[JobsInfo(arrival, burst)[k].id] == 0) ==>
      forall i :: 0 <= i < JobCount(arrival, burst) ==> Served(gantt, [Label(i)]) == burst[i]
  {
    var info := JobsInfo(arrival, burst);
    JobsFromInput(arrival, burst);
    forall i | 0 <= i < JobCount(arrival, burst)
      ensures Served(gantt, [Label(i)]) <= burst[i]
      ensures Served(gantt, [Label(i)]) == burst[i] ==> exists j :: 0 <= j < |records| && records[j].job == [Label(i)]
      ensures rem[[Label(i)]] == 0 ==> Served(gantt, [Label(i)]) == burst[i]
    {
      var k :| 0 <= k < |info| && info[k] == Proc([Label(i)], arrival[i], burst[i]);
      if Served(gantt, [Label(i)]) == burst[i] {
        var x :| 0 <= x < |solved| && solved[x].job == info[k].id;
        assert solved[x] in multiset(records);
        var j :| 0 <= j < |records| && records[j] == solved[x];
      }
    }
  }

  /**
   * `round_robin` (lines 6-64) as written: the completion records sorted
   * by `(at, job)` and the Gantt chart, or the `IndexError` of line 15 for
   * empty input. A lone job whose burst exceeds the quantum gets one slice
   * and no record.
   */
  method RoundRobin(arrival: seq<int>, burst: seq<int>, quantum: int) returns (r: Outcome)
    requires quantum >= 1 && JobCount(arrival, burst) <= MaxJobs
    requires forall i :: 0 <= i < JobCount(arrival, burst) ==> burst[i] >= 1
    ensures r.IndexError? <==> JobCount(arrival, burst) == 0
    ensures r.Done? ==>
      && ChartReported(arrival, burst, quantum, r.gantt)
      && RecordsReported(arrival, burst, r.records, r.gantt)
      && ServiceReported(arrival, burst, r.records, r.gantt)
    ensures JobCount(arrival, burst) == 1 && burst[0] > quantum ==> r.Done? && r.records == [] && |r.gantt| == 1
  {
    var info := JobsInfo(arrival, burst);
    JobsInfoSpec(arrival, burst);
    if info == [] {
      return IndexError;
    }
    JobsFromInput(arrival, burst);
    ghost var pos := Positions(info);
    var gantt, solved;
    ghost var rem;
    gantt, solved, rem := Schedule(info, pos, quantum);
    var records := SortByKey(solved, RecordKey);
    ChartConcluded(arrival, burst, quantum, pos, rem, gantt, solved);
    RecordsConcluded(arrival, burst, quantum, pos, rem, gantt, solved, records);
    ServiceConcluded(arrival, burst, quantum, pos, rem, gantt, solved, records);
    r := Done(records, gantt);
  }

  /**
   * `round_robin` with the loop running until no job has time left: every
   * input job is served its whole burst and has a completion record.
   */
  method RoundRobinToCompletion(arrival: seq<int>, burst: seq<int>, quantum: int) returns (r: Outcome)
    requires quantum >= 1 && JobCount(arrival, burst) <= MaxJobs
    requires forall i :: 0 <= i < JobCount(arrival, burst) ==> burst[i] >= 1
    ensures r.IndexError? <==> JobCount(arrival, burst) == 0
    ensures r.Done? ==>
      && ChartReported(arrival, burst, quantum, r.gantt)
      && RecordsReported(arrival, burst, r.records, r.gantt)
      && ServiceReported(arrival, burst, r.records, r.gantt)
    ensures r.Done? ==> forall i :: 0 <= i < JobCount(arrival, burst) ==> Served(r.gantt, [Label(i)]) == burst[i]
  {
    var info := JobsInfo(arrival, burst);
    JobsInfoSpec(arrival, burst);
    if info == [] {
      return IndexError;
    }
    JobsFromInput(arrival, burst);
    ghost var pos := Positions(info);
    var gantt, solved;
    ghost var rem;
    gantt, solved, rem := ScheduleToCompletion(info, pos, quantum);
    var records := SortByKey(solved, RecordKey);
    ChartConcluded(arrival, burst, quantum, pos, rem, gantt, solved);
    RecordsConcluded(arrival, burst, quantum, pos, rem, gantt, solved, records);
    ServiceConcluded(arrival, burst, quantum, pos, rem, gantt, solved, records);
    r := Done(records, gantt);
  }
}
