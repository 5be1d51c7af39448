/**
 * Vocabulary shared by the three round-robin simulators: the process
 * triples they take, the execution intervals they record, and the
 * bookkeeping functions (service received, last slice, sums over the
 * per-id dictionaries, admission prefix) their contracts are stated with.
 */
module Scheduling {
  import opened StableSort

  type ProcId = string

  /** An input triple `(id, arrival, burst)`. */
  datatype Proc = Proc(id: ProcId, arrival: int, burst: int)

  /** One timeline entry: process `id` ran from `start` to `stop`. */
  datatype Interval<Id> = Interval(id: Id, start: int, stop: int)

  function IdOf(p: Proc): ProcId { p.id }

  function ArrivalOf(p: Proc): int { p.arrival }

  function Min(a: int, b: int): (r: int)
    ensures r <= a && r <= b && (r == a || r == b)
  {
    if a <= b then a else b
  }

  function Length<Id>(e: Interval<Id>): int { e.stop - e.start }

  /** Total length of the entries of `t` that belong to `id`. */
  function Served<Id(==)>(t: seq<Interval<Id>>, id: Id): int
  {
    if t == [] then 0
    else Served(t[..|t| - 1], id) + (if t[|t| - 1].id == id then Length(t[|t| - 1]) else 0)
  }

  lemma ServedAppend<Id>(t: seq<Interval<Id>>, e: Interval<Id>, id: Id)
    ensures Served(t + [e], id) == Served(t, id) + (if e.id == id then Length(e) else 0)
  {
    assert (t + [e])[..|t|] == t;
  }

  /** The last entry of `t` that belongs to `id` (a zero entry when there is none). */
  function LastOf<Id(==)>(t: seq<Interval<Id>>, id: Id): Interval<Id>
  {
    if t == [] then Interval(id, 0, 0)
    else if t[|t| - 1].id == id then t[|t| - 1]
    else LastOf(t[..|t| - 1], id)
  }

  lemma LastOfAppend<Id>(t: seq<Interval<Id>>, e: Interval<Id>, id: Id)
    ensures LastOf(t + [e], id) == if e.id == id then e else LastOf(t, id)
  {
    assert (t + [e])[..|t|] == t;
  }

  /** Each entry starts no earlier than the previous one stopped. */
  predicate Chronological<Id>(t: seq<Interval<Id>>)
    decreases |t|
  {
    |t| <= 1 || (Chronological(t[..|t| - 1]) && t[|t| - 2].stop <= t[|t| - 1].start)
  }

  lemma ChronologicalAppend<Id>(t: seq<Interval<Id>>, e: Interval<Id>)
    requires Chronological(t) && (t != [] ==> t[|t| - 1].stop <= e.start)
    ensures Chronological(t + [e])
  {
    assert (t + [e])[..|t|] == t;
  }

  /** In a chronological timeline of entries with start <= stop, every entry stops before any later one starts. */
  lemma {:induction false} ChronologicalOrdered<Id>(t: seq<Interval<Id>>)
    requires Chronological(t)
    requires forall j :: 0 <= j < |t| ==> t[j].start <= t[j].stop
    ensures forall j, j' :: 0 <= j < j' < |t| ==> t[j].stop <= t[j'].start
  {
    if |t| > 1 {
      var init := t[..|t| - 1];
      ChronologicalOrdered(init);
      assert forall j :: 0 <= j < |init| ==> init[j] == t[j];
    }
  }

  /** No two processes share an id. */
  predicate DistinctIds(ps: seq<Proc>)
  {
    forall i, j :: 0 <= i < j < |ps| ==> ps[i].id != ps[j].id
  }

  /**
   * `pos` gives the position of every process of `ps` by id; it exists
   * exactly when the ids are distinct.
   */
  predicate Indexed(ps: seq<Proc>, pos: map<ProcId, int>)
  {
    forall k :: 0 <= k < |ps| ==> ps[k].id in pos && pos[ps[k].id] == k
  }

  lemma IndexedDistinct(ps: seq<Proc>, pos: map<ProcId, int>)
    requires Indexed(ps, pos)
    ensures DistinctIds(ps)
  {
  }

  /** The position map of a list of distinct processes. */
  function Positions(ps: seq<Proc>): (pos: map<ProcId, int>)
    requires DistinctIds(ps)
    ensures Indexed(ps, pos)
  {
    map k | 0 <= k < |ps| :: ps[k].id := k
  }

  /** The ids of `ps`: the keys of a dictionary built from it. */
  function Ids(ps: seq<Proc>): set<ProcId>
  {
    set i | 0 <= i < |ps| :: ps[i].id
  }

  /** Every process of `ps` has an entry in `m`. */
  predicate Keyed(ps: seq<Proc>, m: map<ProcId, int>)
  {
    forall i :: 0 <= i < |ps| ==> ps[i].id in m
  }

  /** Assigning to a key a dictionary already has keeps its keys. */
  lemma KeysKept(m: map<ProcId, int>, id: ProcId, v: int)
    requires id in m
    ensures m[id := v].Keys == m.Keys
  {
  }

  /**
   * Sum of `m` over the ids of `ps`; with distinct ids this is the sum of the
   * values of a dictionary keyed by the processes.
   */
  function Total(ps: seq<Proc>, m: map<ProcId, int>): int
    requires Keyed(ps, m)
  {
    if ps == [] then 0 else m[ps[0].id] + Total(ps[1..], m)
  }

  /** Changing one entry of the dictionary changes the sum by the difference. */
  lemma {:induction false} TotalUpdate(ps: seq<Proc>, m: map<ProcId, int>, id: ProcId, v: int)
    requires Keyed(ps, m) && DistinctIds(ps)
    requires exists i :: 0 <= i < |ps| && ps[i].id == id
    ensures Keyed(ps, m[id := v])
    ensures Total(ps, m[id := v]) == Total(ps, m) - m[id] + v
  {
    var m' := m[id := v];
    if ps[0].id == id {
      assert forall i :: 1 <= i < |ps| ==> ps[i].id != id;
      TotalUnchanged(ps[1..], m, m');
    } else {
      var i :| 0 <= i < |ps| && ps[i].id == id;
      assert ps[1..][i - 1].id == id;
      TotalUpdate(ps[1..], m, id, v);
    }
  }

  /** Changing the entry of the process at position `k` changes the sum by the difference. */
  lemma TotalAt(ps: seq<Proc>, pos: map<ProcId, int>, m: map<ProcId, int>, k: int, v: int)
    requires Indexed(ps, pos) && Keyed(ps, m) && 0 <= k < |ps|
    ensures Keyed(ps, m[ps[k].id := v])
    ensures Total(ps, m[ps[k].id := v]) == Total(ps, m) - m[ps[k].id] + v
  {
    IndexedDistinct(ps, pos);
    TotalUpdate(ps, m, ps[k].id, v);
  }

  /** The sum over a concatenation is the sum of the sums. */
  lemma {:induction false} TotalAppend(a: seq<Proc>, b: seq<Proc>, m: map<ProcId, int>)
    requires Keyed(a + b, m)
    ensures Keyed(a, m) && Keyed(b, m)
    ensures Total(a + b, m) == Total(a, m) + Total(b, m)
  {
    assert forall i :: 0 <= i < |a| ==> a[i] == (a + b)[i];
    assert forall i :: 0 <= i < |b| ==> b[i] == (a + b)[|a| + i];
    if a == [] {
      assert a + b == b;
    } else {
      assert (a + b)[1..] == a[1..] + b;
      TotalAppend(a[1..], b, m);
    }
  }

  /** Taking one process out of the list takes its entry out of the sum. */
  lemma TotalRemove(qs: seq<Proc>, j: int, m: map<ProcId, int>)
    requires Keyed(qs, m) && 0 <= j < |qs|
    ensures Keyed(qs[..j] + qs[j + 1..], m)
    ensures Total(qs, m) == m[qs[j].id] + Total(qs[..j] + qs[j + 1..], m)
  {
    assert qs == qs[..j] + [qs[j]] + qs[j + 1..];
    TotalAppend(qs[..j] + [qs[j]], qs[j + 1..], m);
    TotalAppend(qs[..j], [qs[j]], m);
    TotalAppend(qs[..j], qs[j + 1..], m);
  }

  /** Removing equal elements from equal multisets leaves equal multisets. */
  lemma RemoveMatched(ps: seq<Proc>, qs: seq<Proc>, j: int)
    requires multiset(ps) == multiset(qs) && ps != [] && 0 <= j < |qs| && qs[j] == ps[0]
    ensures multiset(ps[1..]) == multiset(qs[..j] + qs[j + 1..])
  {
    assert ps == [ps[0]] + ps[1..];
    assert qs == qs[..j] + [qs[j]] + qs[j + 1..];
    forall x
      ensures multiset(ps[1..])[x] == multiset(qs[..j] + qs[j + 1..])[x]
    {
      assert multiset(ps)[x] == multiset{ps[0]}[x] + multiset(ps[1..])[x];
      assert multiset(qs)[x] == multiset(qs[..j])[x] + multiset{qs[j]}[x] + multiset(qs[j + 1..])[x];
    }
  }

  /** The sum does not depend on the order of the processes. */
  lemma {:induction false} TotalPermutation(ps: seq<Proc>, qs: seq<Proc>, m: map<ProcId, int>)
    requires multiset(ps) == multiset(qs) && Keyed(ps, m) && Keyed(qs, m)
    ensures Total(ps, m) == Total(qs, m)
    decreases |ps|
  {
    if ps == [] {
      assert |qs| == |multiset(qs)| == 0;
    } else {
      assert ps[0] in multiset(qs);
      var j :| 0 <= j < |qs| && qs[j] == ps[0];
      TotalRemove(qs, j, m);
      RemoveMatched(ps, qs, j);
      TotalPermutation(ps[1..], qs[..j] + qs[j + 1..], m);
    }
  }

  /** The sum only reads the entries of the ids in `ps`. */
  lemma {:induction false} TotalUnchanged(ps: seq<Proc>, m: map<ProcId, int>, m': map<ProcId, int>)
    requires Keyed(ps, m) && Keyed(ps, m')
    requires forall i :: 0 <= i < |ps| ==> m[ps[i].id] == m'[ps[i].id]
    ensures Total(ps, m) == Total(ps, m')
  {
    if ps != [] {
      TotalUnchanged(ps[1..], m, m');
    }
  }

  /** A sum of non-negative entries is zero exactly when every entry is zero. */
  lemma {:induction false} TotalZero(ps: seq<Proc>, m: map<ProcId, int>)
    requires Keyed(ps, m)
    requires forall i :: 0 <= i < |ps| ==> m[ps[i].id] >= 0
    ensures Total(ps, m) >= 0
    ensures Total(ps, m) == 0 <==> forall i :: 0 <= i < |ps| ==> m[ps[i].id] == 0
  {
    if ps != [] {
      TotalZero(ps[1..], m);
      assert forall i :: 1 <= i < |ps| ==> ps[i] == ps[1..][i - 1];
    }
  }

  /**
   * Arithmetic mean of `m` over `ps`, with 0 for no processes: the
   * `sum(d.values()) / len(d) if len(d) > 0 else 0` of the source, in exact
   * arithmetic.
   */
  function Mean(ps: seq<Proc>, m: map<ProcId, int>): (r: real)
    requires Keyed(ps, m)
    ensures |ps| == 0 ==> r == 0.0
    ensures |ps| > 0 ==> r * (|ps| as real) == Total(ps, m) as real
  {
    if |ps| > 0 then Total(ps, m) as real / |ps| as real else 0.0
  }
  /** The mean is the same over any ordering of the processes. */
  lemma MeanReordered(ps: seq<Proc>, qs: seq<Proc>, m: map<ProcId, int>)
    requires multiset(ps) == multiset(qs) && Keyed(ps, m) && Keyed(qs, m)
    ensures Mean(ps, m) == Mean(qs, m)
  {
    assert |ps| == |multiset(ps)| == |multiset(qs)| == |qs|;
    TotalPermutation(ps, qs, m);
  }

  /**
   * Number of leading processes of `pending` that have arrived by `clock`:
   * how many `while pending and pending[0].arrival <= clock` moves.
   */
  function Arrived(pending: seq<Proc>, clock: int): (n: nat)
    ensures n <= |pending|
    ensures forall i :: 0 <= i < n ==> pending[i].arrival <= clock
    ensures n == |pending| || pending[n].arrival > clock
  {
    if pending == [] || pending[0].arrival > clock then 0
    else 1 + Arrived(pending[1..], clock)
  }

  /** The integers `lo`, `lo + 1`, ..., `hi - 1`, in order. */
  function Range(lo: int, hi: int): (r: seq<int>)
    requires lo <= hi
    ensures |r| == hi - lo
    ensures forall i :: 0 <= i < |r| ==> r[i] == lo + i
    decreases hi - lo
  {
    if lo == hi then [] else [lo] + Range(lo + 1, hi)
  }

  /** Admission is idempotent: a second pass at the same clock moves nothing. */
  lemma ArrivedIdempotent(pending: seq<Proc>, clock: int)
    ensures Arrived(pending[Arrived(pending, clock)..], clock) == 0
  {
  }

  /** The sorted list keeps the ids distinct and the bursts positive, so it has a position map. */
  lemma SortedSetup(processes: seq<Proc>, sorted: seq<Proc>) returns (pos: map<ProcId, int>)
    requires DistinctIds(processes) && sorted == SortByKey(processes, ArrivalOf)
    requires forall i :: 0 <= i < |processes| ==> processes[i].burst >= 1
    ensures Indexed(sorted, pos)
    ensures forall k :: 0 <= k < |sorted| ==> sorted[k].burst >= 1
  {
    assert DistinctBy(processes, IdOf);
    SortDistinct(processes, ArrivalOf, IdOf);
    assert DistinctIds(sorted) by {
      assert DistinctBy(sorted, IdOf);
    }
    forall k | 0 <= k < |sorted|
      ensures sorted[k].burst >= 1
    {
      assert sorted[k] in multiset(processes);
    }
    pos := Positions(sorted);
  }

  /** The dictionaries are built with one entry per input process. */
  lemma InitialKeys(processes: seq<Proc>, sorted: seq<Proc>, rem: map<ProcId, int>)
    requires multiset(sorted) == multiset(processes)
    requires forall k :: 0 <= k < |sorted| ==> sorted[k].id in rem
    requires forall id :: id in rem ==> exists k :: 0 <= k < |sorted| && sorted[k].id == id
    ensures rem.Keys == Ids(processes)
  {
    forall id | id in rem
      ensures id in Ids(processes)
    {
      var k :| 0 <= k < |sorted| && sorted[k].id == id;
      assert sorted[k] in multiset(processes);
      var i :| 0 <= i < |processes| && processes[i] == sorted[k];
    }
    forall i | 0 <= i < |processes|
      ensures processes[i].id in rem
    {
      assert processes[i] in multiset(sorted);
      var k :| 0 <= k < |sorted| && sorted[k] == processes[i];
    }
  }
}
