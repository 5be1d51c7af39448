/**
 * Python's `list.sort(key=...)` and `sorted(..., key=...)`: a stable sort on
 * an integer key, written as insertion sort. Stability is stated per key:
 * the elements that share a key appear in the result in input order.
 */
module StableSort {
  /** No two elements of `s` share an `id`. */
  predicate DistinctBy<T, K(==)>(s: seq<T>, id: T -> K)
  {
    forall i, j :: 0 <= i < j < |s| ==> id(s[i]) != id(s[j])
  }

  predicate SortedBy<T>(s: seq<T>, key: T -> int)
  {
    forall i, j :: 0 <= i < j < |s| ==> key(s[i]) <= key(s[j])
  }

  /** The elements of `s` whose key is `k`, in the order of `s`. */
  function Filter<T>(s: seq<T>, key: T -> int, k: int): seq<T>
  {
    if s == [] then [] else (if key(s[0]) == k then [s[0]] else []) + Filter(s[1..], key, k)
  }

  /** Inserts `x` after every element whose key is at most `key(x)`. */
  function Insert<T>(s: seq<T>, x: T, key: T -> int): (r: seq<T>)
    ensures |r| == |s| + 1
    ensures multiset(r) == multiset(s) + multiset{x}
  {
    if s == [] || key(x) < key(s[0]) then [x] + s
    else
      assert s == [s[0]] + s[1..];
      [s[0]] + Insert(s[1..], x, key)
  }

  /** Stable insertion sort: each element is inserted after its equals. */
  function SortByKey<T>(s: seq<T>, key: T -> int): (r: seq<T>)
    ensures |r| == |s|
    ensures multiset(r) == multiset(s)
    ensures SortedBy(r, key)
  {
    if s == [] then []
    else
      assert s == s[..|s| - 1] + [s[|s| - 1]];
      var r0 := SortByKey(s[..|s| - 1], key);
      InsertSorted(r0, s[|s| - 1], key);
      Insert(r0, s[|s| - 1], key)
  }

  lemma {:induction false} InsertSorted<T>(s: seq<T>, x: T, key: T -> int)
    requires SortedBy(s, key)
    ensures SortedBy(Insert(s, x, key), key)
  {
    if s == [] || key(x) < key(s[0]) {
    } else {
      var tail := Insert(s[1..], x, key);
      InsertSorted(s[1..], x, key);
      forall y | y in tail
        ensures key(s[0]) <= key(y)
      {
        assert y in multiset(tail);
        if y != x {
          assert y in s[1..];
        }
      }
    }
  }

  lemma {:induction false} FilterAppend<T>(s: seq<T>, x: T, key: T -> int, k: int)
    ensures Filter(s + [x], key, k) == Filter(s, key, k) + (if key(x) == k then [x] else [])
  {
    if s != [] {
      assert (s + [x])[1..] == s[1..] + [x];
      FilterAppend(s[1..], x, key, k);
    }
  }

  lemma {:induction false} FilterNone<T>(s: seq<T>, key: T -> int, k: int)
    requires forall i :: 0 <= i < |s| ==> key(s[i]) != k
    ensures Filter(s, key, k) == []
  {
    if s != [] {
      FilterNone(s[1..], key, k);
    }
  }

  /** Inserting into a sorted sequence puts `x` after every element with its key. */
  lemma {:induction false} InsertFilter<T>(s: seq<T>, x: T, key: T -> int, k: int)
    requires SortedBy(s, key)
    ensures Filter(Insert(s, x, key), key, k) == Filter(s, key, k) + (if key(x) == k then [x] else [])
  {
    if s == [] {
    } else if key(x) < key(s[0]) {
      var r := [x] + s;
      assert Insert(s, x, key) == r;
      assert r[1..] == s;
      if key(x) == k {
        FilterNone(s, key, k);
      }
    } else {
      var tail := Insert(s[1..], x, key);
      var r := [s[0]] + tail;
      assert Insert(s, x, key) == r;
      assert r[0] == s[0] && r[1..] == tail;
      InsertFilter(s[1..], x, key, k);
      assert Filter(r, key, k) == (if key(s[0]) == k then [s[0]] else []) + Filter(tail, key, k);
    }
  }

  /** The sort is stable: for each key, the elements with that key keep their input order. */
  lemma {:induction false} SortStable<T>(s: seq<T>, key: T -> int, k: int)
    ensures Filter(SortByKey(s, key), key, k) == Filter(s, key, k)
  {
    if s != [] {
      var init, last := s[..|s| - 1], s[|s| - 1];
      assert s == init + [last];
      SortStable(init, key, k);
      InsertFilter(SortByKey(init, key), last, key, k);
      FilterAppend(init, last, key, k);
    }
  }

  lemma {:induction false} InsertDistinct<T, K>(s: seq<T>, x: T, key: T -> int, id: T -> K)
    requires DistinctBy(s, id)
    requires forall i :: 0 <= i < |s| ==> id(s[i]) != id(x)
    ensures DistinctBy(Insert(s, x, key), id)
  {
    if s == [] || key(x) < key(s[0]) {
    } else {
      var tail := Insert(s[1..], x, key);
      InsertDistinct(s[1..], x, key, id);
      forall j | 0 <= j < |tail|
        ensures id(s[0]) != id(tail[j])
      {
        assert tail[j] in multiset(tail);
        if tail[j] != x {
          assert tail[j] in s[1..];
        }
      }
      assert Insert(s, x, key) == [s[0]] + tail;
    }
  }

  /** Sorting keeps keys such as process ids distinct. */
  lemma {:induction false} SortDistinct<T, K>(s: seq<T>, key: T -> int, id: T -> K)
    requires DistinctBy(s, id)
    ensures DistinctBy(SortByKey(s, key), id)
  {
    if s != [] {
      var init, last := s[..|s| - 1], s[|s| - 1];
      var r0 := SortByKey(init, key);
      SortDistinct(init, key, id);
      forall j | 0 <= j < |r0|
        ensures id(r0[j]) != id(last)
      {
        assert r0[j] in multiset(init);
        var i :| 0 <= i < |init| && init[i] == r0[j];
      }
      InsertDistinct(r0, last, key, id);
    }
  }
}
