/** ORDER BY and WHERE on sequences of rows: a stable insertion sort, a filter, and how they commute. */
module Ordering {

  ghost predicate TotalOrder<T(!new)>(le: (T, T) -> bool) {
    && (forall x, y :: le(x, y) || le(y, x))
    && (forall x, y, z :: le(x, y) && le(y, z) ==> le(x, z))
  }

  ghost predicate SortedBy<T>(xs: seq<T>, le: (T, T) -> bool) {
    forall i, j :: 0 <= i < j < |xs| ==> le(xs[i], xs[j])
  }

  function Insert<T>(x: T, ys: seq<T>, le: (T, T) -> bool): seq<T> {
    if ys == [] then [x]
    else if le(x, ys[0]) then [x] + ys
    else [ys[0]] + Insert(x, ys[1..], le)
  }

  function Sort<T>(xs: seq<T>, le: (T, T) -> bool): seq<T> {
    if xs == [] then [] else Insert(xs[0], Sort(xs[1..], le), le)
  }

  function Filter<T>(xs: seq<T>, keep: T -> bool): seq<T> {
    if xs == [] then []
    else if keep(xs[0]) then [xs[0]] + Filter(xs[1..], keep)
    else Filter(xs[1..], keep)
  }

  lemma {:induction false} InsertKeeps<T>(x: T, ys: seq<T>, le: (T, T) -> bool)
    ensures multiset(Insert(x, ys, le)) == multiset{x} + multiset(ys)
  {
    if ys != [] && !le(x, ys[0]) {
      InsertKeeps(x, ys[1..], le);
      assert ys == [ys[0]] + ys[1..];
    }
  }

  lemma HeadFirst<T(!new)>(x: T, ys: seq<T>, le: (T, T) -> bool)
    requires TotalOrder(le) && SortedBy(ys, le) && ys != [] && !le(x, ys[0])
    ensures forall k :: 0 <= k < |Insert(x, ys[1..], le)| ==> le(ys[0], Insert(x, ys[1..], le)[k])
  {
    var rest := Insert(x, ys[1..], le);
    InsertKeeps(x, ys[1..], le);
    forall k | 0 <= k < |rest| ensures le(ys[0], rest[k]) {
      assert rest[k] in multiset(rest);
      assert rest[k] == x || rest[k] in ys[1..];
    }
  }

  lemma {:induction false} InsertSorts<T(!new)>(x: T, ys: seq<T>, le: (T, T) -> bool)
    requires TotalOrder(le) && SortedBy(ys, le)
    ensures SortedBy(Insert(x, ys, le), le)
    ensures multiset(Insert(x, ys, le)) == multiset{x} + multiset(ys)
  {
    InsertKeeps(x, ys, le);
    if ys != [] && !le(x, ys[0]) {
      InsertSorts(x, ys[1..], le);
      HeadFirst(x, ys, le);
    }
  }

  /** Sorting orders the rows and keeps every one of them. */
  lemma {:induction false} SortSorts<T(!new)>(xs: seq<T>, le: (T, T) -> bool)
    requires TotalOrder(le)
    ensures SortedBy(Sort(xs, le), le)
    ensures multiset(Sort(xs, le)) == multiset(xs)
    ensures |Sort(xs, le)| == |xs|
  {
    if xs != [] {
      SortSorts(xs[1..], le);
      InsertSorts(xs[0], Sort(xs[1..], le), le);
      assert xs == [xs[0]] + xs[1..];
      assert |multiset(Sort(xs, le))| == |multiset(xs)|;
    }
  }

  ghost predicate DistinctKeys<T>(xs: seq<T>, key: T -> int) {
    forall i, j :: 0 <= i < j < |xs| ==> key(xs[i]) != key(xs[j])
  }

  lemma {:induction false} InsertDistinct<T(!new)>(x: T, ys: seq<T>, le: (T, T) -> bool, key: T -> int)
    requires TotalOrder(le) && SortedBy(ys, le) && DistinctKeys(ys, key)
    requires forall y :: y in ys ==> key(y) != key(x)
    ensures DistinctKeys(Insert(x, ys, le), key)
  {
    if ys == [] {
    } else if le(x, ys[0]) {
    } else {
      InsertDistinct(x, ys[1..], le, key);
      InsertSorts(x, ys[1..], le);
      var rest := Insert(x, ys[1..], le);
      forall k | 0 <= k < |rest| ensures key(rest[k]) != key(ys[0]) {
        assert rest[k] in multiset(rest);
        assert rest[k] == x || rest[k] in ys[1..];
      }
    }
  }

  /** Sorting keeps keys distinct. */
  lemma {:induction false} SortDistinct<T(!new)>(xs: seq<T>, le: (T, T) -> bool, key: T -> int)
    requires TotalOrder(le) && DistinctKeys(xs, key)
    ensures DistinctKeys(Sort(xs, le), key)
  {
    if xs != [] {
      SortDistinct(xs[1..], le, key);
      SortSorts(xs[1..], le);
      var ys := Sort(xs[1..], le);
      forall y | y in ys ensures key(y) != key(xs[0]) {
        assert y in multiset(ys);
        assert y in xs[1..];
      }
      InsertDistinct(xs[0], ys, le, key);
    }
  }

  lemma {:induction false} InsertFilter<T(!new)>(x: T, ys: seq<T>, le: (T, T) -> bool, keep: T -> bool)
    requires TotalOrder(le) && SortedBy(ys, le)
    ensures Filter(Insert(x, ys, le), keep)
         == if keep(x) then Insert(x, Filter(ys, keep), le) else Filter(ys, keep)
  {
    if ys == [] {
      assert [x][1..] == [];
    } else if le(x, ys[0]) {
      assert ([x] + ys)[1..] == ys;
      FilterKeeps(ys, keep);
      var fs := Filter(ys, keep);
      if fs != [] {
        assert fs[0] in ys;
        assert le(ys[0], fs[0]);
        assert le(x, fs[0]);
      }
    } else {
      InsertFilter(x, ys[1..], le, keep);
      var rest := Insert(x, ys[1..], le);
      assert ([ys[0]] + rest)[1..] == rest;
      var tail := Filter(ys[1..], keep);
      assert keep(ys[0]) ==> ([ys[0]] + tail)[1..] == tail;
    }
  }

  lemma {:induction false} FilterKeeps<T>(xs: seq<T>, keep: T -> bool)
    ensures forall x :: x in Filter(xs, keep) <==> x in xs && keep(x)
    ensures |Filter(xs, keep)| <= |xs|
  {
    if xs != [] {
      FilterKeeps(xs[1..], keep);
      assert xs == [xs[0]] + xs[1..];
    }
  }

  /** Selecting rows before or after ordering them makes no difference. */
  lemma {:induction false} SortFilter<T(!new)>(xs: seq<T>, le: (T, T) -> bool, keep: T -> bool)
    requires TotalOrder(le)
    ensures Sort(Filter(xs, keep), le) == Filter(Sort(xs, le), keep)
  {
    if xs != [] {
      SortFilter(xs[1..], le, keep);
      SortSorts(xs[1..], le);
      InsertFilter(xs[0], Sort(xs[1..], le), le, keep);
      var tail := Filter(xs[1..], keep);
      assert keep(xs[0]) ==> ([xs[0]] + tail)[1..] == tail;
    }
  }

  lemma {:induction false} FilterFilter<T>(xs: seq<T>, first: T -> bool, second: T -> bool, both: T -> bool)
    requires forall x :: x in xs ==> (both(x) <==> first(x) && second(x))
    ensures Filter(Filter(xs, first), second) == Filter(xs, both)
  {
    if xs != [] {
      FilterFilter(xs[1..], first, second, both);
      var tail := Filter(xs[1..], first);
      assert first(xs[0]) ==> ([xs[0]] + tail)[1..] == tail;
    }
  }

  lemma {:induction false} FilterConcat<T>(xs: seq<T>, ys: seq<T>, keep: T -> bool)
    ensures Filter(xs + ys, keep) == Filter(xs, keep) + Filter(ys, keep)
  {
    if xs == [] {
      assert xs + ys == ys;
    } else {
      assert (xs + ys)[1..] == xs[1..] + ys;
      FilterConcat(xs[1..], ys, keep);
    }
  }

  lemma {:induction false} FilterAll<T>(xs: seq<T>, keep: T -> bool)
    requires forall x :: x in xs ==> keep(x)
    ensures Filter(xs, keep) == xs
  {
    if xs != [] {
      FilterAll(xs[1..], keep);
    }
  }

  lemma {:induction false} FilterNothing<T>(xs: seq<T>, keep: T -> bool)
    requires forall x :: x in xs ==> !keep(x)
    ensures Filter(xs, keep) == []
  {
    if xs != [] {
      FilterNothing(xs[1..], keep);
    }
  }
}
