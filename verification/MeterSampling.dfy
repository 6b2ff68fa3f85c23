/**
  The downsampling query behind the session metrics
  (apps/backend/src/charging-history/charging-history.repository.ts, getMeterPoints).

  The samples of one session have distinct instants (the unique key of meter_values), so ordering
  them by instant numbers them from 1 to the total count.
 */
module MeterSampling {
  import opened Common
  import opened Ordering

  datatype Sample = Sample(sampledAt: int, energyWh: int, powerW: Option<int>)

  function ByInstant(): (Sample, Sample) -> bool {
    (a: Sample, b: Sample) => a.sampledAt <= b.sampledAt
  }

  /** PostgreSQL integer division: it truncates toward zero. */
  function SqlDiv(a: int, b: int): int
    requires b > 0
  {
    if a >= 0 then a / b else -(-a / b)
  }

  /** The CASE expression; `row` is ROW_NUMBER(), counted from 1. */
  function Bucket(row: int, total: nat, maxPoints: int): int {
    if total <= maxPoints then row - 1
    else if row == 1 then 0
    else if row == total then maxPoints - 1
    else 1 + SqlDiv((row - 2) * (maxPoints - 2), Max(total - 2, 1))
  }

  /** The bucket column of the ordered rows. */
  function Buckets(total: nat, maxPoints: int): (column: seq<int>)
    ensures |column| == total
  {
    seq(total, i requires 0 <= i < total => Bucket(i + 1, total, maxPoints))
  }

  /** DISTINCT ON (bucket) with ORDER BY bucket, sampled_at: the earliest row of every bucket. */
  predicate IsKept(ordered: seq<Sample>, column: seq<int>, i: nat)
    requires i < |ordered| == |column|
  {
    forall j :: 0 <= j < |ordered| && column[j] == column[i] ==> ordered[i].sampledAt <= ordered[j].sampledAt
  }

  /** The positions the query keeps among the first n ordered rows. */
  function KeptBefore(ordered: seq<Sample>, column: seq<int>, n: nat): (kept: seq<nat>)
    requires n <= |ordered| == |column|
    ensures forall k :: 0 <= k < |kept| ==> kept[k] < n
  {
    if n == 0 then []
    else KeptBefore(ordered, column, n - 1) + (if IsKept(ordered, column, n - 1) then [n - 1] else [])
  }

  function KeptPositions(rows: seq<Sample>, maxPoints: int): seq<nat> {
    var ordered := Sort(rows, ByInstant());
    KeptBefore(ordered, Buckets(|ordered|, maxPoints), |ordered|)
  }

  function RowsAt(ordered: seq<Sample>, positions: seq<nat>): seq<Sample>
    requires forall k :: 0 <= k < |positions| ==> positions[k] < |ordered|
  {
    seq(|positions|, k requires 0 <= k < |positions| => ordered[positions[k]])
  }

  /** getMeterPoints: the kept rows, ordered by instant. */
  function GetMeterPoints(rows: seq<Sample>, maxPoints: int): seq<Sample> {
    var ordered := Sort(rows, ByInstant());
    RowsAt(ordered, KeptPositions(rows, maxPoints))
  }

  // ---------------------------------------------------------------- the bucket map

  lemma DivBounds(a: int, b: int)
    requires b > 0
    ensures b * (a / b) <= a < b * (a / b) + b
  {
  }

  lemma DivUnique(a: int, b: int, q: int)
    requires b > 0 && b * q <= a < b * q + b
    ensures a / b == q
  {
    DivBounds(a, b);
    var d := a / b - q;
    assert b * d == b * (a / b) - b * q;
    assert d >= 1 ==> b * d >= b;
    assert d <= -1 ==> b * d <= -b;
  }

  /** One more middle row moves the quotient by nothing or by one. */
  lemma QuotientStep(k: nat, m: nat, n: nat)
    requires 1 <= m <= n
    ensures k * m / n <= (k + 1) * m / n <= k * m / n + 1
  {
    var q := k * m / n;
    DivBounds(k * m, n);
    assert (k + 1) * m == k * m + m;
    if (k + 1) * m < n * q + n {
      DivUnique((k + 1) * m, n, q);
    } else {
      assert n * (q + 1) == n * q + n;
      DivUnique((k + 1) * m, n, q + 1);
    }
  }

  /** The first middle row is in bucket 1 and the last one in bucket maxPoints - 2. */
  lemma QuotientEnds(m: nat, n: nat)
    requires 1 <= m <= n
    ensures 0 * m / n == 0
    ensures (n - 1) * m / n == m - 1
  {
    assert (n - 1) * m == n * m - m;
    assert n * (m - 1) == n * m - n;
    DivUnique((n - 1) * m, n, m - 1);
  }

  lemma BucketOfMiddle(row: int, total: nat, maxPoints: int)
    requires 3 <= maxPoints < total && 2 <= row < total
    ensures Bucket(row, total, maxPoints) == 1 + (row - 2) * (maxPoints - 2) / (total - 2)
  {
  }

  /**
    The bucket map is monotone without gaps: it starts at 0, ends at min(total, maxPoints) - 1 and
    from one row to the next it stays or moves by one. The last row has its bucket to itself.
   */
  lemma BucketsHaveNoGaps(row: int, total: nat, maxPoints: int)
    requires 3 <= maxPoints && 1 <= row < total
    ensures Bucket(1, total, maxPoints) == 0
    ensures Bucket(total, total, maxPoints) == Min(total, maxPoints) - 1
    ensures Bucket(row, total, maxPoints) <= Bucket(row + 1, total, maxPoints) <= Bucket(row, total, maxPoints) + 1
    ensures row == total - 1 ==> Bucket(row + 1, total, maxPoints) == Bucket(row, total, maxPoints) + 1
  {
    if total > maxPoints {
      var m, n := maxPoints - 2, total - 2;
      QuotientEnds(m, n);
      if row == 1 {
        BucketOfMiddle(2, total, maxPoints);
      } else if row + 1 < total {
        BucketOfMiddle(row, total, maxPoints);
        BucketOfMiddle(row + 1, total, maxPoints);
        QuotientStep(row - 2, m, n);
      } else {
        BucketOfMiddle(row, total, maxPoints);
      }
    }
  }

  /** What the selection needs to know about the bucket column. */
  ghost predicate GapFree(column: seq<int>) {
    && (column != [] ==> column[0] == 0)
    && (forall i :: 0 < i < |column| ==> column[i - 1] <= column[i] <= column[i - 1] + 1)
  }

  lemma BucketColumn(total: nat, maxPoints: int)
    requires 3 <= maxPoints
    ensures GapFree(Buckets(total, maxPoints))
    ensures total > 0 ==> Buckets(total, maxPoints)[total - 1] == Min(total, maxPoints) - 1
    ensures total > 1 ==> Buckets(total, maxPoints)[total - 2] < Buckets(total, maxPoints)[total - 1]
  {
    var column := Buckets(total, maxPoints);
    forall i | 0 < i < total ensures column[i - 1] <= column[i] <= column[i - 1] + 1 {
      BucketsHaveNoGaps(i, total, maxPoints);
    }
    if total > 1 {
      BucketsHaveNoGaps(total - 1, total, maxPoints);
    }
  }

  lemma {:induction false} ColumnMonotone(column: seq<int>, i: nat, j: nat)
    requires GapFree(column) && i <= j < |column|
    ensures column[i] <= column[j]
    decreases j - i
  {
    if i < j {
      ColumnMonotone(column, i, j - 1);
    }
  }

  // ---------------------------------------------------------------- the result

  function Instant(): Sample -> int {
    (s: Sample) => s.sampledAt
  }

  ghost predicate DistinctInstants(rows: seq<Sample>) {
    DistinctKeys(rows, Instant())
  }

  ghost predicate StrictlyOrdered(ordered: seq<Sample>) {
    forall i, j :: 0 <= i < j < |ordered| ==> ordered[i].sampledAt < ordered[j].sampledAt
  }

  lemma OrderedStrictly(rows: seq<Sample>)
    requires DistinctInstants(rows)
    ensures StrictlyOrdered(Sort(rows, ByInstant()))
    ensures |Sort(rows, ByInstant())| == |rows|
  {
    var le, key := ByInstant(), Instant();
    SortSorts(rows, le);
    SortDistinct(rows, le, key);
    var ordered := Sort(rows, le);
    forall i, j | 0 <= i < j < |ordered| ensures ordered[i].sampledAt < ordered[j].sampledAt {
      assert le(ordered[i], ordered[j]) && key(ordered[i]) != key(ordered[j]);
    }
  }

  lemma KeptIffNewBucket(ordered: seq<Sample>, column: seq<int>, i: nat)
    requires StrictlyOrdered(ordered) && GapFree(column) && i < |ordered| == |column|
    ensures IsKept(ordered, column, i) <==> i == 0 || column[i - 1] != column[i]
  {
    if i > 0 && column[i - 1] != column[i] {
      forall j | 0 <= j < |ordered| && column[j] == column[i]
        ensures ordered[i].sampledAt <= ordered[j].sampledAt
      {
        if j < i {
          ColumnMonotone(column, j, i - 1);
        }
      }
    }
  }

  /** One of the first i rows for every bucket seen so far, in bucket order. */
  ghost predicate OnePerBucketSoFar(kept: seq<nat>, column: seq<int>, i: nat)
    requires 1 <= i <= |column|
  {
    && |kept| == column[i - 1] + 1 && |kept| > 0
    && kept[0] == 0
    && (forall k :: 0 <= k < |kept| ==> kept[k] < i && column[kept[k]] == k)
    && (forall k, l :: 0 <= k < l < |kept| ==> kept[k] < kept[l])
    && (i == 1 || column[i - 2] != column[i - 1] ==> kept[|kept| - 1] == i - 1)
  }

  lemma {:induction false} KeptSoFar(ordered: seq<Sample>, column: seq<int>, i: nat)
    requires StrictlyOrdered(ordered) && GapFree(column) && 1 <= i <= |ordered| == |column|
    ensures OnePerBucketSoFar(KeptBefore(ordered, column, i), column, i)
  {
    KeptIffNewBucket(ordered, column, i - 1);
    if i == 1 {
      assert KeptBefore(ordered, column, 0) == [];
    } else {
      KeptSoFar(ordered, column, i - 1);
    }
  }

  /** One position of every bucket, in bucket order, from the first row to the last. */
  ghost predicate OnePerBucket(kept: seq<nat>, column: seq<int>, points: int) {
    && |kept| == points
    && (forall k :: 0 <= k < |kept| ==> kept[k] < |column| && column[kept[k]] == k)
    && (forall k, l :: 0 <= k < l < |kept| ==> kept[k] < kept[l])
    && (column != [] ==> kept != [] && kept[0] == 0 && kept[|kept| - 1] == |column| - 1)
  }

  lemma KeptOverall(ordered: seq<Sample>, column: seq<int>)
    requires StrictlyOrdered(ordered) && GapFree(column) && |ordered| == |column|
    requires |column| > 1 ==> column[|column| - 2] < column[|column| - 1]
    ensures
      var points := if column == [] then 0 else column[|column| - 1] + 1;
      OnePerBucket(KeptBefore(ordered, column, |column|), column, points)
  {
    if column != [] {
      KeptSoFar(ordered, column, |column|);
    }
  }

  /**
    Downsampling is exact: min(n, maxPoints) rows come back, one of every bucket, as a strictly
    increasing choice of positions that starts with the first sample and ends with the last one.
   */
  lemma DownsamplingIsExact(rows: seq<Sample>, maxPoints: int)
    requires 3 <= maxPoints && DistinctInstants(rows)
    ensures OnePerBucket(KeptPositions(rows, maxPoints), Buckets(|rows|, maxPoints), Min(|rows|, maxPoints))
    ensures |GetMeterPoints(rows, maxPoints)| == Min(|rows|, maxPoints)
    ensures GetMeterPoints(rows, maxPoints) == RowsAt(Sort(rows, ByInstant()), KeptPositions(rows, maxPoints))
  {
    OrderedStrictly(rows);
    BucketColumn(|rows|, maxPoints);
    KeptOverall(Sort(rows, ByInstant()), Buckets(|rows|, maxPoints));
  }

  lemma IdentityChoice(kept: seq<nat>, column: seq<int>, ordered: seq<Sample>)
    requires OnePerBucket(kept, column, |column|) && |ordered| == |column|
    requires forall i :: 0 <= i < |column| ==> column[i] == i
    ensures RowsAt(ordered, kept) == ordered
  {
  }

  lemma SmallColumn(total: nat, maxPoints: int)
    requires total <= maxPoints
    ensures GapFree(Buckets(total, maxPoints))
    ensures forall i :: 0 <= i < total ==> Buckets(total, maxPoints)[i] == i
  {
  }

  lemma SmallKept(rows: seq<Sample>, maxPoints: int)
    requires DistinctInstants(rows) && |rows| <= maxPoints
    ensures OnePerBucket(KeptPositions(rows, maxPoints), Buckets(|rows|, maxPoints), |rows|)
  {
    OrderedStrictly(rows);
    SmallColumn(|rows|, maxPoints);
    KeptOverall(Sort(rows, ByInstant()), Buckets(|rows|, maxPoints));
  }

  /** When everything fits nothing is dropped. */
  lemma SmallSetsAreUntouched(rows: seq<Sample>, maxPoints: int)
    requires DistinctInstants(rows) && |rows| <= maxPoints
    ensures GetMeterPoints(rows, maxPoints) == Sort(rows, ByInstant())
  {
    OrderedStrictly(rows);
    SmallColumn(|rows|, maxPoints);
    SmallKept(rows, maxPoints);
    IdentityChoice(KeptPositions(rows, maxPoints), Buckets(|rows|, maxPoints), Sort(rows, ByInstant()));
  }

  /** The row that shares the last one's bucket when there are fewer than three points. */
  lemma LastBucketIsShared(total: nat, maxPoints: int)
    requires 1 <= maxPoints < 3 && maxPoints < total
    ensures
      var column := Buckets(total, maxPoints);
      column[maxPoints - 1] == column[total - 1] == maxPoints - 1
  {
    assert maxPoints == 2 ==> (2 - 2) * (maxPoints - 2) == 0;
  }

  lemma SharedBucketLosesTheLast(rows: seq<Sample>, maxPoints: int)
    requires DistinctInstants(rows) && 1 <= maxPoints < 3 && maxPoints < |rows|
    ensures |rows| - 1 !in KeptPositions(rows, maxPoints)
  {
    OrderedStrictly(rows);
    LastBucketIsShared(|rows|, maxPoints);
    var ordered, n := Sort(rows, ByInstant()), |rows|;
    var column := Buckets(n, maxPoints);
    assert ordered[maxPoints - 1].sampledAt < ordered[n - 1].sampledAt;
    assert !IsKept(ordered, column, n - 1);
    assert KeptPositions(rows, maxPoints) == KeptBefore(ordered, column, n - 1);
  }

  /** The last sample survives exactly when everything fits or there are three points at least. */
  lemma LastSampleSurvivesIff(rows: seq<Sample>, maxPoints: int)
    requires DistinctInstants(rows) && rows != [] && maxPoints >= 1
    ensures |rows| - 1 in KeptPositions(rows, maxPoints) <==> maxPoints >= 3 || |rows| <= maxPoints
  {
    if |rows| <= maxPoints {
      SmallKept(rows, maxPoints);
    } else if maxPoints >= 3 {
      DownsamplingIsExact(rows, maxPoints);
    } else {
      SharedBucketLosesTheLast(rows, maxPoints);
    }
  }

  /** Two points at most: what comes back, from three samples on, is the first two. */
  lemma {:induction false} FirstTwoAreKept(ordered: seq<Sample>, column: seq<int>, n: nat)
    requires StrictlyOrdered(ordered) && 2 <= n <= |ordered| == |column|
    requires column[0] == 0 && column[1] == 1
    requires forall i :: 2 <= i < |column| ==> column[i] == 0 || column[i] == 1
    ensures KeptBefore(ordered, column, n) == [0, 1]
  {
    if n > 2 {
      FirstTwoAreKept(ordered, column, n - 1);
      assert !IsKept(ordered, column, n - 1) by {
        assert ordered[column[n - 1]].sampledAt < ordered[n - 1].sampledAt;
      }
    } else {
      assert IsKept(ordered, column, 0) && IsKept(ordered, column, 1);
      assert KeptBefore(ordered, column, 0) == [];
      assert KeptBefore(ordered, column, 1) == [0];
    }
  }

  lemma TinyColumn(total: nat, maxPoints: int)
    requires 1 <= maxPoints < 3 <= total
    ensures
      var column := Buckets(total, maxPoints);
      && column[0] == 0 && column[1] == 1 && forall i :: 2 <= i < total ==> column[i] == 0 || column[i] == 1
  {
    forall row | 2 <= row < total ensures Bucket(row, total, maxPoints) == 1 {
      var a := (row - 2) * (maxPoints - 2);
      assert maxPoints == 2 ==> a == 0;
      assert maxPoints == 1 ==> a == -(row - 2);
      assert -(total - 2) < a <= 0;
    }
  }

  /** With a limit of one or two points and three samples or more, exactly the first two come back. */
  lemma TinyLimitsKeepTheFirstTwo(rows: seq<Sample>, maxPoints: int)
    requires DistinctInstants(rows) && 1 <= maxPoints < 3 <= |rows|
    ensures |Sort(rows, ByInstant())| == |rows|
    ensures GetMeterPoints(rows, maxPoints) == Sort(rows, ByInstant())[..2]
  {
    OrderedStrictly(rows);
    TinyColumn(|rows|, maxPoints);
    FirstTwoAreKept(Sort(rows, ByInstant()), Buckets(|rows|, maxPoints), |rows|);
  }

  /** The middle buckets are even: the middle row number r lies in the one that covers r of n - 2 rows. */
  lemma MiddleBucketsAreEven(row: int, total: nat, maxPoints: int)
    requires 3 <= maxPoints < total && 2 <= row < total
    ensures
      var middle := Bucket(row, total, maxPoints) - 1;
      middle * (total - 2) <= (row - 2) * (maxPoints - 2) < (middle + 1) * (total - 2)
  {
    BucketOfMiddle(row, total, maxPoints);
    DivBounds((row - 2) * (maxPoints - 2), total - 2);
  }
}
