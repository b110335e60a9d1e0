/**
 The continuous aggregates over a fixed telemetry table, fully refreshed: per bucket and device the
 average, minimum and maximum of a metric, at one minute and at one hour, and the query over them.
 */
module Aggregates {
  import opened Readings

  const MINUTE_MS := 60000
  const HOUR_MS := 3600000
  const MINUTES_PER_HOUR := 60
  const MAX_SERIES_POINTS := 5000

  /** The start of the bucket that holds a time. */
  function BucketStart(width: int, timeMs: int): int
    requires width > 0
  {
    timeMs - timeMs % width
  }

  predicate Aligned(width: int, timeMs: int)
    requires width > 0
  {
    timeMs % width == 0
  }

  /** The metric's values of one device in a half-open span of time, in table order. */
  function Values(rows: seq<Reading>, d: string, metric: Metric, from: int, to: int): seq<real> {
    if rows == [] then []
    else
      var init, t := Values(rows[..|rows| - 1], d, metric, from, to), rows[|rows| - 1];
      if t.deviceId == d && from <= t.timestampMs < to then init + [MetricValue(t, metric)] else init
  }

  function Sum(vs: seq<real>): real {
    if vs == [] then 0.0 else Sum(vs[..|vs| - 1]) + vs[|vs| - 1]
  }

  function Smallest(vs: seq<real>): real
    requires vs != []
  {
    var n := |vs| - 1;
    if n == 0 then vs[0]
    else
      var least := Smallest(vs[..n]);
      if vs[n] < least then vs[n] else least
  }

  function Largest(vs: seq<real>): real
    requires vs != []
  {
    var n := |vs| - 1;
    if n == 0 then vs[0]
    else
      var most := Largest(vs[..n]);
      if vs[n] > most then vs[n] else most
  }

  function Average(vs: seq<real>): real
    requires vs != []
  {
    Sum(vs) / |vs| as real
  }

  /** The group of a bucket: the rows whose bucket it is. */
  function Group(rows: seq<Reading>, d: string, metric: Metric, width: int, bucket: int): seq<real> {
    Values(rows, d, metric, bucket, bucket + width)
  }

  /** Multiples of the width that are not the same are at least the width apart. */
  lemma {:induction false} MultiplesApart(width: int, q: int, k: int)
    requires width > 0 && q < k
    ensures width * q + width <= width * k
    decreases k - q
  {
    NextMultiple(width, k - 1);
    if q < k - 1 {
      MultiplesApart(width, q, k - 1);
    }
  }

  lemma NextMultiple(width: int, k: int)
    ensures width * (k + 1) == width * k + width
  {
  }

  /** A time is in an aligned bucket exactly if that is the bucket it is grouped under. */
  lemma BucketSpan(width: int, bucket: int, timeMs: int)
    requires width > 0 && Aligned(width, bucket)
    ensures BucketStart(width, timeMs) == bucket <==> bucket <= timeMs < bucket + width
  {
    var q, k := timeMs / width, bucket / width;
    if q < k {
      MultiplesApart(width, q, k);
    } else if k < q {
      MultiplesApart(width, k, q);
    }
    SpanOfMultiples(width, width * q, timeMs % width, width * k);
  }

  lemma SpanOfMultiples(width: int, start: int, r: int, bucket: int)
    requires 0 <= r < width && (start == bucket || start + width <= bucket || bucket + width <= start)
    ensures start == bucket <==> bucket <= start + r < bucket + width
  {
  }

  lemma {:induction false} ExtremaMeaning(vs: seq<real>)
    requires vs != []
    ensures Smallest(vs) in vs && forall v | v in vs :: Smallest(vs) <= v
    ensures Largest(vs) in vs && forall v | v in vs :: v <= Largest(vs)
  {
    var n := |vs| - 1;
    if n > 0 {
      ExtremaMeaning(vs[..n]);
      assert vs == vs[..n] + [vs[n]];
    }
  }

  lemma {:induction false} SumBetween(vs: seq<real>, low: real, high: real)
    requires forall v | v in vs :: low <= v <= high
    ensures low * |vs| as real <= Sum(vs) <= high * |vs| as real
  {
    if vs != [] {
      var n := |vs| - 1;
      assert forall v | v in vs[..n] :: v in vs;
      SumBetween(vs[..n], low, high);
      assert vs[n] in vs;
      assert low * |vs| as real == low * n as real + low;
      assert high * |vs| as real == high * n as real + high;
    }
  }

  lemma QuotientBetween(sum: real, n: real, low: real, high: real)
    requires n > 0.0 && low * n <= sum <= high * n
    ensures low <= sum / n <= high
  {
  }

  /** In every bucket the average lies between the minimum and the maximum. */
  lemma AverageBetween(vs: seq<real>)
    requires vs != []
    ensures Smallest(vs) <= Average(vs) <= Largest(vs)
  {
    ExtremaMeaning(vs);
    SumBetween(vs, Smallest(vs), Largest(vs));
    QuotientBetween(Sum(vs), |vs| as real, Smallest(vs), Largest(vs));
  }

  /** Cutting a span of time in two splits its values, their number and their sum. */
  lemma {:induction false} SpanSplit(rows: seq<Reading>, d: string, metric: Metric, from: int, mid: int, to: int)
    requires from <= mid <= to
    ensures |Values(rows, d, metric, from, to)| ==
            |Values(rows, d, metric, from, mid)| + |Values(rows, d, metric, mid, to)|
    ensures Sum(Values(rows, d, metric, from, to)) ==
            Sum(Values(rows, d, metric, from, mid)) + Sum(Values(rows, d, metric, mid, to))
  {
    if rows != [] {
      var init, v := rows[..|rows| - 1], MetricValue(rows[|rows| - 1], metric);
      SpanSplit(init, d, metric, from, mid, to);
      SumSnoc(Values(init, d, metric, from, to), v);
      SumSnoc(Values(init, d, metric, from, mid), v);
      SumSnoc(Values(init, d, metric, mid, to), v);
    }
  }

  lemma SumSnoc(vs: seq<real>, v: real)
    ensures Sum(vs + [v]) == Sum(vs) + v
  {
    assert (vs + [v])[..|vs|] == vs;
  }

  /** A row that puts a value into a span. */
  predicate Contributes(t: Reading, d: string, metric: Metric, from: int, to: int, v: real) {
    t.deviceId == d && from <= t.timestampMs < to && MetricValue(t, metric) == v
  }

  lemma {:induction false} ValuesMeaning(rows: seq<Reading>, d: string, metric: Metric, from: int, to: int, v: real)
    ensures v in Values(rows, d, metric, from, to) <==>
              exists i :: 0 <= i < |rows| && Contributes(rows[i], d, metric, from, to, v)
  {
    if rows != [] {
      var n := |rows| - 1;
      ValuesMeaning(rows[..n], d, metric, from, to, v);
      assert forall i | 0 <= i < n :: rows[..n][i] == rows[i];
    }
  }

  /** The values of the first n minutes of an hour, weighted: each minute's average times its number of rows. */
  function WeightedSum(rows: seq<Reading>, d: string, metric: Metric, hour: int, n: nat): real {
    if n == 0 then 0.0
    else
      var group := Group(rows, d, metric, MINUTE_MS, hour + (n - 1) * MINUTE_MS);
      WeightedSum(rows, d, metric, hour, n - 1) + if group == [] then 0.0 else Average(group) * |group| as real
  }

  function RowCount(rows: seq<Reading>, d: string, metric: Metric, hour: int, n: nat): nat {
    if n == 0 then 0
    else RowCount(rows, d, metric, hour, n - 1) + |Group(rows, d, metric, MINUTE_MS, hour + (n - 1) * MINUTE_MS)|
  }

  lemma AverageTimesCount(vs: seq<real>)
    requires vs != []
    ensures Average(vs) * |vs| as real == Sum(vs)
  {
  }

  lemma {:induction false} MinutesAddUp(rows: seq<Reading>, d: string, metric: Metric, hour: int, n: nat)
    ensures WeightedSum(rows, d, metric, hour, n) == Sum(Values(rows, d, metric, hour, hour + n * MINUTE_MS))
    ensures RowCount(rows, d, metric, hour, n) == |Values(rows, d, metric, hour, hour + n * MINUTE_MS)|
  {
    hide Average, Sum, Values;
    if n == 0 {
      EmptySpan(rows, d, metric, hour);
    } else {
      var last := hour + (n - 1) * MINUTE_MS;
      MinutesAddUp(rows, d, metric, hour, n - 1);
      SpanSplit(rows, d, metric, hour, last, last + MINUTE_MS);
      var group := Group(rows, d, metric, MINUTE_MS, last);
      if group == [] {
        EmptySum();
      } else {
        AverageTimesCount(group);
      }
    }
  }

  lemma EmptySum()
    ensures Sum([]) == 0.0
  {
  }

  lemma {:induction false} EmptySpan(rows: seq<Reading>, d: string, metric: Metric, at: int)
    ensures Values(rows, d, metric, at, at) == [] && Sum(Values(rows, d, metric, at, at)) == 0.0
  {
    if rows != [] {
      EmptySpan(rows[..|rows| - 1], d, metric, at);
    }
  }

  /** The hour's average is the average of its minutes' averages, weighted by how many rows each minute has. */
  lemma HourAverageIsWeighted(rows: seq<Reading>, d: string, metric: Metric, hour: int)
    requires Group(rows, d, metric, HOUR_MS, hour) != []
    ensures RowCount(rows, d, metric, hour, MINUTES_PER_HOUR) == |Group(rows, d, metric, HOUR_MS, hour)|
    ensures Average(Group(rows, d, metric, HOUR_MS, hour)) ==
            WeightedSum(rows, d, metric, hour, MINUTES_PER_HOUR) /
            RowCount(rows, d, metric, hour, MINUTES_PER_HOUR) as real
  {
    hide WeightedSum, RowCount, Values, Sum;
    MinutesAddUp(rows, d, metric, hour, MINUTES_PER_HOUR);
  }

  /** The minute of an hour that holds a time, counted from zero. */
  function MinuteOf(hour: int, timeMs: int): int {
    (timeMs - hour) / MINUTE_MS
  }

  lemma MinuteHolds(hour: int, timeMs: int)
    requires hour <= timeMs < hour + HOUR_MS
    ensures var k := MinuteOf(hour, timeMs);
            0 <= k < MINUTES_PER_HOUR && hour + k * MINUTE_MS <= timeMs < hour + (k + 1) * MINUTE_MS
  {
  }

  /** A value is in the hour exactly if it is in one of its minutes. */
  lemma HourIsItsMinutes(rows: seq<Reading>, d: string, metric: Metric, hour: int, v: real)
    ensures v in Group(rows, d, metric, HOUR_MS, hour) <==>
              exists k :: 0 <= k < MINUTES_PER_HOUR && v in Group(rows, d, metric, MINUTE_MS, hour + k * MINUTE_MS)
  {
    hide Values, MetricValue;
    ValuesMeaning(rows, d, metric, hour, hour + HOUR_MS, v);
    if v in Group(rows, d, metric, HOUR_MS, hour) {
      var i :| 0 <= i < |rows| && Contributes(rows[i], d, metric, hour, hour + HOUR_MS, v);
      MinuteHolds(hour, rows[i].timestampMs);
      var start := hour + MinuteOf(hour, rows[i].timestampMs) * MINUTE_MS;
      ValuesMeaning(rows, d, metric, start, start + MINUTE_MS, v);
      assert Contributes(rows[i], d, metric, start, start + MINUTE_MS, v);
    }
    forall k | 0 <= k < MINUTES_PER_HOUR && v in Group(rows, d, metric, MINUTE_MS, hour + k * MINUTE_MS)
      ensures v in Group(rows, d, metric, HOUR_MS, hour) {
      var start := hour + k * MINUTE_MS;
      ValuesMeaning(rows, d, metric, start, start + MINUTE_MS, v);
      var i :| 0 <= i < |rows| && Contributes(rows[i], d, metric, start, start + MINUTE_MS, v);
      assert Contributes(rows[i], d, metric, hour, hour + HOUR_MS, v);
    }
  }

  /** A minute of the hour that has rows. */
  predicate Filled(rows: seq<Reading>, d: string, metric: Metric, hour: int, k: int) {
    0 <= k < MINUTES_PER_HOUR && Group(rows, d, metric, MINUTE_MS, hour + k * MINUTE_MS) != []
  }

  function MinuteGroup(rows: seq<Reading>, d: string, metric: Metric, hour: int, k: int): seq<real> {
    Group(rows, d, metric, MINUTE_MS, hour + k * MINUTE_MS)
  }

  /** The hour's minimum and maximum are those over its filled minutes: bounds of all, and each attained. */
  lemma HourExtremaAreMinutes(rows: seq<Reading>, d: string, metric: Metric, hour: int)
    requires Group(rows, d, metric, HOUR_MS, hour) != []
    ensures var vs := Group(rows, d, metric, HOUR_MS, hour);
            && (forall k | Filled(rows, d, metric, hour, k) ::
                  Smallest(vs) <= Smallest(MinuteGroup(rows, d, metric, hour, k)) &&
                  Largest(MinuteGroup(rows, d, metric, hour, k)) <= Largest(vs))
            && (exists k :: Filled(rows, d, metric, hour, k) &&
                  Smallest(vs) == Smallest(MinuteGroup(rows, d, metric, hour, k)))
            && (exists k :: Filled(rows, d, metric, hour, k) &&
                  Largest(vs) == Largest(MinuteGroup(rows, d, metric, hour, k)))
  {
    hide Values, Smallest, Largest;
    var vs := Group(rows, d, metric, HOUR_MS, hour);
    ExtremaMeaning(vs);
    forall k | Filled(rows, d, metric, hour, k)
      ensures Smallest(vs) <= Smallest(MinuteGroup(rows, d, metric, hour, k))
      ensures Largest(MinuteGroup(rows, d, metric, hour, k)) <= Largest(vs) {
      MinuteInHour(rows, d, metric, hour, k);
    }
    var low := AttainedIn(rows, d, metric, hour, Smallest(vs));
    MinuteInHour(rows, d, metric, hour, low);
    var high := AttainedIn(rows, d, metric, hour, Largest(vs));
    MinuteInHour(rows, d, metric, hour, high);
    ExtremaMeaning(MinuteGroup(rows, d, metric, hour, low));
    ExtremaMeaning(MinuteGroup(rows, d, metric, hour, high));
  }

  lemma MinuteInHour(rows: seq<Reading>, d: string, metric: Metric, hour: int, k: int)
    requires Filled(rows, d, metric, hour, k) && Group(rows, d, metric, HOUR_MS, hour) != []
    ensures var vs, ms := Group(rows, d, metric, HOUR_MS, hour), MinuteGroup(rows, d, metric, hour, k);
            Smallest(vs) <= Smallest(ms) && Largest(ms) <= Largest(vs)
  {
    hide Values, Smallest, Largest;
    var vs, ms := Group(rows, d, metric, HOUR_MS, hour), MinuteGroup(rows, d, metric, hour, k);
    ExtremaMeaning(vs);
    ExtremaMeaning(ms);
    HourIsItsMinutes(rows, d, metric, hour, Smallest(ms));
    HourIsItsMinutes(rows, d, metric, hour, Largest(ms));
  }

  lemma AttainedIn(rows: seq<Reading>, d: string, metric: Metric, hour: int, v: real) returns (k: int)
    requires v in Group(rows, d, metric, HOUR_MS, hour)
    ensures Filled(rows, d, metric, hour, k) && v in MinuteGroup(rows, d, metric, hour, k)
  {
    hide Values;
    HourIsItsMinutes(rows, d, metric, hour, v);
    k :| 0 <= k < MINUTES_PER_HOUR && v in Group(rows, d, metric, MINUTE_MS, hour + k * MINUTE_MS);
  }
}
