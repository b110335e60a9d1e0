/** The read side: series over the aggregates, and the online status beside the offline sweep. */
module QueryApi {
  import opened Options
  import opened Readings
  import opened Connectivity
  import opened Aggregates

  datatype Point = Point(bucket: int, avg: real, min: real, max: real)

  predicate Ascending(xs: seq<int>) {
    forall i, j | 0 <= i < j < |xs| :: xs[i] < xs[j]
  }

  /** One more bucket in an ascending list without repetitions. */
  function Insert(xs: seq<int>, b: int): (ys: seq<int>)
    ensures forall x :: x in ys <==> x in xs || x == b
    ensures Ascending(xs) ==> Ascending(ys)
    ensures |xs| <= |ys| <= |xs| + 1
  {
    if xs == [] then [b]
    else
      var n := |xs| - 1;
      if xs[n] < b then xs + [b]
      else if xs[n] == b then xs
      else
        var init := Insert(xs[..n], b);
        assert xs == xs[..n] + [xs[n]];
        assert Ascending(xs) ==> forall i | 0 <= i < |init| :: init[i] in init && init[i] < xs[n];
        init + [xs[n]]
  }

  /** The buckets of the view in the query's window: grouped, filtered, in ascending order. */
  function Buckets(rows: seq<Reading>, d: string, width: int, from: int, to: int): (bs: seq<int>)
    requires width > 0
    ensures Ascending(bs)
  {
    if rows == [] then []
    else
      var init, t := Buckets(rows[..|rows| - 1], d, width, from, to), rows[|rows| - 1];
      var bucket := BucketStart(width, t.timestampMs);
      if t.deviceId == d && from <= bucket <= to then Insert(init, bucket) else init
  }

  /** A row of the device that is grouped under the bucket. */
  predicate InBucket(t: Reading, d: string, width: int, bucket: int)
    requires width > 0
  {
    t.deviceId == d && BucketStart(width, t.timestampMs) == bucket
  }

  lemma {:induction false} BucketsMeaning(rows: seq<Reading>, d: string, width: int, from: int, to: int, bucket: int)
    requires width > 0
    ensures bucket in Buckets(rows, d, width, from, to) <==>
              from <= bucket <= to && exists i :: 0 <= i < |rows| && InBucket(rows[i], d, width, bucket)
  {
    hide BucketStart;
    if rows != [] {
      var n := |rows| - 1;
      BucketsMeaning(rows[..n], d, width, from, to, bucket);
      assert forall i | 0 <= i < n :: rows[..n][i] == rows[i];
    }
  }

  /** A bucket start is aligned. */
  lemma StartAligned(width: int, timeMs: int)
    requires width == MINUTE_MS || width == HOUR_MS
    ensures Aligned(width, BucketStart(width, timeMs))
  {
  }

  /** Every bucket listed has rows, so its average, minimum and maximum exist. */
  lemma ListedBucketFilled(rows: seq<Reading>, d: string, metric: Metric, width: int, from: int, to: int, bucket: int)
    requires width == MINUTE_MS || width == HOUR_MS
    requires bucket in Buckets(rows, d, width, from, to)
    ensures Group(rows, d, metric, width, bucket) != []
  {
    hide BucketStart, Aligned, Values;
    BucketsMeaning(rows, d, width, from, to, bucket);
    var i :| 0 <= i < |rows| && InBucket(rows[i], d, width, bucket);
    StartAligned(width, rows[i].timestampMs);
    BucketSpan(width, bucket, rows[i].timestampMs);
    var v := MetricValue(rows[i], metric);
    assert Contributes(rows[i], d, metric, bucket, bucket + width, v);
    ValuesMeaning(rows, d, metric, bucket, bucket + width, v);
  }

  /** The answer: the first points in time order, up to the limit. */
  function Points(rows: seq<Reading>, d: string, metric: Metric, width: int, from: int, to: int): seq<Point>
    requires width == MINUTE_MS || width == HOUR_MS
  {
    var bs := Buckets(rows, d, width, from, to);
    seq(if |bs| < MAX_SERIES_POINTS then |bs| else MAX_SERIES_POINTS, k requires 0 <= k < |bs| =>
      ListedBucketFilled(rows, d, metric, width, from, to, bs[k]);
      var group := Group(rows, d, metric, width, bs[k]);
      Point(bs[k], Average(group), Smallest(group), Largest(group)))
  }

  /** A time rounded up to the next bucket start. */
  function RoundUp(width: int, timeMs: int): int
    requires width > 0
  {
    BucketStart(width, timeMs + width - 1)
  }

  /** A time's bucket starts in the window exactly if the time lies in the window rounded out to buckets. */
  lemma WindowRounds(width: int, from: int, to: int, timeMs: int)
    requires width == MINUTE_MS || width == HOUR_MS
    ensures from <= BucketStart(width, timeMs) <= to <==>
              RoundUp(width, from) <= timeMs < BucketStart(width, to) + width
  {
  }

  /** Some point of the answer summarises the row's bucket. */
  ghost predicate Summarised(points: seq<Point>, width: int, t: Reading)
    requires width > 0
  {
    exists k :: 0 <= k < |points| && points[k].bucket == BucketStart(width, t.timestampMs)
  }

  /**
   An answer below the limit summarises exactly the device's rows from `from` rounded up to a bucket
   until the end of the bucket that contains `to`; a longer one keeps the earliest points.
   */
  lemma PointsCover(rows: seq<Reading>, d: string, metric: Metric, width: int, from: int, to: int, i: nat)
    requires width == MINUTE_MS || width == HOUR_MS
    requires i < |rows| && rows[i].deviceId == d
    ensures var points := Points(rows, d, metric, width, from, to);
            && (|points| < MAX_SERIES_POINTS ==>
                  (Summarised(points, width, rows[i]) <==>
                     RoundUp(width, from) <= rows[i].timestampMs < BucketStart(width, to) + width))
            && (|points| == MAX_SERIES_POINTS ==>
                  RoundUp(width, from) <= rows[i].timestampMs < BucketStart(width, to) + width ==>
                    Summarised(points, width, rows[i]) ||
                    points[MAX_SERIES_POINTS - 1].bucket < BucketStart(width, rows[i].timestampMs))
  {
    hide Values, Smallest, Largest, Average, RoundUp, Buckets;
    var bs, bucket := Buckets(rows, d, width, from, to), BucketStart(width, rows[i].timestampMs);
    var points := Points(rows, d, metric, width, from, to);
    BucketsMeaning(rows, d, width, from, to, bucket);
    WindowRounds(width, from, to, rows[i].timestampMs);
    assert InBucket(rows[i], d, width, bucket);
    if bucket in bs {
      var k :| 0 <= k < |bs| && bs[k] == bucket;
      if k < |points| {
        assert points[k].bucket == bucket;
      } else {
        assert points[|points| - 1].bucket == bs[|points| - 1];
      }
    }
    if Summarised(points, width, rows[i]) {
      var k :| 0 <= k < |points| && points[k].bucket == bucket;
      assert bs[k] == bucket;
    }
  }

  /** The rows grouped under a bucket, by the bucket each row's time falls into. */
  function RowsIn(rows: seq<Reading>, d: string, width: int, bucket: int): seq<Reading>
    requires width > 0
  {
    if rows == [] then []
    else
      var init, t := RowsIn(rows[..|rows| - 1], d, width, bucket), rows[|rows| - 1];
      if InBucket(t, d, width, bucket) then init + [t] else init
  }

  function Total(rows: seq<Reading>, metric: Metric): real {
    if rows == [] then 0.0 else Total(rows[..|rows| - 1], metric) + MetricValue(rows[|rows| - 1], metric)
  }

  /** Selecting by span of time, as the view is read, and by bucket, as it is grouped, come to the same. */
  lemma {:induction false} RowsInGroup(rows: seq<Reading>, d: string, metric: Metric, width: int, bucket: int)
    requires width > 0 && Aligned(width, bucket)
    ensures |RowsIn(rows, d, width, bucket)| == |Group(rows, d, metric, width, bucket)|
    ensures Total(RowsIn(rows, d, width, bucket), metric) == Sum(Group(rows, d, metric, width, bucket))
  {
    hide BucketStart, Aligned;
    if rows != [] {
      var init, t := rows[..|rows| - 1], rows[|rows| - 1];
      RowsInGroup(init, d, metric, width, bucket);
      BucketSpan(width, bucket, t.timestampMs);
      SumSnoc(Group(init, d, metric, width, bucket), MetricValue(t, metric));
      TotalSnoc(RowsIn(init, d, width, bucket), t, metric);
    }
  }

  lemma TotalSnoc(rows: seq<Reading>, t: Reading, metric: Metric)
    ensures Total(rows + [t], metric) == Total(rows, metric) + MetricValue(t, metric)
  {
    assert (rows + [t])[..|rows|] == rows;
  }

  /** The value is that of some row of the bucket. */
  ghost predicate AttainedBy(rows: seq<Reading>, d: string, metric: Metric, width: int, bucket: int, v: real)
    requires width > 0
  {
    exists i :: 0 <= i < |rows| && InBucket(rows[i], d, width, bucket) && MetricValue(rows[i], metric) == v
  }

  lemma GroupAttained(rows: seq<Reading>, d: string, metric: Metric, width: int, bucket: int, v: real)
    requires width > 0 && Aligned(width, bucket)
    ensures v in Group(rows, d, metric, width, bucket) <==> AttainedBy(rows, d, metric, width, bucket, v)
  {
    hide Values, BucketStart, Aligned, MetricValue;
    ValuesMeaning(rows, d, metric, bucket, bucket + width, v);
    forall i | 0 <= i < |rows|
      ensures Contributes(rows[i], d, metric, bucket, bucket + width, v) <==>
              InBucket(rows[i], d, width, bucket) && MetricValue(rows[i], metric) == v {
      BucketSpan(width, bucket, rows[i].timestampMs);
    }
  }

  /** A listed bucket is the bucket of a row, so it is aligned. */
  lemma ListedAligned(rows: seq<Reading>, d: string, width: int, from: int, to: int, bucket: int)
    requires width == MINUTE_MS || width == HOUR_MS
    requires bucket in Buckets(rows, d, width, from, to)
    ensures Aligned(width, bucket)
  {
    hide BucketStart, Aligned;
    BucketsMeaning(rows, d, width, from, to, bucket);
    var i :| 0 <= i < |rows| && InBucket(rows[i], d, width, bucket);
    StartAligned(width, rows[i].timestampMs);
  }

  /** The points are in time order. */
  lemma PointsAscend(rows: seq<Reading>, d: string, metric: Metric, width: int, from: int, to: int, i: nat, k: nat)
    requires width == MINUTE_MS || width == HOUR_MS
    requires i < k < |Points(rows, d, metric, width, from, to)|
    ensures Points(rows, d, metric, width, from, to)[i].bucket < Points(rows, d, metric, width, from, to)[k].bucket
  {
    hide Values, Smallest, Largest, Average;
  }

  /**
   What a point says of the rows in its bucket: its minimum and maximum are values of rows, no row's
   value lies outside them, and its average is their total over their number, between the two.
   */
  lemma PointMeaning(rows: seq<Reading>, d: string, metric: Metric, width: int, from: int, to: int, k: nat)
    requires width == MINUTE_MS || width == HOUR_MS
    requires k < |Points(rows, d, metric, width, from, to)|
    ensures var p := Points(rows, d, metric, width, from, to)[k];
            var mine := RowsIn(rows, d, width, p.bucket);
            && AttainedBy(rows, d, metric, width, p.bucket, p.min)
            && AttainedBy(rows, d, metric, width, p.bucket, p.max)
            && (forall i | 0 <= i < |rows| && InBucket(rows[i], d, width, p.bucket) ::
                  p.min <= MetricValue(rows[i], metric) <= p.max)
            && mine != [] && p.avg * |mine| as real == Total(mine, metric) && p.min <= p.avg <= p.max
  {
    hide Values, Smallest, Largest, Average, Buckets, BucketStart, Aligned, RowsIn, MetricValue, AttainedBy;
    var bucket := Buckets(rows, d, width, from, to)[k];
    ListedBucketFilled(rows, d, metric, width, from, to, bucket);
    ListedAligned(rows, d, width, from, to, bucket);
    var group := Group(rows, d, metric, width, bucket);
    ExtremaMeaning(group);
    AverageBetween(group);
    AverageTimesCount(group);
    RowsInGroup(rows, d, metric, width, bucket);
    GroupAttained(rows, d, metric, width, bucket, Smallest(group));
    GroupAttained(rows, d, metric, width, bucket, Largest(group));
    forall i | 0 <= i < |rows| && InBucket(rows[i], d, width, bucket)
      ensures MetricValue(rows[i], metric) in group {
      AttainedHere(rows, d, metric, width, bucket, i);
      GroupAttained(rows, d, metric, width, bucket, MetricValue(rows[i], metric));
    }
  }

  lemma AttainedHere(rows: seq<Reading>, d: string, metric: Metric, width: int, bucket: int, i: nat)
    requires width > 0 && i < |rows| && InBucket(rows[i], d, width, bucket)
    ensures AttainedBy(rows, d, metric, width, bucket, MetricValue(rows[i], metric))
  {
  }

  const OFFLINE_THRESHOLD_MS := 60000

  /** The status the API shows for a device. */
  predicate ShownOnline(lastSeenMs: int, nowMs: int) {
    nowMs - lastSeenMs <= OFFLINE_THRESHOLD_MS
  }

  /** Beside a rule of sixty seconds, status and sweep disagree at an age of exactly that, and nowhere else. */
  lemma StatusMatchesSweep(c: Check, lastSeenMs: int)
    requires c.rule.silenceSeconds == 60 && c.device.lastSeenMs == Some(lastSeenMs)
    ensures (Silent(c) <==> !ShownOnline(lastSeenMs, c.nowMs)) <==> c.nowMs - lastSeenMs != OFFLINE_THRESHOLD_MS
  {
    SilentInMilliseconds(c);
  }
}
