/**
 The device registry under batched upserts. Each committed batch overwrites the rows of the devices
 it mentions with their newest reading in the batch; nothing compares with the row already there.
 */
module Registry {
  import opened Options
  import opened Readings
  import opened LatestFold

  datatype Row = Row(lastSeenMs: int, lat: real, lon: real)

  type Devices = map<string, Row>

  function RowOf(t: Reading): Row {
    Row(t.timestampMs, t.lat, t.lon)
  }

  /** One INSERT with ON CONFLICT DO UPDATE; the statement is refused if it names a row twice. */
  function Upsert(rows: Devices, latest: seq<Reading>): Devices {
    if latest == [] then rows
    else Upsert(rows, latest[..|latest| - 1])[latest[|latest| - 1].deviceId := RowOf(latest[|latest| - 1])]
  }

  function RegistryAfter(batches: seq<seq<Reading>>): Devices {
    if batches == [] then map[]
    else Upsert(RegistryAfter(batches[..|batches| - 1]), Latest(batches[|batches| - 1]))
  }

  function Concat(batches: seq<seq<Reading>>): seq<Reading> {
    if batches == [] then [] else Concat(batches[..|batches| - 1]) + batches[|batches| - 1]
  }

  function Find(rows: Devices, d: string): Option<Row> {
    if d in rows then Some(rows[d]) else None
  }

  /** What the batches leave of one device: the newest reading of the last batch that mentions it. */
  function ReadingAfter(batches: seq<seq<Reading>>, d: string): Option<Reading> {
    if batches == [] then None
    else
      var newest := NewestOf(batches[|batches| - 1], d);
      if newest.Some? then newest else ReadingAfter(batches[..|batches| - 1], d)
  }

  function AsRow(t: Option<Reading>): Option<Row> {
    if t.Some? then Some(RowOf(t.value)) else None
  }

  lemma {:induction false} UpsertFrame(rows: Devices, latest: seq<Reading>, d: string)
    requires !Mentions(latest, d)
    ensures Find(Upsert(rows, latest), d) == Find(rows, d)
  {
    if latest != [] {
      var n := |latest| - 1;
      assert latest[n].deviceId != d;
      UpsertFrame(rows, latest[..n], d);
    }
  }

  lemma {:induction false} UpsertRow(rows: Devices, latest: seq<Reading>, k: nat)
    requires k < |latest|
    requires forall j | k < j < |latest| :: latest[j].deviceId != latest[k].deviceId
    ensures Find(Upsert(rows, latest), latest[k].deviceId) == Some(RowOf(latest[k]))
  {
    if k < |latest| - 1 {
      UpsertRow(rows, latest[..|latest| - 1], k);
    }
  }

  /** A batch's upsert sets exactly the rows of the devices it mentions, each to its newest reading. */
  lemma UpsertLatest(rows: Devices, batch: seq<Reading>, d: string)
    ensures Find(Upsert(rows, Latest(batch)), d) ==
            if NewestOf(batch, d).Some? then Some(RowOf(NewestOf(batch, d).value)) else Find(rows, d)
  {
    hide Upsert, Find, Newest;
    var latest := Latest(batch);
    LatestMeaning(batch);
    NewestOfMeaning(batch, d);
    if Mentions(latest, d) {
      var k: nat :| k < |latest| && latest[k].deviceId == d;
      LatestIsNewest(batch, k);
      forall j | k < j < |latest| ensures latest[j].deviceId != latest[k].deviceId {
        LatestDistinct(batch, k, j);
      }
      UpsertRow(rows, latest, k);
    } else {
      CoveredDevice(batch, latest, d);
      UpsertFrame(rows, latest, d);
    }
  }

  lemma {:induction false} RegistryMeaning(batches: seq<seq<Reading>>, d: string)
    ensures Find(RegistryAfter(batches), d) == AsRow(ReadingAfter(batches, d))
  {
    hide Upsert, Latest, NewestOf;
    if batches != [] {
      RegistryMeaning(batches[..|batches| - 1], d);
      UpsertLatest(RegistryAfter(batches[..|batches| - 1]), batches[|batches| - 1], d);
    }
  }

  /** Batch k is the last to mention the device. */
  predicate LastMention(batches: seq<seq<Reading>>, d: string, k: nat) {
    k < |batches| && Mentions(batches[k], d) && forall j | k < j < |batches| :: !Mentions(batches[j], d)
  }

  /**
   In any order of timestamps, a device's last-seen time is the greatest timestamp of the most
   recent committed batch that mentions it, even when an earlier batch had a greater one.
   */
  lemma {:induction false} LastSeenIsBatchMaximum(batches: seq<seq<Reading>>, d: string, k: nat)
    requires LastMention(batches, d, k)
    ensures d in RegistryAfter(batches)
    ensures exists p | 0 <= p < |batches[k]| ::
              batches[k][p].deviceId == d &&
              RegistryAfter(batches)[d].lastSeenMs == batches[k][p].timestampMs &&
              RegistryAfter(batches)[d].lat == batches[k][p].lat && RegistryAfter(batches)[d].lon == batches[k][p].lon &&
              forall q | 0 <= q < |batches[k]| && batches[k][q].deviceId == d ::
                batches[k][q].timestampMs <= RegistryAfter(batches)[d].lastSeenMs
  {
    hide RegistryAfter, NewestOf;
    ReadingAfterMention(batches, d, k);
    RegistryMeaning(batches, d);
    NewestOfMeaning(batches[k], d);
    var p :| NewestAt(batches[k], p, NewestOf(batches[k], d).value);
    assert batches[k][p].deviceId == d && RegistryAfter(batches)[d] == RowOf(batches[k][p]);
  }

  lemma {:induction false} ReadingAfterMention(batches: seq<seq<Reading>>, d: string, k: nat)
    requires LastMention(batches, d, k)
    ensures ReadingAfter(batches, d) == NewestOf(batches[k], d) && NewestOf(batches[k], d).Some?
  {
    var n := |batches| - 1;
    NewestOfMeaning(batches[n], d);
    if k < n {
      assert !Mentions(batches[n], d);
      ReadingAfterMention(batches[..n], d, k);
    }
  }

  /** The last reading of a device. */
  function LastOf(rs: seq<Reading>, d: string): Option<Reading> {
    if rs == [] then None
    else if rs[|rs| - 1].deviceId == d then Some(rs[|rs| - 1])
    else LastOf(rs[..|rs| - 1], d)
  }

  /** Position p holds the last reading of its device. */
  ghost predicate LastReading(rs: seq<Reading>, p: int) {
    0 <= p < |rs| && forall q | p < q < |rs| :: rs[q].deviceId != rs[p].deviceId
  }

  lemma {:induction false} LastOfMeaning(rs: seq<Reading>, d: string)
    ensures LastOf(rs, d).None? <==> !Mentions(rs, d)
    ensures LastOf(rs, d).Some? ==>
              LastOf(rs, d).value.deviceId == d && exists p :: LastReading(rs, p) && rs[p] == LastOf(rs, d).value
    ensures forall p | LastReading(rs, p) && rs[p].deviceId == d :: LastOf(rs, d) == Some(rs[p])
  {
    if rs != [] {
      var n := |rs| - 1;
      if rs[n].deviceId == d {
        assert LastReading(rs, n);
      } else {
        var init := rs[..n];
        LastOfMeaning(init, d);
        forall p | 0 <= p < n && rs[p].deviceId == d ensures LastReading(rs, p) <==> LastReading(init, p) {
          assert forall q | 0 <= q < n :: init[q] == rs[q];
        }
        assert forall p | 0 <= p < n :: init[p] == rs[p];
        if LastOf(init, d).Some? {
          var p :| LastReading(init, p) && init[p] == LastOf(init, d).value;
          assert LastReading(rs, p);
        }
      }
    }
  }

  /** What a table keeps of a reading: its registry row, or the whole reading in the shadow. */
  function Seen<V>(t: Option<Reading>, view: Reading -> V): Option<V> {
    if t.Some? then Some(view(t.value)) else None
  }

  ghost predicate KeepsTime<V(!new)>(view: Reading -> V) {
    forall t, t' :: view(t) == view(t') ==> t.timestampMs == t'.timestampMs
  }

  /** No earlier reading of a device can displace its last one: it is strictly older, or looks the same. */
  ghost predicate LastReadingWins<V(!new)>(rs: seq<Reading>, view: Reading -> V) {
    forall p, q | LastReading(rs, p) && 0 <= q < p && rs[q].deviceId == rs[p].deviceId ::
      rs[q].timestampMs < rs[p].timestampMs || view(rs[q]) == view(rs[p])
  }

  /** The batches are a way of cutting the stream into non-empty pieces. */
  ghost predicate Cuts(batches: seq<seq<Reading>>, rs: seq<Reading>) {
    Concat(batches) == rs && forall k | 0 <= k < |batches| :: batches[k] != []
  }

  /** The newest reading in any piece that ends with the device's last reading looks like that reading. */
  lemma PieceWins<V(!new)>(rs: seq<Reading>, from: nat, to: nat, d: string, p: nat, view: Reading -> V)
    requires LastReadingWins(rs, view) && from <= p < to <= |rs| && LastReading(rs, p) && rs[p].deviceId == d
    ensures Seen(NewestOf(rs[from..to], d), view) == Some(view(rs[p]))
  {
    hide NewestOf;
    var batch := rs[from..to];
    assert batch[p - from] == rs[p];
    NewestOfMeaning(batch, d);
    var m :| NewestAt(batch, m, NewestOf(batch, d).value);
    assert batch[m] == rs[from + m];
    assert m <= p - from;
    assert m < p - from ==> !(rs[from + m].timestampMs < rs[p].timestampMs);
  }

  /** The last mention inside the last piece is the last mention in the stream. */
  lemma LastInPiece(rs: seq<Reading>, from: nat, to: nat, d: string) returns (p: nat)
    requires from <= to <= |rs| && Mentions(rs[from..to], d)
    requires forall q | to <= q < |rs| :: rs[q].deviceId != d
    ensures from <= p < to && LastReading(rs, p) && rs[p].deviceId == d
  {
    hide LastOf, Mentions;
    LastOfMeaning(rs[from..to], d);
    var m: nat :| LastReading(rs[from..to], m) && rs[from..to][m] == LastOf(rs[from..to], d).value;
    NoneAfter(rs, from, to, d, m);
    p := from + m;
  }

  lemma NoneAfter(rs: seq<Reading>, from: nat, to: nat, d: string, m: nat)
    requires from <= to <= |rs| && LastReading(rs[from..to], m) && rs[from..to][m].deviceId == d
    requires forall q | to <= q < |rs| :: rs[q].deviceId != d
    ensures LastReading(rs, from + m) && rs[from + m].deviceId == d
  {
    var batch := rs[from..to];
    assert batch[m] == rs[from + m];
    forall q | from + m < q < |rs| ensures rs[q].deviceId != d {
      if q < to {
        assert batch[q - from] == rs[q];
      }
    }
  }

  lemma {:induction false} CutSeen<V(!new)>(batches: seq<seq<Reading>>, rs: seq<Reading>, d: string, view: Reading -> V)
    requires Concat(batches) <= rs && LastReadingWins(rs, view)
    requires forall q | |Concat(batches)| <= q < |rs| :: rs[q].deviceId != d
    ensures Seen(ReadingAfter(batches, d), view) == Seen(LastOf(rs, d), view)
  {
    hide NewestOf, LastOf, LastReadingWins;
    LastOfMeaning(rs, d);
    if batches != [] {
      var init, batch := batches[..|batches| - 1], batches[|batches| - 1];
      var from, to := |Concat(init)|, |Concat(batches)|;
      assert Concat(batches) == Concat(init) + batch;
      assert rs[from..to] == batch && Concat(init) <= rs;
      NewestOfMeaning(batch, d);
      if Mentions(batch, d) {
        var p := LastInPiece(rs, from, to, d);
        PieceWins(rs, from, to, d, p, view);
      } else {
        forall q | from <= q < |rs| ensures rs[q].deviceId != d {
          if q < to { assert batch[q - from] == rs[q]; }
        }
        CutSeen(init, rs, d, view);
      }
    }
  }

  /** A piece that starts with a displacing reading does not look like the device's last one. */
  lemma TailDisplaces<V(!new)>(rs: seq<Reading>, p: nat, q: nat, view: Reading -> V)
    requires LastReading(rs, p) && q < p && rs[q].deviceId == rs[p].deviceId && KeepsTime(view)
    requires rs[q].timestampMs >= rs[p].timestampMs && view(rs[q]) != view(rs[p])
    ensures NewestOf(rs[q..], rs[p].deviceId).Some?
    ensures view(NewestOf(rs[q..], rs[p].deviceId).value) != view(rs[p])
  {
    hide NewestOf;
    var d, tail := rs[p].deviceId, rs[q..];
    assert tail[0] == rs[q] && tail[p - q] == rs[p];
    NewestOfMeaning(tail, d);
    var m :| NewestAt(tail, m, NewestOf(tail, d).value);
    assert tail[0].timestampMs <= tail[m].timestampMs;
    if m != 0 {
      assert tail[0].timestampMs < tail[m].timestampMs;
    }
  }

  /** The cut right before position q. */
  function CutAt(rs: seq<Reading>, q: nat): seq<seq<Reading>>
    requires q < |rs|
  {
    if q == 0 then [rs] else [rs[..q], rs[q..]]
  }

  lemma CutAtCuts(rs: seq<Reading>, q: nat)
    requires q < |rs|
    ensures Cuts(CutAt(rs, q), rs) && CutAt(rs, q)[|CutAt(rs, q)| - 1] == rs[q..]
  {
    if q > 0 {
      assert CutAt(rs, q)[..1] == [rs[..q]];
      assert Concat([rs[..q]]) == rs[..q];
      assert rs[..q] + rs[q..] == rs;
    } else {
      assert Concat([rs]) == rs;
    }
  }

  lemma DisplacingCut<V(!new)>(rs: seq<Reading>, p: nat, q: nat, view: Reading -> V)
    requires LastReading(rs, p) && q < p && rs[q].deviceId == rs[p].deviceId && KeepsTime(view)
    requires rs[q].timestampMs >= rs[p].timestampMs && view(rs[q]) != view(rs[p])
    ensures Cuts(CutAt(rs, q), rs)
    ensures Seen(ReadingAfter(CutAt(rs, q), rs[p].deviceId), view) != Seen(LastOf(rs, rs[p].deviceId), view)
  {
    hide NewestOf, CutAt, Cuts;
    CutAtCuts(rs, q);
    TailDisplaces(rs, p, q, view);
    LastOfMeaning(rs, rs[p].deviceId);
  }

  /** Every cut leaves each device looking as its last reading does. */
  ghost predicate EveryCutKeepsLast<V(!new)>(rs: seq<Reading>, view: Reading -> V) {
    forall batches, d | Cuts(batches, rs) :: Seen(ReadingAfter(batches, d), view) == Seen(LastOf(rs, d), view)
  }

  /**
   Batching transparency, with its exact condition: what is kept of every device is its last reading
   for every way of cutting the stream into batches if and only if no earlier reading of a device
   is at least as new as its last one and looks different.
   */
  lemma BatchingTransparency<V(!new)>(rs: seq<Reading>, view: Reading -> V)
    requires KeepsTime(view)
    ensures EveryCutKeepsLast(rs, view) <==> LastReadingWins(rs, view)
  {
    if LastReadingWins(rs, view) {
      forall batches, d | Cuts(batches, rs)
        ensures Seen(ReadingAfter(batches, d), view) == Seen(LastOf(rs, d), view) {
        CutSeen(batches, rs, d, view);
      }
    } else {
      var p, q :| LastReading(rs, p) && 0 <= q < p && rs[q].deviceId == rs[p].deviceId &&
        !(rs[q].timestampMs < rs[p].timestampMs || view(rs[q]) == view(rs[p]));
      DisplacingCut(rs, p, q, view);
    }
  }

  /** The rows are the last readings' rows for every cut. */
  ghost predicate EveryCutKeepsRows(rs: seq<Reading>) {
    forall batches, d | Cuts(batches, rs) :: Find(RegistryAfter(batches), d) == AsRow(LastOf(rs, d))
  }

  lemma RowSeen(t: Option<Reading>)
    ensures Seen(t, RowOf) == AsRow(t)
  {
  }

  /** For the registry: every cut leaves the last readings' rows under exactly that condition. */
  lemma RegistryTransparency(rs: seq<Reading>)
    ensures EveryCutKeepsRows(rs) <==> LastReadingWins(rs, RowOf)
  {
    hide RegistryAfter, ReadingAfter, LastOf, LastReadingWins, Cuts, Find, Seen, AsRow;
    BatchingTransparency(rs, RowOf);
    if EveryCutKeepsRows(rs) {
      forall batches, d | Cuts(batches, rs)
        ensures Seen(ReadingAfter(batches, d), RowOf) == Seen(LastOf(rs, d), RowOf) {
        RegistryMeaning(batches, d);
        RowSeen(ReadingAfter(batches, d));
        RowSeen(LastOf(rs, d));
      }
      assert EveryCutKeepsLast(rs, RowOf);
    }
    if EveryCutKeepsLast(rs, RowOf) {
      forall batches, d | Cuts(batches, rs) ensures Find(RegistryAfter(batches), d) == AsRow(LastOf(rs, d)) {
        RegistryMeaning(batches, d);
        RowSeen(ReadingAfter(batches, d));
        RowSeen(LastOf(rs, d));
      }
    }
  }

  /** Strictly increasing timestamps per device are enough, for rows and for whole readings. */
  lemma IncreasingTimesTransparent<V(!new)>(rs: seq<Reading>, view: Reading -> V)
    requires forall p, q | 0 <= q < p < |rs| && rs[q].deviceId == rs[p].deviceId :: rs[q].timestampMs < rs[p].timestampMs
    ensures LastReadingWins(rs, view)
  {
  }

  lemma ConcatSnoc(batches: seq<seq<Reading>>, batch: seq<Reading>)
    ensures Concat(batches + [batch]) == Concat(batches) + batch
    ensures RegistryAfter(batches + [batch]) == Upsert(RegistryAfter(batches), Latest(batch))
  {
    assert (batches + [batch])[..|batches|] == batches;
  }
}
