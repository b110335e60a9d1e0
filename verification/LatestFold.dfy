/**
 The per-batch fold that keeps one reading per device: an insertion-ordered map whose entry is
 replaced in place by a strictly newer reading.
 */
module LatestFold {
  import opened Options
  import opened Readings

  /** The position of a device's entry in the map. */
  function IndexOf(entries: seq<Reading>, d: string): (k: Option<nat>)
    ensures k.Some? ==> k.value < |entries| && entries[k.value].deviceId == d
    ensures k.None? ==> forall i | 0 <= i < |entries| :: entries[i].deviceId != d
  {
    if entries == [] then None
    else if entries[|entries| - 1].deviceId == d then Some(|entries| - 1)
    else IndexOf(entries[..|entries| - 1], d)
  }

  function Fold(entries: seq<Reading>, t: Reading): seq<Reading> {
    var k := IndexOf(entries, t.deviceId);
    if k.None? then entries + [t]
    else if t.timestampMs > entries[k.value].timestampMs then entries[k.value := t]
    else entries
  }

  function Latest(batch: seq<Reading>): seq<Reading> {
    if batch == [] then [] else Fold(Latest(batch[..|batch| - 1]), batch[|batch| - 1])
  }

  /** Position p is the earliest among the device's readings with the greatest timestamp. */
  ghost predicate Newest(batch: seq<Reading>, p: int) {
    && 0 <= p < |batch|
    && forall q | 0 <= q < |batch| && batch[q].deviceId == batch[p].deviceId ::
         if q < p then batch[q].timestampMs < batch[p].timestampMs else batch[q].timestampMs <= batch[p].timestampMs
  }

  /** Position f is where the device first occurs. */
  ghost predicate FirstOf(batch: seq<Reading>, d: string, f: int) {
    0 <= f < |batch| && batch[f].deviceId == d && forall q | 0 <= q < f :: batch[q].deviceId != d
  }

  predicate Mentions(batch: seq<Reading>, d: string) {
    exists p | 0 <= p < |batch| :: batch[p].deviceId == d
  }

  /** The reading is the newest of its device, found at position p. */
  ghost predicate NewestAt(batch: seq<Reading>, p: int, t: Reading) {
    Newest(batch, p) && batch[p] == t
  }

  ghost predicate IsNewest(batch: seq<Reading>, t: Reading) {
    exists p :: NewestAt(batch, p, t)
  }

  ghost predicate AllNewest(batch: seq<Reading>, latest: seq<Reading>) {
    forall k | 0 <= k < |latest| :: IsNewest(batch, latest[k])
  }

  ghost predicate Covers(batch: seq<Reading>, latest: seq<Reading>) {
    forall p | 0 <= p < |batch| :: Mentions(latest, batch[p].deviceId)
  }

  ghost predicate FirstOrder(batch: seq<Reading>, latest: seq<Reading>) {
    forall i, j, f, g | 0 <= i < j < |latest| &&
      FirstOf(batch, latest[i].deviceId, f) && FirstOf(batch, latest[j].deviceId, g) :: f < g
  }

  /** Every entry is its device's newest reading; every device has an entry; entries follow first occurrence. */
  ghost predicate IsLatest(batch: seq<Reading>, latest: seq<Reading>) {
    AllNewest(batch, latest) && Covers(batch, latest) && FirstOrder(batch, latest)
  }

  lemma {:induction false} FirstExists(batch: seq<Reading>, d: string) returns (f: nat)
    requires Mentions(batch, d)
    ensures FirstOf(batch, d, f)
  {
    f := 0;
    while batch[f].deviceId != d
      invariant f < |batch| && forall q | 0 <= q < f :: batch[q].deviceId != d
      decreases |batch| - f
    {
      f := f + 1;
    }
  }

  lemma NewestStep(batch: seq<Reading>, t: Reading, p: int)
    requires Newest(batch, p)
    requires batch[p].deviceId == t.deviceId ==> t.timestampMs <= batch[p].timestampMs
    ensures NewestAt(batch + [t], p, batch[p])
  {
  }

  lemma NewestLast(batch: seq<Reading>, t: Reading, p: int)
    requires !Mentions(batch, t.deviceId) ||
             (Newest(batch, p) && batch[p].deviceId == t.deviceId && t.timestampMs > batch[p].timestampMs)
    ensures NewestAt(batch + [t], |batch|, t)
  {
  }

  lemma FirstStep(batch: seq<Reading>, t: Reading, d: string, f: int)
    ensures FirstOf(batch + [t], d, f) <==>
              FirstOf(batch, d, f) || (f == |batch| && t.deviceId == d && !Mentions(batch, d))
  {
    var ext := batch + [t];
    assert forall q | 0 <= q < |batch| :: ext[q] == batch[q];
    assert ext[|batch|] == t;
  }

  lemma OneEntry(batch: seq<Reading>, entries: seq<Reading>, i: nat, j: nat)
    requires IsLatest(batch, entries) && i < |entries| && j < |entries|
    requires entries[i].deviceId == entries[j].deviceId
    ensures i == j
  {
    EntryMentioned(batch, entries, i);
    var f := FirstExists(batch, entries[i].deviceId);
  }

  lemma EntriesStep(batch: seq<Reading>, t: Reading, entries: seq<Reading>)
    requires IsLatest(batch, entries)
    ensures AllNewest(batch + [t], Fold(entries, t))
  {
    hide FirstOrder, Newest, Mentions, IsLatest;
    assert AllNewest(batch, entries) && Covers(batch, entries) by { LatestParts(batch, entries); }
    var i := IndexOf(entries, t.deviceId);
    forall k | 0 <= k < |Fold(entries, t)| ensures IsNewest(batch + [t], Fold(entries, t)[k]) {
      if k == |entries| {
        NotMentioned(batch, entries, t.deviceId);
        NewestLast(batch, t, 0);
      } else {
        assert IsNewest(batch, entries[k]);
        var p :| NewestAt(batch, p, entries[k]);
        if i == Some(k) && t.timestampMs > entries[k].timestampMs {
          NewestLast(batch, t, p);
        } else {
          if entries[k].deviceId == t.deviceId {
            OneEntry(batch, entries, k, i.value);
          }
          NewestStep(batch, t, p);
        }
      }
    }
  }

  lemma LatestParts(batch: seq<Reading>, entries: seq<Reading>)
    requires IsLatest(batch, entries)
    ensures AllNewest(batch, entries) && Covers(batch, entries) && FirstOrder(batch, entries)
  {
  }

  lemma NotMentioned(batch: seq<Reading>, entries: seq<Reading>, d: string)
    requires Covers(batch, entries) && IndexOf(entries, d).None?
    ensures !Mentions(batch, d)
  {
    assert !Mentions(entries, d);
  }

  lemma FoldDevices(entries: seq<Reading>, t: Reading)
    ensures |entries| <= |Fold(entries, t)|
    ensures forall k | 0 <= k < |entries| :: Fold(entries, t)[k].deviceId == entries[k].deviceId
    ensures |Fold(entries, t)| > |entries| ==>
              |Fold(entries, t)| == |entries| + 1 && Fold(entries, t)[|entries|] == t && !Mentions(entries, t.deviceId)
    ensures Mentions(Fold(entries, t), t.deviceId)
  {
    var k := IndexOf(entries, t.deviceId);
    if k.Some? {
      assert Fold(entries, t)[k.value].deviceId == t.deviceId;
    } else {
      assert Fold(entries, t)[|entries|].deviceId == t.deviceId;
    }
  }

  lemma OrderStep(batch: seq<Reading>, t: Reading, entries: seq<Reading>)
    requires IsLatest(batch, entries)
    ensures FirstOrder(batch + [t], Fold(entries, t))
  {
    hide Fold, Newest, AllNewest, Covers;
    var latest := Fold(entries, t);
    FoldDevices(entries, t);
    forall i, j, f, g | 0 <= i < j < |latest| &&
      FirstOf(batch + [t], latest[i].deviceId, f) && FirstOf(batch + [t], latest[j].deviceId, g)
      ensures f < g {
      FirstStep(batch, t, latest[i].deviceId, f);
      FirstStep(batch, t, latest[j].deviceId, g);
      EntryMentioned(batch, entries, i);
      if j < |entries| {
        EntryMentioned(batch, entries, j);
      } else {
        CoveredDevice(batch, entries, t.deviceId);
      }
    }
  }

  lemma CoveredDevice(batch: seq<Reading>, entries: seq<Reading>, d: string)
    requires Covers(batch, entries)
    ensures Mentions(batch, d) ==> Mentions(entries, d)
  {
  }

  lemma EntryMentioned(batch: seq<Reading>, entries: seq<Reading>, i: nat)
    requires AllNewest(batch, entries) && i < |entries|
    ensures Mentions(batch, entries[i].deviceId)
  {
    assert IsNewest(batch, entries[i]);
    var p :| NewestAt(batch, p, entries[i]);
  }

  lemma CoversStep(batch: seq<Reading>, t: Reading, entries: seq<Reading>)
    requires Covers(batch, entries)
    ensures Covers(batch + [t], Fold(entries, t))
  {
    hide Fold;
    FoldDevices(entries, t);
    forall p | 0 <= p < |batch| ensures Mentions(Fold(entries, t), batch[p].deviceId) {
      var k :| 0 <= k < |entries| && entries[k].deviceId == batch[p].deviceId;
      assert Fold(entries, t)[k].deviceId == batch[p].deviceId;
    }
  }

  /** The fold keeps exactly the newest reading of each device, in first-occurrence order. */
  lemma {:induction false} LatestMeaning(batch: seq<Reading>)
    ensures IsLatest(batch, Latest(batch))
  {
    hide Fold, AllNewest, Covers, FirstOrder;
    if batch == [] {
      NothingLatest();
    } else {
      var init, t := batch[..|batch| - 1], batch[|batch| - 1];
      LatestMeaning(init);
      assert init + [t] == batch;
      EntriesStep(init, t, Latest(init));
      CoversStep(init, t, Latest(init));
      OrderStep(init, t, Latest(init));
    }
  }

  lemma NothingLatest()
    ensures IsLatest([], [])
  {
  }

  /** One entry per device: the batch's upsert may name each registry row once only. */
  lemma LatestDistinct(batch: seq<Reading>, i: nat, j: nat)
    requires i < |Latest(batch)| && j < |Latest(batch)|
    ensures Latest(batch)[i].deviceId == Latest(batch)[j].deviceId <==> i == j
  {
    hide IsLatest;
    LatestMeaning(batch);
    if Latest(batch)[i].deviceId == Latest(batch)[j].deviceId {
      OneEntry(batch, Latest(batch), i, j);
    }
  }

  /** The newest reading of one device in a batch. */
  function NewestOf(batch: seq<Reading>, d: string): Option<Reading> {
    if batch == [] then None
    else
      var best, t := NewestOf(batch[..|batch| - 1], d), batch[|batch| - 1];
      if t.deviceId == d && (best.None? || t.timestampMs > best.value.timestampMs) then Some(t) else best
  }

  lemma {:induction false} NewestOfMeaning(batch: seq<Reading>, d: string)
    ensures NewestOf(batch, d).None? <==> !Mentions(batch, d)
    ensures NewestOf(batch, d).Some? ==> IsNewest(batch, NewestOf(batch, d).value) && NewestOf(batch, d).value.deviceId == d
  {
    if batch != [] {
      var init, t := batch[..|batch| - 1], batch[|batch| - 1];
      NewestOfMeaning(init, d);
      assert init + [t] == batch;
      assert Mentions(batch, d) <==> Mentions(init, d) || t.deviceId == d by {
        assert forall p | 0 <= p < |init| :: batch[p] == init[p];
        assert batch[|init|] == t;
      }
      if NewestOf(init, d).None? {
        if t.deviceId == d {
          NewestLast(init, t, 0);
        }
      } else {
        var p :| NewestAt(init, p, NewestOf(init, d).value);
        if t.deviceId == d && t.timestampMs > init[p].timestampMs {
          NewestLast(init, t, p);
        } else {
          NewestStep(init, t, p);
        }
      }
    }
  }

  lemma NewestUnique(batch: seq<Reading>, p: int, q: int)
    requires Newest(batch, p) && Newest(batch, q) && batch[p].deviceId == batch[q].deviceId
    ensures p == q
  {
  }

  /** The entry of a device in the fold is its newest reading. */
  lemma LatestIsNewest(batch: seq<Reading>, k: nat)
    requires k < |Latest(batch)|
    ensures NewestOf(batch, Latest(batch)[k].deviceId) == Some(Latest(batch)[k])
  {
    var d := Latest(batch)[k].deviceId;
    LatestMeaning(batch);
    assert IsNewest(batch, Latest(batch)[k]);
    var p :| NewestAt(batch, p, Latest(batch)[k]);
    EntryMentioned(batch, Latest(batch), k);
    NewestOfMeaning(batch, d);
    var q :| NewestAt(batch, q, NewestOf(batch, d).value);
    NewestUnique(batch, p, q);
  }

  /** An insertion-ordered map, as the order of its keys and their values, holding the given entries. */
  ghost predicate Holds(order: seq<string>, byDevice: map<string, Reading>, entries: seq<Reading>) {
    && |order| == |entries|
    && (forall k | 0 <= k < |order| ::
          order[k] == entries[k].deviceId && order[k] in byDevice && byDevice[order[k]] == entries[k])
    && (forall d | d in byDevice :: d in order)
  }

  /** A missing device is appended; a present one is replaced in place, if the reading is newer. */
  lemma MapStep(order: seq<string>, byDevice: map<string, Reading>, batch: seq<Reading>, t: Reading)
    requires Holds(order, byDevice, Latest(batch))
    ensures t.deviceId !in byDevice ==>
              Holds(order + [t.deviceId], byDevice[t.deviceId := t], Fold(Latest(batch), t))
    ensures t.deviceId in byDevice && t.timestampMs > byDevice[t.deviceId].timestampMs ==>
              Holds(order, byDevice[t.deviceId := t], Fold(Latest(batch), t))
    ensures t.deviceId in byDevice && t.timestampMs <= byDevice[t.deviceId].timestampMs ==>
              Holds(order, byDevice, Fold(Latest(batch), t))
  {
    hide Latest;
    var entries := Latest(batch);
    var at := IndexOf(entries, t.deviceId);
    if at.Some? {
      assert order[at.value] == t.deviceId;
      forall k | 0 <= k < |entries| && entries[k].deviceId == t.deviceId ensures k == at.value {
        LatestDistinct(batch, k, at.value);
      }
    }
  }

  /** The loop of the source: a map in insertion order, built over the batch, and its values. */
  method LatestByDevice(batch: seq<Reading>) returns (latest: seq<Reading>)
    ensures latest == Latest(batch)
    ensures IsLatest(batch, latest)
  {
    hide Fold, IsLatest;
    var order: seq<string> := [];
    var byDevice: map<string, Reading> := map[];
    for i := 0 to |batch|
      invariant Holds(order, byDevice, Latest(batch[..i]))
    {
      var item := batch[i];
      MapStep(order, byDevice, batch[..i], item);
      assert batch[..i + 1][..i] == batch[..i];
      if item.deviceId !in byDevice {
        order := order + [item.deviceId];
        byDevice := byDevice[item.deviceId := item];
      } else if item.timestampMs > byDevice[item.deviceId].timestampMs {
        byDevice := byDevice[item.deviceId := item];
      }
    }
    assert batch[..|batch|] == batch;
    latest := seq(|order|, k requires 0 <= k < |order| && order[k] in byDevice => byDevice[order[k]]);
    LatestMeaning(batch);
  }
}
