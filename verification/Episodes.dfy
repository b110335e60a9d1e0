/**
 When a threshold rule must alert, said over the history of readings alone, and the proof that
 the incremental evaluation over the store raises exactly those alerts, in that order.
 */
module Episodes {
  import opened Options
  import opened Readings
  import opened StoreKeys
  import opened RuleSchema
  import opened KeyValueStore
  import opened Evaluation

  /** From position s on, every reading of s's device breaches: s lies in the device's current run. */
  ghost predicate InCurrentRun(rule: ThresholdRule, rs: seq<Reading>, d: string, s: int) {
    && 0 <= s < |rs| && rs[s].deviceId == d
    && forall k | s <= k < |rs| && rs[k].deviceId == d :: Breaching(rule, rs[k])
  }

  /** Position s is where the device's current maximal run of consecutive breaching readings starts. */
  ghost predicate RunStart(rule: ThresholdRule, rs: seq<Reading>, d: string, s: int) {
    InCurrentRun(rule, rs, d, s) && forall k | 0 <= k < s :: !InCurrentRun(rule, rs, d, k)
  }

  /** Some reading of the device at or after s came at least the sustain time after reading s. */
  ghost predicate SustainedSince(rule: ThresholdRule, rs: seq<Reading>, d: string, s: nat) {
    s < |rs| && exists k :: s <= k < |rs| && rs[k].deviceId == d && Sustained(rule, rs[s].timestampMs, rs[k])
  }

  /** The last reading is the first of its run to come at least the sustain time after the run's first reading. */
  ghost predicate MustAlert(rule: ThresholdRule, rs: seq<Reading>)
    requires rs != []
  {
    var n := |rs| - 1;
    var d := rs[n].deviceId;
    exists s: nat :: RunStart(rule, rs, d, s)
      && Sustained(rule, rs[s].timestampMs, rs[n]) && !SustainedSince(rule, rs[..n], d, s)
  }

  /** The alerts the last reading must raise, in rule order. */
  ghost function LastAlerts(rules: seq<ThresholdRule>, rs: seq<Reading>): seq<Alert>
    requires rs != []
  {
    if rules == [] then []
    else
      var rule := rules[|rules| - 1];
      LastAlerts(rules[..|rules| - 1], rs) + if MustAlert(rule, rs) then [AlertFor(rule, rs[|rs| - 1])] else []
  }

  /** The alerts a history of readings must raise, in order: no store, no batches, no schedule. */
  ghost function HistoryAlerts(rules: seq<ThresholdRule>, rs: seq<Reading>): seq<Alert> {
    if rs == [] then [] else HistoryAlerts(rules, rs[..|rs| - 1]) + LastAlerts(rules, rs)
  }

  /** One breaching-state cell, fed with one device's readings. */
  function CellStep(rule: ThresholdRule, t: Reading, cell: Cell): Cell {
    if Breaching(rule, t) then Some(NextState(rule, t, cell)) else None
  }

  function CellAfter(rule: ThresholdRule, rs: seq<Reading>, d: string): Cell {
    if rs == [] then None
    else
      var cell := CellAfter(rule, rs[..|rs| - 1], d);
      var t := rs[|rs| - 1];
      if t.deviceId == d then CellStep(rule, t, cell) else cell
  }

  /** The cell holds the current run: empty without one, else its first timestamp and whether it was sustained. */
  ghost predicate CellMeans(rule: ThresholdRule, rs: seq<Reading>, d: string, cell: Cell) {
    match cell
    case None => forall s :: !InCurrentRun(rule, rs, d, s)
    case Some(state) =>
      exists s: nat :: RunStart(rule, rs, d, s)
        && state.breachStartMs == rs[s].timestampMs && (state.fired <==> SustainedSince(rule, rs, d, s))
  }

  lemma RunStartUnique(rule: ThresholdRule, rs: seq<Reading>, d: string, s: int, s': int)
    requires RunStart(rule, rs, d, s) && RunStart(rule, rs, d, s')
    ensures s == s'
  {
  }

  /** How the current run changes with one more reading. */
  lemma RunStep(rule: ThresholdRule, rs: seq<Reading>, t: Reading, d: string, s: int)
    ensures InCurrentRun(rule, rs + [t], d, s) <==>
              if t.deviceId != d then InCurrentRun(rule, rs, d, s)
              else Breaching(rule, t) && (s == |rs| || InCurrentRun(rule, rs, d, s))
  {
    var ext := rs + [t];
    if 0 <= s < |rs| && InCurrentRun(rule, ext, d, s) {
      forall k | s <= k < |rs| && rs[k].deviceId == d ensures Breaching(rule, rs[k]) {
        assert ext[k] == rs[k];
      }
    }
    if InCurrentRun(rule, ext, d, s) && t.deviceId == d {
      assert ext[|rs|] == t;
    }
  }

  lemma RunStartStep(rule: ThresholdRule, rs: seq<Reading>, t: Reading, d: string, s: nat)
    requires RunStart(rule, rs, d, s)
    requires t.deviceId == d ==> Breaching(rule, t)
    ensures RunStart(rule, rs + [t], d, s)
  {
    forall k: int ensures InCurrentRun(rule, rs + [t], d, k) <==>
        InCurrentRun(rule, rs, d, k) || (t.deviceId == d && k == |rs|) {
      RunStep(rule, rs, t, d, k);
    }
  }

  lemma SustainedSinceStep(rule: ThresholdRule, rs: seq<Reading>, t: Reading, d: string, s: nat)
    requires s < |rs|
    ensures SustainedSince(rule, rs + [t], d, s) <==>
              SustainedSince(rule, rs, d, s) || (t.deviceId == d && Sustained(rule, rs[s].timestampMs, t))
  {
    var ext := rs + [t];
    assert forall k | 0 <= k < |rs| :: ext[k] == rs[k];
    assert ext[|rs|] == t;
  }

  lemma CellMeansStep(rule: ThresholdRule, rs: seq<Reading>, t: Reading, d: string, cell: Cell)
    requires CellMeans(rule, rs, d, cell)
    ensures CellMeans(rule, rs + [t], d, if t.deviceId == d then CellStep(rule, t, cell) else cell)
    ensures t.deviceId == d ==> (Fires(rule, t, cell) <==> MustAlert(rule, rs + [t]))
  {
    var ext := rs + [t];
    assert ext[..|rs|] == rs;
    forall s: int ensures InCurrentRun(rule, ext, d, s) <==>
        if t.deviceId != d then InCurrentRun(rule, rs, d, s)
        else Breaching(rule, t) && (s == |rs| || InCurrentRun(rule, rs, d, s)) {
      RunStep(rule, rs, t, d, s);
    }
    if t.deviceId == d && !Breaching(rule, t) {
      assert !MustAlert(rule, ext);
    } else if cell.Some? {
      var s: nat :| RunStart(rule, rs, d, s)
        && cell.value.breachStartMs == rs[s].timestampMs && (cell.value.fired <==> SustainedSince(rule, rs, d, s));
      RunStartStep(rule, rs, t, d, s);
      SustainedSinceStep(rule, rs, t, d, s);
      assert ext[s] == rs[s];
      forall s': nat | RunStart(rule, ext, d, s') ensures s' == s {
        RunStartUnique(rule, ext, d, s, s');
      }
    } else if t.deviceId == d {
      var n := |rs|;
      assert RunStart(rule, ext, d, n);
      assert SustainedSince(rule, ext, d, n) <==> Sustained(rule, t.timestampMs, t);
      forall s': nat | RunStart(rule, ext, d, s') ensures s' == n {
        RunStartUnique(rule, ext, d, n, s');
      }
    }
  }

  /** The incremental cell means what the history says it should. */
  lemma {:induction false} CellMeaning(rule: ThresholdRule, rs: seq<Reading>, d: string)
    ensures CellMeans(rule, rs, d, CellAfter(rule, rs, d))
  {
    if rs != [] {
      var init := rs[..|rs| - 1];
      CellMeaning(rule, init, d);
      CellMeansStep(rule, init, rs[|rs| - 1], d, CellAfter(rule, init, d));
      assert init + [rs[|rs| - 1]] == rs;
    }
  }

  lemma FiresIffMustAlert(rule: ThresholdRule, rs: seq<Reading>, t: Reading)
    ensures Fires(rule, t, CellAfter(rule, rs, t.deviceId)) <==> MustAlert(rule, rs + [t])
  {
    CellMeaning(rule, rs, t.deviceId);
    CellMeansStep(rule, rs, t, t.deviceId, CellAfter(rule, rs, t.deviceId));
  }

  /** The store agrees with the history on every cell of the rules on these devices. */
  ghost predicate Tracks(rules: seq<ThresholdRule>, ds: set<string>, rs: seq<Reading>, store: Store) {
    forall rule, d | rule in rules && d in ds :: CellOf(store, rule.id, d) == CellAfter(rule, rs, d)
  }

  /** Midway through a reading: the first i rules have seen it, the others have not. */
  ghost predicate TracksMidway(rules: seq<ThresholdRule>, ds: set<string>, rs: seq<Reading>, t: Reading, i: nat, store: Store) {
    forall j: nat, d | j < |rules| && d in ds ::
      CellOf(store, rules[j].id, d) == CellAfter(rules[j], if j < i then rs + [t] else rs, d)
  }

  lemma KeysOfRules(rules: seq<ThresholdRule>, ds: set<string>, i: nat, d: string, j: nat, d': string)
    requires SafeOn(rules, ds) && i < |rules| && j < |rules| && d in ds && d' in ds
    ensures RuleKey(rules[i].id, d) == RuleKey(rules[j].id, d') <==> i == j && d == d'
  {
    hide RuleKey;
    if i == j {
      OneRuleKeysInjective(rules[i].id, d, d');
    }
  }

  lemma CellAfterSnoc(rule: ThresholdRule, rs: seq<Reading>, t: Reading, d: string)
    ensures CellAfter(rule, rs + [t], d) ==
            if t.deviceId == d then CellStep(rule, t, CellAfter(rule, rs, d)) else CellAfter(rule, rs, d)
  {
    assert (rs + [t])[..|rs|] == rs;
  }

  lemma TracksOneRule(rules: seq<ThresholdRule>, ds: set<string>, rs: seq<Reading>, t: Reading, i: nat, store: Store)
    requires SafeOn(rules, ds) && t.deviceId in ds && i < |rules| && TracksMidway(rules, ds, rs, t, i, store)
    ensures TracksMidway(rules, ds, rs, t, i + 1, After(Event(rules[i], t, Completed), store))
    ensures Alerts(Event(rules[i], t, Completed), store) <==> MustAlert(rules[i], rs + [t])
  {
    var e := Event(rules[i], t, Completed);
    assert CellAt(store, EventKey(e)) == CellAfter(rules[i], rs, t.deviceId) by {
      assert CellOf(store, rules[i].id, t.deviceId) == CellAfter(rules[i], rs, t.deviceId);
    }
    forall j: nat, d | j < |rules| && d in ds
      ensures CellOf(After(e, store), rules[j].id, d) ==
              CellAfter(rules[j], if j < i + 1 then rs + [t] else rs, d) {
      KeysOfRules(rules, ds, i, t.deviceId, j, d);
      CellAfterSnoc(rules[j], rs, t, d);
      assert CellOf(store, rules[j].id, d) == CellAfter(rules[j], if j < i then rs + [t] else rs, d);
      if j == i && d == t.deviceId {
        assert CellOf(After(e, store), rules[i].id, d) == CellStep(rules[i], t, CellOf(store, rules[i].id, d));
      } else {
        EventFrame(e, store, RuleKey(rules[j].id, d));
      }
    }
    FiresIffMustAlert(rules[i], rs, t);
  }

  lemma TracksStart(rules: seq<ThresholdRule>, ds: set<string>, rs: seq<Reading>, t: Reading, store: Store)
    requires Tracks(rules, ds, rs, store)
    ensures TracksMidway(rules, ds, rs, t, 0, store)
  {
    hide CellOf, CellAfter;
    forall j: nat, d | j < |rules| && d in ds ensures CellOf(store, rules[j].id, d) == CellAfter(rules[j], rs, d) {
      assert rules[j] in rules;
    }
  }

  /** The first i rules' evaluations of a reading raise exactly the alerts those rules must raise. */
  lemma {:induction false} ReadingTracks(rules: seq<ThresholdRule>, ds: set<string>, rs: seq<Reading>, t: Reading, i: nat, store: Store)
    requires SafeOn(rules, ds) && t.deviceId in ds && i <= |rules| && Tracks(rules, ds, rs, store)
    ensures TracksMidway(rules, ds, rs, t, i, RunStore(ReadingEvents(rules[..i], t), store))
    ensures RunAlerts(ReadingEvents(rules[..i], t), store) == LastAlerts(rules[..i], rs + [t])
  {
    hide SafeOn, MustAlert, After, CellOf, CellAfter, TracksMidway;
    if i == 0 {
      RunEmpty(store);
      TracksStart(rules, ds, rs, t, store);
    } else {
      ReadingTracks(rules, ds, rs, t, i - 1, store);
      ReadingEventsSnoc(rules, i - 1, t);
      RunSnoc(ReadingEvents(rules[..i - 1], t), Event(rules[i - 1], t, Completed), store);
      TracksOneRule(rules, ds, rs, t, i - 1, RunStore(ReadingEvents(rules[..i - 1], t), store));
      assert rules[..i][..i - 1] == rules[..i - 1];
    }
  }

  /** A whole stream: the cells follow the history, and the alerts are the ones the history demands. */
  lemma {:induction false} StreamTracks(rules: seq<ThresholdRule>, ds: set<string>, rs: seq<Reading>, store: Store)
    requires SafeOn(rules, ds) && DevicesOf(rs) <= ds && Tracks(rules, ds, [], store)
    ensures Tracks(rules, ds, rs, RunStore(StreamEvents(rules, rs), store))
    ensures RunAlerts(StreamEvents(rules, rs), store) == HistoryAlerts(rules, rs)
  {
    hide MustAlert, After, AlertsOf, CellStep, LastAlerts, SafeOn;
    if rs != [] {
      var init, t := rs[..|rs| - 1], rs[|rs| - 1];
      assert rs[|rs| - 1].deviceId in DevicesOf(rs);
      StreamTracks(rules, ds, init, store);
      var mid := RunStore(StreamEvents(rules, init), store);
      RunAppend(StreamEvents(rules, init), ReadingEvents(rules, t), store);
      ReadingTracks(rules, ds, init, t, |rules|, mid);
      assert rules[..|rules|] == rules && init + [t] == rs;
      forall rule, d | rule in rules && d in ds
        ensures CellOf(RunStore(StreamEvents(rules, rs), store), rule.id, d) == CellAfter(rule, rs, d) {
        var j :| 0 <= j < |rules| && rules[j] == rule;
      }
    }
  }

  lemma EmptyTracks(rules: seq<ThresholdRule>, ds: set<string>, store: Store)
    requires forall key | IsRuleKey(key) :: key !in store
    ensures Tracks(rules, ds, [], store)
  {
    forall rule, d | rule in rules && d in ds ensures CellOf(store, rule.id, d) == None {
      KeySpacesDisjoint(rule.id, d, d, d);
    }
  }

  /**
   Exact episode semantics: from a store without breach states, when no two rules share a key on the
   stream's devices, the evaluation publishes exactly the alerts the history demands, in order,
   whatever the timestamps.
   */
  lemma EpisodeSemantics(rules: seq<ThresholdRule>, rs: seq<Reading>, store: Store)
    requires SafeOn(rules, DevicesOf(rs))
    requires forall key | IsRuleKey(key) :: key !in store
    ensures RunAlerts(StreamEvents(rules, rs), store) == HistoryAlerts(rules, rs)
  {
    EmptyTracks(rules, DevicesOf(rs), store);
    StreamTracks(rules, DevicesOf(rs), rs, store);
  }

  /** A run that reaches from i to j has one start, seen from either end. */
  lemma RunShared(rule: ThresholdRule, rs: seq<Reading>, i: nat, j: nat, s: int)
    requires i < j < |rs| && rs[i].deviceId == rs[j].deviceId && s <= i
    requires forall k | i <= k <= j && rs[k].deviceId == rs[i].deviceId :: Breaching(rule, rs[k])
    ensures InCurrentRun(rule, rs[..i + 1], rs[i].deviceId, s) <==> InCurrentRun(rule, rs[..j + 1], rs[i].deviceId, s)
  {
    var a, b := rs[..i + 1], rs[..j + 1];
    assert forall k | 0 <= k <= i :: a[k] == rs[k];
    assert forall k | 0 <= k <= j :: b[k] == rs[k];
  }

  /** A run sustained by reading i is sustained for every later one. */
  lemma SustainedLater(rule: ThresholdRule, rs: seq<Reading>, i: nat, j: nat, s: nat)
    requires s <= i < j < |rs| && Sustained(rule, rs[s].timestampMs, rs[i])
    ensures SustainedSince(rule, rs[..j], rs[i].deviceId, s)
  {
    assert rs[..j][i] == rs[i] && rs[..j][s] == rs[s];
  }

  /** The start of the run at i is the one start there is at j. */
  lemma SameStart(rule: ThresholdRule, rs: seq<Reading>, i: nat, j: nat, s: nat, s': nat)
    requires i < j < |rs| && rs[i].deviceId == rs[j].deviceId
    requires forall k | i <= k <= j && rs[k].deviceId == rs[i].deviceId :: Breaching(rule, rs[k])
    requires RunStart(rule, rs[..i + 1], rs[i].deviceId, s) && RunStart(rule, rs[..j + 1], rs[i].deviceId, s')
    ensures s' == s
  {
    hide Breaching;
    var a, b, d := rs[..i + 1], rs[..j + 1], rs[i].deviceId;
    forall k | k <= i ensures InCurrentRun(rule, a, d, k) <==> InCurrentRun(rule, b, d, k) {
      RunShared(rule, rs, i, j, k);
    }
    RunStartUnique(rule, b, d, s, s');
  }

  /** Two readings of one device with no recovery between them cannot both demand an alert. */
  lemma AtMostOncePerRun(rule: ThresholdRule, rs: seq<Reading>, i: nat, j: nat)
    requires i < j < |rs| && rs[i].deviceId == rs[j].deviceId
    requires forall k | i <= k <= j && rs[k].deviceId == rs[i].deviceId :: Breaching(rule, rs[k])
    ensures !(MustAlert(rule, rs[..i + 1]) && MustAlert(rule, rs[..j + 1]))
  {
    hide Sustained, SustainedSince, Breaching;
    if MustAlert(rule, rs[..i + 1]) && MustAlert(rule, rs[..j + 1]) {
      var d := rs[i].deviceId;
      assert rs[..j + 1][..j] == rs[..j];
      var s: nat :| RunStart(rule, rs[..i + 1], d, s) && Sustained(rule, rs[..i + 1][s].timestampMs, rs[..i + 1][i]);
      var s': nat :| RunStart(rule, rs[..j + 1], d, s') && !SustainedSince(rule, rs[..j + 1][..j], d, s');
      SameStart(rule, rs, i, j, s, s');
      SustainedLater(rule, rs, i, j, s);
    }
  }

  /** More readings only add alerts at the end. */
  lemma {:induction false} HistoryAlertsPrefix(rules: seq<ThresholdRule>, rs: seq<Reading>, more: seq<Reading>)
    ensures HistoryAlerts(rules, rs) <= HistoryAlerts(rules, rs + more)
  {
    if more == [] {
      assert rs + more == rs;
    } else {
      HistoryAlertsPrefix(rules, rs, more[..|more| - 1]);
      assert (rs + more)[..|rs + more| - 1] == rs + more[..|more| - 1];
    }
  }
}
