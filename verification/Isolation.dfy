/**
 Non-interference: seen from one (rule, device) pair, a run over the shared store is a run of that
 rule alone over that device's readings, so the interleaving of devices cannot be observed.
 */
module Isolation {
  import opened Options
  import opened Readings
  import opened StoreKeys
  import opened RuleSchema
  import opened KeyValueStore
  import opened Evaluation
  import opened Episodes

  /** One rule with a cell of its own, fed with the readings of one device. */
  function IsolatedCell(rule: ThresholdRule, rs: seq<Reading>): Cell {
    if rs == [] then None else CellStep(rule, rs[|rs| - 1], IsolatedCell(rule, rs[..|rs| - 1]))
  }

  function IsolatedAlerts(rule: ThresholdRule, rs: seq<Reading>): seq<Alert> {
    if rs == [] then []
    else
      var init, t := rs[..|rs| - 1], rs[|rs| - 1];
      IsolatedAlerts(rule, init) + if Fires(rule, t, IsolatedCell(rule, init)) then [AlertFor(rule, t)] else []
  }

  /** The alerts of one (rule, device) pair, in order. */
  function AlertsFor(alerts: seq<Alert>, ruleId: string, d: string): seq<Alert> {
    if alerts == [] then []
    else
      var init, last := alerts[..|alerts| - 1], alerts[|alerts| - 1];
      AlertsFor(init, ruleId, d) + if last.ruleId == ruleId && last.deviceId == d then [last] else []
  }

  lemma {:induction false} AlertsForAppend(a: seq<Alert>, b: seq<Alert>, ruleId: string, d: string)
    ensures AlertsFor(a + b, ruleId, d) == AlertsFor(a, ruleId, d) + AlertsFor(b, ruleId, d)
  {
    if b == [] {
      assert a + b == a;
    } else {
      AlertsForAppend(a, b[..|b| - 1], ruleId, d);
      assert (a + b)[..|a + b| - 1] == a + b[..|b| - 1];
    }
  }

  lemma OfDeviceSnoc(rs: seq<Reading>, t: Reading, d: string)
    ensures OfDevice(rs + [t], d) == if t.deviceId == d then OfDevice(rs, d) + [t] else OfDevice(rs, d)
  {
    assert (rs + [t])[..|rs|] == rs;
  }

  lemma {:induction false} CellIsolated(rule: ThresholdRule, rs: seq<Reading>, d: string)
    ensures CellAfter(rule, rs, d) == IsolatedCell(rule, OfDevice(rs, d))
  {
    hide CellStep;
    if rs != [] {
      var init, t := rs[..|rs| - 1], rs[|rs| - 1];
      CellIsolated(rule, init, d);
      if t.deviceId == d {
        assert (OfDevice(init, d) + [t])[..|OfDevice(init, d)|] == OfDevice(init, d);
      }
    }
  }

  lemma IdsDistinct(rules: seq<ThresholdRule>, d: string, i: nat, j: nat)
    requires SafeOn(rules, {d}) && i < |rules| && j < |rules|
    ensures rules[i].id == rules[j].id <==> i == j
  {
    hide RuleKey;
    if i < j {
      assert RuleKey(rules[i].id, d) != RuleKey(rules[j].id, d);
    } else if j < i {
      assert RuleKey(rules[j].id, d) != RuleKey(rules[i].id, d);
    }
  }

  lemma AlertsForOne(alerts: seq<Alert>, b: bool, a: Alert, ruleId: string, d: string)
    ensures AlertsFor(alerts + if b then [a] else [], ruleId, d) ==
            AlertsFor(alerts, ruleId, d) + if b && a.ruleId == ruleId && a.deviceId == d then [a] else []
  {
    if b {
      assert (alerts + [a])[..|alerts|] == alerts;
    } else {
      assert alerts + [] == alerts;
    }
  }

  /** Of the alerts one reading must raise, a pair sees at most its own. */
  lemma {:induction false} LastAlertsFor(rules: seq<ThresholdRule>, rs: seq<Reading>, i: nat, j: nat, d: string)
    requires rs != [] && SafeOn(rules, {rs[|rs| - 1].deviceId}) && i <= |rules| && j < |rules|
    ensures AlertsFor(LastAlerts(rules[..i], rs), rules[j].id, d) ==
            if j < i && rs[|rs| - 1].deviceId == d && MustAlert(rules[j], rs)
            then [AlertFor(rules[j], rs[|rs| - 1])] else []
  {
    hide MustAlert, SafeOn, AlertsFor, EvaluateRule;
    if i == 0 {
      EmptyProjection(rules[j], d);
    } else {
      LastAlertsFor(rules, rs, i - 1, j, d);
      assert rules[..i][..i - 1] == rules[..i - 1];
      AlertsForOne(LastAlerts(rules[..i - 1], rs), MustAlert(rules[i - 1], rs),
                   AlertFor(rules[i - 1], rs[|rs| - 1]), rules[j].id, d);
      IdsDistinct(rules, rs[|rs| - 1].deviceId, i - 1, j);
    }
  }

  lemma IsolatedSnoc(rule: ThresholdRule, rs: seq<Reading>, t: Reading)
    ensures IsolatedAlerts(rule, OfDevice(rs, t.deviceId) + [t]) ==
            IsolatedAlerts(rule, OfDevice(rs, t.deviceId)) + if MustAlert(rule, rs + [t]) then [AlertFor(rule, t)] else []
  {
    var own := OfDevice(rs, t.deviceId);
    assert (own + [t])[..|own|] == own;
    CellIsolated(rule, rs, t.deviceId);
    FiresIffMustAlert(rule, rs, t);
  }

  lemma SafeOnFewer(rules: seq<ThresholdRule>, ds: set<string>, fewer: set<string>)
    requires SafeOn(rules, ds) && fewer <= ds
    ensures SafeOn(rules, fewer)
  {
    hide RuleKey;
  }

  /** The history's alerts for one pair are those of the rule alone on the device's own readings. */
  lemma {:induction false} HistoryProjection(rules: seq<ThresholdRule>, rs: seq<Reading>, j: nat, d: string)
    requires SafeOn(rules, DevicesOf(rs)) && j < |rules|
    ensures AlertsFor(HistoryAlerts(rules, rs), rules[j].id, d) == IsolatedAlerts(rules[j], OfDevice(rs, d))
  {
    hide MustAlert, LastAlerts, IsolatedAlerts, AlertsFor, SafeOn;
    if rs != [] {
      var init, t := rs[..|rs| - 1], rs[|rs| - 1];
      SafeOnFewer(rules, DevicesOf(rs), DevicesOf(init));
      assert rs[|rs| - 1].deviceId in DevicesOf(rs);
      SafeOnFewer(rules, DevicesOf(rs), {t.deviceId});
      HistoryProjection(rules, init, j, d);
      assert init + [t] == rs && rules[..|rules|] == rules;
      AlertsForAppend(HistoryAlerts(rules, init), LastAlerts(rules, rs), rules[j].id, d);
      LastAlertsFor(rules, rs, |rules|, j, d);
      OfDeviceSnoc(init, t, d);
      if t.deviceId == d {
        IsolatedSnoc(rules[j], init, t);
      }
    } else {
      EmptyProjection(rules[j], d);
    }
  }

  lemma EmptyProjection(rule: ThresholdRule, d: string)
    ensures AlertsFor([], rule.id, d) == [] == IsolatedAlerts(rule, [])
  {
  }

  /** The run over the shared store, seen by one pair. */
  lemma Projection(rules: seq<ThresholdRule>, rs: seq<Reading>, store: Store, j: nat, d: string)
    requires SafeOn(rules, DevicesOf(rs) + {d}) && j < |rules|
    requires forall key | IsRuleKey(key) :: key !in store
    ensures CellOf(RunStore(StreamEvents(rules, rs), store), rules[j].id, d) ==
            IsolatedCell(rules[j], OfDevice(rs, d))
    ensures AlertsFor(RunAlerts(StreamEvents(rules, rs), store), rules[j].id, d) ==
            IsolatedAlerts(rules[j], OfDevice(rs, d))
  {
    hide *;
    var ds := DevicesOf(rs) + {d};
    EmptyTracks(rules, ds, store);
    StreamTracks(rules, ds, rs, store);
    TracksAt(rules, ds, rs, RunStore(StreamEvents(rules, rs), store), j, d);
    SafeOnFewer(rules, ds, DevicesOf(rs));
    CellIsolated(rules[j], rs, d);
    HistoryProjection(rules, rs, j, d);
  }

  lemma TracksAt(rules: seq<ThresholdRule>, ds: set<string>, rs: seq<Reading>, store: Store, j: nat, d: string)
    requires Tracks(rules, ds, rs, store) && j < |rules| && d in ds
    ensures CellOf(store, rules[j].id, d) == CellAfter(rules[j], rs, d)
  {
    assert rules[j] in rules;
  }

  /** Every entry under a rule key is a breach state. */
  predicate WellTyped(store: Store) {
    forall key | key in store && IsRuleKey(key) :: store[key].Breach?
  }

  predicate IsKeyOf(rules: seq<ThresholdRule>, key: string, d: string, j: nat) {
    j < |rules| && key == RuleKey(rules[j].id, d)
  }

  /** Evaluations keep breach states under rule keys, and touch no key that is not one of theirs. */
  lemma {:induction false} RunFrame(es: seq<Event>, store: Store)
    requires WellTyped(store)
    ensures WellTyped(RunStore(es, store))
    ensures forall key | (forall i | 0 <= i < |es| :: EventKey(es[i]) != key) ::
              Lookup(RunStore(es, store), key) == Lookup(store, key)
  {
    if es != [] {
      var init, e := es[..|es| - 1], es[|es| - 1];
      RunFrame(init, store);
      KeySpacesDisjoint(e.rule.id, e.reading.deviceId, "", "");
      forall key | (forall i | 0 <= i < |es| :: EventKey(es[i]) != key)
        ensures Lookup(RunStore(es, store), key) == Lookup(store, key) {
        assert forall i | 0 <= i < |init| :: EventKey(init[i]) != key by {
          assert forall i | 0 <= i < |init| :: init[i] == es[i];
        }
        assert EventKey(es[|es| - 1]) != key;
      }
    }
  }

  lemma {:induction false} StreamKeys(rules: seq<ThresholdRule>, rs: seq<Reading>, i: nat)
    requires i < |StreamEvents(rules, rs)|
    ensures StreamEvents(rules, rs)[i].rule in rules && StreamEvents(rules, rs)[i].reading.deviceId in DevicesOf(rs)
  {
    if rs != [] {
      var init := StreamEvents(rules, rs[..|rs| - 1]);
      if i < |init| {
        StreamKeys(rules, rs[..|rs| - 1], i);
      } else {
        assert rs[|rs| - 1].deviceId in DevicesOf(rs);
      }
    }
  }

  lemma {:induction false} DevicesByStream(rs: seq<Reading>, d: string)
    ensures d in DevicesOf(rs) <==> OfDevice(rs, d) != []
  {
    if rs != [] {
      DevicesByStream(rs[..|rs| - 1], d);
      assert rs[|rs| - 1].deviceId in DevicesOf(rs);
      assert d in DevicesOf(rs) <==> d in DevicesOf(rs[..|rs| - 1]) || d == rs[|rs| - 1].deviceId by {
        if k :| 0 <= k < |rs| - 1 && rs[k].deviceId == d {
          assert rs[..|rs| - 1][k].deviceId == d;
        }
      }
    }
  }

  lemma SameDevices(rs: seq<Reading>, rs': seq<Reading>)
    requires forall d :: OfDevice(rs, d) == OfDevice(rs', d)
    ensures DevicesOf(rs) == DevicesOf(rs')
  {
    hide OfDevice, DevicesOf;
    forall d ensures d in DevicesOf(rs) <==> d in DevicesOf(rs') {
      DevicesByStream(rs, d);
      DevicesByStream(rs', d);
    }
  }

  /** Two arrival orders that agree device by device leave the same store. */
  lemma SameStore(rules: seq<ThresholdRule>, rs: seq<Reading>, rs': seq<Reading>, store: Store, key: string)
    requires SafeOn(rules, DevicesOf(rs)) && DevicesOf(rs') == DevicesOf(rs)
    requires forall key | IsRuleKey(key) :: key !in store
    requires forall d :: OfDevice(rs, d) == OfDevice(rs', d)
    ensures Lookup(RunStore(StreamEvents(rules, rs), store), key) ==
            Lookup(RunStore(StreamEvents(rules, rs'), store), key)
  {
    hide RunStore, StreamEvents, IsolatedAlerts, IsolatedCell, OfDevice, AlertsFor, RunAlerts, SafeOn, DevicesOf;
    var es, es' := StreamEvents(rules, rs), StreamEvents(rules, rs');
    RunFrame(es, store);
    RunFrame(es', store);
    if d, j: nat :| d in DevicesOf(rs) && IsKeyOf(rules, key, d, j) {
      assert DevicesOf(rs) + {d} == DevicesOf(rs);
      Projection(rules, rs, store, j, d);
      Projection(rules, rs', store, j, d);
      KeySpacesDisjoint(rules[j].id, d, "", "");
    } else {
      forall i | 0 <= i < |es| ensures EventKey(es[i]) != key {
        StreamKeys(rules, rs, i);
        var j: nat :| j < |rules| && rules[j] == es[i].rule;
        assert !IsKeyOf(rules, key, es[i].reading.deviceId, j);
      }
      forall i | 0 <= i < |es'| ensures EventKey(es'[i]) != key {
        StreamKeys(rules, rs', i);
        var j: nat :| j < |rules| && rules[j] == es'[i].rule;
        assert !IsKeyOf(rules, key, es'[i].reading.deviceId, j);
      }
    }
  }

  /** Interleaving devices differently changes neither the final store nor any pair's alerts. */
  lemma InterleavingIrrelevant(rules: seq<ThresholdRule>, rs: seq<Reading>, rs': seq<Reading>, store: Store)
    requires SafeOn(rules, DevicesOf(rs))
    requires forall key | IsRuleKey(key) :: key !in store
    requires forall d :: OfDevice(rs, d) == OfDevice(rs', d)
    ensures RunStore(StreamEvents(rules, rs), store) == RunStore(StreamEvents(rules, rs'), store)
    ensures forall j: nat, d | j < |rules| ::
              AlertsFor(RunAlerts(StreamEvents(rules, rs), store), rules[j].id, d) ==
              AlertsFor(RunAlerts(StreamEvents(rules, rs'), store), rules[j].id, d)
  {
    hide RunStore, StreamEvents, IsolatedAlerts, IsolatedCell, OfDevice, AlertsFor, RunAlerts, SafeOn, DevicesOf, HistoryAlerts;
    SameDevices(rs, rs');
    EpisodeSemantics(rules, rs, store);
    EpisodeSemantics(rules, rs', store);
    var end, end' := RunStore(StreamEvents(rules, rs), store), RunStore(StreamEvents(rules, rs'), store);
    forall key ensures Lookup(end, key) == Lookup(end', key) {
      SameStore(rules, rs, rs', store, key);
    }
    SameLookups(end, end');
    forall j: nat, d | j < |rules|
      ensures AlertsFor(RunAlerts(StreamEvents(rules, rs), store), rules[j].id, d) ==
              AlertsFor(RunAlerts(StreamEvents(rules, rs'), store), rules[j].id, d) {
      HistoryProjection(rules, rs, j, d);
      HistoryProjection(rules, rs', j, d);
    }
  }

  lemma SameLookups(a: Store, b: Store)
    requires forall key :: Lookup(a, key) == Lookup(b, key)
    ensures a == b
  {
    assert forall key :: key in a <==> key in b by {
      forall key ensures key in a <==> key in b {
        assert Lookup(a, key) == Lookup(b, key);
      }
    }
    forall key | key in a ensures a[key] == b[key] {
      assert Lookup(a, key) == Lookup(b, key);
    }
  }

  /** Without separated ids the history no longer decides: the second of two rules with one id never alerts. */
  lemma DuplicateIdsSuppressAlerts(t: Reading)
    ensures var rule := ThresholdRule("hot", Temp, Gt, Some(t.temp - 1.0), None, None, 0, Warning, "hot");
            && !SafeOn([rule, rule], {t.deviceId})
            && HistoryAlerts([rule, rule], [t]) == [AlertFor(rule, t), AlertFor(rule, t)]
            && RunAlerts(StreamEvents([rule, rule], [t]), map[]) == [AlertFor(rule, t)]
  {
    var rule := ThresholdRule("hot", Temp, Gt, Some(t.temp - 1.0), None, None, 0, Warning, "hot");
    var rules := [rule, rule];
    assert RuleKey(rules[0].id, t.deviceId) == RuleKey(rules[1].id, t.deviceId);
    assert MustAlert(rule, [t]) by {
      FiresIffMustAlert(rule, [], t);
      assert [] + [t] == [t];
    }
    assert rules[..1] == [rule];
    assert LastAlerts([rule], [t]) == [AlertFor(rule, t)];
    assert HistoryAlerts(rules, [t]) == LastAlerts(rules, [t]);
    var e := Event(rule, t, Completed);
    assert StreamEvents(rules, [t]) == [e, e] by {
      assert StreamEvents(rules, [t][..0]) == [];
      assert ReadingEvents(rules, t) == [e, e];
    }
    RunSnoc([], e, map[]);
    RunSnoc([e], e, map[]);
    assert [] + [e] == [e] && [e] + [e] == [e, e];
  }
}
