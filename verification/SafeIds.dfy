/**
 Which rule ids make the episode semantics hold. The schema accepts any non-empty ids; the alerts are
 the history's for all accepted rules under these ids and all streams of admissible readings exactly
 when no two ids can share a key on admissible devices.
 */
module SafeIds {
  import opened Options
  import opened Readings
  import opened StoreKeys
  import opened RuleSchema
  import opened KeyValueStore
  import opened Evaluation
  import opened Episodes
  import opened StoreFailures

  function Ids(rules: seq<ThresholdRule>): seq<string> {
    seq(|rules|, i requires 0 <= i < |rules| => rules[i].id)
  }

  predicate ApartIds(ids: seq<string>) {
    forall i, j | 0 <= i < j < |ids| :: Apart(ids[i], ids[j])
  }

  predicate Accepted(rules: seq<ThresholdRule>) {
    forall i | 0 <= i < |rules| :: RuleSchema.MeetsSchema(rules[i])
  }

  predicate Admitted(rs: seq<Reading>) {
    forall k | 0 <= k < |rs| :: Admissible(rs[k])
  }

  /** Whatever the accepted rules under these ids and whatever the admitted stream, the alerts are the history's. */
  ghost predicate AlwaysExact(ids: seq<string>) {
    forall rules: seq<ThresholdRule>, rs: seq<Reading> | Ids(rules) == ids && Accepted(rules) && Admitted(rs) ::
      RunAlerts(StreamEvents(rules, rs), map[]) == HistoryAlerts(rules, rs)
  }

  /** Under such ids no two rules share a key on the devices of any admitted stream. */
  lemma ApartIdsSafe(rules: seq<ThresholdRule>, rs: seq<Reading>)
    requires ApartIds(Ids(rules)) && Admitted(rs)
    ensures SafeOn(rules, DevicesOf(rs))
  {
    hide Apart, RuleKey, AdmissibleId;
    assert forall k | 0 <= k < |rules| :: Ids(rules)[k] == rules[k].id;
    forall i, j, d, d' | 0 <= i < j < |rules| && d in DevicesOf(rs) && d' in DevicesOf(rs)
      ensures RuleKey(rules[i].id, d) != RuleKey(rules[j].id, d') {
      assert Apart(Ids(rules)[i], Ids(rules)[j]);
      ApartKeysDiffer(rules[i].id, d, rules[j].id, d');
    }
  }

  /** A rule that breaches on every positive temperature, and alerts at once. */
  function HotRule(id: string): ThresholdRule {
    ThresholdRule(id, Temp, Gt, Some(0.0), None, None, 0, Warning, "hot")
  }

  function HotRules(ids: seq<string>): (rules: seq<ThresholdRule>)
    ensures |rules| == |ids| && forall i | 0 <= i < |ids| :: rules[i] == HotRule(ids[i])
    ensures Ids(rules) == ids
  {
    seq(|ids|, i requires 0 <= i < |ids| => HotRule(ids[i]))
  }

  function HotReading(d: string): Reading {
    Reading(d, 0, 1.0, 50.0, 50.0, 0.0, 0.0)
  }

  predicate AllHot(rules: seq<ThresholdRule>) {
    forall i | 0 <= i < |rules| :: rules[i] == HotRule(rules[i].id)
  }

  /** The first hot reading of a device demands an alert of every hot rule. */
  lemma {:induction false} EveryRuleMustAlert(rules: seq<ThresholdRule>, rs: seq<Reading>, d: string)
    requires AllHot(rules) && forall k | 0 <= k < |rs| :: rs[k].deviceId != d
    ensures |LastAlerts(rules, rs + [HotReading(d)])| == |rules|
  {
    if rules != [] {
      var rule := rules[|rules| - 1];
      EveryRuleMustAlert(rules[..|rules| - 1], rs, d);
      NeverSeen(rule, rs, d);
      FiresIffMustAlert(rule, rs, HotReading(d));
    }
  }

  lemma {:induction false} NeverSeen(rule: ThresholdRule, rs: seq<Reading>, d: string)
    requires forall k | 0 <= k < |rs| :: rs[k].deviceId != d
    ensures CellAfter(rule, rs, d) == None
  {
    if rs != [] {
      NeverSeen(rule, rs[..|rs| - 1], d);
    }
  }

  function Touches(es: seq<Event>, key: string): nat {
    if es == [] then 0 else Touches(es[..|es| - 1], key) + if EventKey(es[|es| - 1]) == key then 1 else 0
  }

  /** Every evaluation alerts at most once, and those of one key are counted. */
  lemma {:induction false} AlertsAtMostEvents(es: seq<Event>, key: string, store: Store)
    ensures |RunAlerts(es, store)| + Touches(es, key) <= |es| + AlertCount(es, key, store)
  {
    hide Alerts, RunStore;
    if es != [] {
      AlertsAtMostEvents(es[..|es| - 1], key, store);
    }
  }

  lemma {:induction false} NoLostWrites(es: seq<Event>, key: string, store: Store)
    requires forall i | 0 <= i < |es| :: es[i].outcome.Completed?
    ensures LostAfterFire(es, key, store) == 0
  {
    if es != [] {
      NoLostWrites(es[..|es| - 1], key, store);
    }
  }

  lemma {:induction false} TouchesTwice(es: seq<Event>, key: string, p: nat, q: nat)
    requires p < q < |es| && EventKey(es[p]) == key && EventKey(es[q]) == key
    ensures Touches(es, key) >= 2
  {
    var n := |es| - 1;
    if q < n {
      TouchesTwice(es[..n], key, p, q);
    } else {
      TouchesOnce(es[..n], key, p);
    }
  }

  lemma {:induction false} TouchesOnce(es: seq<Event>, key: string, p: nat)
    requires p < |es| && EventKey(es[p]) == key
    ensures Touches(es, key) >= 1
  {
    if p < |es| - 1 {
      TouchesOnce(es[..|es| - 1], key, p);
    }
  }

  /** Two breaching evaluations on one key cannot both alert, so some evaluation goes without. */
  lemma SharedKeyLosesAlert(es: seq<Event>, p: nat, q: nat)
    requires p < q < |es| && EventKey(es[p]) == EventKey(es[q])
    requires forall i | 0 <= i < |es| :: es[i].outcome.Completed? && Breaching(es[i].rule, es[i].reading)
    ensures |RunAlerts(es, map[])| < |es|
  {
    hide Breaching, RunAlerts, AlertCount, LostAfterFire, FailedWrites;
    var key := EventKey(es[p]);
    TouchesTwice(es, key, p, q);
    NoLostWrites(es, key, map[]);
    EpisodeBound(es, key, map[]);
    AlertsAtMostEvents(es, key, map[]);
  }

  /** The first readings of two devices, or of one, under hot rules. */
  lemma HotHistory(rules: seq<ThresholdRule>, d: string, d': string)
    requires AllHot(rules)
    ensures |HistoryAlerts(rules, [HotReading(d)])| == |StreamEvents(rules, [HotReading(d)])|
    ensures StreamEvents(rules, [HotReading(d)]) == ReadingEvents(rules, HotReading(d))
    ensures d != d' ==>
              var rs := [HotReading(d), HotReading(d')];
              && |HistoryAlerts(rules, rs)| == |StreamEvents(rules, rs)|
              && StreamEvents(rules, rs) == ReadingEvents(rules, HotReading(d)) + ReadingEvents(rules, HotReading(d'))
  {
    hide LastAlerts, MustAlert, AllHot;
    var one := [HotReading(d)];
    EveryRuleMustAlert(rules, [], d);
    assert [] + one == one && one[..0] == [];
    assert StreamEvents(rules, one) == StreamEvents(rules, one[..0]) + ReadingEvents(rules, HotReading(d));
    assert HistoryAlerts(rules, one) == HistoryAlerts(rules, one[..0]) + LastAlerts(rules, one);
    if d != d' {
      var two := [HotReading(d), HotReading(d')];
      EveryRuleMustAlert(rules, one, d');
      assert one + [HotReading(d')] == two && two[..1] == one;
    }
  }

  lemma HotEvents(ids: seq<string>, d: string)
    ensures AllHot(HotRules(ids))
    ensures var es := ReadingEvents(HotRules(ids), HotReading(d));
            |es| == |ids| && forall i | 0 <= i < |es| ::
              es[i].outcome.Completed? && Breaching(es[i].rule, es[i].reading) && EventKey(es[i]) == RuleKey(ids[i], d)
  {
  }

  lemma HotIsAccepted(ids: seq<string>, d: string)
    requires "" !in ids && AdmissibleId(d)
    ensures Accepted(HotRules(ids)) && Admissible(HotReading(d))
  {
  }

  /** Rules whose ids can share a key fail on some stream of one reading or two. */
  lemma UnsafeIdsFail(ids: seq<string>, i: nat, j: nat) returns (rules: seq<ThresholdRule>, rs: seq<Reading>)
    requires i < j < |ids| && "" !in ids && !Apart(ids[i], ids[j])
    ensures Ids(rules) == ids && Accepted(rules) && Admitted(rs)
    ensures |RunAlerts(StreamEvents(rules, rs), map[])| < |HistoryAlerts(rules, rs)|
  {
    hide HistoryAlerts, RunAlerts, StreamEvents, Apart, HotRules, HotReading, AllHot, Breaching, RuleKey, ReadingEvents,
         EventKey, Accepted, Admissible;
    rules := HotRules(ids);
    var d, d' := AdmissibleCollision(ids[i], ids[j]);
    HotIsAccepted(ids, d);
    HotIsAccepted(ids, d');
    HotEvents(ids, d);
    HotEvents(ids, d');
    HotHistory(rules, d, d');
    var first, second := ReadingEvents(rules, HotReading(d)), ReadingEvents(rules, HotReading(d'));
    if d == d' {
      rs := [HotReading(d)];
      SharedKeyLosesAlert(first, i, j);
    } else {
      rs := [HotReading(d), HotReading(d')];
      SharedKeyLosesAlert(first + second, i, |ids| + j);
    }
  }

  /** The exact condition on the configured ids, which the schema makes non-empty. */
  lemma ExactlySafeIds(ids: seq<string>)
    requires "" !in ids
    ensures AlwaysExact(ids) <==> ApartIds(ids)
  {
    hide HistoryAlerts, RunAlerts, Apart, StreamEvents, Accepted, Admitted, SafeOn;
    if ApartIds(ids) {
      forall rules: seq<ThresholdRule>, rs: seq<Reading> | Ids(rules) == ids && Accepted(rules) && Admitted(rs)
        ensures RunAlerts(StreamEvents(rules, rs), map[]) == HistoryAlerts(rules, rs) {
        ApartIdsSafe(rules, rs);
        EpisodeSemantics(rules, rs, map[]);
      }
    } else {
      var i, j :| 0 <= i < j < |ids| && !Apart(ids[i], ids[j]);
      var rules, rs := UnsafeIdsFail(ids, i, j);
      assert RunAlerts(StreamEvents(rules, rs), map[]) != HistoryAlerts(rules, rs);
    }
  }
}
