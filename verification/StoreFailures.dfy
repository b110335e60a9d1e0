/**
 Alerts under a failing store. Every read, write and deletion may fail, and a failed write may
 have taken effect; the evaluation publishes before it writes, so a lost write lets an alert repeat.
 */
module StoreFailures {
  import opened StoreKeys
  import opened RuleSchema
  import opened KeyValueStore
  import opened Evaluation
  import opened Isolation

  /** How many of the evaluations alert on one cell. */
  function AlertCount(es: seq<Event>, key: string, store: Store): nat {
    if es == [] then 0
    else
      var init, e := es[..|es| - 1], es[|es| - 1];
      AlertCount(init, key, store) + if EventKey(e) == key && Alerts(e, RunStore(init, store)) then 1 else 0
  }

  /** How many of them alert and then lose the write that would have recorded it. */
  function LostAfterFire(es: seq<Event>, key: string, store: Store): nat {
    if es == [] then 0
    else
      var init, e := es[..|es| - 1], es[|es| - 1];
      LostAfterFire(init, key, store)
      + if EventKey(e) == key && Alerts(e, RunStore(init, store)) && !WriteApplied(e) then 1 else 0
  }

  function FailedWrites(es: seq<Event>, key: string): nat {
    if es == [] then 0
    else
      var init, e := es[..|es| - 1], es[|es| - 1];
      FailedWrites(init, key) + if EventKey(e) == key && e.outcome.WriteFailed? then 1 else 0
  }

  predicate Deletes(e: Event, key: string) {
    EventKey(e) == key && !Breaching(e.rule, e.reading) && WriteApplied(e)
  }

  predicate HasFired(store: Store, key: string) {
    CellAt(store, key).Some? && CellAt(store, key).value.fired
  }

  lemma FiredStep(e: Event, key: string, store: Store)
    requires !Deletes(e, key)
    ensures HasFired(After(e, store), key) <==>
              HasFired(store, key) || (EventKey(e) == key && Alerts(e, store) && WriteApplied(e))
    ensures HasFired(store, key) && EventKey(e) == key ==> !Alerts(e, store)
  {
  }

  /**
   While a breach key is not deleted, its alerts are the ones whose write was lost, plus exactly one
   if the recorded state went from not fired to fired: for every pattern of failures.
   */
  lemma {:induction false} EpisodeCount(es: seq<Event>, key: string, store: Store)
    requires forall i | 0 <= i < |es| :: !Deletes(es[i], key)
    ensures HasFired(store, key) ==> HasFired(RunStore(es, store), key)
    ensures AlertCount(es, key, store) == LostAfterFire(es, key, store) +
            if HasFired(RunStore(es, store), key) && !HasFired(store, key) then 1 else 0
  {
    hide After, Alerts, HasFired;
    if es != [] {
      var init, e := es[..|es| - 1], es[|es| - 1];
      EpisodeCount(init, key, store);
      FiredStep(e, key, RunStore(init, store));
    }
  }

  /** So between deletions a key alerts at most once more than its writes failed. */
  lemma {:induction false} EpisodeBound(es: seq<Event>, key: string, store: Store)
    requires forall i | 0 <= i < |es| :: !Deletes(es[i], key)
    ensures AlertCount(es, key, store) <= 1 + LostAfterFire(es, key, store)
    ensures LostAfterFire(es, key, store) <= FailedWrites(es, key)
    ensures HasFired(store, key) ==> AlertCount(es, key, store) == LostAfterFire(es, key, store) == 0
  {
    EpisodeCount(es, key, store);
    if es != [] {
      var init, e := es[..|es| - 1], es[|es| - 1];
      EpisodeBound(init, key, store);
      EpisodeCount(init, key, store);
      FiredStep(e, key, RunStore(init, store));
    }
  }

  /** No evaluation of another pair uses this pair's key. */
  predicate OwnKey(es: seq<Event>, ruleId: string, d: string) {
    forall i | 0 <= i < |es| && EventKey(es[i]) == RuleKey(ruleId, d) ::
      es[i].rule.id == ruleId && es[i].reading.deviceId == d
  }

  lemma OneAlertFor(e: Event, store: Store, ruleId: string, d: string)
    requires OwnKey([e], ruleId, d)
    ensures AlertsFor(AlertsOf(e, store), ruleId, d) ==
            if EventKey(e) == RuleKey(ruleId, d) then AlertsOf(e, store) else []
  {
    hide Alerts, EvaluateRule, RuleKey;
    assert EventKey([e][0]) == RuleKey(ruleId, d) ==> e.rule.id == ruleId && e.reading.deviceId == d;
    AlertsForOne([], Alerts(e, store), AlertFor(e.rule, e.reading), ruleId, d);
    assert [] + AlertsOf(e, store) == AlertsOf(e, store);
  }

  /** The published alerts of a pair are those counted on its key. */
  lemma {:induction false} CountIsPublished(es: seq<Event>, ruleId: string, d: string, store: Store)
    requires OwnKey(es, ruleId, d)
    ensures |AlertsFor(RunAlerts(es, store), ruleId, d)| == AlertCount(es, RuleKey(ruleId, d), store)
  {
    hide Alerts, AlertsFor, After, EventKey, RuleKey;
    if es == [] {
      EmptyAlertsFor(ruleId, d);
    } else {
      var init, e := es[..|es| - 1], es[|es| - 1];
      CountIsPublished(init, ruleId, d, store);
      AlertsForAppend(RunAlerts(init, store), AlertsOf(e, RunStore(init, store)), ruleId, d);
      OneAlertFor(e, RunStore(init, store), ruleId, d);
    }
  }

  lemma EmptyAlertsFor(ruleId: string, d: string)
    ensures AlertsFor([], ruleId, d) == []
  {
  }

  /**
   Whatever fails, a (rule, device) pair publishes, between two deletions of its key, at most one
   alert more than it lost writes right after publishing.
   */
  lemma PublishedBound(es: seq<Event>, ruleId: string, d: string, store: Store)
    requires OwnKey(es, ruleId, d)
    requires forall i | 0 <= i < |es| :: !Deletes(es[i], RuleKey(ruleId, d))
    ensures |AlertsFor(RunAlerts(es, store), ruleId, d)| <= 1 + LostAfterFire(es, RuleKey(ruleId, d), store)
    ensures LostAfterFire(es, RuleKey(ruleId, d), store) <= FailedWrites(es, RuleKey(ruleId, d))
  {
    CountIsPublished(es, ruleId, d, store);
    EpisodeBound(es, RuleKey(ruleId, d), store);
  }
}
