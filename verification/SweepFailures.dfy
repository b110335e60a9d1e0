/**
 Offline alerts under a failing store. A check publishes before it sets the flag, so a lost flag lets
 an alert repeat; while no check takes the flag down, that is the only way it can.
 */
module SweepFailures {
  import opened StoreKeys
  import opened RuleSchema
  import opened KeyValueStore
  import opened Evaluation
  import opened Connectivity
  import opened EngineSteps
  import opened SweepOverlaps
  import RuleEngine

  /** How many of the checks report on one key. */
  function ReportCount(cs: seq<Check>, key: string, store: Store): nat {
    if cs == [] then 0
    else
      var init, c := cs[..|cs| - 1], cs[|cs| - 1];
      ReportCount(init, key, store) + if CheckKey(c) == key && Reports(c, SweepStore(init, store)) then 1 else 0
  }

  /** How many of them report and then lose the flag that would have recorded it. */
  function LostMarks(cs: seq<Check>, key: string, store: Store): nat {
    if cs == [] then 0
    else
      var init, c := cs[..|cs| - 1], cs[|cs| - 1];
      LostMarks(init, key, store)
      + if CheckKey(c) == key && Reports(c, SweepStore(init, store)) && !TookHold(c.outcome) then 1 else 0
  }

  function FailedMarks(cs: seq<Check>, key: string): nat {
    if cs == [] then 0
    else
      var init, c := cs[..|cs| - 1], cs[|cs| - 1];
      FailedMarks(init, key) + if CheckKey(c) == key && c.outcome.WriteFailed? then 1 else 0
  }

  /** The check finds the device not silent, and takes the flag down. */
  predicate Clears(c: Check, key: string) {
    CheckKey(c) == key && !Silent(c) && TookHold(c.outcome)
  }

  lemma FlagStep(c: Check, key: string, store: Store)
    requires !Clears(c, key)
    ensures key in AfterCheck(c, store) <==>
              key in store || (CheckKey(c) == key && Reports(c, store) && TookHold(c.outcome))
    ensures key in store && CheckKey(c) == key ==> !Reports(c, store)
  {
    hide Silent, CheckKey;
  }

  /**
   While no check takes a pair's flag down, its alerts are the ones whose flag was lost, plus exactly
   one if the flag went up: for every pattern of failures.
   */
  lemma {:induction false} ReportsExactly(cs: seq<Check>, key: string, store: Store)
    requires forall i | 0 <= i < |cs| :: !Clears(cs[i], key)
    ensures key in store ==> key in SweepStore(cs, store)
    ensures ReportCount(cs, key, store) == LostMarks(cs, key, store) +
            if key in SweepStore(cs, store) && key !in store then 1 else 0
  {
    hide AfterCheck, Reports, Clears, CheckKey;
    if cs != [] {
      var init, c := cs[..|cs| - 1], cs[|cs| - 1];
      ReportsExactly(init, key, store);
      FlagStep(c, key, SweepStore(init, store));
    }
  }

  lemma {:induction false} LostAreFailed(cs: seq<Check>, key: string, store: Store)
    ensures LostMarks(cs, key, store) <= FailedMarks(cs, key)
  {
    hide Silent, CheckKey, SweepStore;
    if cs != [] {
      LostAreFailed(cs[..|cs| - 1], key, store);
    }
  }

  /** The alerts published on a key are those counted. */
  lemma {:induction false} ReportsPublished(cs: seq<Check>, key: string, store: Store)
    ensures |DueOn(cs, store, key)| == ReportCount(cs, key, store)
  {
    if cs != [] {
      hide AlertsOn, Reports, SweepStore, CheckKey, OfflineAlert;
      var init, c := cs[..|cs| - 1], cs[|cs| - 1];
      ReportsPublished(init, key, store);
      AlertKey(c, key);
      AlertsOnSnoc(SweepAlerts(init, store), Reports(c, SweepStore(init, store)), OfflineAlert(c), key);
    }
  }

  lemma {:induction false} AlertsOnAppend(a: seq<Alert>, b: seq<Alert>, key: string)
    ensures AlertsOn(a + b, key) == AlertsOn(a, key) + AlertsOn(b, key)
  {
    if b == [] {
      assert a + b == a;
    } else {
      AlertsOnAppend(a, b[..|b| - 1], key);
      assert (a + b)[..|a + b| - 1] == a + b[..|b| - 1];
    }
  }

  /** The alerts due split, in order, into those before, within and after any window of checks. */
  lemma DueByWindow(cs: seq<Check>, store: Store, key: string, i: nat, j: nat)
    requires i <= j <= |cs|
    ensures DueOn(cs, store, key) ==
            DueOn(cs[..i], store, key) + DueOn(cs[i..j], SweepStore(cs[..i], store), key)
            + DueOn(cs[j..], SweepStore(cs[..j], store), key)
  {
    hide AlertsOn, SweepAlerts, SweepStore;
    assert cs == cs[..j] + cs[j..] && cs[..j] == cs[..i] + cs[i..j];
    RuleEngine.SweepAppend(cs[..j], cs[j..], store);
    RuleEngine.SweepAppend(cs[..i], cs[i..j], store);
    AlertsOnAppend(SweepAlerts(cs[..j], store), SweepAlerts(cs[j..], SweepStore(cs[..j], store)), key);
    AlertsOnAppend(SweepAlerts(cs[..i], store), SweepAlerts(cs[i..j], SweepStore(cs[..i], store)), key);
  }

  /**
   The offline episode bound in every run without a misfire on the key, whatever fails: among any finished
   checks in a row that do not take the flag down, the pair alerts at most once more than it loses flags
   right after alerting, and no more often than its writes fail.
   */
  lemma OfflineEpisodeBound(rules: seq<ThresholdRule>, start: Store, acts: seq<Action>, key: string, i: nat, j: nat)
    requires IsConnectivityKey(key) && NoMisfireUpTo(rules, start, acts, key, |acts|)
    requires i <= j <= |Exec(rules, Start(start), acts).checked|
    requires forall k | i <= k < j :: !Clears(Exec(rules, Start(start), acts).checked[k], key)
    ensures var e := Exec(rules, Start(start), acts);
            var cs, store := e.checked[i..j], SweepStore(e.checked[..i], start);
            && DueOn(e.checked[..i], start, key) + DueOn(cs, store, key) <= AlertsOn(e.published, key)
            && |DueOn(cs, store, key)| <= 1 + LostMarks(cs, key, store)
            && LostMarks(cs, key, store) <= FailedMarks(cs, key)
  {
    hide Exec, Matches, DueOn, AlertsOn, SweepStore, Clears, Marks, PendingAlert;
    var e := Exec(rules, Start(start), acts);
    var cs, store := e.checked[i..j], SweepStore(e.checked[..i], start);
    MatchesExactly(rules, start, acts, key, |acts|);
    assert acts[..|acts|] == acts;
    assert Matches(start, StateAt(rules, start, acts, |acts|), key);
    DueByWindow(e.checked, start, key, i, j);
    DueIsOut(start, e, key);
    forall k | 0 <= k < |cs| ensures !Clears(cs[k], key) {
      assert cs[k] == e.checked[i + k];
    }
    ReportsExactly(cs, key, store);
    LostAreFailed(cs, key, store);
    ReportsPublished(cs, key, store);
  }

  /** In a state that matches, the alerts due are out, and at most one more. */
  lemma DueIsOut(start: Store, e: Engine, key: string)
    requires Matches(start, e, key)
    ensures DueOn(e.checked, start, key) <= AlertsOn(e.published, key)
    ensures |AlertsOn(e.published, key)| <= |DueOn(e.checked, start, key)| + 1
  {
    hide DueOn, AlertsOn, FlagAfter, Marks, PendingAlert;
    if k :| Marks(e, k, key) {
      assert AlertsOn(e.published, key) == DueOn(e.checked, start, key) + [PendingAlert(e, k, key)];
    }
  }
}
