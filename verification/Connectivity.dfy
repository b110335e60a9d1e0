/**
 The offline sweep: each check of a (rule, device) pair against the registry, the store flag that
 keeps an offline device from alerting again, and the alerts a history of checks must raise.
 */
module Connectivity {
  import opened Options
  import opened StoreKeys
  import opened RuleSchema
  import opened KeyValueStore
  import opened Evaluation

  /** A registry row as the sweep reads it; a device without a last-seen time counts from the epoch. */
  datatype Device = Device(deviceId: string, lastSeenMs: Option<int>)

  /** One check: the sweep's time, the clock when an alert is stamped, and how its store calls turned out. */
  datatype Check = Check(rule: ConnectivityRule, device: Device, nowMs: int, clockMs: int, outcome: Outcome)

  function LastSeen(device: Device): int {
    if device.lastSeenMs.Some? then device.lastSeenMs.value else 0
  }

  /** Whole seconds of silence, rounded down; Dafny's division by a positive number rounds down too. */
  function SilentSeconds(device: Device, nowMs: int): int {
    (nowMs - LastSeen(device)) / 1000
  }

  predicate Silent(c: Check) {
    SilentSeconds(c.device, c.nowMs) >= c.rule.silenceSeconds
  }

  function CheckKey(c: Check): string {
    ConnectivityKey(c.rule.id, c.device.deviceId)
  }

  function AfterCheck(c: Check, store: Store): Store {
    if !TookHold(c.outcome) then store
    else if !Silent(c) then store - {CheckKey(c)}
    else if CheckKey(c) in store then store
    else store[CheckKey(c) := OfflineFlag]
  }

  predicate Reports(c: Check, store: Store) {
    !c.outcome.ReadFailed? && Silent(c) && CheckKey(c) !in store
  }

  function OfflineAlert(c: Check): Alert {
    Alert(c.rule.id, c.device.deviceId, c.rule.severity, AlertMetric.Connectivity,
          SilentSeconds(c.device, c.nowMs) as real, Finite(c.rule.silenceSeconds as real), c.rule.message, c.clockMs)
  }

  /** An offline alert's value is the whole seconds of silence at the sweep's time, at least as many as the rule allows. */
  predicate SaysOffline(rule: ConnectivityRule, device: Device, nowMs: int, a: Alert) {
    && a.ruleId == rule.id && a.deviceId == device.deviceId
    && a.severity == rule.severity && a.message == rule.message && a.metric == AlertMetric.Connectivity
    && a.threshold == Finite(rule.silenceSeconds as real)
    && var seconds, seenMs := a.value.Floor, if device.lastSeenMs.Some? then device.lastSeenMs.value else 0;
       && a.value == seconds as real && seconds >= rule.silenceSeconds
       && 1000 * seconds <= nowMs - seenMs < 1000 * (seconds + 1)
  }

  lemma SilentSays(c: Check)
    requires Silent(c)
    ensures SaysOffline(c.rule, c.device, c.nowMs, OfflineAlert(c))
    ensures OfflineAlert(c).triggeredAtMs == c.clockMs
  {
    SecondsFloor(SilentSeconds(c.device, c.nowMs));
  }

  lemma SecondsFloor(n: int)
    ensures (n as real).Floor == n
  {
  }

  function ReportsOf(c: Check, store: Store): seq<Alert> {
    if Reports(c, store) then [OfflineAlert(c)] else []
  }

  function SweepStore(cs: seq<Check>, store: Store): Store {
    if cs == [] then store else AfterCheck(cs[|cs| - 1], SweepStore(cs[..|cs| - 1], store))
  }

  function SweepAlerts(cs: seq<Check>, store: Store): seq<Alert> {
    if cs == [] then []
    else SweepAlerts(cs[..|cs| - 1], store) + ReportsOf(cs[|cs| - 1], SweepStore(cs[..|cs| - 1], store))
  }

  predicate SamePair(c: Check, c': Check) {
    c.rule.id == c'.rule.id && c.device.deviceId == c'.device.deviceId
  }

  /** Position j holds the last check of c's pair before position n. */
  ghost predicate PreviousCheck(cs: seq<Check>, n: int, c: Check, j: int) {
    0 <= j < n <= |cs| && SamePair(cs[j], c) && forall k | j < k < n :: !SamePair(cs[k], c)
  }

  /** The last check finds its device silent, and the pair's previous check, if any, did not. */
  ghost predicate RisingEdge(cs: seq<Check>)
    requires cs != []
  {
    var n := |cs| - 1;
    Silent(cs[n]) && forall j | PreviousCheck(cs, n, cs[n], j) :: !Silent(cs[j])
  }

  ghost function EdgeAlerts(cs: seq<Check>): seq<Alert> {
    if cs == [] then []
    else EdgeAlerts(cs[..|cs| - 1]) + if RisingEdge(cs) then [OfflineAlert(cs[|cs| - 1])] else []
  }

  /** Checks of different pairs have different keys. */
  predicate SafeChecks(cs: seq<Check>) {
    forall i, j | 0 <= i < j < |cs| && CheckKey(cs[i]) == CheckKey(cs[j]) :: SamePair(cs[i], cs[j])
  }

  predicate Undisturbed(cs: seq<Check>) {
    forall i | 0 <= i < |cs| :: cs[i].outcome.Completed?
  }

  /** Some check of the pair was silent and no later one looked again. */
  ghost predicate FlagDue(cs: seq<Check>, c: Check) {
    exists j :: PreviousCheck(cs, |cs|, c, j) && Silent(cs[j])
  }

  lemma FlagDueStep(cs: seq<Check>, last: Check, c: Check)
    ensures FlagDue(cs + [last], c) <==> if SamePair(last, c) then Silent(last) else FlagDue(cs, c)
  {
    var ext := cs + [last];
    assert forall k | 0 <= k < |cs| :: ext[k] == cs[k];
    if SamePair(last, c) {
      assert PreviousCheck(ext, |ext|, c, |cs|);
    } else {
      forall j ensures PreviousCheck(ext, |ext|, c, j) <==> PreviousCheck(cs, |cs|, c, j) {
        if PreviousCheck(cs, |cs|, c, j) { assert ext[j] == cs[j]; }
        if PreviousCheck(ext, |ext|, c, j) { assert ext[|cs|] == last; }
      }
    }
  }

  lemma RisingEdgeMeaning(cs: seq<Check>, c: Check)
    ensures RisingEdge(cs + [c]) <==> Silent(c) && !FlagDue(cs, c)
  {
    var ext := cs + [c];
    forall j ensures PreviousCheck(ext, |cs|, c, j) <==> PreviousCheck(cs, |cs|, c, j) {
      assert forall k | 0 <= k < |cs| :: ext[k] == cs[k];
    }
  }

  /** Checks under separated rule ids, whatever the devices, are safe. */
  lemma SeparatedChecksSafe(cs: seq<Check>)
    requires forall i, j | 0 <= i < j < |cs| ::
               cs[i].rule.id == cs[j].rule.id || Separated(cs[i].rule.id, cs[j].rule.id)
    ensures SafeChecks(cs)
  {
    hide Separated, ConnectivityKey;
    forall i, j | 0 <= i < j < |cs| && CheckKey(cs[i]) == CheckKey(cs[j]) ensures SamePair(cs[i], cs[j]) {
      if cs[i].rule.id == cs[j].rule.id {
        OneRuleKeysInjective(cs[i].rule.id, cs[i].device.deviceId, cs[j].device.deviceId);
      } else {
        SeparatedKeysDiffer(cs[i].rule.id, cs[i].device.deviceId, cs[j].rule.id, cs[j].device.deviceId);
      }
    }
  }

  lemma {:induction false} FlagTracks(cs: seq<Check>, store: Store, c: Check)
    requires Undisturbed(cs) && SafeChecks(cs + [c]) && CheckKey(c) !in store
    ensures CheckKey(c) in SweepStore(cs, store) <==> FlagDue(cs, c)
  {
    if cs != [] {
      var init, last := cs[..|cs| - 1], cs[|cs| - 1];
      assert SafeChecks(init + [c]) by {
        assert forall i | 0 <= i < |init| :: (init + [c])[i] == (cs + [c])[i];
        assert (cs + [c])[|cs|] == c;
      }
      FlagTracks(init, store, c);
      assert init + [last] == cs;
      FlagDueStep(init, last, c);
      assert (cs + [c])[|cs| - 1] == last && (cs + [c])[|cs|] == c;
    }
  }

  /** Offline alerts are exactly the rising edges of silence, in order, over undisturbed non-overlapping checks. */
  lemma {:induction false} ConnectivityEdges(cs: seq<Check>, store: Store)
    requires Undisturbed(cs) && SafeChecks(cs)
    requires forall key | IsConnectivityKey(key) :: key !in store
    ensures SweepAlerts(cs, store) == EdgeAlerts(cs)
  {
    hide AfterCheck, RisingEdge, FlagDue, Silent, SafeChecks;
    if cs != [] {
      var init, last := cs[..|cs| - 1], cs[|cs| - 1];
      assert init + [last] == cs;
      SafePrefix(cs);
      ConnectivityEdges(init, store);
      KeySpacesDisjoint(last.rule.id, last.device.deviceId, last.device.deviceId, "");
      FlagTracks(init, store, last);
      RisingEdgeMeaning(init, last);
    }
  }

  lemma SafePrefix(cs: seq<Check>)
    requires cs != [] && SafeChecks(cs)
    ensures SafeChecks(cs[..|cs| - 1])
  {
  }

  lemma {:induction false} LastOfPair(cs: seq<Check>, a: nat, b: nat) returns (j: nat)
    requires a < b < |cs| && SamePair(cs[a], cs[b])
    ensures a <= j && PreviousCheck(cs, b, cs[b], j)
  {
    j := b - 1;
    while !SamePair(cs[j], cs[b])
      invariant a <= j < b
      invariant forall k | j < k < b :: !SamePair(cs[k], cs[b])
      decreases j
    {
      j := j - 1;
    }
  }

  /** The checks of one pair from a to b see one rule and one last-seen time, at most `gapMs` apart. */
  ghost predicate SteadyPair(cs: seq<Check>, a: nat, b: nat, seenMs: int, gapMs: int) {
    && a <= b < |cs| && SamePair(cs[a], cs[b])
    && (forall i | a <= i <= b && SamePair(cs[i], cs[b]) ::
          cs[i].rule == cs[a].rule && cs[i].device.lastSeenMs == Some(seenMs))
    && (forall i, j | a <= j && j < i <= b && SamePair(cs[i], cs[b]) && PreviousCheck(cs, i, cs[i], j) ::
          cs[i].nowMs - cs[j].nowMs <= gapMs)
  }

  /** A silent check right after a quiet one of its pair is a rising edge. */
  lemma EdgeAfterQuiet(cs: seq<Check>, j: nat, b: nat)
    requires b < |cs| && PreviousCheck(cs, b, cs[b], j) && !Silent(cs[j]) && Silent(cs[b])
    ensures RisingEdge(cs[..b + 1])
  {
    hide Silent;
    var upTo := cs[..b + 1];
    assert forall k | 0 <= k <= b :: upTo[k] == cs[k];
    forall k | PreviousCheck(upTo, b, upTo[b], k) ensures k == j {
      assert upTo[k] == cs[k] && upTo[j] == cs[j] && upTo[b] == cs[b];
    }
  }

  lemma SteadyPrefix(cs: seq<Check>, a: nat, b: nat, j: nat, seenMs: int, gapMs: int)
    requires SteadyPair(cs, a, b, seenMs, gapMs) && a <= j < b && SamePair(cs[j], cs[b])
    ensures SteadyPair(cs, a, j, seenMs, gapMs)
  {
    hide Silent;
    assert forall i | 0 <= i < |cs| :: SamePair(cs[i], cs[j]) <==> SamePair(cs[i], cs[b]);
  }

  lemma SteadyStep(cs: seq<Check>, a: nat, b: nat, j: nat, seenMs: int, gapMs: int)
    requires SteadyPair(cs, a, b, seenMs, gapMs) && a <= j && PreviousCheck(cs, b, cs[b], j)
    ensures cs[b].rule == cs[a].rule && cs[b].device.lastSeenMs == Some(seenMs)
    ensures cs[j].rule == cs[a].rule && cs[j].device.lastSeenMs == Some(seenMs)
    ensures cs[b].nowMs - cs[j].nowMs <= gapMs
  {
  }

  /** In milliseconds: silent is exactly at least the rule's whole seconds since the last reading. */
  lemma SilentInMilliseconds(c: Check)
    ensures Silent(c) <==> c.nowMs >= LastSeen(c.device) + 1000 * c.rule.silenceSeconds
  {
  }

  /** A device that falls silent is reported before its silence limit is exceeded by the gap between sweeps. */
  lemma {:induction false} DetectionLatency(cs: seq<Check>, a: nat, b: nat, seenMs: int, gapMs: int) returns (i: nat)
    requires SteadyPair(cs, a, b, seenMs, gapMs)
    requires a < b < |cs| && !Silent(cs[a]) && Silent(cs[b])
    ensures a < i <= b && SamePair(cs[i], cs[a]) && RisingEdge(cs[..i + 1])
    ensures seenMs + 1000 * cs[a].rule.silenceSeconds <= cs[i].nowMs
    ensures cs[i].nowMs < seenMs + 1000 * cs[a].rule.silenceSeconds + gapMs
    decreases b
  {
    hide RisingEdge, Silent, SteadyPair, PreviousCheck;
    assert a <= b < |cs| && SamePair(cs[a], cs[b]) by { SteadyPairOrder(cs, a, b, seenMs, gapMs); }
    var j := LastOfPair(cs, a, b);
    assert j < b && SamePair(cs[j], cs[b]) by { PreviousCheckOrder(cs, b, cs[b], j); }
    SteadyStep(cs, a, b, j, seenMs, gapMs);
    if Silent(cs[j]) {
      SteadyPrefix(cs, a, b, j, seenMs, gapMs);
      i := DetectionLatency(cs, a, j, seenMs, gapMs);
    } else {
      i := b;
      EdgeAfterQuiet(cs, j, b);
      SilentInMilliseconds(cs[j]);
      SilentInMilliseconds(cs[b]);
    }
  }

  lemma SteadyPairOrder(cs: seq<Check>, a: nat, b: nat, seenMs: int, gapMs: int)
    requires SteadyPair(cs, a, b, seenMs, gapMs)
    ensures a <= b < |cs| && SamePair(cs[a], cs[b])
  {
  }

  lemma PreviousCheckOrder(cs: seq<Check>, n: nat, c: Check, j: nat)
    requires PreviousCheck(cs, n, c, j)
    ensures j < n && SamePair(cs[j], c)
  {
  }
}
