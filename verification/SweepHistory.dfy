/** Connectivity alerts sweep by sweep: an alert is a silence the device's previous sweep did not see. */
module SweepHistory {
  import opened RuleSchema
  import opened Connectivity
  import opened RuleEngine

  /** Registry rows are keyed by device; rule ids are to be pairwise distinct. */
  predicate DistinctPairs(rules: seq<ConnectivityRule>, devices: seq<Device>) {
    && (forall i, j | 0 <= i < j < |rules| :: rules[i].id != rules[j].id)
    && (forall i, j | 0 <= i < j < |devices| :: devices[i].deviceId != devices[j].deviceId)
  }

  /** No pair is checked twice. */
  predicate PairsOnce(cs: seq<Check>) {
    forall i, j | 0 <= i < j < |cs| :: !SamePair(cs[i], cs[j])
  }

  lemma {:induction false} SweepPairRules(rules: seq<ConnectivityRule>, devices: seq<Device>, i: nat)
    requires i < |SweepPairs(rules, devices)|
    ensures SweepPairs(rules, devices)[i].0 in rules
  {
    if rules != [] {
      var init := SweepPairs(rules[..|rules| - 1], devices);
      if i < |init| {
        SweepPairRules(rules[..|rules| - 1], devices, i);
      }
    }
  }

  /** The nested loops visit exactly every rule with every device. */
  lemma {:induction false} SweepPairsMeaning(rules: seq<ConnectivityRule>, devices: seq<Device>, rule: ConnectivityRule, device: Device)
    ensures (rule, device) in SweepPairs(rules, devices) <==> rule in rules && device in devices
  {
    if rules != [] {
      var init, last := rules[..|rules| - 1], rules[|rules| - 1];
      SweepPairsMeaning(init, devices, rule, device);
      assert rules == init + [last];
      assert (rule, device) in RulePairs(last, devices) <==> rule == last && device in devices by {
        if device in devices {
          var i :| 0 <= i < |devices| && devices[i] == device;
          assert RulePairs(last, devices)[i] == (last, device);
        }
      }
    }
  }

  lemma {:induction false} SweepPairsOnce(rules: seq<ConnectivityRule>, devices: seq<Device>, i: nat, j: nat)
    requires DistinctPairs(rules, devices) && i < j < |SweepPairs(rules, devices)|
    ensures var p, q := SweepPairs(rules, devices)[i], SweepPairs(rules, devices)[j];
            p.0.id != q.0.id || p.1.deviceId != q.1.deviceId
  {
    var n := |rules| - 1;
    var init := SweepPairs(rules[..n], devices);
    if j < |init| {
      SweepPairsOnce(rules[..n], devices, i, j);
    } else if i < |init| {
      SweepPairRules(rules[..n], devices, i);
      var k :| 0 <= k < n && rules[k] == init[i].0;
      assert rules[k].id != rules[n].id;
    } else {
      assert devices[i - |init|].deviceId != devices[j - |init|].deviceId;
    }
  }

  /** A completed sweep checks every pair once. */
  lemma SweepChecksOnce(cs: seq<Check>, rules: seq<ConnectivityRule>, devices: seq<Device>, nowMs: int)
    requires DistinctPairs(rules, devices) && ChecksOf(cs, SweepPairs(rules, devices), nowMs)
    ensures PairsOnce(cs)
  {
    forall i, j | 0 <= i < j < |cs| ensures !SamePair(cs[i], cs[j]) {
      SweepPairsOnce(rules, devices, i, j);
    }
  }

  /** The pair's previous check is its check in the sweep before, if that sweep knew the device. */
  lemma PreviousInSweepBefore(before: seq<Check>, prev: seq<Check>, cur: seq<Check>, j: nat, i: nat, all: seq<Check>)
    requires j < |prev| && i < |cur| && SamePair(prev[j], cur[i]) && PairsOnce(prev) && PairsOnce(cur)
    requires all == before + prev + cur[..i + 1]
    ensures all != [] && all[|all| - 1] == cur[i] && all[|before| + j] == prev[j]
    ensures var n := |all| - 1; forall p :: PreviousCheck(all, n, cur[i], p) <==> p == |before| + j
  {
    hide Silent;
    var n := |all| - 1;
    assert forall k | 0 <= k < |prev| :: all[|before| + k] == prev[k];
    assert forall k | 0 <= k <= i :: all[|before| + |prev| + k] == cur[k];
    forall p | |before| + j < p < n ensures !SamePair(all[p], cur[i]) {
      if p < |before| + |prev| {
        assert all[p] == prev[p - |before|];
        assert !SamePair(prev[j], prev[p - |before|]);
      } else {
        assert all[p] == cur[p - |before| - |prev|];
        assert !SamePair(cur[p - |before| - |prev|], cur[i]);
      }
    }
  }

  /** A device the previous sweep checked alerts exactly if it is silent now and was not then. */
  lemma AlertsOnNewSilence(before: seq<Check>, prev: seq<Check>, cur: seq<Check>, j: nat, i: nat)
    requires j < |prev| && i < |cur| && SamePair(prev[j], cur[i]) && PairsOnce(prev) && PairsOnce(cur)
    ensures RisingEdge(before + prev + cur[..i + 1]) <==> Silent(cur[i]) && !Silent(prev[j])
  {
    hide Silent, PreviousCheck, PairsOnce;
    var all := before + prev + cur[..i + 1];
    PreviousInSweepBefore(before, prev, cur, j, i, all);
    assert PreviousCheck(all, |all| - 1, cur[i], |before| + j);
  }

  /** A device no sweep has checked before alerts exactly if it is silent. */
  lemma AlertsOnFirstSight(before: seq<Check>, cur: seq<Check>, i: nat)
    requires i < |cur| && PairsOnce(cur)
    requires forall k | 0 <= k < |before| :: !SamePair(before[k], cur[i])
    ensures RisingEdge(before + cur[..i + 1]) <==> Silent(cur[i])
  {
    hide Silent;
    var all := before + cur[..i + 1];
    assert forall k | 0 <= k < |before| :: all[k] == before[k];
    assert forall k | 0 <= k <= i :: all[|before| + k] == cur[k];
    var n := |all| - 1;
    forall p ensures !PreviousCheck(all, n, cur[i], p) {
      if |before| <= p < |before| + i {
        assert all[p] == cur[p - |before|];
      }
    }
  }
}
