/**
 The sweeps of an engine run, one by one: as long as they do not overlap and no check fails, the
 finished checks are whole sweeps over their pairs, the last one perhaps still under way. So an offline
 alert is a silence that the device's check in the sweep before did not see.
 */
module SweepRuns {
  import opened Options
  import opened StoreKeys
  import opened RuleSchema
  import opened Evaluation
  import opened Connectivity
  import opened KeyValueStore
  import opened EngineSteps
  import opened SweepHistory
  import opened SweepRefinement
  import opened SweepOverlaps
  import RuleEngine

  datatype Begun = Begun(nowMs: int, pairs: seq<(ConnectivityRule, Device)>)

  /** The sweeps a run starts. */
  function Begins(acts: seq<Action>): seq<Begun> {
    if acts == [] then []
    else
      var init, last := acts[..|acts| - 1], acts[|acts| - 1];
      if last.StartSweep? then Begins(init) + [Begun(last.nowMs, last.pairs)] else Begins(init)
  }

  function Join(css: seq<seq<Check>>): seq<Check> {
    if css == [] then [] else Join(css[..|css| - 1]) + css[|css| - 1]
  }

  /** The sweep has done these checks, in order, and still has to do the rest of its pairs. */
  ghost predicate SweepAt(b: Begun, cs: seq<Check>, s: Sweep) {
    && |cs| <= |b.pairs| && RuleEngine.ChecksOf(cs, b.pairs[..|cs|], b.nowMs)
    && s.pairs == b.pairs[|cs|..] && s.nowMs == b.nowMs
  }

  /** The finished checks, sweep by sweep; all sweeps but the last are over. */
  ghost predicate BySweeps(bs: seq<Begun>, css: seq<seq<Check>>, e: Engine) {
    && |css| == |bs| == |e.sweeps| && Join(css) == e.checked
    && (forall k | 0 <= k < |bs| :: SweepAt(bs[k], css[k], e.sweeps[k]))
    && (forall k | 0 <= k < |bs| - 1 :: e.sweeps[k].pairs == [])
  }

  /** No sweep has begun before the one before it ended, and no check has failed. */
  ghost predicate InTurn(e: Engine) {
    !e.overlapped && Undisturbed(e.checked)
  }

  lemma JoinSnoc(css: seq<seq<Check>>, cs: seq<Check>)
    ensures Join(css + [cs]) == Join(css) + cs
  {
    assert (css + [cs])[..|css|] == css;
  }

  /** A sweep that begins has done nothing yet. */
  lemma BeginBySweeps(bs: seq<Begun>, css: seq<seq<Check>>, e: Engine, nowMs: int, pairs: seq<(ConnectivityRule, Device)>)
    requires BySweeps(bs, css, e) && !Step([], e, StartSweep(nowMs, pairs)).overlapped
    ensures BySweeps(bs + [Begun(nowMs, pairs)], css + [[]], Step([], e, StartSweep(nowMs, pairs)))
  {
    hide Join;
    JoinSnoc(css, []);
    var e' := Step([], e, StartSweep(nowMs, pairs));
    assert e.checked + [] == e.checked;
    forall k | 0 <= k < |e.sweeps| ensures e'.sweeps[k] == e.sweeps[k] && e.sweeps[k].pairs == [] {
      assert !Active(e, k);
    }
    assert SweepAt(Begun(nowMs, pairs), [], e'.sweeps[|e.sweeps|]);
  }

  /** Nothing the sweeps are made of has changed. */
  lemma SameBySweeps(bs: seq<Begun>, css: seq<seq<Check>>, e: Engine, e': Engine)
    requires BySweeps(bs, css, e) && e'.checked == e.checked && |e'.sweeps| == |e.sweeps|
    requires forall k | 0 <= k < |e.sweeps| :: e'.sweeps[k].pairs == e.sweeps[k].pairs && e'.sweeps[k].nowMs == e.sweeps[k].nowMs
    ensures BySweeps(bs, css, e')
  {
    hide Join, RuleEngine.ChecksOf;
  }

  /** The sweep under way is the last one, and its check is done. */
  lemma EndBySweeps(bs: seq<Begun>, css: seq<seq<Check>>, e: Engine, k: nat, e': Engine, c: Check)
    requires BySweeps(bs, css, e) && Active(e, k)
    requires c == HeadCheck(e.sweeps[k], c.clockMs, Completed)
    requires e'.sweeps == e.sweeps[k := NextPair(e.sweeps[k], true)] && e'.checked == e.checked + [c]
    ensures k == |css| - 1 && BySweeps(bs, css[..k] + [css[k] + [c]], e')
  {
    hide Join;
    assert css == css[..k] + [css[k]];
    JoinSnoc(css[..k], css[k]);
    JoinSnoc(css[..k], css[k] + [c]);
    assert (Join(css[..k]) + css[k]) + [c] == Join(css[..k]) + (css[k] + [c]);
    assert SweepAt(bs[k], css[k], e.sweeps[k]);
    assert bs[k].pairs[|css[k]|] == e.sweeps[k].pairs[0];
    assert SweepAt(bs[k], css[k] + [c], e'.sweeps[k]);
  }

  /** The step ends the k-th sweep's check. */
  ghost predicate EndsWith(e: Engine, k: nat, e': Engine, c: Check)
    requires Active(e, k)
  {
    && c == HeadCheck(e.sweeps[k], c.clockMs, c.outcome)
    && e'.sweeps == e.sweeps[k := NextPair(e.sweeps[k], c.outcome.Completed?)] && e'.checked == e.checked + [c]
  }

  lemma EndKinds(e: Engine, k: nat, a: Action)
    requires Active(e, k) && SweepStep(e, k, a).checked != e.checked
    ensures var e' := SweepStep(e, k, a);
            |e'.checked| > |e.checked| && EndsWith(e, k, e', e'.checked[|e.checked|])
  {
    hide Silent, CheckKey, OfflineAlert;
  }

  /** Otherwise it moves on within its check, or does nothing. */
  lemma SamePairs(e: Engine, k: nat, a: Action)
    requires SweepStep(e, k, a).checked == e.checked
    ensures var e' := SweepStep(e, k, a);
            |e'.sweeps| == |e.sweeps| && forall j | 0 <= j < |e.sweeps| ::
              e'.sweeps[j].pairs == e.sweeps[j].pairs && e'.sweeps[j].nowMs == e.sweeps[j].nowMs
  {
    hide Silent, CheckKey, OfflineAlert;
  }

  lemma SweepBySweeps(bs: seq<Begun>, css: seq<seq<Check>>, e: Engine, k: nat, a: Action) returns (css': seq<seq<Check>>)
    requires BySweeps(bs, css, e) && Undisturbed(SweepStep(e, k, a).checked)
    ensures BySweeps(bs, css', SweepStep(e, k, a))
  {
    hide BySweeps, SweepStep, NextPair, HeadCheck;
    var e' := SweepStep(e, k, a);
    if !Active(e, k) {
      IdleSweep(e, k, a);
      css' := css;
    } else if e'.checked != e.checked {
      EndKinds(e, k, a);
      EndBySweeps(bs, css, e, k, e', e'.checked[|e.checked|]);
      css' := css[..k] + [css[k] + [e'.checked[|e.checked|]]];
    } else {
      SamePairs(e, k, a);
      SameBySweeps(bs, css, e, e');
      css' := css;
    }
  }

  lemma SweepInTurn(e: Engine, k: nat, a: Action)
    requires InTurn(SweepStep(e, k, a))
    ensures InTurn(e)
  {
    hide Silent, CheckKey, OfflineAlert, HeadCheck;
    if !Active(e, k) {
      IdleSweep(e, k, a);
    } else if SweepStep(e, k, a).checked != e.checked {
      EndKinds(e, k, a);
      assert forall i | 0 <= i < |e.checked| :: SweepStep(e, k, a).checked[i] == e.checked[i];
    }
  }

  lemma StepInTurn(rules: seq<ThresholdRule>, e: Engine, a: Action)
    requires InTurn(Step(rules, e, a))
    ensures InTurn(e)
  {
    hide SweepStep, HandlerStep;
    match a {
      case SweepDelete(k, _) => SweepInTurn(e, k, a);
      case SweepLook(k, _) => SweepInTurn(e, k, a);
      case SweepResume(k, _) => SweepInTurn(e, k, a);
      case SweepMark(k, _) => SweepInTurn(e, k, a);
      case Receive(_) =>
      case StartSweep(_, _) =>
      case _ => HandlerUnseen(rules, e, a);
    }
  }

  /** One more step of the run. */
  lemma StepBySweeps(rules: seq<ThresholdRule>, bs: seq<Begun>, css: seq<seq<Check>>, e: Engine, a: Action)
    returns (css': seq<seq<Check>>)
    requires BySweeps(bs, css, e) && InTurn(Step(rules, e, a))
    ensures BySweeps(if a.StartSweep? then bs + [Begun(a.nowMs, a.pairs)] else bs, css', Step(rules, e, a))
  {
    hide SweepStep, HandlerStep, BySweeps, Join;
    css' := css;
    match a {
      case SweepDelete(k, _) => css' := SweepBySweeps(bs, css, e, k, a);
      case SweepLook(k, _) => css' := SweepBySweeps(bs, css, e, k, a);
      case SweepResume(k, _) => css' := SweepBySweeps(bs, css, e, k, a);
      case SweepMark(k, _) => css' := SweepBySweeps(bs, css, e, k, a);
      case StartSweep(nowMs, pairs) =>
        BeginBySweeps(bs, css, e, nowMs, pairs);
        css' := css + [[]];
      case Receive(_) => SameBySweeps(bs, css, e, Step(rules, e, a));
      case _ =>
        HandlerUnseen(rules, e, a);
        SameBySweeps(bs, css, e, HandlerStep(rules, e, a));
    }
  }

  /** In a run whose sweeps take turns and hit no error, the finished checks are the sweeps' own, one sweep after the other. */
  lemma {:induction false} RunBySweeps(rules: seq<ThresholdRule>, start: Store, acts: seq<Action>) returns (css: seq<seq<Check>>)
    requires InTurn(Exec(rules, Start(start), acts))
    ensures BySweeps(Begins(acts), css, Exec(rules, Start(start), acts))
  {
    if acts == [] {
      css := [];
    } else {
      hide BySweeps, InTurn, Step;
      var e, a := Exec(rules, Start(start), acts[..|acts| - 1]), acts[|acts| - 1];
      StepInTurn(rules, e, a);
      css := RunBySweeps(rules, start, acts[..|acts| - 1]);
      css := StepBySweeps(rules, Begins(acts[..|acts| - 1]), css, e, a);
    }
  }

  /** The pairs of a sweep are pairwise distinct, as those of distinct rules and registry rows are. */
  predicate PairsApart(pairs: seq<(ConnectivityRule, Device)>) {
    forall i, j | 0 <= i < j < |pairs| :: pairs[i].0.id != pairs[j].0.id || pairs[i].1.deviceId != pairs[j].1.deviceId
  }

  lemma RegistryPairsApart(rules: seq<ConnectivityRule>, devices: seq<Device>)
    requires DistinctPairs(rules, devices)
    ensures PairsApart(RuleEngine.SweepPairs(rules, devices))
  {
    var pairs := RuleEngine.SweepPairs(rules, devices);
    forall i, j | 0 <= i < j < |pairs|
      ensures pairs[i].0.id != pairs[j].0.id || pairs[i].1.deviceId != pairs[j].1.deviceId {
      SweepPairsOnce(rules, devices, i, j);
    }
  }

  lemma ChecksApart(b: Begun, cs: seq<Check>, s: Sweep)
    requires SweepAt(b, cs, s) && PairsApart(b.pairs)
    ensures PairsOnce(cs)
  {
  }

  /** The i-th check of the k-th sweep, in place among all finished checks. */
  lemma {:induction false} CheckInPlace(css: seq<seq<Check>>, k: nat, i: nat)
    requires k < |css| && i < |css[k]|
    ensures var n := |Join(css[..k])| + i;
            && n < |Join(css)| && Join(css)[n] == css[k][i]
            && Join(css)[..n + 1] == Join(css[..k]) + css[k][..i + 1]
    decreases |css|
  {
    var init, last := css[..|css| - 1], |css| - 1;
    var n := |Join(css[..k])| + i;
    if k < last {
      CheckInPlace(init, k, i);
      assert init[..k] == css[..k];
      assert Join(css)[..n + 1] == Join(init)[..n + 1];
    } else {
      assert Join(css)[..n + 1] == Join(css[..k]) + css[k][..i + 1];
    }
  }

  /**
   A device the sweep before checked alerts, in a run, exactly if it is silent now and was not then: the
   check is a rising edge among all finished checks, which is when an alert goes out.
   */
  lemma AlertsOnNewSilenceInRuns(rules: seq<ThresholdRule>, start: Store, acts: seq<Action>, css: seq<seq<Check>>,
                                 k: nat, i: nat, j: nat)
    requires BySweeps(Begins(acts), css, Exec(rules, Start(start), acts))
    requires forall b | b in Begins(acts) :: PairsApart(b.pairs)
    requires 0 < k < |css| && i < |css[k]| && j < |css[k - 1]| && SamePair(css[k - 1][j], css[k][i])
    ensures var e, n := Exec(rules, Start(start), acts), |Join(css[..k])| + i;
            && n < |e.checked| && e.checked[n] == css[k][i]
            && (RisingEdge(e.checked[..n + 1]) <==> Silent(css[k][i]) && !Silent(css[k - 1][j]))
  {
    hide Exec, Join, Silent, RisingEdge, PairsApart, SweepAt, PairsOnce;
    var e := Exec(rules, Start(start), acts);
    CheckInPlace(css, k, i);
    assert css[..k] == css[..k - 1] + [css[k - 1]];
    JoinSnoc(css[..k - 1], css[k - 1]);
    assert Begins(acts)[k] in Begins(acts) && Begins(acts)[k - 1] in Begins(acts);
    ChecksApart(Begins(acts)[k], css[k], e.sweeps[k]);
    ChecksApart(Begins(acts)[k - 1], css[k - 1], e.sweeps[k - 1]);
    AlertsOnNewSilence(Join(css[..k - 1]), css[k - 1], css[k], j, i);
  }

  /** A device no sweep of the run has checked before alerts exactly if it is silent. */
  lemma AlertsOnFirstSightInRuns(rules: seq<ThresholdRule>, start: Store, acts: seq<Action>, css: seq<seq<Check>>, k: nat, i: nat)
    requires BySweeps(Begins(acts), css, Exec(rules, Start(start), acts))
    requires forall b | b in Begins(acts) :: PairsApart(b.pairs)
    requires k < |css| && i < |css[k]|
    requires forall l, j | 0 <= l < k && 0 <= j < |css[l]| :: !SamePair(css[l][j], css[k][i])
    ensures var e, n := Exec(rules, Start(start), acts), |Join(css[..k])| + i;
            && n < |e.checked| && e.checked[n] == css[k][i]
            && (RisingEdge(e.checked[..n + 1]) <==> Silent(css[k][i]))
  {
    hide Exec, Join, Silent, RisingEdge, PairsApart, SweepAt, PairsOnce;
    var e := Exec(rules, Start(start), acts);
    CheckInPlace(css, k, i);
    assert Begins(acts)[k] in Begins(acts);
    ChecksApart(Begins(acts)[k], css[k], e.sweeps[k]);
    forall p | 0 <= p < |Join(css[..k])| ensures !SamePair(Join(css[..k])[p], css[k][i]) {
      var l, j := InSomeSweep(css[..k], p);
    }
    AlertsOnFirstSight(Join(css[..k]), css[k], i);
  }

  lemma {:induction false} InSomeSweep(css: seq<seq<Check>>, p: nat) returns (l: nat, j: nat)
    requires p < |Join(css)|
    ensures l < |css| && j < |css[l]| && Join(css)[p] == css[l][j]
  {
    var last := |css| - 1;
    if p < |Join(css[..last])| {
      l, j := InSomeSweep(css[..last], p);
    } else {
      l, j := last, p - |Join(css[..last])|;
    }
  }

  /** The pair's checks from the p-th to the q-th sweep, one in each, see one rule and one last-seen time. */
  ghost predicate SteadyRow(css: seq<seq<Check>>, p: nat, q: nat, at: seq<nat>, rule: ConnectivityRule, d: string, seenMs: int) {
    && p <= q < |css| && |at| == q - p + 1
    && forall l | p <= l <= q ::
         && at[l - p] < |css[l]|
         && var c := css[l][at[l - p]];
            c.rule == rule && c.device == Device(d, Some(seenMs))
  }

  lemma RowCheck(css: seq<seq<Check>>, p: nat, q: nat, at: seq<nat>, rule: ConnectivityRule, d: string, seenMs: int, l: nat)
    requires SteadyRow(css, p, q, at, rule, d, seenMs) && p <= l <= q
    ensures at[l - p] < |css[l]| && css[l][at[l - p]].rule == rule && css[l][at[l - p]].device == Device(d, Some(seenMs))
  {
  }

  lemma SweepTime(bs: seq<Begun>, css: seq<seq<Check>>, e: Engine, l: nat, i: nat)
    requires BySweeps(bs, css, e) && l < |css| && i < |css[l]|
    ensures css[l][i].nowMs == bs[l].nowMs
  {
    hide Join;
    assert SweepAt(bs[l], css[l], e.sweeps[l]);
  }

  /**
   In a run whose sweeps begin at most `gapMs` apart, a device with a fixed last-seen time that falls
   silent is reported by some sweep, at its silence limit or less than the gap later.
   */
  lemma DetectionLatencyInRuns(rules: seq<ThresholdRule>, start: Store, acts: seq<Action>, css: seq<seq<Check>>,
                               p: nat, q: nat, at: seq<nat>, rule: ConnectivityRule, d: string, seenMs: int, gapMs: int)
    returns (l: nat)
    requires BySweeps(Begins(acts), css, Exec(rules, Start(start), acts))
    requires forall b | b in Begins(acts) :: PairsApart(b.pairs)
    requires SteadyRow(css, p, q, at, rule, d, seenMs)
    requires forall k | p < k <= q :: Begins(acts)[k].nowMs - Begins(acts)[k - 1].nowMs <= gapMs
    requires !Silent(css[p][at[0]]) && Silent(css[q][at[q - p]])
    ensures p < l <= q
    ensures var e, n := Exec(rules, Start(start), acts), |Join(css[..l])| + at[l - p];
            && n < |e.checked| && e.checked[n] == css[l][at[l - p]] && RisingEdge(e.checked[..n + 1])
    ensures var limit := seenMs + 1000 * rule.silenceSeconds;
            limit <= Begins(acts)[l].nowMs < limit + gapMs
  {
    hide Exec, Silent, BySweeps, PairsApart, RisingEdge, SteadyRow, Join, Begins;
    RowLength(css, p, q, at, rule, d, seenMs);
    assert p < q;
    RowCheck(css, p, q, at, rule, d, seenMs, p + 1);
    l := p + 1;
    while !Silent(css[l][at[l - p]])
      invariant p < l <= q && at[l - p] < |css[l]| && at[l - 1 - p] < |css[l - 1]|
      invariant !Silent(css[l - 1][at[l - 1 - p]])
      decreases q - l
    {
      RowCheck(css, p, q, at, rule, d, seenMs, l + 1);
      l := l + 1;
    }
    RowCheck(css, p, q, at, rule, d, seenMs, l);
    RowCheck(css, p, q, at, rule, d, seenMs, l - 1);
    assert SamePair(css[l - 1][at[l - 1 - p]], css[l][at[l - p]]);
    AlertsOnNewSilenceInRuns(rules, start, acts, css, l, at[l - p], at[l - 1 - p]);
    SilentInMilliseconds(css[l][at[l - p]]);
    SilentInMilliseconds(css[l - 1][at[l - 1 - p]]);
    SweepTime(Begins(acts), css, Exec(rules, Start(start), acts), l, at[l - p]);
    SweepTime(Begins(acts), css, Exec(rules, Start(start), acts), l - 1, at[l - 1 - p]);
  }

  lemma RowLength(css: seq<seq<Check>>, p: nat, q: nat, at: seq<nat>, rule: ConnectivityRule, d: string, seenMs: int)
    requires SteadyRow(css, p, q, at, rule, d, seenMs)
    ensures p <= q < |css| && |at| == q - p + 1 && at[0] < |css[p]| && at[q - p] < |css[q]|
  {
  }

  /** The sweep goes over these rules and the registry rows there were at its start. */
  ghost predicate OverRegistry(b: Begun, connectivity: seq<ConnectivityRule>) {
    exists devices :: DistinctPairs(connectivity, devices) && b.pairs == RuleEngine.SweepPairs(connectivity, devices)
  }

  predicate SeparatedRules(connectivity: seq<ConnectivityRule>) {
    forall i, j | 0 <= i < j < |connectivity| :: Separated(connectivity[i].id, connectivity[j].id)
  }

  lemma CheckedRule(bs: seq<Begun>, css: seq<seq<Check>>, e: Engine, connectivity: seq<ConnectivityRule>, n: nat)
    requires BySweeps(bs, css, e) && (forall b | b in bs :: OverRegistry(b, connectivity)) && n < |e.checked|
    ensures e.checked[n].rule in connectivity
  {
    hide Join, DistinctPairs;
    var l, i := InSomeSweep(css, n);
    assert SweepAt(bs[l], css[l], e.sweeps[l]) && bs[l] in bs;
    var devices :| DistinctPairs(connectivity, devices) && bs[l].pairs == RuleEngine.SweepPairs(connectivity, devices);
    assert css[l][i].rule == bs[l].pairs[i].0;
    SweepPairRules(connectivity, devices, i);
  }

  /** Under separated rule ids, sweeps over the registry check pairs whose keys differ. */
  lemma RegistryChecksSafe(bs: seq<Begun>, css: seq<seq<Check>>, e: Engine, connectivity: seq<ConnectivityRule>)
    requires BySweeps(bs, css, e) && (forall b | b in bs :: OverRegistry(b, connectivity)) && SeparatedRules(connectivity)
    ensures SafeChecks(e.checked)
  {
    hide BySweeps, OverRegistry, Separated, SafeChecks;
    var cs := e.checked;
    forall i, j | 0 <= i < j < |cs|
      ensures cs[i].rule.id == cs[j].rule.id || Separated(cs[i].rule.id, cs[j].rule.id) {
      CheckedRule(bs, css, e, connectivity, i);
      CheckedRule(bs, css, e, connectivity, j);
      var p: nat :| p < |connectivity| && connectivity[p] == cs[i].rule;
      var q: nat :| q < |connectivity| && connectivity[q] == cs[j].rule;
      if p < q {
        assert Separated(connectivity[p].id, connectivity[q].id);
      } else if q < p {
        assert Separated(connectivity[q].id, connectivity[p].id);
        SeparatedBothWays(connectivity[q].id, connectivity[p].id);
      }
    }
    SeparatedChecksSafe(cs);
  }

  lemma SeparatedBothWays(r1: string, r2: string)
    ensures Separated(r1, r2) ==> Separated(r2, r1)
  {
  }

  /** The i-th check of the k-th sweep, of the pair of the j-th check of the sweep before, alerts on new silence only. */
  ghost predicate AlertsIfNew(e: Engine, css: seq<seq<Check>>, k: nat, i: nat, j: nat) {
    0 < k < |css| && i < |css[k]| && j < |css[k - 1]| && SamePair(css[k - 1][j], css[k][i]) ==>
      var n := |Join(css[..k])| + i;
      n < |e.checked| && (RisingEdge(e.checked[..n + 1]) <==> Silent(css[k][i]) && !Silent(css[k - 1][j]))
  }

  /**
   The offline alerts of an engine run, from its configuration: under separated rule ids, sweeps over the
   registry that take turns and hit no error publish exactly one alert for each check that finds a device
   silent which its check in the sweep before, if there was one, did not.
   */
  lemma RegistrySweepsReport(rules: seq<ThresholdRule>, start: Store, acts: seq<Action>, connectivity: seq<ConnectivityRule>)
    returns (css: seq<seq<Check>>)
    requires InTurn(Exec(rules, Start(start), acts)) && SeparatedRules(connectivity)
    requires forall b | b in Begins(acts) :: OverRegistry(b, connectivity)
    requires forall key | IsConnectivityKey(key) :: key !in start
    ensures var e := Exec(rules, Start(start), acts);
            && BySweeps(Begins(acts), css, e)
            && ((forall k :: !IsMarking(e, k)) ==> OfflineAlerts(e.published) == EdgeAlerts(e.checked))
            && forall k: nat, i: nat, j: nat :: AlertsIfNew(e, css, k, i, j)
  {
    hide Exec, BySweeps, OverRegistry, SafeChecks, OfflineAlerts, EdgeAlerts, RisingEdge, Silent, Join, SeparatedRules, PairsApart;
    css := RunBySweeps(rules, start, acts);
    var e := Exec(rules, Start(start), acts);
    RegistryChecksSafe(Begins(acts), css, e, connectivity);
    OfflineAlertsExact(rules, start, acts);
    forall b | b in Begins(acts) ensures PairsApart(b.pairs) {
      OverRegistryApart(b, connectivity);
    }
    forall k: nat, i: nat, j: nat ensures AlertsIfNew(e, css, k, i, j) {
      if 0 < k < |css| && i < |css[k]| && j < |css[k - 1]| && SamePair(css[k - 1][j], css[k][i]) {
        AlertsOnNewSilenceInRuns(rules, start, acts, css, k, i, j);
      }
    }
  }

  lemma OverRegistryApart(b: Begun, connectivity: seq<ConnectivityRule>)
    requires OverRegistry(b, connectivity)
    ensures PairsApart(b.pairs)
  {
    var devices :| DistinctPairs(connectivity, devices) && b.pairs == RuleEngine.SweepPairs(connectivity, devices);
    RegistryPairsApart(connectivity, devices);
  }
}
