/**
 What an alert says, in the configured numbers and the reading's own fields: every alert in the table
 justifies itself by a rule and a reading, or by a rule, a registry row and a sweep's time.
 */
module AlertPayload {
  import opened Options
  import opened Readings
  import StoreKeys
  import opened RuleSchema
  import opened KeyValueStore
  import opened Evaluation
  import opened Episodes
  import opened Registry
  import opened ConsumerChannel
  import opened Pipeline
  import Connectivity
  import EngineSteps
  import EngineHistory
  import Flow = IngestionFlow

  /** Position i of the history is the first sustained reading of a run of the rule, and the alert reports it. */
  ghost predicate DemandedAt(rules: seq<ThresholdRule>, rs: seq<Reading>, a: Alert, rule: ThresholdRule, i: int)
    requires AllMeetSchema(rules)
  {
    rule in rules && 0 <= i < |rs| && MustAlert(rule, rs[..i + 1]) && Says(rule, rs[i], a)
  }

  lemma {:induction false} LastAlertsMeaning(rules: seq<ThresholdRule>, rs: seq<Reading>, a: Alert)
    requires rs != [] && AllMeetSchema(rules)
    ensures a in LastAlerts(rules, rs) <==>
              exists rule :: rule in rules && MustAlert(rule, rs) && Says(rule, rs[|rs| - 1], a)
  {
    if rules != [] {
      hide MustAlert, Says, AlertFor, Breaching;
      var init, last := rules[..|rules| - 1], rules[|rules| - 1];
      assert forall rule :: rule in rules <==> rule in init || rule == last;
      LastAlertsMeaning(init, rs, a);
      SaysExactly(last, rs[|rs| - 1], a);
      if MustAlert(last, rs) {
        DemandedBreaches(last, rs);
      }
    }
  }

  /** The last reading of a run breaches. */
  lemma DemandedBreaches(rule: ThresholdRule, rs: seq<Reading>)
    requires rs != [] && MustAlert(rule, rs)
    ensures Breaching(rule, rs[|rs| - 1])
  {
    hide Breaching, Sustained, SustainedSince;
  }

  /**
   The history's alerts are exactly the reports of first sustained readings: each is one, and each such
   reading has its report among them.
   */
  lemma {:induction false} HistoryAlertsMeaning(rules: seq<ThresholdRule>, rs: seq<Reading>, a: Alert)
    requires AllMeetSchema(rules)
    ensures a in HistoryAlerts(rules, rs) <==> exists rule, i :: DemandedAt(rules, rs, a, rule, i)
  {
    hide MustAlert, Says, LastAlerts;
    if rs != [] {
      var init, n := rs[..|rs| - 1], |rs| - 1;
      HistoryAlertsMeaning(rules, init, a);
      LastAlertsMeaning(rules, rs, a);
      assert rs[..n + 1] == rs;
      forall rule, i ensures DemandedAt(rules, rs, a, rule, i) <==>
          DemandedAt(rules, init, a, rule, i) || (i == n && rule in rules && MustAlert(rule, rs) && Says(rule, rs[n], a)) {
        if 0 <= i < n {
          assert init[..i + 1] == rs[..i + 1] && init[i] == rs[i];
        }
      }
      forall rule | rule in rules && MustAlert(rule, rs) && Says(rule, rs[n], a)
        ensures DemandedAt(rules, rs, a, rule, n) {
      }
    }
  }

  /** The rule reports one of these readings. */
  ghost predicate ByReading(rules: seq<ThresholdRule>, rs: seq<Reading>, a: Alert) {
    exists rule, t :: rule in rules && t in rs && Breaching(rule, t) && a == AlertFor(rule, t)
  }

  /** The action starts a sweep over the pair at this time. */
  predicate StartsSweep(b: Action, nowMs: int, rule: ConnectivityRule, device: Connectivity.Device) {
    && b.Evaluate? && b.engine.StartSweep?
    && b.engine.nowMs == nowMs && (rule, device) in b.engine.pairs
  }

  ghost predicate Swept(acts: seq<Action>, nowMs: int, rule: ConnectivityRule, device: Connectivity.Device) {
    exists b :: b in acts && StartsSweep(b, nowMs, rule, device)
  }

  /** The clock showed this when a sweep published. */
  predicate ShownBy(b: Action, clockMs: int) {
    b.Evaluate? && b.engine.SweepResume? && b.engine.clockMs == clockMs
  }

  ghost predicate Stamped(acts: seq<Action>, clockMs: int) {
    exists b :: b in acts && ShownBy(b, clockMs)
  }

  ghost predicate BySweep(acts: seq<Action>, a: Alert) {
    && Stamped(acts, a.triggeredAtMs)
    && exists rule, device, nowMs :: Swept(acts, nowMs, rule, device) && Connectivity.SaysOffline(rule, device, nowMs, a)
  }

  /** The alert reports a reading against a rule, or a silence that a sweep of the run has found. */
  ghost predicate Grounded(rules: seq<ThresholdRule>, acts: seq<Action>, rs: seq<Reading>, a: Alert) {
    if a.metric.OfTelemetry? then ByReading(rules, rs, a) else BySweep(acts, a)
  }

  /** A sweep under way checks pairs it was started with, and past its look only silent ones. */
  ghost predicate SweepGrounded(acts: seq<Action>, s: EngineSteps.Sweep) {
    && (forall pair | pair in s.pairs :: Swept(acts, s.nowMs, pair.0, pair.1))
    && (s.pairs != [] && !s.phase.Ready? ==> Connectivity.Silent(EngineSteps.HeadCheck(s, s.nowMs, Completed)))
  }

  ghost predicate EngineGrounded(rules: seq<ThresholdRule>, acts: seq<Action>, rs: seq<Reading>, e: EngineSteps.Engine) {
    && (forall a | a in e.published :: Grounded(rules, acts, rs, a))
    && (forall k | 0 <= k < |e.sweeps| :: SweepGrounded(acts, e.sweeps[k]))
  }

  /** What has been put on the alerts queue, and what has been inserted, has been published. */
  ghost predicate FromPublished(s: System) {
    && (forall a | a in s.alerts.queue :: a in s.engine.published)
    && (s.alerts.inFlight.Some? ==> s.alerts.inFlight.value in s.engine.published)
    && (forall a | a in s.inserted :: a in s.engine.published)
  }

  lemma GroundedLater(rules: seq<ThresholdRule>, acts: seq<Action>, b: Action, rs: seq<Reading>, rs': seq<Reading>, a: Alert)
    requires Grounded(rules, acts, rs, a) && rs <= rs'
    ensures Grounded(rules, acts + [b], rs', a)
  {
    hide Breaching, AlertFor, StartsSweep, Connectivity.SaysOffline, ShownBy;
    if a.metric.OfTelemetry? {
      var rule, t :| rule in rules && t in rs && Breaching(rule, t) && a == AlertFor(rule, t);
      var i :| 0 <= i < |rs| && rs[i] == t;
      assert rs'[i] == t;
    } else {
      var rule, device, nowMs :| Swept(acts, nowMs, rule, device) && Connectivity.SaysOffline(rule, device, nowMs, a);
      SweptLater(acts, b, nowMs, rule, device);
      StampedLater(acts, b, a.triggeredAtMs);
    }
  }

  lemma SweptLater(acts: seq<Action>, b: Action, nowMs: int, rule: ConnectivityRule, device: Connectivity.Device)
    ensures Swept(acts, nowMs, rule, device) ==> Swept(acts + [b], nowMs, rule, device)
    ensures StartsSweep(b, nowMs, rule, device) ==> Swept(acts + [b], nowMs, rule, device)
  {
    hide StartsSweep;
    assert forall x | x in acts :: x in acts + [b];
    assert b in acts + [b];
  }

  lemma StampedLater(acts: seq<Action>, b: Action, clockMs: int)
    ensures Stamped(acts, clockMs) ==> Stamped(acts + [b], clockMs)
    ensures ShownBy(b, clockMs) ==> Stamped(acts + [b], clockMs)
  {
    hide ShownBy;
    assert forall x | x in acts :: x in acts + [b];
    assert b in acts + [b];
  }

  lemma SweepGroundedLater(acts: seq<Action>, b: Action, s: EngineSteps.Sweep)
    requires SweepGrounded(acts, s)
    ensures SweepGrounded(acts + [b], s)
  {
    hide Swept, Connectivity.Silent;
    forall pair | pair in s.pairs ensures Swept(acts + [b], s.nowMs, pair.0, pair.1) {
      SweptLater(acts, b, s.nowMs, pair.0, pair.1);
    }
  }

  /** All that was grounded stays so in a longer run over more readings. */
  lemma EngineLater(rules: seq<ThresholdRule>, acts: seq<Action>, b: Action, rs: seq<Reading>, rs': seq<Reading>,
                    e: EngineSteps.Engine)
    requires EngineGrounded(rules, acts, rs, e) && rs <= rs'
    ensures EngineGrounded(rules, acts + [b], rs', e)
  {
    hide Grounded, SweepGrounded;
    forall a | a in e.published ensures Grounded(rules, acts + [b], rs', a) {
      GroundedLater(rules, acts, b, rs, rs', a);
    }
    forall k | 0 <= k < |e.sweeps| ensures SweepGrounded(acts + [b], e.sweeps[k]) {
      SweepGroundedLater(acts, b, e.sweeps[k]);
    }
  }

  /** The handler publishes reports of the message in flight. */
  lemma HandlerGrounded(rules: seq<ThresholdRule>, acts: seq<Action>, rs: seq<Reading>, e: EngineSteps.Engine,
                        a: EngineSteps.Action)
    requires EngineGrounded(rules, acts, rs, e) && EngineSteps.PcInv(rules, e)
    requires e.inbox.inFlight.Some? ==> e.inbox.inFlight.value in rs
    ensures EngineGrounded(rules, acts, rs, EngineSteps.HandlerStep(rules, e, a))
  {
    hide Breaching, AlertFor, NextState, SweepGrounded, EngineSteps.Conclude, BySweep;
    EngineSteps.HandlerEffect(rules, e, a);
    var e' := EngineSteps.HandlerStep(rules, e, a);
    if a.Resume? && e.pc.Fetched? && e.inbox.inFlight.Some? {
      var rule, t := rules[e.pc.i], e.inbox.inFlight.value;
      assert AlertFor(rule, t).metric.OfTelemetry? by { AlertKind(rule, t); }
      assert ByReading(rules, rs, AlertFor(rule, t));
    } else {
      HandlerQuiet(rules, e, a);
    }
  }

  lemma AlertKind(rule: ThresholdRule, t: Reading)
    ensures AlertFor(rule, t).metric.OfTelemetry?
  {
  }

  /** Only resuming after the read publishes. */
  lemma HandlerQuiet(rules: seq<ThresholdRule>, e: EngineSteps.Engine, a: EngineSteps.Action)
    requires !(a.Resume? && e.pc.Fetched? && e.inbox.inFlight.Some?)
    ensures EngineSteps.HandlerStep(rules, e, a).published == e.published
  {
    hide Breaching, AlertFor, NextState;
  }

  lemma SameSilence(s: EngineSteps.Sweep, clockMs: int)
    requires s.pairs != [] && Connectivity.Silent(EngineSteps.HeadCheck(s, s.nowMs, Completed))
    ensures Connectivity.Silent(EngineSteps.HeadCheck(s, clockMs, Completed))
  {
  }

  /** A silent pair's alert is a report of the sweep that publishes it. */
  lemma ReportGrounded(acts: seq<Action>, s: EngineSteps.Sweep, clockMs: int)
    requires SweepGrounded(acts, s) && s.pairs != [] && !s.phase.Ready? && Stamped(acts, clockMs)
    ensures var a := Connectivity.OfflineAlert(EngineSteps.HeadCheck(s, clockMs, Completed));
            BySweep(acts, a) && !a.metric.OfTelemetry?
  {
    hide Connectivity.Silent, Connectivity.OfflineAlert, Swept, Stamped;
    var c := EngineSteps.HeadCheck(s, clockMs, Completed);
    SameSilence(s, clockMs);
    Connectivity.SilentSays(c);
    assert s.pairs[0] in s.pairs;
    assert Swept(acts, s.nowMs, c.rule, c.device);
  }

  /** Within its check a sweep keeps its pairs, and goes on only if the device is silent. */
  lemma PhaseGrounded(acts: seq<Action>, s: EngineSteps.Sweep, phase: EngineSteps.SweepPhase)
    requires SweepGrounded(acts, s)
    requires s.pairs != [] && !phase.Ready? ==> Connectivity.Silent(EngineSteps.HeadCheck(s, s.nowMs, Completed))
    ensures SweepGrounded(acts, s.(phase := phase))
  {
    hide Connectivity.Silent, Swept;
  }

  lemma NextGrounded(acts: seq<Action>, s: EngineSteps.Sweep, ok: bool)
    requires SweepGrounded(acts, s) && s.pairs != []
    ensures SweepGrounded(acts, EngineSteps.NextPair(s, ok))
  {
    hide Connectivity.Silent, Swept;
  }

  /** A sweep publishes reports of silences it has found. */
  lemma SweepStepGrounded(rules: seq<ThresholdRule>, acts: seq<Action>, rs: seq<Reading>, e: EngineSteps.Engine, k: nat,
                          a: EngineSteps.Action, connected: bool)
    requires EngineGrounded(rules, acts, rs, e) && Evaluate(a, connected) in acts
    ensures EngineGrounded(rules, acts, rs, EngineSteps.SweepStep(e, k, a))
  {
    hide Connectivity.Silent, Connectivity.OfflineAlert, Connectivity.CheckKey, SweepGrounded, ByReading, BySweep, Stamped,
         EngineSteps.HeadCheck, EngineSteps.NextPair;
    if EngineSteps.Active(e, k) {
      var s := e.sweeps[k];
      NextGrounded(acts, s, true);
      NextGrounded(acts, s, false);
      match s.phase {
        case Ready =>
          var c := EngineSteps.HeadCheck(s, s.nowMs, Completed);
          if Connectivity.Silent(c) {
            PhaseGrounded(acts, s, EngineSteps.Looked(Connectivity.CheckKey(c) in e.store));
          }
        case Looked(present) =>
          if a.SweepResume? && !present {
            StampedHere(acts, a, connected);
            ReportGrounded(acts, s, a.clockMs);
            LookedSilent(acts, s);
            PhaseGrounded(acts, s, EngineSteps.Marking(a.clockMs));
          }
        case Marking(_) =>
      }
    }
  }

  lemma StampedHere(acts: seq<Action>, a: EngineSteps.Action, connected: bool)
    requires Evaluate(a, connected) in acts && a.SweepResume?
    ensures Stamped(acts, a.clockMs)
  {
    assert ShownBy(Evaluate(a, connected), a.clockMs);
  }

  lemma LookedSilent(acts: seq<Action>, s: EngineSteps.Sweep)
    requires SweepGrounded(acts, s) && s.pairs != [] && !s.phase.Ready?
    ensures Connectivity.Silent(EngineSteps.HeadCheck(s, s.nowMs, Completed))
  {
  }

  lemma BeginGrounded(rules: seq<ThresholdRule>, acts: seq<Action>, rs: seq<Reading>, e: EngineSteps.Engine,
                      a: EngineSteps.Action, connected: bool)
    requires EngineGrounded(rules, acts, rs, e) && Evaluate(a, connected) in acts && a.StartSweep?
    ensures EngineGrounded(rules, acts, rs, EngineSteps.Step(rules, e, a))
  {
    hide Grounded, Connectivity.Silent;
    forall pair | pair in a.pairs ensures Swept(acts, a.nowMs, pair.0, pair.1) {
      assert StartsSweep(Evaluate(a, connected), a.nowMs, pair.0, pair.1);
    }
    assert SweepGrounded(acts, EngineSteps.Sweep(a.nowMs, a.pairs, EngineSteps.Ready));
  }

  lemma EngineStepGrounded(rules: seq<ThresholdRule>, acts: seq<Action>, rs: seq<Reading>, e: EngineSteps.Engine,
                           a: EngineSteps.Action, connected: bool)
    requires EngineGrounded(rules, acts, rs, e) && EngineSteps.PcInv(rules, e) && Evaluate(a, connected) in acts
    requires e.inbox.inFlight.Some? ==> e.inbox.inFlight.value in rs
    ensures EngineGrounded(rules, acts, rs, EngineSteps.Step(rules, e, a))
  {
    hide EngineSteps.HandlerStep, EngineSteps.SweepStep, EngineSteps.PcInv, Grounded, SweepGrounded, EngineSteps.Active;
    match a {
      case Receive(_) =>
      case StartSweep(_, _) => BeginGrounded(rules, acts, rs, e, a, connected);
      case SweepDelete(k, _) => SweepStepGrounded(rules, acts, rs, e, k, a, connected);
      case SweepLook(k, _) => SweepStepGrounded(rules, acts, rs, e, k, a, connected);
      case SweepResume(k, _) => SweepStepGrounded(rules, acts, rs, e, k, a, connected);
      case SweepMark(k, _) => SweepStepGrounded(rules, acts, rs, e, k, a, connected);
      case _ => HandlerGrounded(rules, acts, rs, e, a);
    }
  }

  /** Alerts reach the queue when they are published, and the table from the queue. */
  lemma StepFromPublished(rules: seq<ThresholdRule>, batchSize: nat, s: System, a: Action)
    requires FromPublished(s)
    ensures FromPublished(Step(rules, batchSize, s, a))
  {
    hide EngineSteps.Step, Flow.Step;
    match a {
      case Evaluate(b, _) =>
        if !b.Receive? {
          PublishedGrows(rules, s.engine, b);
          AddedRejoins(s.engine.published, EngineSteps.Step(rules, s.engine, b).published);
        }
      case _ =>
    }
  }

  /** The message in flight is one of the enqueued readings. */
  lemma InFlightEnqueued(s: System)
    requires Joined(s) && Flow.Conserved(s.flow) && Flow.Tables(s.flow)
    ensures s.engine.inbox.inFlight.Some? ==> s.engine.inbox.inFlight.value in s.flow.enqueued
  {
    hide Concat, Flow.AnnouncedBatches, Flow.Attempted, Flow.StoredBatches, Messages, DeadLetters;
    if s.engine.inbox.inFlight.Some? {
      var c, t := s.engine.inbox, s.engine.inbox.inFlight.value;
      assert History(c)[|Messages(c.settled)|] == t;
      AnnouncedAttempted(s.flow.attempts, t);
    }
  }

  lemma {:induction false} AnnouncedAttempted(attempts: seq<Flow.Attempt>, t: Reading)
    requires t in Concat(Flow.AnnouncedBatches(attempts))
    ensures t in Concat(Flow.Attempted(attempts))
  {
    hide Flow.AnnouncedBatches, Flow.Attempted, Concat;
    if attempts == [] {
      NoneAnnounced(t);
    } else {
      var init, a := attempts[..|attempts| - 1], attempts[|attempts| - 1];
      assert init + [a] == attempts;
      Flow.AttemptSnoc(init, a);
      ConcatSnoc(Flow.AnnouncedBatches(init), a.batch);
      ConcatSnoc(Flow.Attempted(init), a.batch);
      if t in Concat(Flow.AnnouncedBatches(init)) {
        AnnouncedAttempted(init, t);
      }
    }
  }

  lemma NoneAnnounced(t: Reading)
    ensures t !in Concat(Flow.AnnouncedBatches([]))
  {
  }

  lemma EnqueuedGrows(batchSize: nat, flow: Flow.Flow, a: Flow.Action)
    ensures flow.enqueued <= Flow.Step(batchSize, flow, a).enqueued
  {
    hide Upsert, Flow.ShadowWrite;
  }

  ghost predicate SystemGrounded(rules: seq<ThresholdRule>, acts: seq<Action>, s: System) {
    EngineGrounded(rules, acts, s.flow.enqueued, s.engine) && FromPublished(s)
  }

  lemma StepGrounded(rules: seq<ThresholdRule>, batchSize: nat, acts: seq<Action>, s: System, a: Action)
    requires SystemGrounded(rules, acts, s) && Joined(s) && Flow.Conserved(s.flow) && Flow.Tables(s.flow)
    requires EngineSteps.PcInv(rules, s.engine)
    ensures SystemGrounded(rules, acts + [a], Step(rules, batchSize, s, a))
  {
    hide EngineSteps.Step, Flow.Step, EngineSteps.PcInv, Grounded, SweepGrounded, FromPublished, Joined, Flow.Conserved,
         Flow.Tables;
    StepFromPublished(rules, batchSize, s, a);
    var rs := s.flow.enqueued;
    match a {
      case Ingest(b) =>
        EnqueuedGrows(batchSize, s.flow, b);
        EngineLater(rules, acts, a, rs, Flow.Step(batchSize, s.flow, b).enqueued, s.engine);
      case Evaluate(b, connected) =>
        EngineLater(rules, acts, a, rs, rs, s.engine);
        InFlightEnqueued(s);
        EngineStepGrounded(rules, acts + [a], rs, s.engine, b, connected);
      case _ => EngineLater(rules, acts, a, rs, rs, s.engine);
    }
  }

  lemma StartGrounded(rules: seq<ThresholdRule>, store: Store)
    ensures SystemGrounded(rules, [], Start(store))
  {
    hide Grounded, SweepGrounded;
  }

  lemma NoStep(rules: seq<ThresholdRule>, batchSize: nat, store: Store)
    ensures Exec(rules, batchSize, store, []) == Start(store)
  {
  }

  lemma LastStep(rules: seq<ThresholdRule>, batchSize: nat, store: Store, acts: seq<Action>)
    requires acts != []
    ensures Exec(rules, batchSize, store, acts) ==
            Step(rules, batchSize, Exec(rules, batchSize, store, acts[..|acts| - 1]), acts[|acts| - 1])
  {
    hide Step;
  }

  lemma RunParts(rules: seq<ThresholdRule>, batchSize: nat, store: Store, acts: seq<Action>)
    requires batchSize > 0
    ensures var s := Exec(rules, batchSize, store, acts);
            Joined(s) && Flow.Conserved(s.flow) && Flow.Tables(s.flow) && EngineSteps.PcInv(rules, s.engine)
  {
    hide Exec, Joined, Flow.Conserved, Flow.Tables, Flow.Shadows, Flow.FlushPending, Flow.Draining, EngineSteps.PcInv,
         EngineSteps.Refines, EngineHistory.LogShape;
    SystemInvariant(rules, batchSize, store, acts);
  }

  lemma {:induction false} RunGrounded(rules: seq<ThresholdRule>, batchSize: nat, store: Store, acts: seq<Action>)
    requires batchSize > 0
    ensures SystemGrounded(rules, acts, Exec(rules, batchSize, store, acts))
  {
    hide *;
    if acts == [] {
      StartGrounded(rules, store);
      NoStep(rules, batchSize, store);
    } else {
      var init, a := acts[..|acts| - 1], acts[|acts| - 1];
      RunGrounded(rules, batchSize, store, init);
      RunParts(rules, batchSize, store, init);
      StepGrounded(rules, batchSize, init, Exec(rules, batchSize, store, init), a);
      LastStep(rules, batchSize, store, acts);
      assert init + [a] == acts;
    }
  }

  /**
   Every alert in the table justifies itself, in every run with every failure: a threshold alert by a
   rule and an enqueued reading it reports field by field, an offline alert by a sweep of the run over
   its rule and row, whose silence it reports.
   */
  lemma InsertedJustified(rules: seq<ThresholdRule>, batchSize: nat, store: Store, acts: seq<Action>, a: Alert)
    requires batchSize > 0 && AllMeetSchema(rules)
    requires a in Exec(rules, batchSize, store, acts).inserted
    ensures a.metric.OfTelemetry? ==>
              exists rule, t :: rule in rules && t in Exec(rules, batchSize, store, acts).flow.enqueued && Says(rule, t, a)
    ensures a.metric.Connectivity? ==>
              exists rule, device, nowMs :: Swept(acts, nowMs, rule, device) && Connectivity.SaysOffline(rule, device, nowMs, a)
    ensures a.metric.Connectivity? ==> Stamped(acts, a.triggeredAtMs)
  {
    hide Exec, Says, Breaching, AlertFor, Connectivity.SaysOffline, Swept, Stamped, RuleSchema.MeetsSchema, SweepGrounded;
    RunGrounded(rules, batchSize, store, acts);
    if a.metric.OfTelemetry? {
      var rs := Exec(rules, batchSize, store, acts).flow.enqueued;
      var rule, t :| rule in rules && t in rs && Breaching(rule, t) && a == AlertFor(rule, t);
      SaysExactly(rule, t, a);
    }
  }

  /**
   While nothing has been dropped, a threshold alert in the table moreover reports the first sustained
   reading of a run, and at rest every such reading of the enqueued ones has its report in the table.
   */
  lemma InsertedDemanded(rules: seq<ThresholdRule>, batchSize: nat, store: Store, acts: seq<Action>, a: Alert)
    requires batchSize > 0 && SafeOn(rules, DevicesOf(Exec(rules, batchSize, store, acts).flow.enqueued))
    requires AllMeetSchema(rules) && forall key | StoreKeys.IsRuleKey(key) :: key !in store
    requires var s := Exec(rules, batchSize, store, acts); NothingDropped(s) && EveryBatchAnnounced(s)
    ensures var s := Exec(rules, batchSize, store, acts);
            && (a in EngineSteps.ThresholdAlerts(s.inserted) ==>
                  exists rule, i :: DemandedAt(rules, s.flow.enqueued, a, rule, i))
            && (Quiescent(s) ==>
                  (a in EngineSteps.ThresholdAlerts(s.inserted) <==>
                     exists rule, i :: DemandedAt(rules, s.flow.enqueued, a, rule, i)))
  {
    hide *;
    EndToEnd(rules, batchSize, store, acts);
    HistoryAlertsMeaning(rules, Exec(rules, batchSize, store, acts).flow.enqueued, a);
  }
}
