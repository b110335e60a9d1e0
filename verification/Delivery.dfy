/**
 The pipeline gets its work done: from any reachable state it can be brought to rest, losing nothing
 more, exactly unless readings sit in the buffer that no flush will ever take; and at rest the alerts
 are in the table. So every stream has a run that inserts exactly the alerts it demands.
 */
module Delivery {
  import opened Options
  import opened Readings
  import opened StoreKeys
  import opened RuleSchema
  import opened KeyValueStore
  import opened Evaluation
  import opened Episodes
  import opened Registry
  import opened ConsumerChannel
  import opened Pipeline
  import AlertPayload
  import Connectivity
  import EngineSteps
  import Isolation
  import EngineHistory
  import Flow = IngestionFlow

  /** Attempts have only been added, and all the new ones were stored and announced. */
  ghost predicate OnlyAnnounced(before: seq<Flow.Attempt>, after: seq<Flow.Attempt>) {
    before <= after && forall k | |before| <= k < |after| :: after[k].fate == Flow.Stored(true)
  }

  /** Nothing more has been enqueued, no sweep started, and nothing more lost. */
  ghost predicate Kept(s: System, s': System) {
    && s'.flow.enqueued == s.flow.enqueued && s'.engine.sweeps == s.engine.sweeps
    && OnlyAnnounced(s.flow.attempts, s'.flow.attempts)
    && DeadLetters(s'.engine.inbox.settled) == DeadLetters(s.engine.inbox.settled)
    && DeadLetters(s'.alerts.settled) == DeadLetters(s.alerts.settled)
    && s'.skipped == s.skipped
  }

  lemma KeptTrans(s: System, s': System, s'': System)
    requires Kept(s, s') && Kept(s', s'')
    ensures Kept(s, s'')
  {
  }

  lemma ExecSnoc(rules: seq<ThresholdRule>, batchSize: nat, store: Store, acts: seq<Action>, a: Action)
    ensures Exec(rules, batchSize, store, acts + [a]) == Step(rules, batchSize, Exec(rules, batchSize, store, acts), a)
  {
    hide Step;
    assert (acts + [a])[..|acts|] == acts;
  }

  /** Some flush, due or to come, takes what is in the buffer. */
  predicate Flushable(flow: Flow.Flow) {
    flow.buffer == [] || flow.timerOn || flow.started < flow.scheduled
  }

  /** The next step of the flush chain when all goes well. */
  function DueFlush(flow: Flow.Flow): Flow.Action {
    if flow.inFlight.Some? then Flow.Commit(true)
    else if flow.started < flow.scheduled then Flow.BeginFlush
    else Flow.Tick
  }

  predicate FlowAtRest(flow: Flow.Flow) {
    flow.buffer == [] && flow.inFlight.None?
  }

  function FlowWork(flow: Flow.Flow): nat {
    (if flow.inFlight.Some? then 1 else 0) + (if flow.scheduled <= flow.started then 1 else 0)
  }

  lemma FlushProceeds(batchSize: nat, flow: Flow.Flow)
    requires Flushable(flow) && !FlowAtRest(flow) && flow.started <= flow.scheduled
    ensures var flow' := Flow.Step(batchSize, flow, DueFlush(flow));
            && Flushable(flow') && flow'.enqueued == flow.enqueued
            && OnlyAnnounced(flow.attempts, flow'.attempts)
            && (|flow'.buffer| < |flow.buffer| ||
                (flow'.buffer == flow.buffer && FlowWork(flow') < FlowWork(flow)))
  {
    hide Upsert, Flow.ShadowWrite;
  }

  lemma FlushKeeps(rules: seq<ThresholdRule>, batchSize: nat, s: System)
    requires Flushable(s.flow) && !FlowAtRest(s.flow) && s.flow.started <= s.flow.scheduled
    ensures var s' := Step(rules, batchSize, s, Ingest(DueFlush(s.flow)));
            Kept(s, s') && s'.flow == Flow.Step(batchSize, s.flow, DueFlush(s.flow))
  {
    hide Flow.Step, OnlyAnnounced, SharedStore, DeadLetters, Flushable;
    FlushProceeds(batchSize, s.flow);
  }

  /** The buffer and the batch under way can be stored and announced. */
  lemma {:induction false} FlowDrains(rules: seq<ThresholdRule>, batchSize: nat, store: Store, acts: seq<Action>)
    returns (more: seq<Action>)
    requires batchSize > 0 && Flushable(Exec(rules, batchSize, store, acts).flow)
    ensures acts <= more
    ensures var s, s' := Exec(rules, batchSize, store, acts), Exec(rules, batchSize, store, more);
            Kept(s, s') && FlowAtRest(s'.flow)
    decreases |Exec(rules, batchSize, store, acts).flow.buffer|, FlowWork(Exec(rules, batchSize, store, acts).flow)
  {
    hide Exec, Step, Kept, Flushable, FlowWork, DueFlush;
    var s := Exec(rules, batchSize, store, acts);
    ScheduledBound(rules, batchSize, store, acts);
    if FlowAtRest(s.flow) {
      KeptSame(s);
      more := acts;
    } else {
      var a := Ingest(DueFlush(s.flow));
      FlushProceeds(batchSize, s.flow);
      FlushKeeps(rules, batchSize, s);
      ExecSnoc(rules, batchSize, store, acts, a);
      more := FlowDrains(rules, batchSize, store, acts + [a]);
      KeptTrans(s, Step(rules, batchSize, s, a), Exec(rules, batchSize, store, more));
    }
  }

  lemma KeptSame(s: System)
    ensures Kept(s, s)
  {
  }

  lemma ScheduledBound(rules: seq<ThresholdRule>, batchSize: nat, store: Store, acts: seq<Action>)
    requires batchSize > 0
    ensures var flow := Exec(rules, batchSize, store, acts).flow; flow.started <= flow.scheduled
  {
    hide Exec, Joined, EngineInv, Flow.Tables, Flow.Shadows, Flow.FlushPending, Flow.Draining, Concat, Flow.Attempted;
    SystemInvariant(rules, batchSize, store, acts);
  }

  /** The next step of the telemetry handler when all goes well. */
  function Due(rules: seq<ThresholdRule>, e: EngineSteps.Engine): EngineSteps.Action {
    match e.pc
    case Idle => EngineSteps.TakeMessage
    case Evaluating(i) =>
      if i >= |rules| || e.inbox.inFlight.None? then EngineSteps.Finish
      else if Breaching(rules[i], e.inbox.inFlight.value) then EngineSteps.Fetch(true)
      else EngineSteps.Delete(Written)
    case Fetched(_, _) => EngineSteps.Resume
    case Storing(_, _) => EngineSteps.Write(Written)
  }

  /** The steps left for the message in flight. */
  function Left(rules: seq<ThresholdRule>, pc: EngineSteps.Pc): int {
    match pc
    case Idle => 0
    case Evaluating(i) => 3 * (|rules| - i) + 1
    case Fetched(i, _) => 3 * (|rules| - i)
    case Storing(i, _) => 3 * (|rules| - i) - 1
  }

  predicate EngineAtRest(e: EngineSteps.Engine) {
    e.pc.Idle? && e.inbox.queue == []
  }

  /** One step further, with nothing failed. */
  ghost predicate Further(rules: seq<ThresholdRule>, e: EngineSteps.Engine, e': EngineSteps.Engine) {
    && e'.sweeps == e.sweeps && DeadLetters(e'.inbox.settled) == DeadLetters(e.inbox.settled)
    && (|e'.inbox.queue| < |e.inbox.queue| ||
        (e'.inbox.queue == e.inbox.queue && 0 <= Left(rules, e'.pc) < Left(rules, e.pc)))
  }

  /** A completed evaluation leads to the next rule. */
  lemma ConcludeFurther(rules: seq<ThresholdRule>, e: EngineSteps.Engine, i: nat, mid: EngineSteps.Engine)
    requires i < |rules| && e.inbox.inFlight.Some? && Left(rules, e.pc) >= 3 * (|rules| - i) - 1
    requires mid.inbox == e.inbox && mid.sweeps == e.sweeps
    ensures Further(rules, e, EngineSteps.Conclude(mid, rules, i, Completed))
  {
    hide DeadLetters;
  }

  lemma FinishFurther(rules: seq<ThresholdRule>, e: EngineSteps.Engine)
    requires e.pc == EngineSteps.Evaluating(|rules|) && e.inbox.inFlight.Some?
    ensures Further(rules, e, EngineSteps.HandlerStep(rules, e, EngineSteps.Finish))
  {
    hide DeadLetters;
    MessagesSnoc(e.inbox.settled, Delivery(e.inbox.inFlight.value, true));
  }

  /** The due step of the handler moves on, and fails nothing. */
  lemma HandlerFurther(rules: seq<ThresholdRule>, e: EngineSteps.Engine)
    requires EngineSteps.PcInv(rules, e) && !EngineAtRest(e)
    ensures Further(rules, e, EngineSteps.HandlerStep(rules, e, Due(rules, e)))
  {
    hide Breaching, Fires, NextState, AlertFor, DeadLetters, EngineSteps.Conclude, RuleKey, CellAt;
    match e.pc {
      case Idle =>
      case Evaluating(i) =>
        if i == |rules| {
          FinishFurther(rules, e);
        } else if !Breaching(rules[i], e.inbox.inFlight.value) {
          ConcludeFurther(rules, e, i, e.(store := e.store - {RuleKey(rules[i].id, e.inbox.inFlight.value.deviceId)}));
        }
      case Fetched(_, _) =>
      case Storing(i, state) =>
        var key := RuleKey(rules[i].id, e.inbox.inFlight.value.deviceId);
        ConcludeFurther(rules, e, i, e.(store := e.store[key := Breach(state)]));
    }
  }

  lemma DueProceeds(rules: seq<ThresholdRule>, e: EngineSteps.Engine)
    requires EngineSteps.PcInv(rules, e) && !EngineAtRest(e)
    ensures Further(rules, e, EngineSteps.Step(rules, e, Due(rules, e)))
  {
    hide EngineSteps.HandlerStep, EngineSteps.PcInv, Further, Breaching;
    HandlerFurther(rules, e);
  }

  lemma EvaluationKeeps(rules: seq<ThresholdRule>, batchSize: nat, s: System)
    requires EngineSteps.PcInv(rules, s.engine) && !EngineAtRest(s.engine)
    ensures var s' := Step(rules, batchSize, s, Evaluate(Due(rules, s.engine), true));
            Kept(s, s') && s'.flow == s.flow && s'.engine == EngineSteps.Step(rules, s.engine, Due(rules, s.engine))
  {
    hide EngineSteps.Step, DeadLetters, EngineSteps.PcInv, Left;
    DueProceeds(rules, s.engine);
  }

  lemma PcOf(rules: seq<ThresholdRule>, batchSize: nat, store: Store, acts: seq<Action>)
    requires batchSize > 0
    ensures EngineSteps.PcInv(rules, Exec(rules, batchSize, store, acts).engine)
  {
    hide Exec, Joined, EngineSteps.Refines, EngineHistory.LogShape, EngineSteps.PcInv, Flow.FlowInv;
    SystemInvariant(rules, batchSize, store, acts);
  }

  /** The message in flight and those waiting can be evaluated to the end. */
  lemma {:induction false} EngineDrains(rules: seq<ThresholdRule>, batchSize: nat, store: Store, acts: seq<Action>)
    returns (more: seq<Action>)
    requires batchSize > 0
    ensures acts <= more
    ensures var s, s' := Exec(rules, batchSize, store, acts), Exec(rules, batchSize, store, more);
            Kept(s, s') && s'.flow == s.flow && EngineAtRest(s'.engine)
    decreases |Exec(rules, batchSize, store, acts).engine.inbox.queue|, Left(rules, Exec(rules, batchSize, store, acts).engine.pc)
  {
    hide Exec, Step, Kept, Left, Due, EngineSteps.Step, EngineSteps.PcInv, DeadLetters;
    var s := Exec(rules, batchSize, store, acts);
    if EngineAtRest(s.engine) {
      KeptSame(s);
      more := acts;
    } else {
      var a := Evaluate(Due(rules, s.engine), true);
      PcOf(rules, batchSize, store, acts);
      DueProceeds(rules, s.engine);
      EvaluationKeeps(rules, batchSize, s);
      ExecSnoc(rules, batchSize, store, acts, a);
      more := EngineDrains(rules, batchSize, store, acts + [a]);
      KeptTrans(s, Step(rules, batchSize, s, a), Exec(rules, batchSize, store, more));
    }
  }

  predicate AlertsAtRest(c: Channel<Alert>) {
    c.queue == [] && c.inFlight.None?
  }

  function DueAlert(s: System): Action {
    if s.alerts.inFlight.Some? then InsertAlert(Written) else TakeAlert
  }

  lemma AlertProceeds(rules: seq<ThresholdRule>, batchSize: nat, s: System)
    requires !AlertsAtRest(s.alerts)
    ensures var s' := Step(rules, batchSize, s, DueAlert(s));
            && Kept(s, s') && s'.flow == s.flow && s'.engine == s.engine
            && (|s'.alerts.queue| < |s.alerts.queue| ||
                (s'.alerts.queue == s.alerts.queue && s.alerts.inFlight.Some? && s'.alerts.inFlight.None?))
  {
    hide DeadLetters;
    if s.alerts.inFlight.Some? {
      MessagesSnoc(s.alerts.settled, Delivery(s.alerts.inFlight.value, true));
    }
  }

  /** The queued alerts can be taken and inserted. */
  lemma {:induction false} AlertsDrain(rules: seq<ThresholdRule>, batchSize: nat, store: Store, acts: seq<Action>)
    returns (more: seq<Action>)
    ensures acts <= more
    ensures var s, s' := Exec(rules, batchSize, store, acts), Exec(rules, batchSize, store, more);
            Kept(s, s') && s'.flow == s.flow && s'.engine == s.engine && AlertsAtRest(s'.alerts)
    decreases |Exec(rules, batchSize, store, acts).alerts.queue|, Exec(rules, batchSize, store, acts).alerts.inFlight.Some?
  {
    hide Exec, Step, Kept, DueAlert;
    var s := Exec(rules, batchSize, store, acts);
    if AlertsAtRest(s.alerts) {
      KeptSame(s);
      more := acts;
    } else {
      var a := DueAlert(s);
      AlertProceeds(rules, batchSize, s);
      ExecSnoc(rules, batchSize, store, acts, a);
      more := AlertsDrain(rules, batchSize, store, acts + [a]);
      KeptTrans(s, Step(rules, batchSize, s, a), Exec(rules, batchSize, store, more));
    }
  }

  /** Progress: whatever has happened so far, the pipeline can come to rest without losing anything more. */
  lemma ComesToRest(rules: seq<ThresholdRule>, batchSize: nat, store: Store, acts: seq<Action>)
    returns (more: seq<Action>)
    requires batchSize > 0 && Flushable(Exec(rules, batchSize, store, acts).flow)
    ensures acts <= more
    ensures Kept(Exec(rules, batchSize, store, acts), Exec(rules, batchSize, store, more))
    ensures Quiescent(Exec(rules, batchSize, store, more))
  {
    hide Exec, Kept, Flushable;
    var flushed := FlowDrains(rules, batchSize, store, acts);
    var evaluated := EngineDrains(rules, batchSize, store, flushed);
    more := AlertsDrain(rules, batchSize, store, evaluated);
    var s, s1, s2, s3 := Exec(rules, batchSize, store, acts), Exec(rules, batchSize, store, flushed),
                         Exec(rules, batchSize, store, evaluated), Exec(rules, batchSize, store, more);
    KeptTrans(s, s1, s2);
    KeptTrans(s, s2, s3);
  }

  /** The timer runs until shutdown. */
  ghost predicate TimerOrDrain(flow: Flow.Flow) {
    flow.timerOn || flow.drain.Some?
  }

  lemma {:induction false} TimerUntilShutdown(rules: seq<ThresholdRule>, batchSize: nat, store: Store, acts: seq<Action>)
    ensures TimerOrDrain(Exec(rules, batchSize, store, acts).flow)
  {
    if acts == [] {
    } else {
      hide Step, TimerOrDrain;
      TimerUntilShutdown(rules, batchSize, store, acts[..|acts| - 1]);
      TimerStep(rules, batchSize, Exec(rules, batchSize, store, acts[..|acts| - 1]), acts[|acts| - 1]);
    }
  }

  lemma TimerStep(rules: seq<ThresholdRule>, batchSize: nat, s: System, a: Action)
    requires TimerOrDrain(s.flow)
    ensures TimerOrDrain(Step(rules, batchSize, s, a).flow)
  {
    hide EngineSteps.Step, Upsert, SharedStore, Flow.ShadowWrite, PublishAll, Added;
  }

  /** A buffer that nothing will take stays, unless another reading comes in. */
  lemma StuckFlow(batchSize: nat, flow: Flow.Flow, a: Flow.Action)
    requires !Flushable(flow) && TimerOrDrain(flow)
    ensures var flow' := Flow.Step(batchSize, flow, a);
            && |flow.enqueued| <= |flow'.enqueued|
            && (|flow.enqueued| == |flow'.enqueued| ==> !Flushable(flow') && TimerOrDrain(flow'))
  {
    hide Upsert, Flow.ShadowWrite;
  }

  lemma StuckStep(rules: seq<ThresholdRule>, batchSize: nat, s: System, a: Action)
    requires !Flushable(s.flow) && TimerOrDrain(s.flow)
    ensures var s' := Step(rules, batchSize, s, a);
            && |s.flow.enqueued| <= |s'.flow.enqueued|
            && (|s.flow.enqueued| == |s'.flow.enqueued| ==> !Flushable(s'.flow) && TimerOrDrain(s'.flow))
  {
    hide EngineSteps.Step, Flow.Step, SharedStore, PublishAll, Added, Flushable, TimerOrDrain;
    if a.Ingest? {
      StuckFlow(batchSize, s.flow, a.flow);
    }
  }

  lemma {:induction false} StuckForever(rules: seq<ThresholdRule>, batchSize: nat, store: Store, acts: seq<Action>,
                                        more: seq<Action>)
    requires !Flushable(Exec(rules, batchSize, store, acts).flow)
    requires acts <= more
    ensures var s, s' := Exec(rules, batchSize, store, acts), Exec(rules, batchSize, store, more);
            && |s.flow.enqueued| <= |s'.flow.enqueued|
            && (|s.flow.enqueued| == |s'.flow.enqueued| ==> !Flushable(s'.flow))
    decreases |more|
  {
    if more == acts {
    } else {
      hide Step, Flushable;
      var init := more[..|more| - 1];
      StuckForever(rules, batchSize, store, acts, init);
      TimerUntilShutdown(rules, batchSize, store, init);
      EnqueuedGrows(rules, batchSize, Exec(rules, batchSize, store, init), more[|more| - 1]);
      if !Flushable(Exec(rules, batchSize, store, init).flow) {
        StuckStep(rules, batchSize, Exec(rules, batchSize, store, init), more[|more| - 1]);
      }
    }
  }

  lemma EnqueuedGrows(rules: seq<ThresholdRule>, batchSize: nat, s: System, a: Action)
    ensures |s.flow.enqueued| <= |Step(rules, batchSize, s, a).flow.enqueued|
  {
    hide EngineSteps.Step, Upsert, SharedStore, Flow.ShadowWrite, PublishAll, Added;
  }

  /** Some continuation without further readings comes to rest. */
  ghost predicate CanRest(rules: seq<ThresholdRule>, batchSize: nat, store: Store, acts: seq<Action>) {
    exists more :: acts <= more && Quiescent(Exec(rules, batchSize, store, more)) &&
      Exec(rules, batchSize, store, more).flow.enqueued == Exec(rules, batchSize, store, acts).flow.enqueued
  }

  /**
   The exact condition: without further readings the pipeline can come to rest if and only if the buffer
   is empty, the timer is on, or a flush is still to begin. After shutdown's flush a late reading can
   be left in the buffer for good.
   */
  lemma RestsExactly(rules: seq<ThresholdRule>, batchSize: nat, store: Store, acts: seq<Action>)
    requires batchSize > 0
    ensures CanRest(rules, batchSize, store, acts) <==> Flushable(Exec(rules, batchSize, store, acts).flow)
  {
    hide Exec;
    if Flushable(Exec(rules, batchSize, store, acts).flow) {
      var more := ComesToRest(rules, batchSize, store, acts);
    } else {
      forall more | acts <= more && Quiescent(Exec(rules, batchSize, store, more))
        ensures Exec(rules, batchSize, store, more).flow.enqueued != Exec(rules, batchSize, store, acts).flow.enqueued {
        StuckForever(rules, batchSize, store, acts, more);
      }
    }
  }

  lemma KeptLossFree(s: System, s': System)
    requires Kept(s, s') && NothingDropped(s)
    ensures NothingDropped(s')
    ensures EveryBatchAnnounced(s) ==> EveryBatchAnnounced(s')
  {
  }

  /**
   Eventual delivery: from every reachable state in which nothing has been dropped, unless a late reading
   is stuck, some continuation without further readings drops nothing more and ends at rest; the table
   then has exactly the alerts the announced readings demand, and if no batch has been lost, exactly
   those the enqueued readings demand.
   */
  lemma EventualDelivery(rules: seq<ThresholdRule>, batchSize: nat, store: Store, acts: seq<Action>)
    returns (more: seq<Action>)
    requires batchSize > 0 && SafeOn(rules, DevicesOf(Exec(rules, batchSize, store, acts).flow.enqueued))
    requires forall key | IsRuleKey(key) :: key !in store
    requires NothingDropped(Exec(rules, batchSize, store, acts)) && Flushable(Exec(rules, batchSize, store, acts).flow)
    ensures acts <= more
    ensures var s, s' := Exec(rules, batchSize, store, acts), Exec(rules, batchSize, store, more);
            && Quiescent(s') && NothingDropped(s') && Kept(s, s')
            && EngineSteps.ThresholdAlerts(s'.inserted) == HistoryAlerts(rules, s'.flow.outbox)
            && (EveryBatchAnnounced(s) ==>
                  EngineSteps.ThresholdAlerts(s'.inserted) == HistoryAlerts(rules, s.flow.enqueued))
  {
    hide Exec, HistoryAlerts, EngineSteps.ThresholdAlerts, Quiescent, NothingDropped, SafeOn, DevicesOf, Flushable,
         EveryBatchAnnounced, DeadLetters;
    more := ComesToRest(rules, batchSize, store, acts);
    KeptLossFree(Exec(rules, batchSize, store, acts), Exec(rules, batchSize, store, more));
    EndToEnd(rules, batchSize, store, more);
    AtRestOutbox(rules, batchSize, store, more);
  }

  lemma AtRestOutbox(rules: seq<ThresholdRule>, batchSize: nat, store: Store, acts: seq<Action>)
    requires batchSize > 0 && SafeOn(rules, DevicesOf(Exec(rules, batchSize, store, acts).flow.enqueued))
    requires forall key | IsRuleKey(key) :: key !in store
    requires NothingDropped(Exec(rules, batchSize, store, acts)) && Quiescent(Exec(rules, batchSize, store, acts))
    ensures var s := Exec(rules, batchSize, store, acts);
            EngineSteps.ThresholdAlerts(s.inserted) == HistoryAlerts(rules, s.flow.outbox)
  {
    hide Exec, HistoryAlerts, EngineSteps.ThresholdAlerts, Quiescent, NothingDropped, SafeOn, DevicesOf, Joined, EngineInv,
         Flow.Conserved, Flow.Tables, Flow.Shadows, Flow.FlushPending, Flow.Draining;
    SystemInvariant(rules, batchSize, store, acts);
    var s := Exec(rules, batchSize, store, acts);
    OutboxDevices(s.flow);
    Isolation.SafeOnFewer(rules, DevicesOf(s.flow.enqueued), DevicesOf(s.flow.outbox));
    AlertsFollowOutbox(rules, batchSize, store, s);
  }

  /** Without a sweep, all published alerts are threshold alerts. */
  ghost predicate SweepFree(s: System) {
    s.engine.sweeps == [] ==> forall a | a in s.engine.published :: a.metric.OfTelemetry?
  }

  lemma EngineSweepFree(rules: seq<ThresholdRule>, e: EngineSteps.Engine, a: EngineSteps.Action)
    requires e.sweeps == [] ==> forall x | x in e.published :: x.metric.OfTelemetry?
    ensures var e' := EngineSteps.Step(rules, e, a);
            e'.sweeps == [] ==> e.sweeps == [] && forall x | x in e'.published :: x.metric.OfTelemetry?
  {
    hide EngineSteps.HandlerStep, AlertFor;
    match a {
      case Receive(_) =>
      case StartSweep(_, _) =>
      case SweepDelete(k, _) => SweepsStay(e, k, a);
      case SweepLook(k, _) => SweepsStay(e, k, a);
      case SweepResume(k, _) => SweepsStay(e, k, a);
      case SweepMark(k, _) => SweepsStay(e, k, a);
      case _ =>
        EngineSteps.HandlerEffect(rules, e, a);
        if e.inbox.inFlight.Some? && !e.pc.Idle? && e.pc.i < |rules| {
          AlertPayload.AlertKind(rules[e.pc.i], e.inbox.inFlight.value);
        }
    }
  }

  lemma SweepsStay(e: EngineSteps.Engine, k: nat, a: EngineSteps.Action)
    ensures |EngineSteps.SweepStep(e, k, a).sweeps| == |e.sweeps|
    ensures e.sweeps == [] ==> EngineSteps.SweepStep(e, k, a) == e
  {
    hide Connectivity.Silent, Connectivity.CheckKey, Connectivity.OfflineAlert;
  }

  lemma {:induction false} RunSweepFree(rules: seq<ThresholdRule>, batchSize: nat, store: Store, acts: seq<Action>)
    ensures SweepFree(Exec(rules, batchSize, store, acts))
  {
    if acts != [] {
      hide EngineSteps.Step, Flow.Step, SharedStore;
      RunSweepFree(rules, batchSize, store, acts[..|acts| - 1]);
      var s, a := Exec(rules, batchSize, store, acts[..|acts| - 1]), acts[|acts| - 1];
      if a.Evaluate? {
        EngineSweepFree(rules, s.engine, a.engine);
      }
    }
  }

  lemma {:induction false} AllThreshold(alerts: seq<Alert>)
    requires forall a | a in alerts :: a.metric.OfTelemetry?
    ensures EngineSteps.ThresholdAlerts(alerts) == alerts
  {
    if alerts != [] {
      var init := alerts[..|alerts| - 1];
      assert alerts == init + [alerts[|alerts| - 1]];
      AllThreshold(init);
    }
  }

  function Enqueues(rs: seq<Reading>): seq<Action> {
    seq(|rs|, k requires 0 <= k < |rs| => Ingest(Flow.Enqueue(rs[k])))
  }

  /** After nothing but arrivals, everything is in the buffer. */
  ghost predicate Arrived(s: System, rs: seq<Reading>) {
    && s.flow.enqueued == rs && s.flow.timerOn && s.flow.attempts == []
    && s.engine.inbox == ConsumerChannel.Empty() && s.engine.sweeps == []
    && s.alerts == ConsumerChannel.Empty() && !s.skipped
  }

  lemma ArrivedStep(rules: seq<ThresholdRule>, batchSize: nat, s: System, rs: seq<Reading>, t: Reading)
    requires Arrived(s, rs)
    ensures Arrived(Step(rules, batchSize, s, Ingest(Flow.Enqueue(t))), rs + [t])
  {
    hide Upsert;
  }

  lemma NoneArrived(rules: seq<ThresholdRule>, batchSize: nat, store: Store)
    ensures Arrived(Exec(rules, batchSize, store, []), [])
  {
  }

  lemma {:induction false} AllArrive(rules: seq<ThresholdRule>, batchSize: nat, store: Store, rs: seq<Reading>)
    ensures Arrived(Exec(rules, batchSize, store, Enqueues(rs)), rs)
  {
    hide Step, Arrived, Exec;
    if rs == [] {
      assert Enqueues(rs) == [];
      NoneArrived(rules, batchSize, store);
    } else {
      var init, t := rs[..|rs| - 1], rs[|rs| - 1];
      AllArrive(rules, batchSize, store, init);
      assert Enqueues(rs) == Enqueues(init) + [Ingest(Flow.Enqueue(t))] && init + [t] == rs;
      ExecSnoc(rules, batchSize, store, Enqueues(init), Ingest(Flow.Enqueue(t)));
      ArrivedStep(rules, batchSize, Exec(rules, batchSize, store, Enqueues(init)), init, t);
    }
  }

  /** For every stream there is a run that takes in exactly it, and inserts exactly the alerts it demands. */
  lemma StreamDelivered(rules: seq<ThresholdRule>, batchSize: nat, store: Store, rs: seq<Reading>)
    returns (acts: seq<Action>)
    requires batchSize > 0 && SafeOn(rules, DevicesOf(rs))
    requires forall key | IsRuleKey(key) :: key !in store
    ensures var s := Exec(rules, batchSize, store, acts);
            && s.flow.enqueued == rs && s.inserted == HistoryAlerts(rules, rs)
            && Quiescent(s) && NothingDropped(s)
  {
    hide Exec, HistoryAlerts, SafeOn, DevicesOf, Quiescent, EngineSteps.ThresholdAlerts, AlertPayload.EngineGrounded;
    AllArrive(rules, batchSize, store, rs);
    acts := EventualDelivery(rules, batchSize, store, Enqueues(rs));
    AlertPayload.RunGrounded(rules, batchSize, store, acts);
    RunSweepFree(rules, batchSize, store, acts);
    AllThreshold(Exec(rules, batchSize, store, acts).inserted);
  }
}
