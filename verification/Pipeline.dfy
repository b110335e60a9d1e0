/**
 The whole pipeline: ingestion, the rule engine and the notification service, joined by the broker's
 queues and the shared store. The alerts that end up in the table are a function of the readings
 alone, for every batch size, timer, flush, store call, sweep and delivery in every order.
 */
module Pipeline {
  import opened Readings
  import opened StoreKeys
  import opened RuleSchema
  import Isolation
  import opened KeyValueStore
  import opened Evaluation
  import opened Episodes
  import opened Registry
  import opened ConsumerChannel
  import EngineSteps
  import opened EngineHistory
  import Flow = IngestionFlow

  /**
   The engine's store is the shared one; `inserted` is the alerts table. As history, `skipped` says
   whether an alert has been published while the engine had no broker channel, and so was dropped.
   */
  datatype System = System(
    flow: Flow.Flow,
    engine: EngineSteps.Engine,
    alerts: Channel<Alert>,
    inserted: seq<Alert>,
    skipped: bool)

  datatype Action =
    | Ingest(flow: Flow.Action)
    | Evaluate(engine: EngineSteps.Action, connected: bool)
    | TakeAlert
    | InsertAlert(reply: WriteReply)

  function Start(store: Store): System {
    System(Flow.Start(), EngineSteps.Start(store), ConsumerChannel.Empty(), [], false)
  }

  function PublishAll<M>(c: Channel<M>, ms: seq<M>): Channel<M> {
    c.(queue := c.queue + ms)
  }

  /** What a step added to a growing log. */
  function Added<T>(before: seq<T>, after: seq<T>): seq<T> {
    if |before| <= |after| then after[|before|..] else []
  }

  /** The write a shadow command makes to the shared store. */
  function SharedStore(s: System, a: Flow.Action): Store {
    if a.RunShadow? && s.flow.shadowQueue != [] then
      Flow.ShadowWrite(s.engine.store, Flow.ShadowCommand(s.flow.shadowQueue[0], a.applied))
    else s.engine.store
  }

  function Step(rules: seq<ThresholdRule>, batchSize: nat, s: System, a: Action): System {
    match a
    case Ingest(b) =>
      var flow := Flow.Step(batchSize, s.flow, b);
      s.(flow := flow,
         engine := s.engine.(store := SharedStore(s, b),
                             inbox := PublishAll(s.engine.inbox, Added(s.flow.outbox, flow.outbox))))
    case Evaluate(b, connected) =>
      if b.Receive? then s
      else
        var engine := EngineSteps.Step(rules, s.engine, b);
        var alerts := Added(s.engine.published, engine.published);
        s.(engine := engine,
           alerts := if connected then PublishAll(s.alerts, alerts) else s.alerts,
           skipped := s.skipped || (!connected && alerts != []))
    case TakeAlert => s.(alerts := Deliver(s.alerts))
    case InsertAlert(reply) =>
      if s.alerts.inFlight.None? then s
      else
        s.(alerts := Settle(s.alerts, reply.Written?),
           inserted := if TookEffect(reply) then s.inserted + [s.alerts.inFlight.value] else s.inserted)
  }

  function Exec(rules: seq<ThresholdRule>, batchSize: nat, store: Store, acts: seq<Action>): System {
    if acts == [] then Start(store)
    else Step(rules, batchSize, Exec(rules, batchSize, store, acts[..|acts| - 1]), acts[|acts| - 1])
  }

  /** The stages fit together: each queue's history is what the stage before it has published. */
  ghost predicate Joined(s: System) {
    && History(s.engine.inbox) == s.flow.outbox
    && (!s.skipped ==> History(s.alerts) == s.engine.published)
    && (DeadLetters(s.alerts.settled) == 0 ==> s.inserted == Messages(s.alerts.settled))
  }

  ghost predicate EngineInv(rules: seq<ThresholdRule>, start: Store, e: EngineSteps.Engine) {
    EngineSteps.PcInv(rules, e) && EngineSteps.Refines(rules, start, e) && LogShape(rules, e)
  }

  lemma PublishAllHistory<M>(c: Channel<M>, ms: seq<M>)
    ensures History(PublishAll(c, ms)) == History(c) + ms
  {
    hide Messages;
    assert (Messages(c.settled) + InFlight(c)) + (c.queue + ms) == ((Messages(c.settled) + InFlight(c)) + c.queue) + ms;
  }

  lemma AddedRejoins<T>(before: seq<T>, after: seq<T>)
    requires before <= after
    ensures before + Added(before, after) == after
  {
  }

  /** The outbox and the list of published alerts only grow. */
  lemma OutboxGrows(batchSize: nat, flow: Flow.Flow, a: Flow.Action)
    ensures flow.outbox <= Flow.Step(batchSize, flow, a).outbox
  {
  }

  lemma PublishedGrows(rules: seq<ThresholdRule>, e: EngineSteps.Engine, a: EngineSteps.Action)
    requires !a.Receive?
    ensures e.published <= EngineSteps.Step(rules, e, a).published
    ensures History(EngineSteps.Step(rules, e, a).inbox) == History(e.inbox)
  {
    hide History, Breaching, Fires, NextState, Settle, Deliver;
    if e.inbox.inFlight.Some? {
      Conservation(e.inbox, e.inbox.inFlight.value, true);
      Conservation(e.inbox, e.inbox.inFlight.value, false);
    } else if e.inbox.queue != [] {
      Conservation(e.inbox, e.inbox.queue[0], true);
    }
  }

  lemma IngestJoined(rules: seq<ThresholdRule>, batchSize: nat, s: System, a: Flow.Action)
    requires Joined(s)
    ensures Joined(Step(rules, batchSize, s, Ingest(a)))
  {
    hide History, Messages, DeadLetters, Flow.Step;
    var flow := Flow.Step(batchSize, s.flow, a);
    OutboxGrows(batchSize, s.flow, a);
    AddedRejoins(s.flow.outbox, flow.outbox);
    PublishAllHistory(s.engine.inbox, Added(s.flow.outbox, flow.outbox));
  }

  lemma EvaluateJoined(rules: seq<ThresholdRule>, batchSize: nat, s: System, a: EngineSteps.Action, connected: bool)
    requires Joined(s)
    ensures Joined(Step(rules, batchSize, s, Evaluate(a, connected)))
  {
    hide History, Messages, DeadLetters, EngineSteps.Step;
    if !a.Receive? {
      var engine := EngineSteps.Step(rules, s.engine, a);
      PublishedGrows(rules, s.engine, a);
      AddedRejoins(s.engine.published, engine.published);
      PublishAllHistory(s.alerts, Added(s.engine.published, engine.published));
    }
  }

  lemma AlertJoined(rules: seq<ThresholdRule>, batchSize: nat, s: System, a: Action)
    requires Joined(s) && (a.TakeAlert? || a.InsertAlert?)
    ensures Joined(Step(rules, batchSize, s, a))
  {
    hide History, Messages, DeadLetters;
    if s.alerts.inFlight.Some? {
      var alert := s.alerts.inFlight.value;
      Conservation(s.alerts, alert, true);
      Conservation(s.alerts, alert, false);
      MessagesSnoc(s.alerts.settled, Delivery(alert, true));
      MessagesSnoc(s.alerts.settled, Delivery(alert, false));
    } else if s.alerts.queue != [] {
      Conservation(s.alerts, s.alerts.queue[0], true);
    }
  }

  lemma StepJoined(rules: seq<ThresholdRule>, batchSize: nat, s: System, a: Action)
    requires Joined(s)
    ensures Joined(Step(rules, batchSize, s, a))
  {
    hide Step, Joined;
    match a {
      case Ingest(b) => IngestJoined(rules, batchSize, s, b);
      case Evaluate(b, connected) => EvaluateJoined(rules, batchSize, s, b, connected);
      case _ => AlertJoined(rules, batchSize, s, a);
    }
  }

  /** Arrivals and shadow writes cannot be seen by the evaluation. */
  lemma IngestEngine(rules: seq<ThresholdRule>, batchSize: nat, start: Store, s: System, a: Flow.Action)
    requires EngineInv(rules, start, s.engine)
    ensures EngineInv(rules, start, Step(rules, batchSize, s, Ingest(a)).engine)
  {
    hide EngineSteps.PcInv, EngineSteps.Refines, EngineSteps.RulePart, EngineSteps.ThresholdAlerts, Flow.Step,
         DeadLetters, FailedEvaluations, StreamEvents, Messages;
    var e' := Step(rules, batchSize, s, Ingest(a)).engine;
    assert EngineSteps.RulePart(e'.store) == EngineSteps.RulePart(s.engine.store) by {
      if a.RunShadow? && s.flow.shadowQueue != [] {
        var t := s.flow.shadowQueue[0];
        KeySpacesDisjoint("", "", "", t.deviceId);
        EngineSteps.RulePartWrites(s.engine.store, ShadowKey(t.deviceId), Shadow(t));
      }
    }
    EngineSteps.InvisibleStep(rules, start, s.engine, e');
  }

  lemma StepEngine(rules: seq<ThresholdRule>, batchSize: nat, start: Store, s: System, a: Action)
    requires EngineInv(rules, start, s.engine)
    ensures EngineInv(rules, start, Step(rules, batchSize, s, a).engine)
  {
    hide EngineSteps.PcInv, EngineSteps.Refines, EngineSteps.Step, LogShape, Flow.Step;
    match a {
      case Ingest(b) => IngestEngine(rules, batchSize, start, s, b);
      case Evaluate(b, _) =>
        EngineSteps.StepRefines(rules, start, s.engine, b);
        StepShape(rules, s.engine, b);
      case _ =>
    }
  }

  ghost predicate SystemInv(rules: seq<ThresholdRule>, batchSize: nat, start: Store, s: System) {
    Joined(s) && EngineInv(rules, start, s.engine) && Flow.FlowInv(batchSize, s.flow)
  }

  lemma StepFlow(rules: seq<ThresholdRule>, batchSize: nat, s: System, a: Action)
    requires batchSize > 0 && Flow.FlowInv(batchSize, s.flow)
    ensures Flow.FlowInv(batchSize, Step(rules, batchSize, s, a).flow)
  {
    hide Flow.Step, EngineSteps.Step, Flow.Conserved, Flow.Tables, Flow.Shadows, Flow.FlushPending, Flow.Draining;
    if a.Ingest? {
      Flow.ConservedStep(batchSize, s.flow, a.flow);
      Flow.TablesStep(batchSize, s.flow, a.flow);
      Flow.ShadowsStep(batchSize, s.flow, a.flow);
      Flow.PendingStep(batchSize, s.flow, a.flow);
      Flow.DrainingStep(batchSize, s.flow, a.flow);
    }
  }

  lemma StartJoined(store: Store)
    ensures Joined(Start(store))
  {
  }

  lemma {:induction false} SystemInvariant(rules: seq<ThresholdRule>, batchSize: nat, store: Store, acts: seq<Action>)
    requires batchSize > 0
    ensures SystemInv(rules, batchSize, store, Exec(rules, batchSize, store, acts))
  {
    hide Step, Joined, EngineSteps.PcInv, EngineSteps.Refines, LogShape, Flow.FlowInv, Flow.Start, EngineSteps.Start;
    if acts == [] {
      StartJoined(store);
      EngineSteps.AsyncRefinement(rules, store, []);
      RunShape(rules, store, []);
      Flow.FlowInvariant(batchSize, []);
    } else {
      var init, a := acts[..|acts| - 1], acts[|acts| - 1];
      SystemInvariant(rules, batchSize, store, init);
      var s := Exec(rules, batchSize, store, init);
      StepJoined(rules, batchSize, s, a);
      StepEngine(rules, batchSize, store, s, a);
      StepFlow(rules, batchSize, s, a);
    }
  }

  /** No telemetry message and no alert has been dead-lettered, and no alert dropped for want of a channel. */
  predicate NothingDropped(s: System) {
    DeadLetters(s.engine.inbox.settled) == 0 && DeadLetters(s.alerts.settled) == 0 && !s.skipped
  }

  /** Every batch attempted so far has been stored and announced. */
  predicate EveryBatchAnnounced(s: System) {
    forall k | 0 <= k < |s.flow.attempts| :: s.flow.attempts[k].fate == Flow.Stored(true)
  }

  /** Nothing is buffered, under way or queued anywhere. */
  predicate Quiescent(s: System) {
    && s.flow.buffer == [] && s.flow.inFlight.None?
    && s.engine.inbox.queue == [] && s.engine.pc.Idle?
    && s.alerts.queue == [] && s.alerts.inFlight.None?
  }

  lemma {:induction false} ThresholdPrefix(a: seq<Alert>, b: seq<Alert>)
    requires a <= b
    ensures EngineSteps.ThresholdAlerts(a) <= EngineSteps.ThresholdAlerts(b)
  {
    if |a| < |b| {
      ThresholdPrefix(a, b[..|b| - 1]);
    } else {
      assert a == b;
    }
  }

  lemma {:induction false} AllAnnounced(attempts: seq<Flow.Attempt>)
    requires forall k | 0 <= k < |attempts| :: attempts[k].fate == Flow.Stored(true)
    ensures Flow.AnnouncedBatches(attempts) == Flow.Attempted(attempts)
  {
    if attempts != [] {
      AllAnnounced(attempts[..|attempts| - 1]);
    }
  }

  /** In any state the invariant allows, the inserted threshold alerts come from the announced readings. */
  lemma AlertsFollowOutbox(rules: seq<ThresholdRule>, batchSize: nat, store: Store, s: System)
    requires SafeOn(rules, DevicesOf(s.flow.outbox)) && SystemInv(rules, batchSize, store, s)
    requires forall key | IsRuleKey(key) :: key !in store
    requires NothingDropped(s)
    ensures EngineSteps.ThresholdAlerts(s.inserted) <= HistoryAlerts(rules, s.flow.outbox)
    ensures Quiescent(s) ==> EngineSteps.ThresholdAlerts(s.inserted) == HistoryAlerts(rules, s.flow.outbox)
  {
    hide EngineSteps.PcInv, EngineSteps.Refines, EngineSteps.RulePart, EngineSteps.ThresholdAlerts, LogShape,
         Flow.FlowInv, HistoryAlerts, Messages, DeadLetters;
    NoRulePart(store);
    HistoryOf(rules, store, s.engine);
    assert s.inserted <= s.engine.published by {
      assert s.engine.published == Messages(s.alerts.settled) + InFlight(s.alerts) + s.alerts.queue;
    }
    ThresholdPrefix(s.inserted, s.engine.published);
    if Quiescent(s) {
      assert s.inserted == s.engine.published;
    }
  }

  lemma {:induction false} AnnouncedDevices(attempts: seq<Flow.Attempt>)
    ensures DevicesOf(Concat(Flow.AnnouncedBatches(attempts))) <= DevicesOf(Concat(Flow.Attempted(attempts)))
  {
    if attempts != [] {
      hide DevicesOf, Flow.AnnouncedBatches, Flow.Attempted, Concat;
      var init, a := attempts[..|attempts| - 1], attempts[|attempts| - 1];
      AnnouncedDevices(init);
      assert init + [a] == attempts;
      Flow.AttemptSnoc(init, a);
      ConcatSnoc(Flow.AnnouncedBatches(init), a.batch);
      ConcatSnoc(Flow.Attempted(init), a.batch);
      DevicesAppend(Concat(Flow.AnnouncedBatches(init)), a.batch);
      DevicesAppend(Concat(Flow.Attempted(init)), a.batch);
    }
  }

  lemma DevicesAppend(a: seq<Reading>, b: seq<Reading>)
    ensures DevicesOf(a + b) == DevicesOf(a) + DevicesOf(b)
  {
    forall d ensures d in DevicesOf(a + b) <==> d in DevicesOf(a) || d in DevicesOf(b) {
      if k :| 0 <= k < |a| && a[k].deviceId == d {
        assert (a + b)[k].deviceId == d;
      }
      if k :| 0 <= k < |b| && b[k].deviceId == d {
        assert (a + b)[|a| + k].deviceId == d;
      }
    }
  }

  /** Only devices that have been enqueued are announced. */
  lemma OutboxDevices(flow: Flow.Flow)
    requires Flow.Conserved(flow) && Flow.Tables(flow)
    ensures DevicesOf(flow.outbox) <= DevicesOf(flow.enqueued)
  {
    hide DevicesOf, Concat, Flow.AnnouncedBatches, Flow.Attempted, Flow.StoredBatches;
    AnnouncedDevices(flow.attempts);
    var done := Concat(Flow.Attempted(flow.attempts));
    DevicesAppend(done, Flow.InFlight(flow));
    DevicesAppend(done + Flow.InFlight(flow), flow.buffer);
  }

  /**
   End to end: in every reachable state in which nothing has been dropped, the threshold alerts
   in the table are a prefix of the alerts demanded by the readings announced so far; and if every
   batch has been stored and announced, of those demanded by the readings enqueued so far, all of
   them once the pipeline has come to rest.
   */
  lemma EndToEnd(rules: seq<ThresholdRule>, batchSize: nat, store: Store, acts: seq<Action>)
    requires batchSize > 0 && SafeOn(rules, DevicesOf(Exec(rules, batchSize, store, acts).flow.enqueued))
    requires forall key | IsRuleKey(key) :: key !in store
    ensures var s := Exec(rules, batchSize, store, acts);
            NothingDropped(s) ==>
              && EngineSteps.ThresholdAlerts(s.inserted) <= HistoryAlerts(rules, s.flow.outbox)
              && (EveryBatchAnnounced(s) ==>
                    && EngineSteps.ThresholdAlerts(s.inserted) <= HistoryAlerts(rules, s.flow.enqueued)
                    && (Quiescent(s) ==>
                          EngineSteps.ThresholdAlerts(s.inserted) == HistoryAlerts(rules, s.flow.enqueued)))
  {
    hide Exec, Step, Joined, EngineInv, EngineSteps.ThresholdAlerts, HistoryAlerts, SafeOn, DevicesOf, DeadLetters, Concat,
         Flow.Attempted, Flow.AnnouncedBatches, Flow.Shadows, Flow.FlushPending, Flow.Draining, RegistryAfter;
    SystemInvariant(rules, batchSize, store, acts);
    var s := Exec(rules, batchSize, store, acts);
    if NothingDropped(s) {
      OutboxDevices(s.flow);
      Isolation.SafeOnFewer(rules, DevicesOf(s.flow.enqueued), DevicesOf(s.flow.outbox));
      AlertsFollowOutbox(rules, batchSize, store, s);
      if EveryBatchAnnounced(s) {
        AllAnnounced(s.flow.attempts);
        assert s.flow.enqueued == s.flow.outbox + (Flow.InFlight(s.flow) + s.flow.buffer);
        HistoryAlertsPrefix(rules, s.flow.outbox, Flow.InFlight(s.flow) + s.flow.buffer);
        assert Quiescent(s) ==> s.flow.enqueued == s.flow.outbox;
      }
    }
  }

  /** So batching and scheduling never change which threshold alerts appear, or their order. */
  lemma SchedulingIrrelevant(rules: seq<ThresholdRule>, store: Store,
                             batchSize: nat, acts: seq<Action>, batchSize': nat, acts': seq<Action>)
    requires batchSize > 0 && batchSize' > 0
    requires forall key | IsRuleKey(key) :: key !in store
    requires var s, s' := Exec(rules, batchSize, store, acts), Exec(rules, batchSize', store, acts');
             && NothingDropped(s) && EveryBatchAnnounced(s) && Quiescent(s)
             && NothingDropped(s') && EveryBatchAnnounced(s') && Quiescent(s')
             && s.flow.enqueued == s'.flow.enqueued && SafeOn(rules, DevicesOf(s.flow.enqueued))
    ensures EngineSteps.ThresholdAlerts(Exec(rules, batchSize, store, acts).inserted) ==
            EngineSteps.ThresholdAlerts(Exec(rules, batchSize', store, acts').inserted)
  {
    hide *;
    EndToEnd(rules, batchSize, store, acts);
    EndToEnd(rules, batchSize', store, acts');
  }
}
