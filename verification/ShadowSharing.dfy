/**
 The shadows live in the store the rule engine writes to. Its evaluations and sweeps leave them
 alone, so what holds of the shadows by themselves holds of them in the shared store.
 */
module ShadowSharing {
  import opened StoreKeys
  import opened RuleSchema
  import opened KeyValueStore
  import opened LatestFold
  import opened Registry
  import opened ShadowAgreement
  import opened Pipeline
  import opened Evaluation
  import Connectivity
  import EngineSteps
  import Flow = IngestionFlow

  lemma HandlerLeavesShadows(rules: seq<ThresholdRule>, e: EngineSteps.Engine, a: EngineSteps.Action, d: string)
    ensures Lookup(EngineSteps.HandlerStep(rules, e, a).store, ShadowKey(d)) == Lookup(e.store, ShadowKey(d))
  {
    hide RuleKey, ShadowKey, IsRuleKey, IsConnectivityKey, Fires, Breaching, NextState;
    if e.inbox.inFlight.Some? && !e.pc.Idle? && e.pc.i < |rules| {
      KeySpacesDisjoint(rules[e.pc.i].id, e.inbox.inFlight.value.deviceId, "", d);
    }
  }

  lemma SweepLeavesShadows(e: EngineSteps.Engine, k: nat, a: EngineSteps.Action, d: string)
    ensures Lookup(EngineSteps.SweepStep(e, k, a).store, ShadowKey(d)) == Lookup(e.store, ShadowKey(d))
  {
    hide ConnectivityKey, ShadowKey, IsRuleKey, IsConnectivityKey, Connectivity.Silent;
    if EngineSteps.Active(e, k) {
      var pair := e.sweeps[k].pairs[0];
      KeySpacesDisjoint(pair.0.id, "", pair.1.deviceId, d);
    }
  }

  lemma EngineLeavesShadows(rules: seq<ThresholdRule>, e: EngineSteps.Engine, a: EngineSteps.Action, d: string)
    ensures Lookup(EngineSteps.Step(rules, e, a).store, ShadowKey(d)) == Lookup(e.store, ShadowKey(d))
  {
    hide EngineSteps.HandlerStep, EngineSteps.SweepStep, ShadowKey;
    match a {
      case Receive(_) =>
      case StartSweep(_, _) =>
      case SweepDelete(k, _) => SweepLeavesShadows(e, k, a, d);
      case SweepLook(k, _) => SweepLeavesShadows(e, k, a, d);
      case SweepResume(k, _) => SweepLeavesShadows(e, k, a, d);
      case SweepMark(k, _) => SweepLeavesShadows(e, k, a, d);
      case _ => HandlerLeavesShadows(rules, e, a, d);
    }
  }

  lemma StepShares(rules: seq<ThresholdRule>, batchSize: nat, s: System, a: Action, d: string)
    requires Lookup(s.engine.store, ShadowKey(d)) == Lookup(s.flow.store, ShadowKey(d))
    ensures var s' := Step(rules, batchSize, s, a);
            Lookup(s'.engine.store, ShadowKey(d)) == Lookup(s'.flow.store, ShadowKey(d))
  {
    hide EngineSteps.Step, ShadowKey, Upsert;
    if a.Evaluate? {
      EngineLeavesShadows(rules, s.engine, a.engine, d);
    }
  }

  /** Every shadow in the shared store is the one the ingestion side has written. */
  lemma {:induction false} ShadowsShared(rules: seq<ThresholdRule>, batchSize: nat, store: Store, acts: seq<Action>, d: string)
    requires ShadowKey(d) !in store
    ensures var s := Exec(rules, batchSize, store, acts);
            Lookup(s.engine.store, ShadowKey(d)) == Lookup(s.flow.store, ShadowKey(d))
  {
    hide Step, ShadowKey;
    if acts != [] {
      ShadowsShared(rules, batchSize, store, acts[..|acts| - 1], d);
      StepShares(rules, batchSize, Exec(rules, batchSize, store, acts[..|acts| - 1]), acts[|acts| - 1], d);
    }
  }

  lemma SameShadow(a: Store, b: Store, d: string)
    requires Lookup(a, ShadowKey(d)) == Lookup(b, ShadowKey(d))
    ensures ShadowOf(a, d) == ShadowOf(b, d)
  {
    hide ShadowKey;
  }

  /** In every reachable state of the whole pipeline, with no command lost, the shared store's cache is one past registry. */
  lemma SharedCacheIsPastRegistry(rules: seq<ThresholdRule>, batchSize: nat, store: Store, acts: seq<Action>)
    returns (m: nat, k: nat)
    requires batchSize > 0 && forall d :: ShadowKey(d) !in store
    ensures var s := Exec(rules, batchSize, store, acts);
            NoneLost(s.flow.shadowLog) ==>
              CacheAt(s.engine.store, Flow.StoredBatches(s.flow.attempts), m, k) &&
              |Flow.Commands(Flow.StoredBatches(s.flow.attempts)[..m])| + k == |s.flow.shadowLog|
  {
    hide Exec, ShadowKey, ShadowOf, Joined, EngineInv, ReadingAfter, Flow.Tables, Flow.Shadows, Flow.Conserved,
         Flow.FlushPending, Flow.Draining, Flow.Commands, Mentions, Latest;
    SystemInvariant(rules, batchSize, store, acts);
    var s := Exec(rules, batchSize, store, acts);
    m, k := 0, 0;
    if NoneLost(s.flow.shadowLog) {
      m, k := CacheState(s.flow);
      forall d ensures ShadowOf(s.engine.store, d) == ShadowOf(s.flow.store, d) {
        ShadowsShared(rules, batchSize, store, acts, d);
        SameShadow(s.engine.store, s.flow.store, d);
      }
    }
  }

  /**
   In every reachable state of the whole pipeline: once the shadow commands have drained, none lost,
   each device's shadow in the shared store is the reading whose time and position its registry row has.
   */
  lemma SharedShadowAgrees(rules: seq<ThresholdRule>, batchSize: nat, store: Store, acts: seq<Action>, d: string)
    requires batchSize > 0 && ShadowKey(d) !in store
    ensures var s := Exec(rules, batchSize, store, acts);
            s.flow.shadowQueue == [] && NoneLost(s.flow.shadowLog) ==>
              && ShadowOf(s.engine.store, d) == ReadingAfter(Flow.StoredBatches(s.flow.attempts), d)
              && AsRow(ShadowOf(s.engine.store, d)) == Find(s.flow.registry, d)
  {
    hide Exec, ShadowKey, ShadowOf, Joined, EngineInv, ReadingAfter, Flow.Tables, Flow.Shadows, Flow.Conserved,
         Flow.FlushPending, Flow.Draining;
    SystemInvariant(rules, batchSize, store, acts);
    ShadowsShared(rules, batchSize, store, acts, d);
    var s := Exec(rules, batchSize, store, acts);
    SameShadow(s.engine.store, s.flow.store, d);
    if s.flow.shadowQueue == [] && NoneLost(s.flow.shadowLog) {
      DrainedState(s.flow, d);
    }
  }
}
