/** The rule engine service: loops over rules and devices, one shared store, one outbox of alerts. */
module RuleEngine {
  import opened Options
  import opened Readings
  import opened StoreKeys
  import opened RuleSchema
  import opened KeyValueStore
  import opened Evaluation
  import opened Connectivity
  import opened Isolation
  import opened Clients

  function RulePairs(rule: ConnectivityRule, devices: seq<Device>): seq<(ConnectivityRule, Device)> {
    seq(|devices|, i requires 0 <= i < |devices| => (rule, devices[i]))
  }

  /** The pairs one sweep visits, rule by rule and device by device. */
  function SweepPairs(rules: seq<ConnectivityRule>, devices: seq<Device>): seq<(ConnectivityRule, Device)> {
    if rules == [] then []
    else SweepPairs(rules[..|rules| - 1], devices) + RulePairs(rules[|rules| - 1], devices)
  }

  /** The checks are those of the given pairs, in order, at one time. */
  ghost predicate ChecksOf(cs: seq<Check>, pairs: seq<(ConnectivityRule, Device)>, nowMs: int) {
    && |cs| == |pairs|
    && forall i | 0 <= i < |cs| :: cs[i].rule == pairs[i].0 && cs[i].device == pairs[i].1 && cs[i].nowMs == nowMs
  }

  /** The evaluation can turn out like this: only a breaching reading makes the engine read. */
  predicate Possible(e: Event) {
    e.outcome.ReadFailed? ==> Breaching(e.rule, e.reading)
  }

  function ReplyFor(outcome: Outcome): WriteReply {
    if outcome.WriteFailed? then WriteError(outcome.applied) else Written
  }

  /** The calls of one evaluation: a deletion; or a read and, if it is answered, the alert due and then a write. */
  function EvaluationCalls(e: Event, store: Store): seq<Call> {
    var key := EventKey(e);
    if !Breaching(e.rule, e.reading) then [Deleted(key, ReplyFor(e.outcome))]
    else if e.outcome.ReadFailed? then [Got(key, ReadError)]
    else
      [Got(key, Found(Lookup(store, key)))] + (if Alerts(e, store) then [Sent(AlertFor(e.rule, e.reading))] else [])
      + [Stored(key, Breach(NextState(e.rule, e.reading, CellAt(store, key))), ReplyFor(e.outcome))]
  }

  function RunCalls(es: seq<Event>, store: Store): seq<Call> {
    if es == [] then []
    else RunCalls(es[..|es| - 1], store) + EvaluationCalls(es[|es| - 1], RunStore(es[..|es| - 1], store))
  }

  /** A check can turn out like this: only a silent device is looked up, and nothing is written over a flag. */
  predicate PossibleCheck(c: Check, store: Store) {
    && (c.outcome.ReadFailed? ==> Silent(c))
    && (Silent(c) && CheckKey(c) in store ==> !c.outcome.WriteFailed?)
  }

  /** The calls of one check: a deletion; or a look and, if it finds no flag, the alert and then the flag. */
  function CheckCalls(c: Check, store: Store): seq<Call> {
    var key := CheckKey(c);
    if !Silent(c) then [Deleted(key, ReplyFor(c.outcome))]
    else if c.outcome.ReadFailed? then [Got(key, ReadError)]
    else if key in store then [Got(key, Found(Some(store[key])))]
    else [Got(key, Found(None)), Sent(OfflineAlert(c)), Stored(key, OfflineFlag, ReplyFor(c.outcome))]
  }

  function SweepCalls(cs: seq<Check>, store: Store): seq<Call> {
    if cs == [] then []
    else SweepCalls(cs[..|cs| - 1], store) + CheckCalls(cs[|cs| - 1], SweepStore(cs[..|cs| - 1], store))
  }

  /**
   Which calls an evaluation makes, and that its outcome is their replies: for a reading that does not
   breach one deletion; for one that does one read, and if it is answered, one write, after the alert.
   */
  ghost predicate MadeBy(rule: ThresholdRule, t: Reading, read: ReadReply, made: seq<Call>, news: seq<Alert>, outcome: Outcome) {
    var key := RuleKey(rule.id, t.deviceId);
    if !Breaching(rule, t) then
      |made| == 1 && made[0].Deleted? && made[0].key == key && outcome == OutcomeOf(made[0].written)
    else
      && (outcome.ReadFailed? <==> read.ReadError?)
      && if read.ReadError? then made == [Got(key, read)]
         else
           && |made| >= 2 && var last := made[|made| - 1];
              && last.Stored? && last.key == key && outcome == OutcomeOf(last.written)
              && made == (if news == [] then [Got(key, read), last] else [Got(key, read), Sent(news[0]), last])
  }

  /**
   Which calls a check makes: for a device that is not silent one deletion; for one that is, one look, and
   only if that finds no flag, the alert and then the flag. A call that fails ends it.
   */
  ghost predicate CheckedBy(rule: ConnectivityRule, device: Device, nowMs: int, read: ReadReply, made: seq<Call>,
                            news: seq<Alert>, outcome: Outcome) {
    var key := ConnectivityKey(rule.id, device.deviceId);
    if SilentSeconds(device, nowMs) < rule.silenceSeconds then
      |made| == 1 && made[0].Deleted? && made[0].key == key && news == [] && outcome == OutcomeOf(made[0].written)
    else if read.ReadError? then made == [Got(key, read)] && news == [] && outcome == ReadFailed
    else if read.entry.Some? then made == [Got(key, read)] && news == [] && outcome == Completed
    else
      && |made| == 3 && |news| == 1 && made[..2] == [Got(key, read), Sent(news[0])]
      && made[2].Stored? && made[2].key == key && made[2].entry == OfflineFlag && outcome == OutcomeOf(made[2].written)
      && SaysOffline(rule, device, nowMs, news[0])
  }

  class RuleEngineService {
    const world: World
    const redis: RedisClient
    const rabbit: AlertPublisher
    const thresholdRules: seq<ThresholdRule>
    const connectivityRules: seq<ConnectivityRule>

    ghost predicate Valid()
      reads world
    {
      redis.world == world && rabbit.world == world && world.Valid()
    }

    constructor (redis: RedisClient, rabbit: AlertPublisher, threshold: seq<ThresholdRule>,
                 connectivity: seq<ConnectivityRule>)
      requires redis.world == rabbit.world && redis.world.Valid()
      ensures Valid() && this.redis == redis && this.rabbit == rabbit
      ensures thresholdRules == threshold && connectivityRules == connectivity
    {
      world := redis.world;
      this.redis := redis;
      this.rabbit := rabbit;
      thresholdRules := threshold;
      connectivityRules := connectivity;
    }

    /**
     Evaluates one rule on one reading; an outcome other than `Completed` is a thrown error. A reading that
     does not breach makes one deletion. One that does makes one read, and the evaluation ends there if that
     fails; else the alert goes out if it is due, and then the state is written.
     */
    method Evaluate(rule: ThresholdRule, t: Reading) returns (outcome: Outcome)
      requires Valid() && WellTyped(redis.entries)
      modifies redis, rabbit, world
      ensures Valid() && WellTyped(redis.entries)
      ensures Possible(Event(rule, t, outcome))
      ensures redis.entries == After(Event(rule, t, outcome), old(redis.entries))
      ensures rabbit.published == old(rabbit.published) + AlertsOf(Event(rule, t, outcome), old(redis.entries))
      ensures world.calls == old(world.calls) + EvaluationCalls(Event(rule, t, outcome), old(redis.entries))
      ensures MadeBy(rule, t, ReadReplyBy(old(world.Next()), Lookup(old(redis.entries), RuleKey(rule.id, t.deviceId))),
                     world.calls[|old(world.calls)|..], rabbit.published[|old(rabbit.published)|..], outcome)
    {
      hide After, AlertsOf, EvaluationCalls, MadeBy, WellTyped, Possible, AllAsFated, RuleKey, Breaching, EvaluateRule, AlertFor;
      var key := RuleKey(rule.id, t.deviceId);
      ghost var store := redis.entries;
      if !Breaching(rule, t) {
        var deleted := redis.Del(key);
        Recovers(rule, t, store, deleted);
        return OutcomeOf(deleted);
      }
      var existing := redis.Get(key);
      if existing.ReadError? {
        CannotRead(rule, t, store);
        return ReadFailed;
      }
      TypedCell(store, rule.id, t.deviceId);
      var state := if existing.entry.Some? then existing.entry.value.state else BreachState(t.timestampMs, false);
      if !state.fired && t.timestampMs - state.breachStartMs >= rule.sustainSeconds * 1000 {
        FireAlert(rule, t, MetricValue(t, rule.metric), EvaluateRule(rule, MetricValue(t, rule.metric)).threshold);
        state := state.(fired := true);
      }
      var written := redis.Set(key, Breach(state));
      Writes(rule, t, store, written);
      outcome := OutcomeOf(written);
    }

    /** Publishes the alert of a breaching value against its threshold. */
    method FireAlert(rule: ThresholdRule, t: Reading, value: real, threshold: Bound)
      requires Valid()
      requires value == MetricValue(t, rule.metric) && threshold == EvaluateRule(rule, value).threshold
      modifies rabbit, world
      ensures Valid() && world.calls == old(world.calls) + [Sent(AlertFor(rule, t))]
      ensures rabbit.published == old(rabbit.published) + [AlertFor(rule, t)]
      ensures RuleSchema.MeetsSchema(rule) && Breaching(rule, t) ==> Says(rule, t, rabbit.published[|old(rabbit.published)|])
    {
      var alert := Alert(rule.id, t.deviceId, rule.severity, OfTelemetry(rule.metric), value, threshold,
                         rule.message, t.timestampMs);
      rabbit.Publish(alert);
    }

    /** Handles one telemetry message: every threshold rule in turn, up to the first error. */
    method HandleTelemetry(t: Reading) returns (ok: bool, ghost events: seq<Event>)
      requires Valid() && WellTyped(redis.entries)
      modifies redis, rabbit, world
      ensures Valid() && WellTyped(redis.entries)
      ensures redis.entries == RunStore(events, old(redis.entries))
      ensures rabbit.published == old(rabbit.published) + RunAlerts(events, old(redis.entries))
      ensures world.calls == old(world.calls) + RunCalls(events, old(redis.entries))
      ensures Handles(thresholdRules, t, events) && (ok <==> events == ReadingEvents(thresholdRules, t))
    {
      hide EvaluationCalls, After, AlertsOf, RunStore, RunAlerts, RunCalls, WellTyped, AllAsFated;
      events := [];
      NothingRun(redis.entries);
      for i := 0 to |thresholdRules|
        invariant Valid() && WellTyped(redis.entries)
        invariant events == ReadingEvents(thresholdRules[..i], t)
        invariant redis.entries == RunStore(events, old(redis.entries))
        invariant rabbit.published == old(rabbit.published) + RunAlerts(events, old(redis.entries))
        invariant world.calls == old(world.calls) + RunCalls(events, old(redis.entries))
      {
        var outcome := Evaluate(thresholdRules[i], t);
        ghost var event := Event(thresholdRules[i], t, outcome);
        RunSnoc(events, event, old(redis.entries));
        RunCallsSnoc(events, event, old(redis.entries));
        if !outcome.Completed? {
          BreaksOff(thresholdRules, t, i, outcome);
          events := events + [event];
          return false, events;
        }
        ReadingEventsSnoc(thresholdRules, i, t);
        events := events + [event];
      }
      assert thresholdRules[..|thresholdRules|] == thresholdRules;
      GoesThrough(thresholdRules, t);
      ok := true;
    }

    /** Checks one device against one connectivity rule; the clock stamps an alert when it goes out. */
    method EvaluateConnectivity(rule: ConnectivityRule, device: Device, nowMs: int) returns (ok: bool, ghost check: Check)
      requires Valid()
      modifies redis, rabbit, world
      ensures Valid() && (ok <==> check.outcome.Completed?) && PossibleCheck(check, old(redis.entries))
      ensures check.rule == rule && check.device == device && check.nowMs == nowMs
      ensures redis.entries == AfterCheck(check, old(redis.entries))
      ensures rabbit.published == old(rabbit.published) + ReportsOf(check, old(redis.entries))
      ensures world.calls == old(world.calls) + CheckCalls(check, old(redis.entries))
      ensures CheckedBy(rule, device, nowMs, ReadReplyBy(old(world.Next()), Lookup(old(redis.entries),
                          ConnectivityKey(rule.id, device.deviceId))), world.calls[|old(world.calls)|..],
                        rabbit.published[|old(rabbit.published)|..], check.outcome)
      ensures check.clockMs == world.clock(|old(world.calls)| + 1)
    {
      hide AllAsFated;
      var key := ConnectivityKey(rule.id, device.deviceId);
      var silentSeconds := SilentSeconds(device, nowMs);
      ghost var stamp := world.clock(|world.calls| + 1);
      if silentSeconds < rule.silenceSeconds {
        var deleted := redis.Del(key);
        return deleted.Written?, Check(rule, device, nowMs, stamp, OutcomeOf(deleted));
      }
      var alreadyFired := redis.Get(key);
      if alreadyFired.ReadError? {
        return false, Check(rule, device, nowMs, stamp, ReadFailed);
      }
      if alreadyFired.entry.Some? {
        return true, Check(rule, device, nowMs, stamp, Completed);
      }
      var clockMs := world.clock(|world.calls|);
      SilentSays(Check(rule, device, nowMs, clockMs, Completed));
      rabbit.Publish(Alert(rule.id, device.deviceId, rule.severity, AlertMetric.Connectivity,
        silentSeconds as real, Finite(rule.silenceSeconds as real), rule.message, clockMs));
      var written := redis.Set(key, OfflineFlag);
      ok := written.Written?;
      check := Check(rule, device, nowMs, clockMs, OutcomeOf(written));
    }

    /** Checks the devices against one rule, up to the first error. */
    method CheckDevices(rule: ConnectivityRule, devices: seq<Device>, nowMs: int)
      returns (ok: bool, ghost checks: seq<Check>)
      requires Valid()
      modifies redis, rabbit, world
      ensures Valid() && redis.entries == SweepStore(checks, old(redis.entries))
      ensures rabbit.published == old(rabbit.published) + SweepAlerts(checks, old(redis.entries))
      ensures world.calls == old(world.calls) + SweepCalls(checks, old(redis.entries))
      ensures |checks| <= |devices| && ChecksOf(checks, RulePairs(rule, devices)[..|checks|], nowMs)
      ensures if ok then |checks| == |devices| && Undisturbed(checks) else CutShort(checks)
    {
      hide SweepStore, SweepAlerts, SweepCalls, AfterCheck, ReportsOf, CheckCalls, PossibleCheck, AllAsFated;
      checks := [];
      SweepStart(redis.entries);
      for i := 0 to |devices|
        invariant Valid() && redis.entries == SweepStore(checks, old(redis.entries))
        invariant rabbit.published == old(rabbit.published) + SweepAlerts(checks, old(redis.entries))
        invariant world.calls == old(world.calls) + SweepCalls(checks, old(redis.entries))
        invariant |checks| == i && Undisturbed(checks)
        invariant ChecksOf(checks, RulePairs(rule, devices)[..i], nowMs)
      {
        var done, check := EvaluateConnectivity(rule, devices[i], nowMs);
        SweepSnoc(checks, check, old(redis.entries));
        checks := checks + [check];
        if !done {
          return false, checks;
        }
      }
      ok := true;
    }

    /**
     One sweep over the registry rows read at its start, if there are rules to check. The first error,
     which may be that of reading the rows, ends it and is swallowed, leaving the pairs before it checked.
     */
    method SweepConnectivity(rows: Option<seq<Device>>, nowMs: int) returns (ghost completed: bool, ghost checks: seq<Check>)
      requires Valid()
      modifies redis, rabbit, world
      ensures Valid() && redis.entries == SweepStore(checks, old(redis.entries))
      ensures rabbit.published == old(rabbit.published) + SweepAlerts(checks, old(redis.entries))
      ensures world.calls == old(world.calls) + SweepCalls(checks, old(redis.entries))
      ensures connectivityRules == [] ==> completed && checks == []
      ensures connectivityRules != [] && rows.None? ==> !completed && checks == []
      ensures rows.Some? ==>
                var pairs := SweepPairs(connectivityRules, rows.value);
                && |checks| <= |pairs| && ChecksOf(checks, pairs[..|checks|], nowMs)
                && if completed then |checks| == |pairs| && Undisturbed(checks) else CutShort(checks)
    {
      hide SweepStore, SweepAlerts, SweepCalls, ReportsOf, AllAsFated;
      checks := [];
      SweepStart(redis.entries);
      if |connectivityRules| == 0 {
        completed := true;
        return;
      }
      if rows.None? {
        completed := false;
        return;
      }
      var devices := rows.value;
      for i := 0 to |connectivityRules|
        invariant Valid() && redis.entries == SweepStore(checks, old(redis.entries))
        invariant rabbit.published == old(rabbit.published) + SweepAlerts(checks, old(redis.entries))
        invariant world.calls == old(world.calls) + SweepCalls(checks, old(redis.entries))
        invariant Undisturbed(checks) && ChecksOf(checks, SweepPairs(connectivityRules[..i], devices), nowMs)
      {
        var ok, more := CheckDevices(connectivityRules[i], devices, nowMs);
        SweepAppend(checks, more, old(redis.entries));
        SweepPairsPrefix(connectivityRules, devices, i);
        ChecksAppend(checks, more, SweepPairs(connectivityRules[..i], devices),
                     RulePairs(connectivityRules[i], devices), SweepPairs(connectivityRules, devices), nowMs);
        checks := checks + more;
        if !ok {
          completed := false;
          return;
        }
        assert connectivityRules[..i + 1][..i] == connectivityRules[..i];
      }
      assert connectivityRules[..|connectivityRules|] == connectivityRules;
      completed := true;
    }
  }

  /** Under a rule's key there is its breach state or nothing. */
  lemma TypedCell(store: Store, ruleId: string, d: string)
    requires WellTyped(store)
    ensures var entry := Lookup(store, RuleKey(ruleId, d));
            && (entry.Some? ==> entry.value.Breach?)
            && CellAt(store, RuleKey(ruleId, d)) == if entry.Some? then Some(entry.value.state) else None
  {
    KeySpacesDisjoint(ruleId, d, "", "");
  }

  lemma AfterTyped(e: Event, store: Store)
    requires WellTyped(store)
    ensures WellTyped(After(e, store))
  {
    hide Breaching, NextState, RuleKey;
  }

  lemma Recovers(rule: ThresholdRule, t: Reading, store: Store, reply: WriteReply)
    requires WellTyped(store) && !Breaching(rule, t)
    ensures var e, key := Event(rule, t, OutcomeOf(reply)), RuleKey(rule.id, t.deviceId);
            && Possible(e) && WellTyped(After(e, store)) && AlertsOf(e, store) == []
            && After(e, store) == (if TookEffect(reply) then store - {key} else store)
            && EvaluationCalls(e, store) == [Deleted(key, reply)]
            && forall read :: MadeBy(rule, t, read, [Deleted(key, reply)], [], OutcomeOf(reply))
  {
    hide Breaching, RuleKey, WellTyped;
    AfterTyped(Event(rule, t, OutcomeOf(reply)), store);
  }

  lemma CannotRead(rule: ThresholdRule, t: Reading, store: Store)
    requires WellTyped(store) && Breaching(rule, t)
    ensures var e, key := Event(rule, t, ReadFailed), RuleKey(rule.id, t.deviceId);
            && Possible(e) && WellTyped(After(e, store)) && AlertsOf(e, store) == []
            && After(e, store) == store && EvaluationCalls(e, store) == [Got(key, ReadError)]
            && MadeBy(rule, t, ReadError, [Got(key, ReadError)], [], ReadFailed)
  {
    hide Breaching, RuleKey, WellTyped;
    AfterTyped(Event(rule, t, ReadFailed), store);
  }

  lemma Writes(rule: ThresholdRule, t: Reading, store: Store, reply: WriteReply)
    requires WellTyped(store) && Breaching(rule, t)
    ensures var e, key := Event(rule, t, OutcomeOf(reply)), RuleKey(rule.id, t.deviceId);
            var cell, read := CellAt(store, key), Found(Lookup(store, key));
            var state := Breach(NextState(rule, t, cell));
            var news := if Fires(rule, t, cell) then [AlertFor(rule, t)] else [];
            var made := [Got(key, read)] + (if Fires(rule, t, cell) then [Sent(AlertFor(rule, t))] else [])
                        + [Stored(key, state, reply)];
            && Possible(e) && WellTyped(After(e, store)) && AlertsOf(e, store) == news
            && After(e, store) == (if TookEffect(reply) then store[key := state] else store)
            && EvaluationCalls(e, store) == made && MadeBy(rule, t, read, made, news, OutcomeOf(reply))
  {
    hide Breaching, RuleKey, WellTyped, NextState, Fires, AlertFor;
    AfterTyped(Event(rule, t, OutcomeOf(reply)), store);
  }

  /** The evaluations of a message: all rules in order, or up to and including the first that fails. */
  ghost predicate Handles(rules: seq<ThresholdRule>, t: Reading, es: seq<Event>) {
    && |es| <= |rules|
    && (forall k | 0 <= k < |es| :: es[k].rule == rules[k] && es[k].reading == t && Possible(es[k]))
    && (forall k | 0 <= k < |es| - 1 :: es[k].outcome.Completed?)
    && (|es| < |rules| ==> es != [] && !es[|es| - 1].outcome.Completed?)
  }

  lemma BreaksOff(rules: seq<ThresholdRule>, t: Reading, i: nat, outcome: Outcome)
    requires i < |rules| && !outcome.Completed? && Possible(Event(rules[i], t, outcome))
    ensures var es := ReadingEvents(rules[..i], t) + [Event(rules[i], t, outcome)];
            Handles(rules, t, es) && es != ReadingEvents(rules, t)
  {
    hide Breaching;
    var es := ReadingEvents(rules[..i], t) + [Event(rules[i], t, outcome)];
    assert es[i].outcome == outcome;
  }

  lemma GoesThrough(rules: seq<ThresholdRule>, t: Reading)
    ensures Handles(rules, t, ReadingEvents(rules, t))
  {
    hide Breaching;
  }

  lemma NothingRun(store: Store)
    ensures RunStore([], store) == store && RunAlerts([], store) == [] && RunCalls([], store) == []
  {
  }

  lemma RunCallsSnoc(es: seq<Event>, e: Event, store: Store)
    ensures RunCalls(es + [e], store) == RunCalls(es, store) + EvaluationCalls(e, RunStore(es, store))
  {
    assert (es + [e])[..|es|] == es;
  }

  /** The checks before the last went through; the last one hit an error. */
  predicate CutShort(cs: seq<Check>) {
    cs != [] && Undisturbed(cs[..|cs| - 1]) && !cs[|cs| - 1].outcome.Completed?
  }

  lemma ChecksAppend(a: seq<Check>, b: seq<Check>, p: seq<(ConnectivityRule, Device)>,
                     q: seq<(ConnectivityRule, Device)>, all: seq<(ConnectivityRule, Device)>, nowMs: int)
    requires ChecksOf(a, p, nowMs) && |b| <= |q| && ChecksOf(b, q[..|b|], nowMs) && p + q <= all && Undisturbed(a)
    ensures |a + b| <= |all| && ChecksOf(a + b, all[..|a + b|], nowMs)
    ensures |b| == |q| ==> ChecksOf(a + b, p + q, nowMs)
    ensures Undisturbed(b) ==> Undisturbed(a + b)
    ensures CutShort(b) ==> CutShort(a + b)
  {
    assert forall i | 0 <= i < |p + q| :: (p + q)[i] == all[i];
  }

  lemma {:induction false} SweepAppend(a: seq<Check>, b: seq<Check>, store: Store)
    ensures SweepCalls(a + b, store) == SweepCalls(a, store) + SweepCalls(b, SweepStore(a, store))
    ensures SweepStore(a + b, store) == SweepStore(b, SweepStore(a, store))
    ensures SweepAlerts(a + b, store) == SweepAlerts(a, store) + SweepAlerts(b, SweepStore(a, store))
  {
    hide *;
    SweepStart(SweepStore(a, store));
    if b == [] {
      assert a + b == a;
    } else {
      var init, last := b[..|b| - 1], b[|b| - 1];
      var mid := SweepStore(a, store);
      SweepAppend(a, init, store);
      SweepSnoc(a + init, last, store);
      SweepSnoc(init, last, mid);
      assert init + [last] == b && (a + init) + [last] == a + b;
      var x, y, z := SweepAlerts(a, store), SweepAlerts(init, mid), ReportsOf(last, SweepStore(init, mid));
      assert (x + y) + z == x + (y + z);
      var u, v, w := SweepCalls(a, store), SweepCalls(init, mid), CheckCalls(last, SweepStore(init, mid));
      assert (u + v) + w == u + (v + w);
    }
  }

  lemma SweepStart(store: Store)
    ensures SweepStore([], store) == store && SweepAlerts([], store) == [] && SweepCalls([], store) == []
  {
  }

  lemma SweepSnoc(cs: seq<Check>, c: Check, store: Store)
    ensures SweepStore(cs + [c], store) == AfterCheck(c, SweepStore(cs, store))
    ensures SweepAlerts(cs + [c], store) == SweepAlerts(cs, store) + ReportsOf(c, SweepStore(cs, store))
    ensures SweepCalls(cs + [c], store) == SweepCalls(cs, store) + CheckCalls(c, SweepStore(cs, store))
  {
    assert (cs + [c])[..|cs|] == cs;
  }

  /** The first rules' pairs, and one more rule's, begin the sweep's pairs. */
  lemma {:induction false} SweepPairsPrefix(rules: seq<ConnectivityRule>, devices: seq<Device>, i: nat)
    requires i < |rules|
    ensures SweepPairs(rules[..i], devices) + RulePairs(rules[i], devices) <= SweepPairs(rules, devices)
    decreases |rules|
  {
    var init := rules[..|rules| - 1];
    if i < |init| {
      SweepPairsPrefix(init, devices, i);
      assert init[..i] == rules[..i];
    }
  }

  /** Sweeps leave every entry under a rule key a breach state, as the evaluation needs it. */
  lemma {:induction false} SweepKeepsTypes(cs: seq<Check>, store: Store)
    requires WellTyped(store)
    ensures WellTyped(SweepStore(cs, store))
  {
    hide Silent;
    if cs != [] {
      var last := cs[|cs| - 1];
      SweepKeepsTypes(cs[..|cs| - 1], store);
      KeySpacesDisjoint("", "", last.device.deviceId, "");
      KeySpacesDisjoint(last.rule.id, "", last.device.deviceId, "");
    }
  }
}
