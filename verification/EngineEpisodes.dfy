/**
 The episode bound over whole runs of the step-by-step engine: sweeps at every await, every pattern
 of failing store calls, and the dead-lettering they cause.
 */
module EngineEpisodes {
  import opened Options
  import opened Readings
  import opened StoreKeys
  import opened RuleSchema
  import opened KeyValueStore
  import opened Evaluation
  import opened Episodes
  import opened ConsumerChannel
  import opened Isolation
  import opened StoreFailures
  import opened EngineSteps
  import opened EngineHistory

  ghost predicate LogsRules(rules: seq<ThresholdRule>, e: Engine) {
    forall k | 0 <= k < |e.log| :: e.log[k].rule in rules && e.log[k].reading in History(e.inbox)
  }

  lemma StepLogsRules(rules: seq<ThresholdRule>, e: Engine, a: Action)
    requires LogsRules(rules, e)
    ensures LogsRules(rules, Step(rules, e, a))
  {
    hide Step, History;
    StepHistory(rules, e, a);
    var e' := Step(rules, e, a);
    StepLog(rules, e, a);
    forall k | 0 <= k < |e'.log| ensures e'.log[k].rule in rules && e'.log[k].reading in History(e'.inbox) {
      assert k < |e.log| ==> e'.log[k] == e.log[k];
    }
  }

  /** A step logs nothing, or one evaluation of a rule on the message in flight. */
  lemma StepLog(rules: seq<ThresholdRule>, e: Engine, a: Action)
    ensures var e' := Step(rules, e, a);
            e'.log == e.log || exists ev :: e'.log == e.log + [ev] && ev.rule in rules && ev.reading in History(e.inbox)
  {
    hide SweepStep, Breaching, Fires, NextState, AlertFor, History;
    if e.inbox.inFlight.Some? {
      InFlightReceived(e.inbox);
    }
    match a {
      case SweepDelete(k, _) => SweepInvisible(e, k, a);
      case SweepLook(k, _) => SweepInvisible(e, k, a);
      case SweepResume(k, _) => SweepInvisible(e, k, a);
      case SweepMark(k, _) => SweepInvisible(e, k, a);
      case _ =>
    }
  }

  lemma InFlightReceived(c: Channel<Reading>)
    requires c.inFlight.Some?
    ensures c.inFlight.value in History(c)
  {
    hide Messages;
    assert History(c)[|Messages(c.settled)|] == c.inFlight.value;
  }

  /** Only the configured rules are ever evaluated, and only on messages that have been sent. */
  lemma {:induction false} RunLogsRules(rules: seq<ThresholdRule>, start: Store, acts: seq<Action>)
    ensures LogsRules(rules, Exec(rules, Start(start), acts))
  {
    hide Step;
    if acts != [] {
      hide LogsRules;
      RunLogsRules(rules, start, acts[..|acts| - 1]);
      StepLogsRules(rules, Exec(rules, Start(start), acts[..|acts| - 1]), acts[|acts| - 1]);
    }
  }

  /** When no two rules share a key on these devices, a pair's key is used by that pair only. */
  lemma PairsApart(rules: seq<ThresholdRule>, ds: set<string>, ev: Event, rule: ThresholdRule, d: string)
    requires SafeOn(rules, ds) && ev.rule in rules && rule in rules && ev.reading.deviceId in ds && d in ds
    ensures EventKey(ev) == RuleKey(rule.id, d) ==> ev.rule.id == rule.id && ev.reading.deviceId == d
  {
    hide RuleKey, SafeOn;
    var i: nat :| i < |rules| && rules[i] == ev.rule;
    var j: nat :| j < |rules| && rules[j] == rule;
    KeysOfRules(rules, ds, i, ev.reading.deviceId, j, d);
  }

  /** The evaluations from i to j, and the store they start on. */
  function Window(e: Engine, i: nat, j: nat): seq<Event>
    requires i <= j <= |e.log|
  {
    e.log[i..j]
  }

  function StoreBefore(start: Store, e: Engine, i: nat): Store
    requires i <= |e.log|
  {
    RunStore(e.log[..i], RulePart(start))
  }

  /** What was published splits, in order, into the alerts before, within and after any window of evaluations. */
  lemma PublishedByWindow(rules: seq<ThresholdRule>, start: Store, acts: seq<Action>, i: nat, j: nat)
    requires i <= j <= |Exec(rules, Start(start), acts).log|
    ensures var e := Exec(rules, Start(start), acts);
            ThresholdAlerts(e.published) ==
            RunAlerts(e.log[..i], RulePart(start)) + RunAlerts(Window(e, i, j), StoreBefore(start, e, i))
            + RunAlerts(e.log[j..], StoreBefore(start, e, j)) + Unlogged(rules, e)
  {
    hide RunAlerts, RunStore, Exec, RulePart, PcInv, Unlogged, ThresholdAlerts;
    var e := Exec(rules, Start(start), acts);
    AsyncRefinement(rules, start, acts);
    assert e.log == e.log[..j] + e.log[j..] && e.log[..j] == e.log[..i] + e.log[i..j];
    RunAppend(e.log[..j], e.log[j..], RulePart(start));
    RunAppend(e.log[..i], e.log[i..j], RulePart(start));
  }

  /**
   In every run, among any evaluations in a row that do not delete a pair's breach key, the pair
   alerts at most once more than it loses writes right after alerting, and no more often than its writes fail.
   */
  lemma EngineEpisodeBound(rules: seq<ThresholdRule>, start: Store, acts: seq<Action>, i: nat, j: nat,
                           rule: ThresholdRule, d: string)
    requires SafeOn(rules, DevicesOf(Received(acts)) + {d}) && rule in rules
    requires i <= j <= |Exec(rules, Start(start), acts).log|
    requires forall k | i <= k < j :: !Deletes(Exec(rules, Start(start), acts).log[k], RuleKey(rule.id, d))
    ensures var e, key := Exec(rules, Start(start), acts), RuleKey(rule.id, d);
            var es, store := Window(e, i, j), StoreBefore(start, e, i);
            && |AlertsFor(RunAlerts(es, store), rule.id, d)| <= 1 + LostAfterFire(es, key, store)
            && LostAfterFire(es, key, store) <= FailedWrites(es, key)
  {
    hide RunAlerts, RunStore, Exec, RulePart, LostAfterFire, FailedWrites, AlertsFor, SafeOn, Deletes, RuleKey, EventKey,
         History, Received;
    var e := Exec(rules, Start(start), acts);
    var es := Window(e, i, j);
    RunLogsRules(rules, start, acts);
    ReceivedHistory(rules, start, acts);
    forall k | 0 <= k < |es| && EventKey(es[k]) == RuleKey(rule.id, d)
      ensures es[k].rule.id == rule.id && es[k].reading.deviceId == d {
      assert es[k] == e.log[i + k];
      PairsApart(rules, DevicesOf(Received(acts)) + {d}, es[k], rule, d);
    }
    forall k | 0 <= k < |es| ensures !Deletes(es[k], RuleKey(rule.id, d)) {
      assert es[k] == e.log[i + k];
    }
    PublishedBound(es, rule.id, d, StoreBefore(start, e, i));
  }

  lemma {:induction false} ExecAppend(rules: seq<ThresholdRule>, e: Engine, a: seq<Action>, b: seq<Action>)
    ensures Exec(rules, e, a + b) == Exec(rules, Exec(rules, e, a), b)
  {
    hide Step;
    if b == [] {
      assert a + b == a;
    } else {
      ExecAppend(rules, e, a, b[..|b| - 1]);
      assert (a + b)[..|a + b| - 1] == a + b[..|b| - 1];
    }
  }

  /** A message arrives, is taken, and its one rule is evaluated up to the write. */
  function UpToWrite(t: Reading): seq<Action> {
    [Receive(t), TakeMessage, Fetch(true), Resume]
  }

  lemma ExecFour(rules: seq<ThresholdRule>, e: Engine, acts: seq<Action>)
    requires |acts| == 4
    ensures Exec(rules, e, acts) ==
            Step(rules, Step(rules, Step(rules, Step(rules, e, acts[0]), acts[1]), acts[2]), acts[3])
  {
    hide Step;
    assert acts[..3][..2] == acts[..2] && acts[..2][..1] == acts[..1] && acts[..1][..0] == [];
    assert Exec(rules, e, acts[..1]) == Step(rules, e, acts[0]);
    assert Exec(rules, e, acts[..2]) == Step(rules, Exec(rules, e, acts[..1]), acts[1]);
  }

  /** With no state stored and nothing to sustain, a breaching reading alerts before its write. */
  lemma FiresAtOnce(rule: ThresholdRule, e: Engine, t: Reading)
    requires e.pc.Idle? && e.inbox.inFlight.None? && e.inbox.queue == []
    requires Breaching(rule, t) && rule.sustainSeconds == 0 && CellOf(e.store, rule.id, t.deviceId) == None
    ensures Exec([rule], e, UpToWrite(t)) ==
            e.(inbox := e.inbox.(inFlight := Some(t)), pc := Storing(0, BreachState(t.timestampMs, true)),
               published := e.published + [AlertFor(rule, t)])
  {
    hide Exec, Breaching, SweepStep, Conclude, EvaluateRule;
    var e1 := e.(inbox := e.inbox.(queue := [t]));
    var e2 := e.(inbox := e.inbox.(inFlight := Some(t)), pc := Evaluating(0));
    var e3 := e2.(pc := Fetched(0, None));
    assert Step([rule], e, Receive(t)) == e1;
    assert Step([rule], e1, TakeMessage) == e2;
    assert Step([rule], e2, Fetch(true)) == e3;
    ExecFour([rule], e, UpToWrite(t));
  }

  /** In the history of two breaching readings of one device only the first demands an alert. */
  lemma OneRunOneAlert(rule: ThresholdRule, t1: Reading, t2: Reading)
    requires t1.deviceId == t2.deviceId && rule.sustainSeconds == 0
    requires Breaching(rule, t1) && Breaching(rule, t2)
    ensures HistoryAlerts([rule], [t1, t2]) == [AlertFor(rule, t1)]
  {
    hide Breaching, MustAlert, EvaluateRule;
    FiresIffMustAlert(rule, [], t1);
    FiresIffMustAlert(rule, [t1], t2);
    assert [] + [t1] == [t1] && [t1] + [t2] == [t1, t2];
    CellAfterSnoc(rule, [], t1, t1.deviceId);
    assert CellAfter(rule, [t1], t1.deviceId) == Some(BreachState(t1.timestampMs, true));
    assert [rule][..0] == [] && [t1, t2][..1] == [t1] && [t1][..0] == [];
    assert MustAlert(rule, [t1]);
    assert LastAlerts([rule], [t1]) == [AlertFor(rule, t1)];
    assert !MustAlert(rule, [t1, t2]);
    assert LastAlerts([rule], [t1, t2]) == [];
    assert HistoryAlerts([rule], [t1]) == HistoryAlerts([rule], [t1][..0]) + LastAlerts([rule], [t1]);
  }

  /**
   A lost write lets an alert repeat: two readings of one run, of which the first is dead-lettered when
   the write after its alert fails, publish two alerts where the history demands one.
   */
  lemma LostWriteRepeatsAlert(rule: ThresholdRule, t1: Reading, t2: Reading)
    requires t1.deviceId == t2.deviceId && rule.sustainSeconds == 0
    requires Breaching(rule, t1) && Breaching(rule, t2)
    ensures var e := Exec([rule], Start(map[]), (UpToWrite(t1) + [Write(WriteError(false))]) + UpToWrite(t2));
            && e.published == [AlertFor(rule, t1), AlertFor(rule, t2)]
            && e.inbox.settled == [Delivery(t1, false)]
            && HistoryAlerts([rule], [t1, t2]) == [AlertFor(rule, t1)]
  {
    hide Exec, Breaching, HistoryAlerts, EvaluateRule, UpToWrite;
    OneRunOneAlert(rule, t1, t2);
    var e0 := Start(map[]);
    FiresAtOnce(rule, e0, t1);
    var e1 := Exec([rule], e0, UpToWrite(t1));
    var e2 := Step([rule], e1, Write(WriteError(false)));
    ExecOne([rule], e0, UpToWrite(t1), Write(WriteError(false)));
    ExecAppend([rule], e0, UpToWrite(t1) + [Write(WriteError(false))], UpToWrite(t2));
    FiresAtOnce(rule, e2, t2);
  }

  lemma ExecOne(rules: seq<ThresholdRule>, e: Engine, acts: seq<Action>, a: Action)
    ensures Exec(rules, e, acts + [a]) == Step(rules, Exec(rules, e, acts), a)
  {
    hide Step;
    assert (acts + [a])[..|acts|] == acts;
  }
}
