/**
 What the step-by-step engine publishes, said over the messages it was sent: settlement of each
 message by its evaluations, and, while nothing is dead-lettered, the history's alerts.
 */
module EngineHistory {
  import opened Readings
  import opened StoreKeys
  import opened RuleSchema
  import opened KeyValueStore
  import opened Evaluation
  import opened Episodes
  import opened Connectivity
  import opened ConsumerChannel
  import opened EngineSteps

  function FailedEvaluations(log: seq<Event>): nat {
    if log == [] then 0
    else FailedEvaluations(log[..|log| - 1]) + if log[|log| - 1].outcome.Completed? then 0 else 1
  }

  lemma FailedSnoc(log: seq<Event>, ev: Event)
    ensures FailedEvaluations(log + [ev]) == FailedEvaluations(log) + if ev.outcome.Completed? then 0 else 1
  {
    assert (log + [ev])[..|log|] == log;
  }

  /** The rules done with the message in flight. */
  function Done(rules: seq<ThresholdRule>, e: Engine): seq<ThresholdRule> {
    if e.pc.Idle? || e.pc.i > |rules| then [] else rules[..e.pc.i]
  }

  function DoneEvents(rules: seq<ThresholdRule>, e: Engine): seq<Event> {
    if e.inbox.inFlight.None? then [] else ReadingEvents(Done(rules, e), e.inbox.inFlight.value)
  }

  /**
   A message is dead-lettered for exactly one failed evaluation each; without any, the log is the
   settled messages' evaluations in order, then those done with the message in flight.
   */
  ghost predicate LogShape(rules: seq<ThresholdRule>, e: Engine) {
    && DeadLetters(e.inbox.settled) == FailedEvaluations(e.log)
    && (FailedEvaluations(e.log) == 0 ==>
          e.log == StreamEvents(rules, Messages(e.inbox.settled)) + DoneEvents(rules, e))
  }

  lemma ConcludeShape(rules: seq<ThresholdRule>, e: Engine, i: nat, outcome: Outcome)
    requires i < |rules| && e.inbox.inFlight.Some? && !e.pc.Idle? && e.pc.i == i && LogShape(rules, e)
    ensures LogShape(rules, Conclude(e, rules, i, outcome))
  {
    hide StreamEvents, FailedEvaluations, DeadLetters;
    var t := e.inbox.inFlight.value;
    FailedSnoc(e.log, Event(rules[i], t, outcome));
    if outcome.Completed? {
      ReadingEventsSnoc(rules, i, t);
    } else {
      MessagesSnoc(e.inbox.settled, Delivery(t, false));
    }
  }

  lemma FinishShape(rules: seq<ThresholdRule>, e: Engine)
    requires e.inbox.inFlight.Some? && e.pc == Evaluating(|rules|) && LogShape(rules, e)
    ensures LogShape(rules, e.(inbox := Settle(e.inbox, true), pc := Idle, marks := e.marks + [|e.log|]))
  {
    hide FailedEvaluations;
    var t := e.inbox.inFlight.value;
    MessagesSnoc(e.inbox.settled, Delivery(t, true));
    StreamEventsSnoc(rules, Messages(e.inbox.settled), t);
    assert rules[..|rules|] == rules;
  }

  /** Without a rule in progress, the store calls are not due. */
  lemma NotDue(rules: seq<ThresholdRule>, e: Engine, a: Action)
    requires a.Delete? || a.Fetch? || a.Write?
    requires e.inbox.inFlight.None? || e.pc.Idle? || e.pc.i >= |rules|
    ensures HandlerStep(rules, e, a) == e
  {
    hide Breaching, NextState, Fires, RuleKey;
  }

  /** A step that neither logs nor settles, and keeps the rules done. */
  lemma SameShape(rules: seq<ThresholdRule>, e: Engine, e': Engine)
    requires LogShape(rules, e) && e'.log == e.log && e'.inbox.settled == e.inbox.settled
    requires DoneEvents(rules, e') == DoneEvents(rules, e)
    ensures LogShape(rules, e')
  {
  }

  /** A deletion, a read or a write on behalf of the rule in progress. */
  lemma StoreShape(rules: seq<ThresholdRule>, e: Engine, a: Action)
    requires PcInv(rules, e) && LogShape(rules, e) && (a.Delete? || a.Fetch? || a.Write?)
    requires e.inbox.inFlight.Some? && !e.pc.Idle? && e.pc.i < |rules|
    ensures LogShape(rules, HandlerStep(rules, e, a))
  {
    hide LogShape, PcInv, Breaching, NextState, Fires, Conclude, AlertFor, ReadingEvents, RuleKey, CellAt;
    var i, key := e.pc.i, RuleKey(rules[e.pc.i].id, e.inbox.inFlight.value.deviceId);
    match a {
      case Delete(reply) =>
        var e' := e.(store := if TookEffect(reply) then e.store - {key} else e.store);
        SameShape(rules, e, e');
        ConcludeShape(rules, e', i, OutcomeOf(reply));
      case Fetch(ok) =>
        ConcludeShape(rules, e, i, ReadFailed);
        SameShape(rules, e, e.(pc := Fetched(i, CellAt(e.store, key))));
      case Write(reply) =>
        if e.pc.Storing? {
          var e' := e.(store := if TookEffect(reply) then e.store[key := Breach(e.pc.state)] else e.store);
          SameShape(rules, e, e');
          ConcludeShape(rules, e', i, OutcomeOf(reply));
        }
    }
  }

  /** The other steps of the handler. */
  lemma HandlerShape(rules: seq<ThresholdRule>, e: Engine, a: Action)
    requires PcInv(rules, e) && LogShape(rules, e) && (a.TakeMessage? || a.Resume? || a.Finish?)
    ensures LogShape(rules, HandlerStep(rules, e, a))
  {
    hide LogShape, Breaching, NextState, Fires, AlertFor, ReadingEvents, RuleKey, CellAt;
    if a.TakeMessage? && e.inbox.inFlight.None? && e.inbox.queue != [] {
      NoEvents(e.inbox.queue[0]);
      SameShape(rules, e, HandlerStep(rules, e, a));
    } else if a.Resume? && e.pc.Fetched? {
      SameShape(rules, e, HandlerStep(rules, e, a));
    } else if a.Finish? && e.pc == Evaluating(|rules|) && e.inbox.inFlight.Some? {
      FinishShape(rules, e);
    }
  }

  lemma StepShape(rules: seq<ThresholdRule>, e: Engine, a: Action)
    requires PcInv(rules, e) && LogShape(rules, e)
    ensures LogShape(rules, Step(rules, e, a))
  {
    hide LogShape, PcInv, HandlerStep, SweepStep;
    match a {
      case Receive(_) => SameShape(rules, e, Step(rules, e, a));
      case StartSweep(_, _) => SameShape(rules, e, Step(rules, e, a));
      case SweepDelete(k, _) => SweepInvisible(e, k, a); SameShape(rules, e, Step(rules, e, a));
      case SweepLook(k, _) => SweepInvisible(e, k, a); SameShape(rules, e, Step(rules, e, a));
      case SweepResume(k, _) => SweepInvisible(e, k, a); SameShape(rules, e, Step(rules, e, a));
      case SweepMark(k, _) => SweepInvisible(e, k, a); SameShape(rules, e, Step(rules, e, a));
      case TakeMessage => HandlerShape(rules, e, a);
      case Resume => HandlerShape(rules, e, a);
      case Finish => HandlerShape(rules, e, a);
      case _ =>
        if e.inbox.inFlight.Some? && !e.pc.Idle? && e.pc.i < |rules| {
          StoreShape(rules, e, a);
        } else {
          NotDue(rules, e, a);
        }
    }
  }

  lemma {:induction false} RunShape(rules: seq<ThresholdRule>, start: Store, acts: seq<Action>)
    ensures LogShape(rules, Exec(rules, Start(start), acts))
  {
    if acts != [] {
      hide Step, PcInv, LogShape, Refines;
      RunShape(rules, start, acts[..|acts| - 1]);
      AsyncRefinement(rules, start, acts[..|acts| - 1]);
      StepShape(rules, Exec(rules, Start(start), acts[..|acts| - 1]), acts[|acts| - 1]);
    }
  }

  /** Where the evaluations of the k-th settled message begin in the log. */
  function MarkBefore(marks: seq<nat>, k: nat): nat
    requires k <= |marks|
  {
    if k == 0 then 0 else marks[k - 1]
  }

  /** The evaluations break off at rule i, with an error. */
  ghost predicate BrokenOff(rules: seq<ThresholdRule>, t: Reading, segment: seq<Event>, i: nat, outcome: Outcome) {
    && i < |rules| && !outcome.Completed?
    && segment == ReadingEvents(rules[..i], t) + [Event(rules[i], t, outcome)]
  }

  /** A message is acknowledged after all its evaluations, and dead-lettered at the first that fails. */
  ghost predicate SettledBy(rules: seq<ThresholdRule>, d: Delivery<Reading>, segment: seq<Event>) {
    if d.acked then segment == ReadingEvents(rules, d.message)
    else exists i: nat, outcome: Outcome :: BrokenOff(rules, d.message, segment, i, outcome)
  }

  ghost predicate SegmentAt(rules: seq<ThresholdRule>, settled: seq<Delivery<Reading>>, marks: seq<nat>, log: seq<Event>, k: int) {
    && 0 <= k < |marks| == |settled| && MarkBefore(marks, k) <= marks[k] <= |log|
    && SettledBy(rules, settled[k], log[MarkBefore(marks, k)..marks[k]])
  }

  ghost predicate Segments(rules: seq<ThresholdRule>, settled: seq<Delivery<Reading>>, marks: seq<nat>, log: seq<Event>) {
    && |marks| == |settled| && MarkBefore(marks, |marks|) <= |log|
    && forall k | 0 <= k < |marks| :: SegmentAt(rules, settled, marks, log, k)
  }

  /** The log, cut at the marks, is each settled message's evaluations, and then those of the one in flight. */
  ghost predicate Segmented(rules: seq<ThresholdRule>, e: Engine) {
    && Segments(rules, e.inbox.settled, e.marks, e.log)
    && e.log[MarkBefore(e.marks, |e.marks|)..] == DoneEvents(rules, e)
  }

  /** A longer log has the same segments. */
  lemma SegmentsGrow(rules: seq<ThresholdRule>, settled: seq<Delivery<Reading>>, marks: seq<nat>, log: seq<Event>, more: seq<Event>)
    requires Segments(rules, settled, marks, log)
    ensures Segments(rules, settled, marks, log + more)
  {
    hide SettledBy;
    forall k | 0 <= k < |marks| ensures SegmentAt(rules, settled, marks, log + more, k) {
      assert SegmentAt(rules, settled, marks, log, k);
      assert (log + more)[MarkBefore(marks, k)..marks[k]] == log[MarkBefore(marks, k)..marks[k]];
    }
  }

  /** Settling a message closes its segment. */
  lemma CloseSegment(rules: seq<ThresholdRule>, settled: seq<Delivery<Reading>>, marks: seq<nat>, log: seq<Event>, d: Delivery<Reading>)
    requires Segments(rules, settled, marks, log) && SettledBy(rules, d, log[MarkBefore(marks, |marks|)..])
    ensures Segments(rules, settled + [d], marks + [|log|], log)
  {
    hide SettledBy;
    var n := |marks|;
    forall k | 0 <= k < n + 1 ensures SegmentAt(rules, settled + [d], marks + [|log|], log, k) {
      assert MarkBefore(marks + [|log|], k) == MarkBefore(marks, k);
      if k < n {
        assert SegmentAt(rules, settled, marks, log, k);
      } else {
        assert log[MarkBefore(marks, n)..|log|] == log[MarkBefore(marks, n)..];
      }
    }
  }

  lemma ConcludeSegmented(rules: seq<ThresholdRule>, e: Engine, i: nat, outcome: Outcome)
    requires i < |rules| && e.inbox.inFlight.Some? && !e.pc.Idle? && e.pc.i == i && Segmented(rules, e)
    ensures Segmented(rules, Conclude(e, rules, i, outcome))
  {
    hide SettledBy, ReadingEvents, SegmentAt, Segments;
    assert MarkBefore(e.marks, |e.marks|) <= |e.log| by { SegmentsBound(rules, e.inbox.settled, e.marks, e.log); }
    var t, ev := e.inbox.inFlight.value, Event(rules[i], e.inbox.inFlight.value, outcome);
    var from, log := MarkBefore(e.marks, |e.marks|), e.log + [ev];
    SegmentsGrow(rules, e.inbox.settled, e.marks, e.log, [ev]);
    assert log[from..] == e.log[from..] + [ev];
    if outcome.Completed? {
      ReadingEventsSnoc(rules, i, t);
    } else {
      BrokenOffSettles(rules, t, log[from..], i, outcome);
      CloseSegment(rules, e.inbox.settled, e.marks, log, Delivery(t, false));
      assert log[|log|..] == [];
    }
  }

  lemma SegmentsBound(rules: seq<ThresholdRule>, settled: seq<Delivery<Reading>>, marks: seq<nat>, log: seq<Event>)
    requires Segments(rules, settled, marks, log)
    ensures |marks| == |settled| && MarkBefore(marks, |marks|) <= |log|
  {
  }

  lemma BrokenOffSettles(rules: seq<ThresholdRule>, t: Reading, segment: seq<Event>, i: nat, outcome: Outcome)
    requires BrokenOff(rules, t, segment, i, outcome)
    ensures SettledBy(rules, Delivery(t, false), segment)
  {
  }

  /** A step that neither logs nor settles, and keeps the rules done, keeps the segments. */
  lemma SameSegmented(rules: seq<ThresholdRule>, e: Engine, e': Engine)
    requires Segmented(rules, e)
    requires e'.log == e.log && e'.marks == e.marks && e'.inbox.settled == e.inbox.settled
    requires DoneEvents(rules, e') == DoneEvents(rules, e)
    ensures Segmented(rules, e')
  {
    hide SettledBy, ReadingEvents, SegmentAt;
  }

  /** A deletion, a read or a write on behalf of the rule in progress. */
  lemma StoreSegmented(rules: seq<ThresholdRule>, e: Engine, a: Action)
    requires PcInv(rules, e) && Segmented(rules, e) && (a.Delete? || a.Fetch? || a.Write?)
    requires e.inbox.inFlight.Some? && !e.pc.Idle? && e.pc.i < |rules|
    ensures Segmented(rules, HandlerStep(rules, e, a))
  {
    hide Segmented, PcInv, Breaching, NextState, Fires, Conclude, AlertFor, ReadingEvents, RuleKey, CellAt;
    var i, key := e.pc.i, RuleKey(rules[e.pc.i].id, e.inbox.inFlight.value.deviceId);
    match a {
      case Delete(reply) =>
        var e' := e.(store := if TookEffect(reply) then e.store - {key} else e.store);
        SameSegmented(rules, e, e');
        ConcludeSegmented(rules, e', i, OutcomeOf(reply));
      case Fetch(ok) =>
        ConcludeSegmented(rules, e, i, ReadFailed);
        SameSegmented(rules, e, e.(pc := Fetched(i, CellAt(e.store, key))));
      case Write(reply) =>
        if e.pc.Storing? {
          var e' := e.(store := if TookEffect(reply) then e.store[key := Breach(e.pc.state)] else e.store);
          SameSegmented(rules, e, e');
          ConcludeSegmented(rules, e', i, OutcomeOf(reply));
        }
    }
  }

  /** The other steps of the handler. */
  lemma HandlerSegmented(rules: seq<ThresholdRule>, e: Engine, a: Action)
    requires PcInv(rules, e) && Segmented(rules, e) && (a.TakeMessage? || a.Resume? || a.Finish?)
    ensures Segmented(rules, HandlerStep(rules, e, a))
  {
    hide Segmented, Breaching, NextState, Fires, AlertFor, ReadingEvents, RuleKey, CellAt;
    if a.TakeMessage? && e.inbox.inFlight.None? && e.inbox.queue != [] {
      NoEvents(e.inbox.queue[0]);
      SameSegmented(rules, e, HandlerStep(rules, e, a));
    } else if a.Resume? && e.pc.Fetched? {
      SameSegmented(rules, e, HandlerStep(rules, e, a));
    } else if a.Finish? && e.pc == Evaluating(|rules|) && e.inbox.inFlight.Some? {
      FinishSegmented(rules, e);
    }
  }

  lemma StepSegmented(rules: seq<ThresholdRule>, e: Engine, a: Action)
    requires PcInv(rules, e) && Segmented(rules, e)
    ensures Segmented(rules, Step(rules, e, a))
  {
    hide Segmented, PcInv, HandlerStep, SweepStep;
    match a {
      case Receive(_) => SameSegmented(rules, e, Step(rules, e, a));
      case StartSweep(_, _) => SameSegmented(rules, e, Step(rules, e, a));
      case SweepDelete(k, _) => SweepInvisible(e, k, a); SameSegmented(rules, e, Step(rules, e, a));
      case SweepLook(k, _) => SweepInvisible(e, k, a); SameSegmented(rules, e, Step(rules, e, a));
      case SweepResume(k, _) => SweepInvisible(e, k, a); SameSegmented(rules, e, Step(rules, e, a));
      case SweepMark(k, _) => SweepInvisible(e, k, a); SameSegmented(rules, e, Step(rules, e, a));
      case TakeMessage => HandlerSegmented(rules, e, a);
      case Resume => HandlerSegmented(rules, e, a);
      case Finish => HandlerSegmented(rules, e, a);
      case _ =>
        if e.inbox.inFlight.Some? && !e.pc.Idle? && e.pc.i < |rules| {
          StoreSegmented(rules, e, a);
        } else {
          NotDue(rules, e, a);
        }
    }
  }

  lemma FinishSegmented(rules: seq<ThresholdRule>, e: Engine)
    requires e.pc == Evaluating(|rules|) && e.inbox.inFlight.Some? && Segmented(rules, e)
    ensures Segmented(rules, e.(inbox := Settle(e.inbox, true), pc := Idle, marks := e.marks + [|e.log|]))
  {
    hide ReadingEvents, SegmentAt, Segments;
    SegmentsBound(rules, e.inbox.settled, e.marks, e.log);
    assert rules[..|rules|] == rules;
    CloseSegment(rules, e.inbox.settled, e.marks, e.log, Delivery(e.inbox.inFlight.value, true));
    assert e.log[|e.log|..] == [];
  }

  lemma NoEvents(t: Reading)
    ensures ReadingEvents([], t) == []
  {
  }

  /**
   Settlement by evaluation, in every run with every failure: the k-th message settled was acknowledged
   after exactly one completed evaluation per rule in order, or dead-lettered right after its first failed one.
   */
  lemma {:induction false} SettlementByEvaluation(rules: seq<ThresholdRule>, start: Store, acts: seq<Action>)
    ensures Segmented(rules, Exec(rules, Start(start), acts))
  {
    if acts == [] {
      assert Segmented(rules, Start(start));
    } else {
      hide Step, PcInv, Segmented, Refines;
      SettlementByEvaluation(rules, start, acts[..|acts| - 1]);
      AsyncRefinement(rules, start, acts[..|acts| - 1]);
      StepSegmented(rules, Exec(rules, Start(start), acts[..|acts| - 1]), acts[|acts| - 1]);
    }
  }

  /** A store without rule keys shows nothing through them. */
  lemma NoRulePart(store: Store)
    requires forall key | IsRuleKey(key) :: key !in store
    ensures RulePart(store) == map[]
  {
  }

  lemma {:induction false} LastAlertsPrefix(rules: seq<ThresholdRule>, rs: seq<Reading>, i: nat)
    requires rs != [] && i <= |rules|
    ensures LastAlerts(rules[..i], rs) <= LastAlerts(rules, rs)
  {
    hide MustAlert;
    if i == |rules| {
      assert rules[..i] == rules;
    } else {
      LastAlertsPrefix(rules[..|rules| - 1], rs, i);
      assert rules[..|rules| - 1][..i] == rules[..i];
    }
  }

  /** Midway through a reading the alerts out so far are a prefix of the ones the reading must raise. */
  lemma MidReading(rules: seq<ThresholdRule>, ds: set<string>, rs: seq<Reading>, e: Engine)
    requires PcInv(rules, e) && e.inbox.inFlight.Some?
    requires SafeOn(rules, ds) && DevicesOf(rs) <= ds && e.inbox.inFlight.value.deviceId in ds
    requires RulePart(e.store) == RunStore(ReadingEvents(Done(rules, e), e.inbox.inFlight.value),
                                           RunStore(StreamEvents(rules, rs), map[]))
    ensures RunAlerts(ReadingEvents(Done(rules, e), e.inbox.inFlight.value), RunStore(StreamEvents(rules, rs), map[]))
            + Unlogged(rules, e) <= LastAlerts(rules, rs + [e.inbox.inFlight.value])
    ensures e.pc == Evaluating(|rules|) ==>
              RunAlerts(ReadingEvents(Done(rules, e), e.inbox.inFlight.value), RunStore(StreamEvents(rules, rs), map[]))
              == LastAlerts(rules, rs + [e.inbox.inFlight.value])
  {
    hide RunStore, StreamEvents, ReadingEvents, RunAlerts, MustAlert, Breaching, EvaluateRule, NextState, RulePart, SafeOn,
         DevicesOf, LastAlerts, Tracks, TracksMidway;
    var t, i := e.inbox.inFlight.value, e.pc.i;
    EmptyTracks(rules, ds, map[]);
    StreamTracks(rules, ds, rs, map[]);
    var mid := RunStore(StreamEvents(rules, rs), map[]);
    ReadingTracks(rules, ds, rs, t, i, mid);
    LastAlertsPrefix(rules, rs + [t], i);
    assert rules[..|rules|] == rules;
    if e.pc.Storing? {
      MidWrite(rules, ds, rs, e, mid);
    }
  }

  /** An alert that is out before its write is the next one the reading must raise. */
  lemma MidWrite(rules: seq<ThresholdRule>, ds: set<string>, rs: seq<Reading>, e: Engine, mid: Store)
    requires PcInv(rules, e) && e.pc.Storing? && SafeOn(rules, ds) && e.inbox.inFlight.value.deviceId in ds
    requires var t, i := e.inbox.inFlight.value, e.pc.i;
             && TracksMidway(rules, ds, rs, t, i, RunStore(ReadingEvents(rules[..i], t), mid))
             && RulePart(e.store) == RunStore(ReadingEvents(rules[..i], t), mid)
    ensures var t, i := e.inbox.inFlight.value, e.pc.i;
            LastAlerts(rules[..i], rs + [t]) + Unlogged(rules, e) <= LastAlerts(rules, rs + [t])
  {
    hide RunStore, ReadingEvents, MustAlert, Breaching, EvaluateRule, NextState, RulePart, SafeOn, TracksMidway, Fires;
    var t, i := e.inbox.inFlight.value, e.pc.i;
    var ev := Event(rules[i], t, Completed);
    TracksOneRule(rules, ds, rs, t, i, RunStore(ReadingEvents(rules[..i], t), mid));
    RulePartAfter(ev, e.store);
    assert rules[..i + 1][..i] == rules[..i];
    LastAlertsPrefix(rules, rs + [t], i + 1);
  }

  /** The messages a run sends to the engine. */
  function Received(acts: seq<Action>): seq<Reading> {
    if acts == [] then []
    else
      var init, last := acts[..|acts| - 1], acts[|acts| - 1];
      if last.Receive? then Received(init) + [last.t] else Received(init)
  }

  lemma StepHistory(rules: seq<ThresholdRule>, e: Engine, a: Action)
    ensures History(Step(rules, e, a).inbox) ==
            if a.Receive? then History(e.inbox) + [a.t] else History(e.inbox)
  {
    hide History, Publish, Deliver, Settle, Breaching, Fires, NextState, SweepStep;
    match a {
      case Receive(t) => Conservation(e.inbox, t, true);
      case SweepDelete(k, _) => SweepInvisible(e, k, a);
      case SweepLook(k, _) => SweepInvisible(e, k, a);
      case SweepResume(k, _) => SweepInvisible(e, k, a);
      case SweepMark(k, _) => SweepInvisible(e, k, a);
      case StartSweep(_, _) =>
      case _ =>
        if e.inbox.inFlight.Some? {
          Conservation(e.inbox, e.inbox.inFlight.value, true);
          Conservation(e.inbox, e.inbox.inFlight.value, false);
        } else if e.inbox.queue != [] {
          Conservation(e.inbox, e.inbox.queue[0], true);
        }
    }
  }

  /** No run loses, repeats or reorders a message. */
  lemma {:induction false} ReceivedHistory(rules: seq<ThresholdRule>, start: Store, acts: seq<Action>)
    ensures History(Exec(rules, Start(start), acts).inbox) == Received(acts)
  {
    hide Step;
    if acts != [] {
      hide History;
      ReceivedHistory(rules, start, acts[..|acts| - 1]);
      StepHistory(rules, Exec(rules, Start(start), acts[..|acts| - 1]), acts[|acts| - 1]);
    }
  }

  /**
   Settlement in order, in every run: the i-th message sent is the i-th settled, acknowledged or
   dead-lettered as its evaluations went, or the one in flight right after, or waits in its place.
   */
  lemma SettledInOrder(rules: seq<ThresholdRule>, start: Store, acts: seq<Action>, i: nat)
    requires i < |Received(acts)|
    ensures var e := Exec(rules, Start(start), acts);
            var n := |e.inbox.settled|;
            if i < n then
              && e.inbox.settled[i].message == Received(acts)[i]
              && SegmentAt(rules, e.inbox.settled, e.marks, e.log, i)
            else if i == n && e.inbox.inFlight.Some? then e.inbox.inFlight.value == Received(acts)[i]
            else
              var w := i - n - |InFlight(e.inbox)|;
              w < |e.inbox.queue| && e.inbox.queue[w] == Received(acts)[i]
  {
    hide Exec, Received, History, SegmentAt, Messages;
    var e := Exec(rules, Start(start), acts);
    ReceivedHistory(rules, start, acts);
    SettlementByEvaluation(rules, start, acts);
    SettlementPartition(e.inbox, i);
  }

  /**
   While no message has been dead-lettered, the threshold alerts published are a prefix of the
   alerts the messages' history demands, and all of them once every message is settled.
   */
  lemma LossFreeHistory(rules: seq<ThresholdRule>, start: Store, acts: seq<Action>)
    requires SafeOn(rules, DevicesOf(Received(acts)))
    requires forall key | IsRuleKey(key) :: key !in start
    ensures var e := Exec(rules, Start(start), acts);
            DeadLetters(e.inbox.settled) == 0 ==>
              && ThresholdAlerts(e.published) <= HistoryAlerts(rules, Received(acts))
              && (e.pc.Idle? && e.inbox.queue == [] ==>
                    ThresholdAlerts(e.published) == HistoryAlerts(rules, Received(acts)))
  {
    hide *;
    ReceivedHistory(rules, start, acts);
    AsyncRefinement(rules, start, acts);
    RunShape(rules, start, acts);
    NoRulePart(start);
    HistoryOf(rules, start, Exec(rules, Start(start), acts));
  }

  lemma SettledDevices(c: Channel<Reading>)
    ensures DevicesOf(Messages(c.settled)) <= DevicesOf(History(c))
    ensures c.inFlight.Some? ==> c.inFlight.value.deviceId in DevicesOf(History(c))
  {
    hide Messages;
    var n := |Messages(c.settled)|;
    assert forall k | 0 <= k < n :: History(c)[k] == Messages(c.settled)[k];
    if c.inFlight.Some? {
      assert History(c)[n] == c.inFlight.value;
    }
  }

  lemma HistoryOf(rules: seq<ThresholdRule>, start: Store, e: Engine)
    requires SafeOn(rules, DevicesOf(History(e.inbox))) && PcInv(rules, e) && LogShape(rules, e) && Refines(rules, start, e)
    requires RulePart(start) == map[]
    ensures DeadLetters(e.inbox.settled) == 0 ==>
              && ThresholdAlerts(e.published) <= HistoryAlerts(rules, History(e.inbox))
              && (e.pc.Idle? && e.inbox.queue == [] ==>
                    ThresholdAlerts(e.published) == HistoryAlerts(rules, History(e.inbox)))
  {
    hide RunStore, RunAlerts, StreamEvents, LastAlerts, Breaching, NextState, RulePart, SafeOn, ThresholdAlerts,
         Messages, DeadLetters, FailedEvaluations, MustAlert, ReadingEvents, DevicesOf;
    if DeadLetters(e.inbox.settled) == 0 {
      var rs := Messages(e.inbox.settled);
      var ds := DevicesOf(History(e.inbox));
      SettledDevices(e.inbox);
      EmptyTracks(rules, ds, map[]);
      StreamTracks(rules, ds, rs, map[]);
      RunAppend(StreamEvents(rules, rs), DoneEvents(rules, e), map[]);
      if e.inbox.inFlight.Some? {
        var t := e.inbox.inFlight.value;
        MidReading(rules, ds, rs, e);
        assert (rs + [t])[..|rs|] == rs;
        assert History(e.inbox) == (rs + [t]) + e.inbox.queue;
        HistoryAlertsPrefix(rules, rs + [t], e.inbox.queue);
      } else {
        RunEmpty(RunStore(StreamEvents(rules, rs), map[]));
        assert ThresholdAlerts(e.published) == HistoryAlerts(rules, rs);
        assert History(e.inbox) == rs + e.inbox.queue;
        assert e.inbox.queue == [] ==> History(e.inbox) == rs;
        HistoryAlertsPrefix(rules, rs, e.inbox.queue);
      }
    }
  }

  /** Two sweeps at the same pair take the same step of the check, one after the other. */
  lemma BothLook(e: Engine, pair: (ConnectivityRule, Device), nowMs: int)
    requires e.sweeps == [Sweep(nowMs, [pair], Ready), Sweep(nowMs, [pair], Ready)] && e.store == map[]
    requires SilentSeconds(pair.1, nowMs) >= pair.0.silenceSeconds
    ensures Step([], Step([], e, SweepLook(0, true)), SweepLook(1, true)) ==
            e.(sweeps := [Sweep(nowMs, [pair], Looked(false)), Sweep(nowMs, [pair], Looked(false))])
  {
    hide SilentSeconds, ConnectivityKey;
    var e' := e.(sweeps := [Sweep(nowMs, [pair], Looked(false)), Sweep(nowMs, [pair], Ready)]);
    assert Step([], e, SweepLook(0, true)) == e';
  }

  lemma BothReport(e: Engine, pair: (ConnectivityRule, Device), nowMs: int)
    requires e.sweeps == [Sweep(nowMs, [pair], Looked(false)), Sweep(nowMs, [pair], Looked(false))]
    ensures var alert := OfflineAlert(Check(pair.0, pair.1, nowMs, nowMs, Completed));
            Step([], Step([], e, SweepResume(0, nowMs)), SweepResume(1, nowMs)).published == (e.published + [alert]) + [alert]
  {
    hide Silent, CheckKey, OfflineAlert;
    var e' := Step([], e, SweepResume(0, nowMs));
    assert e'.sweeps[1] == Sweep(nowMs, [pair], Looked(false));
  }

  /** Two sweeps that overlap can both report one device: the timer does not wait for the sweep before it. */
  lemma OverlappingSweepsReportTwice(pair: (ConnectivityRule, Device), nowMs: int)
    requires SilentSeconds(pair.1, nowMs) >= pair.0.silenceSeconds
    ensures var acts := [StartSweep(nowMs, [pair]), StartSweep(nowMs, [pair]), SweepLook(0, true), SweepLook(1, true),
                         SweepResume(0, nowMs), SweepResume(1, nowMs)];
            var alert := OfflineAlert(Check(pair.0, pair.1, nowMs, nowMs, Completed));
            Exec([], Start(map[]), acts).published == [alert, alert]
  {
    hide Exec, SweepStep, Active, SilentSeconds, OfflineAlert;
    var e0 := Start(map[]);
    var e2 := Step([], Step([], e0, StartSweep(nowMs, [pair])), StartSweep(nowMs, [pair]));
    BothLook(e2, pair, nowMs);
    var e4 := e2.(sweeps := [Sweep(nowMs, [pair], Looked(false)), Sweep(nowMs, [pair], Looked(false))]);
    BothReport(e4, pair, nowMs);
    ExecSix([], e0, [StartSweep(nowMs, [pair]), StartSweep(nowMs, [pair]), SweepLook(0, true), SweepLook(1, true),
                     SweepResume(0, nowMs), SweepResume(1, nowMs)]);
  }

  /** Six steps, one after the other. */
  lemma ExecSix(rules: seq<ThresholdRule>, e: Engine, acts: seq<Action>)
    requires |acts| == 6
    ensures Exec(rules, e, acts) ==
            Step(rules, Step(rules, Step(rules, Step(rules, Step(rules, Step(rules, e,
              acts[0]), acts[1]), acts[2]), acts[3]), acts[4]), acts[5])
  {
    hide Step;
    assert acts[..5][..4] == acts[..4] && acts[..4][..3] == acts[..3] && acts[..3][..2] == acts[..2];
    assert acts[..2][..1] == acts[..1] && acts[..1][..0] == [];
    assert Exec(rules, e, acts[..1]) == Step(rules, e, acts[0]);
    assert Exec(rules, e, acts[..2]) == Step(rules, Exec(rules, e, acts[..1]), acts[1]);
    assert Exec(rules, e, acts[..3]) == Step(rules, Exec(rules, e, acts[..2]), acts[2]);
    assert Exec(rules, e, acts[..4]) == Step(rules, Exec(rules, e, acts[..3]), acts[3]);
    assert Exec(rules, e, acts[..5]) == Step(rules, Exec(rules, e, acts[..4]), acts[4]);
  }
}
