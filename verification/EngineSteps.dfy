/**
 The rule engine at the grain of its store calls. Every read, write and deletion is a step of its
 own with its own reply, sweeps (any number, also overlapping) interleave at every one of them, and
 one telemetry message is in flight at a time.
 */
module EngineSteps {
  import opened Readings
  import opened StoreKeys
  import opened RuleSchema
  import opened KeyValueStore
  import opened Evaluation
  import opened Connectivity
  import opened ConsumerChannel

  /** Where the handler of the message in flight stands; indices are into the threshold rules. */
  datatype Pc =
    | Idle
    | Evaluating(i: nat)
    | Fetched(i: nat, cell: Cell)
    | Storing(i: nat, state: BreachState)

  datatype SweepPhase = Ready | Looked(present: bool) | Marking(clockMs: int)

  /** A sweep under way: its time, and the pairs it still has to check, the first of them in progress. */
  datatype Sweep = Sweep(nowMs: int, pairs: seq<(ConnectivityRule, Device)>, phase: SweepPhase)

  /**
   The engine, and as history: in `log` the evaluations that have finished, with their outcomes, in
   `marks` the length of that log at each settlement, in `checked` the sweeps' checks that have
   finished, and in `overlapped` whether a sweep has started before another had ended.
   */
  datatype Engine = Engine(
    store: Store,
    published: seq<Alert>,
    inbox: Channel<Reading>,
    pc: Pc,
    sweeps: seq<Sweep>,
    log: seq<Event>,
    marks: seq<nat>,
    checked: seq<Check>,
    overlapped: bool)

  datatype Action =
    | Receive(t: Reading)
    | TakeMessage
    | Delete(reply: WriteReply)
    | Fetch(ok: bool)
    | Resume
    | Write(reply: WriteReply)
    | Finish
    | StartSweep(nowMs: int, pairs: seq<(ConnectivityRule, Device)>)
    | SweepDelete(k: nat, reply: WriteReply)
    | SweepLook(k: nat, ok: bool)
    | SweepResume(k: nat, clockMs: int)
    | SweepMark(k: nat, reply: WriteReply)

  function Start(store: Store): Engine {
    Engine(store, [], ConsumerChannel.Empty(), Idle, [], [], [], [], false)
  }

  /** An evaluation is over: log it, and go on to the next rule or, on an error, dead-letter the message. */
  function Conclude(e: Engine, rules: seq<ThresholdRule>, i: nat, outcome: Outcome): Engine
    requires i < |rules| && e.inbox.inFlight.Some?
  {
    var logged := e.(log := e.log + [Event(rules[i], e.inbox.inFlight.value, outcome)]);
    if outcome.Completed? then logged.(pc := Evaluating(i + 1))
    else logged.(pc := Idle, inbox := Settle(e.inbox, false), marks := e.marks + [|logged.log|])
  }

  /** What the end of an evaluation leaves alone. */
  lemma ConcludeFields(e: Engine, rules: seq<ThresholdRule>, i: nat, outcome: Outcome)
    requires i < |rules| && e.inbox.inFlight.Some?
    ensures var e' := Conclude(e, rules, i, outcome);
            && e'.store == e.store && e'.published == e.published
            && e'.sweeps == e.sweeps && e'.checked == e.checked && e'.overlapped == e.overlapped
  {
  }

  /** A step of the telemetry handler; a step that is not due changes nothing. */
  function HandlerStep(rules: seq<ThresholdRule>, e: Engine, a: Action): Engine {
    if e.inbox.inFlight.None? then
      if a.TakeMessage? && e.inbox.queue != [] then e.(inbox := Deliver(e.inbox), pc := Evaluating(0)) else e
    else
      var t := e.inbox.inFlight.value;
      match e.pc
      case Idle => e
      case Evaluating(i) =>
        if i >= |rules| then
          if a.Finish? then e.(inbox := Settle(e.inbox, true), pc := Idle, marks := e.marks + [|e.log|]) else e
        else
          var key := RuleKey(rules[i].id, t.deviceId);
          if a.Delete? && !Breaching(rules[i], t) then
            Conclude(e.(store := if TookEffect(a.reply) then e.store - {key} else e.store), rules, i, OutcomeOf(a.reply))
          else if a.Fetch? && Breaching(rules[i], t) then
            if a.ok then e.(pc := Fetched(i, CellAt(e.store, key))) else Conclude(e, rules, i, ReadFailed)
          else e
      case Fetched(i, cell) =>
        if a.Resume? && i < |rules| then
          e.(published := e.published + if Fires(rules[i], t, cell) then [AlertFor(rules[i], t)] else [],
             pc := Storing(i, NextState(rules[i], t, cell)))
        else e
      case Storing(i, state) =>
        if a.Write? && i < |rules| then
          var key := RuleKey(rules[i].id, t.deviceId);
          Conclude(e.(store := if TookEffect(a.reply) then e.store[key := Breach(state)] else e.store),
                   rules, i, OutcomeOf(a.reply))
        else e
  }

  /** The sweep moves on to its next pair, or gives up after an error. */
  function NextPair(s: Sweep, ok: bool): Sweep
    requires s.pairs != []
  {
    s.(pairs := if ok then s.pairs[1..] else [], phase := Ready)
  }

  function HeadCheck(s: Sweep, clockMs: int, outcome: Outcome): Check
    requires s.pairs != []
  {
    Check(s.pairs[0].0, s.pairs[0].1, s.nowMs, clockMs, outcome)
  }

  /** The k-th sweep's check is over: log it, and go on to the next pair or give up. */
  function EndCheck(e: Engine, k: nat, clockMs: int, outcome: Outcome): Engine
    requires k < |e.sweeps| && e.sweeps[k].pairs != []
  {
    e.(sweeps := e.sweeps[k := NextPair(e.sweeps[k], outcome.Completed?)],
       checked := e.checked + [HeadCheck(e.sweeps[k], clockMs, outcome)])
  }

  predicate Active(e: Engine, k: int) {
    0 <= k < |e.sweeps| && e.sweeps[k].pairs != []
  }

  /** What a step of the handler does to the store and the alerts; the sweeps it leaves alone. */
  lemma HandlerEffect(rules: seq<ThresholdRule>, e: Engine, a: Action)
    ensures var e' := HandlerStep(rules, e, a);
            && e'.sweeps == e.sweeps && e'.checked == e.checked && e'.overlapped == e.overlapped
            && ((e'.store == e.store && e'.published == e.published) ||
                (e.inbox.inFlight.Some? && !e.pc.Idle? && e.pc.i < |rules| &&
                 HandlerWrites(rules[e.pc.i], e.inbox.inFlight.value, e, e')))
  {
    hide Breaching, Fires, NextState, AlertFor, Conclude, RuleKey;
    if e.inbox.inFlight.Some? && !e.pc.Idle? && e.pc.i < |rules| {
      var i, key := e.pc.i, RuleKey(rules[e.pc.i].id, e.inbox.inFlight.value.deviceId);
      match a {
        case Delete(reply) =>
          ConcludeFields(e.(store := if TookEffect(reply) then e.store - {key} else e.store), rules, i, OutcomeOf(reply));
        case Fetch(_) => ConcludeFields(e, rules, i, ReadFailed);
        case Write(reply) =>
          if e.pc.Storing? {
            ConcludeFields(e.(store := if TookEffect(reply) then e.store[key := Breach(e.pc.state)] else e.store),
                           rules, i, OutcomeOf(reply));
          }
        case _ =>
      }
    }
  }

  /** It deletes or sets the rule's key for the message's device, or publishes the rule's alert. */
  ghost predicate HandlerWrites(rule: ThresholdRule, t: Reading, e: Engine, e': Engine) {
    var key := RuleKey(rule.id, t.deviceId);
    || (e'.published == e.published && e'.store == e.store - {key})
    || (e'.published == e.published && exists state :: e'.store == e.store[key := Breach(state)])
    || (e'.store == e.store && e'.published == e.published + [AlertFor(rule, t)])
  }

  /** A step of the k-th sweep. */
  function SweepStep(e: Engine, k: nat, a: Action): Engine {
    if !Active(e, k) then e
    else
      var s := e.sweeps[k];
      var check := HeadCheck(s, s.nowMs, Completed);
      var key := CheckKey(check);
      match s.phase
      case Ready =>
        if a.SweepDelete? && !Silent(check) then
          EndCheck(e.(store := if TookEffect(a.reply) then e.store - {key} else e.store), k, s.nowMs, OutcomeOf(a.reply))
        else if a.SweepLook? && Silent(check) then
          if a.ok then e.(sweeps := e.sweeps[k := s.(phase := Looked(key in e.store))])
          else EndCheck(e, k, s.nowMs, ReadFailed)
        else e
      case Looked(present) =>
        if !a.SweepResume? then e
        else if present then EndCheck(e, k, s.nowMs, Completed)
        else
          e.(published := e.published + [OfflineAlert(HeadCheck(s, a.clockMs, Completed))],
             sweeps := e.sweeps[k := s.(phase := Marking(a.clockMs))])
      case Marking(clockMs) =>
        if a.SweepMark? then
          EndCheck(e.(store := if TookEffect(a.reply) then e.store[key := OfflineFlag] else e.store),
                   k, clockMs, OutcomeOf(a.reply))
        else e
  }

  function Step(rules: seq<ThresholdRule>, e: Engine, a: Action): Engine {
    match a
    case Receive(t) => e.(inbox := Publish(e.inbox, t))
    case StartSweep(nowMs, pairs) =>
      e.(sweeps := e.sweeps + [Sweep(nowMs, pairs, Ready)],
         overlapped := e.overlapped || exists k | 0 <= k < |e.sweeps| :: Active(e, k))
    case SweepDelete(k, _) => SweepStep(e, k, a)
    case SweepLook(k, _) => SweepStep(e, k, a)
    case SweepResume(k, _) => SweepStep(e, k, a)
    case SweepMark(k, _) => SweepStep(e, k, a)
    case _ => HandlerStep(rules, e, a)
  }

  function Exec(rules: seq<ThresholdRule>, e: Engine, acts: seq<Action>): Engine {
    if acts == [] then e else Step(rules, Exec(rules, e, acts[..|acts| - 1]), acts[|acts| - 1])
  }

  /** The part of the store under rule keys. */
  function RulePart(store: Store): Store {
    map key | key in store && IsRuleKey(key) :: store[key]
  }

  function ThresholdAlerts(alerts: seq<Alert>): seq<Alert> {
    if alerts == [] then []
    else
      var init, last := alerts[..|alerts| - 1], alerts[|alerts| - 1];
      ThresholdAlerts(init) + if last.metric.OfTelemetry? then [last] else []
  }

  /** The alert already published by an evaluation whose write is still outstanding. */
  function Unlogged(rules: seq<ThresholdRule>, e: Engine): seq<Alert> {
    if e.pc.Storing? && e.pc.i < |rules| && e.inbox.inFlight.Some? then
      AlertsOf(Event(rules[e.pc.i], e.inbox.inFlight.value, Completed), e.store)
    else []
  }

  /** The handler's position fits the message in flight, and what it read is still what the store holds. */
  ghost predicate PcInv(rules: seq<ThresholdRule>, e: Engine) {
    && (e.pc.Idle? <==> e.inbox.inFlight.None?)
    && match e.pc
       case Idle => true
       case Evaluating(i) => i <= |rules|
       case Fetched(i, cell) =>
         i < |rules| &&
         var t := e.inbox.inFlight.value;
         Breaching(rules[i], t) && cell == CellAt(e.store, RuleKey(rules[i].id, t.deviceId))
       case Storing(i, state) =>
         i < |rules| &&
         var t := e.inbox.inFlight.value;
         Breaching(rules[i], t) &&
         state == NextState(rules[i], t, CellAt(e.store, RuleKey(rules[i].id, t.deviceId)))
  }

  /** Seen through its rule keys and threshold alerts, the engine is a run of atomic evaluations. */
  ghost predicate Refines(rules: seq<ThresholdRule>, start: Store, e: Engine) {
    && RulePart(e.store) == RunStore(e.log, RulePart(start))
    && ThresholdAlerts(e.published) == RunAlerts(e.log, RulePart(start)) + Unlogged(rules, e)
  }

  lemma ThresholdSnoc(alerts: seq<Alert>, b: bool, a: Alert)
    ensures ThresholdAlerts(alerts + if b then [a] else []) ==
            ThresholdAlerts(alerts) + if b && a.metric.OfTelemetry? then [a] else []
  {
    if b {
      assert (alerts + [a])[..|alerts|] == alerts;
    } else {
      assert alerts + [] == alerts;
    }
  }

  lemma RulePartCell(store: Store, key: string)
    requires IsRuleKey(key)
    ensures CellAt(RulePart(store), key) == CellAt(store, key)
  {
  }

  lemma RulePartWrites(store: Store, key: string, entry: Entry)
    ensures RulePart(store[key := entry]) == if IsRuleKey(key) then RulePart(store)[key := entry] else RulePart(store)
    ensures RulePart(store - {key}) == if IsRuleKey(key) then RulePart(store) - {key} else RulePart(store)
  {
  }

  /** An atomic evaluation commutes with the view through rule keys. */
  lemma RulePartAfter(ev: Event, store: Store)
    ensures RulePart(After(ev, store)) == After(ev, RulePart(store))
    ensures AlertsOf(ev, RulePart(store)) == AlertsOf(ev, store)
  {
    hide Fires, RulePart, Breaching;
    KeySpacesDisjoint(ev.rule.id, ev.reading.deviceId, "", "");
    RulePartCell(store, EventKey(ev));
    RulePartWrites(store, EventKey(ev), Breach(NextState(ev.rule, ev.reading, CellAt(store, EventKey(ev)))));
  }

  /** Logging an evaluation whose store effect has just happened keeps the refinement. */
  lemma ConcludeRefines(rules: seq<ThresholdRule>, start: Store, e: Engine, e': Engine, ev: Event)
    requires RulePart(e.store) == RunStore(e.log, RulePart(start))
    requires ThresholdAlerts(e'.published) == RunAlerts(e.log, RulePart(start)) + AlertsOf(ev, e.store)
    requires e'.store == After(ev, e.store) && e'.log == e.log + [ev] && !e'.pc.Storing?
    ensures Refines(rules, start, e')
  {
    hide After, AlertsOf, RunStore, RunAlerts, RulePart, ThresholdAlerts;
    RunSnoc(e.log, ev, RulePart(start));
    RulePartAfter(ev, e.store);
  }

  lemma DeleteStep(rules: seq<ThresholdRule>, start: Store, e: Engine, reply: WriteReply)
    requires PcInv(rules, e) && Refines(rules, start, e)
    ensures PcInv(rules, HandlerStep(rules, e, Delete(reply))) && Refines(rules, start, HandlerStep(rules, e, Delete(reply)))
  {
    hide RunStore, RunAlerts, RulePart, ThresholdAlerts, Breaching;
    if e.pc.Evaluating? && e.pc.i < |rules| && !Breaching(rules[e.pc.i], e.inbox.inFlight.value) {
      var ev := Event(rules[e.pc.i], e.inbox.inFlight.value, OutcomeOf(reply));
      ConcludeRefines(rules, start, e, HandlerStep(rules, e, Delete(reply)), ev);
    }
  }

  lemma FetchStep(rules: seq<ThresholdRule>, start: Store, e: Engine, ok: bool)
    requires PcInv(rules, e) && Refines(rules, start, e)
    ensures PcInv(rules, HandlerStep(rules, e, Fetch(ok))) && Refines(rules, start, HandlerStep(rules, e, Fetch(ok)))
  {
    hide RunStore, RunAlerts, RulePart, ThresholdAlerts, Breaching;
    if e.pc.Evaluating? && e.pc.i < |rules| && Breaching(rules[e.pc.i], e.inbox.inFlight.value) && !ok {
      var ev := Event(rules[e.pc.i], e.inbox.inFlight.value, ReadFailed);
      ConcludeRefines(rules, start, e, HandlerStep(rules, e, Fetch(ok)), ev);
    }
  }

  lemma ResumeStep(rules: seq<ThresholdRule>, start: Store, e: Engine)
    requires PcInv(rules, e) && Refines(rules, start, e)
    ensures PcInv(rules, HandlerStep(rules, e, Resume)) && Refines(rules, start, HandlerStep(rules, e, Resume))
  {
    hide RunStore, RunAlerts, RulePart, ThresholdAlerts, Breaching, EvaluateRule;
    if e.pc.Fetched? {
      var rule, t := rules[e.pc.i], e.inbox.inFlight.value;
      ThresholdSnoc(e.published, Fires(rule, t, e.pc.cell), AlertFor(rule, t));
    }
  }

  lemma WriteStep(rules: seq<ThresholdRule>, start: Store, e: Engine, reply: WriteReply)
    requires PcInv(rules, e) && Refines(rules, start, e)
    ensures PcInv(rules, HandlerStep(rules, e, Write(reply))) && Refines(rules, start, HandlerStep(rules, e, Write(reply)))
  {
    hide RunStore, RunAlerts, RulePart, ThresholdAlerts, Breaching, Fires, NextState;
    if e.pc.Storing? {
      var ev := Event(rules[e.pc.i], e.inbox.inFlight.value, OutcomeOf(reply));
      ConcludeRefines(rules, start, e, HandlerStep(rules, e, Write(reply)), ev);
    }
  }

  /** A step that touches no rule key, no threshold alert and no handler state is invisible. */
  lemma InvisibleStep(rules: seq<ThresholdRule>, start: Store, e: Engine, e': Engine)
    requires PcInv(rules, e) && Refines(rules, start, e)
    requires RulePart(e'.store) == RulePart(e.store) && ThresholdAlerts(e'.published) == ThresholdAlerts(e.published)
    requires e'.pc == e.pc && e'.inbox.inFlight == e.inbox.inFlight && e'.log == e.log
    ensures PcInv(rules, e') && Refines(rules, start, e')
  {
    hide RunStore, RunAlerts, RulePart, ThresholdAlerts, Breaching, Fires, NextState;
    if (e.pc.Fetched? || e.pc.Storing?) && e.inbox.inFlight.Some? {
      var key := RuleKey(rules[e.pc.i].id, e.inbox.inFlight.value.deviceId);
      KeySpacesDisjoint(rules[e.pc.i].id, e.inbox.inFlight.value.deviceId, "", "");
      RulePartCell(e.store, key);
      RulePartCell(e'.store, key);
    }
  }

  lemma SweepInvisible(e: Engine, k: nat, a: Action)
    ensures var e' := SweepStep(e, k, a);
            && RulePart(e'.store) == RulePart(e.store)
            && ThresholdAlerts(e'.published) == ThresholdAlerts(e.published)
            && e'.pc == e.pc && e'.inbox == e.inbox && e'.log == e.log && e'.marks == e.marks
  {
    hide RulePart, ThresholdAlerts, Silent;
    if Active(e, k) {
      var s := e.sweeps[k];
      var check := HeadCheck(s, if a.SweepResume? then a.clockMs else s.nowMs, Completed);
      KeySpacesDisjoint("", "", check.device.deviceId, "");
      KeySpacesDisjoint(check.rule.id, "", check.device.deviceId, "");
      RulePartWrites(e.store, CheckKey(check), OfflineFlag);
      ThresholdSnoc(e.published, true, OfflineAlert(check));
    }
  }

  lemma StepRefines(rules: seq<ThresholdRule>, start: Store, e: Engine, a: Action)
    requires PcInv(rules, e) && Refines(rules, start, e)
    ensures PcInv(rules, Step(rules, e, a)) && Refines(rules, start, Step(rules, e, a))
  {
    hide RunStore, RunAlerts, RulePart, ThresholdAlerts, Breaching, Fires, NextState, SweepStep, Silent;
    match a {
      case Receive(t) => InvisibleStep(rules, start, e, Step(rules, e, a));
      case StartSweep(_, _) => InvisibleStep(rules, start, e, Step(rules, e, a));
      case SweepDelete(k, _) => SweepInvisible(e, k, a); InvisibleStep(rules, start, e, SweepStep(e, k, a));
      case SweepLook(k, _) => SweepInvisible(e, k, a); InvisibleStep(rules, start, e, SweepStep(e, k, a));
      case SweepResume(k, _) => SweepInvisible(e, k, a); InvisibleStep(rules, start, e, SweepStep(e, k, a));
      case SweepMark(k, _) => SweepInvisible(e, k, a); InvisibleStep(rules, start, e, SweepStep(e, k, a));
      case Delete(reply) => DeleteStep(rules, start, e, reply);
      case Fetch(ok) => FetchStep(rules, start, e, ok);
      case Resume => ResumeStep(rules, start, e);
      case Write(reply) => WriteStep(rules, start, e, reply);
      case TakeMessage =>
      case Finish =>
    }
  }

  /**
   Async refinement: every interleaving of store calls, sweeps and failures has the rule keys and
   the threshold alerts of the logged evaluations done one after the other, with no sweep at all.
   */
  lemma {:induction false} AsyncRefinement(rules: seq<ThresholdRule>, start: Store, acts: seq<Action>)
    ensures PcInv(rules, Exec(rules, Start(start), acts))
    ensures Refines(rules, start, Exec(rules, Start(start), acts))
  {
    if acts == [] {
      assert RulePart(start) == RunStore([], RulePart(start));
    } else {
      hide Step, PcInv, Refines;
      AsyncRefinement(rules, start, acts[..|acts| - 1]);
      StepRefines(rules, start, Exec(rules, Start(start), acts[..|acts| - 1]), acts[|acts| - 1]);
    }
  }
}
