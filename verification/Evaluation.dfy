/**
 The evaluation of threshold rules as a function of the store: what one evaluation of one rule
 on one reading writes and publishes, for every way its store calls can turn out, and what a
 sequence of evaluations does.
 */
module Evaluation {
  import opened Options
  import opened Readings
  import opened StoreKeys
  import opened RuleSchema
  import opened KeyValueStore

  datatype AlertMetric = OfTelemetry(metric: Metric) | Connectivity

  datatype Alert = Alert(
    ruleId: string,
    deviceId: string,
    severity: Severity,
    metric: AlertMetric,
    value: real,
    threshold: Bound,
    message: string,
    triggeredAtMs: int)

  function AlertFor(rule: ThresholdRule, t: Reading): Alert {
    var value := MetricValue(t, rule.metric);
    Alert(rule.id, t.deviceId, rule.severity, OfTelemetry(rule.metric), value,
          EvaluateRule(rule, value).threshold, rule.message, t.timestampMs)
  }

  /** The value is the one the rule's metric names. */
  predicate ReadOff(metric: Metric, t: Reading, value: real) {
    match metric
    case Temp => value == t.temp
    case Humidity => value == t.humidity
    case Battery => value == t.battery
  }

  /** The value is on the breaching side of the bound, and the bound is the configured one. */
  predicate Against(rule: ThresholdRule, value: real, bound: Bound)
    requires RuleSchema.MeetsSchema(rule)
  {
    match rule.operator
    case Gt => bound == Finite(rule.threshold.value) && value > rule.threshold.value
    case Gte => bound == Finite(rule.threshold.value) && value >= rule.threshold.value
    case Lt => bound == Finite(rule.threshold.value) && value < rule.threshold.value
    case Lte => bound == Finite(rule.threshold.value) && value <= rule.threshold.value
    case Outside =>
      if value < rule.min.value then bound == Finite(rule.min.value)
      else bound == Finite(rule.max.value) && value > rule.max.value
    case Inside => bound == Finite(rule.max.value) && rule.min.value <= value <= rule.max.value
  }

  /** The alert reports this reading against this rule, field by field. */
  predicate Says(rule: ThresholdRule, t: Reading, a: Alert)
    requires RuleSchema.MeetsSchema(rule)
  {
    && a.ruleId == rule.id && a.deviceId == t.deviceId
    && a.severity == rule.severity && a.message == rule.message
    && a.metric == OfTelemetry(rule.metric) && a.triggeredAtMs == t.timestampMs
    && ReadOff(rule.metric, t, a.value) && Against(rule, a.value, a.threshold)
  }

  predicate AllMeetSchema(rules: seq<ThresholdRule>) {
    forall rule | rule in rules :: RuleSchema.MeetsSchema(rule)
  }

  /** Exactly the breaching readings have such an alert, and it is the one published. */
  lemma SaysExactly(rule: ThresholdRule, t: Reading, a: Alert)
    requires RuleSchema.MeetsSchema(rule)
    ensures Says(rule, t, a) <==> Breaching(rule, t) && a == AlertFor(rule, t)
  {
  }

  /** The breach state one (rule, device) pair has in the store. */
  type Cell = Option<BreachState>

  function CellAt(store: Store, key: string): Cell {
    if key in store && store[key].Breach? then Some(store[key].state) else None
  }

  function CellOf(store: Store, ruleId: string, deviceId: string): Cell {
    CellAt(store, RuleKey(ruleId, deviceId))
  }

  /** How the store calls of one evaluation turned out. */
  datatype Outcome = Completed | ReadFailed | WriteFailed(applied: bool)

  /** What a write's reply means for the evaluation. */
  function OutcomeOf(reply: WriteReply): Outcome {
    if reply.Written? then Completed else WriteFailed(reply.applied)
  }

  datatype Event = Event(rule: ThresholdRule, reading: Reading, outcome: Outcome)

  function EventKey(e: Event): string {
    RuleKey(e.rule.id, e.reading.deviceId)
  }

  predicate Sustained(rule: ThresholdRule, startMs: int, t: Reading) {
    t.timestampMs - startMs >= rule.sustainSeconds * 1000
  }

  /** A breach is sustained once the whole seconds since its start are the rule's. */
  lemma SustainedInSeconds(rule: ThresholdRule, startMs: int, t: Reading)
    ensures Sustained(rule, startMs, t) <==> (t.timestampMs - startMs) / 1000 >= rule.sustainSeconds
  {
  }

  /** The state a breaching reading works on: the stored one, or a fresh episode starting at the reading. */
  function Episode(t: Reading, cell: Cell): BreachState {
    if cell.Some? then cell.value else BreachState(t.timestampMs, false)
  }

  predicate Fires(rule: ThresholdRule, t: Reading, cell: Cell) {
    && Breaching(rule, t)
    && !Episode(t, cell).fired
    && Sustained(rule, Episode(t, cell).breachStartMs, t)
  }

  /** The breach state written for a breaching reading. */
  function NextState(rule: ThresholdRule, t: Reading, cell: Cell): BreachState {
    var state := Episode(t, cell);
    state.(fired := state.fired || Fires(rule, t, cell))
  }

  predicate TookHold(outcome: Outcome) {
    outcome.Completed? || (outcome.WriteFailed? && outcome.applied)
  }

  predicate WriteApplied(e: Event) {
    TookHold(e.outcome)
  }

  /** The store after one evaluation. */
  function After(e: Event, store: Store): Store {
    if !WriteApplied(e) then store
    else if !Breaching(e.rule, e.reading) then store - {EventKey(e)}
    else store[EventKey(e) := Breach(NextState(e.rule, e.reading, CellAt(store, EventKey(e))))]
  }

  /** Whether the evaluation publishes its alert; the alert goes out before the write. */
  predicate Alerts(e: Event, store: Store) {
    !e.outcome.ReadFailed? && Fires(e.rule, e.reading, CellAt(store, EventKey(e)))
  }

  function AlertsOf(e: Event, store: Store): seq<Alert> {
    if Alerts(e, store) then [AlertFor(e.rule, e.reading)] else []
  }

  function RunStore(es: seq<Event>, store: Store): Store {
    if es == [] then store else After(es[|es| - 1], RunStore(es[..|es| - 1], store))
  }

  function RunAlerts(es: seq<Event>, store: Store): seq<Alert> {
    if es == [] then []
    else RunAlerts(es[..|es| - 1], store) + AlertsOf(es[|es| - 1], RunStore(es[..|es| - 1], store))
  }

  /** The undisturbed evaluations of a reading by the rules, in order. */
  function ReadingEvents(rules: seq<ThresholdRule>, t: Reading): seq<Event> {
    seq(|rules|, i requires 0 <= i < |rules| => Event(rules[i], t, Completed))
  }

  function StreamEvents(rules: seq<ThresholdRule>, rs: seq<Reading>): seq<Event> {
    if rs == [] then []
    else StreamEvents(rules, rs[..|rs| - 1]) + ReadingEvents(rules, rs[|rs| - 1])
  }

  lemma RunSnoc(es: seq<Event>, e: Event, store: Store)
    ensures RunStore(es + [e], store) == After(e, RunStore(es, store))
    ensures RunAlerts(es + [e], store) == RunAlerts(es, store) + AlertsOf(e, RunStore(es, store))
  {
    assert (es + [e])[..|es|] == es;
  }

  /** One more event after a concatenation, and after its second part. */
  lemma RunAppendSnoc(es: seq<Event>, fs: seq<Event>, e: Event, store: Store)
    requires RunStore(es + fs, store) == RunStore(fs, RunStore(es, store))
    requires RunAlerts(es + fs, store) == RunAlerts(es, store) + RunAlerts(fs, RunStore(es, store))
    ensures RunStore(es + (fs + [e]), store) == RunStore(fs + [e], RunStore(es, store))
    ensures RunAlerts(es + (fs + [e]), store) == RunAlerts(es, store) + RunAlerts(fs + [e], RunStore(es, store))
  {
    hide *;
    var mid := RunStore(es, store);
    RunSnoc(es + fs, e, store);
    RunSnoc(fs, e, mid);
    assert es + (fs + [e]) == (es + fs) + [e];
    var a, b, c := RunAlerts(es, store), RunAlerts(fs, mid), AlertsOf(e, RunStore(fs, mid));
    assert (a + b) + c == a + (b + c);
  }

  lemma RunEmpty(store: Store)
    ensures RunStore([], store) == store && RunAlerts([], store) == []
  {
  }

  lemma {:induction false} RunAppend(es: seq<Event>, fs: seq<Event>, store: Store)
    ensures RunStore(es + fs, store) == RunStore(fs, RunStore(es, store))
    ensures RunAlerts(es + fs, store) == RunAlerts(es, store) + RunAlerts(fs, RunStore(es, store))
  {
    hide *;
    if fs == [] {
      assert es + fs == es;
      RunEmpty(RunStore(es, store));
    } else {
      var init, last := fs[..|fs| - 1], fs[|fs| - 1];
      RunAppend(es, init, store);
      RunAppendSnoc(es, init, last, store);
      assert init + [last] == fs;
    }
  }

  lemma ReadingEventsSnoc(rules: seq<ThresholdRule>, i: nat, t: Reading)
    requires i < |rules|
    ensures ReadingEvents(rules[..i + 1], t) == ReadingEvents(rules[..i], t) + [Event(rules[i], t, Completed)]
  {
  }

  lemma StreamEventsSnoc(rules: seq<ThresholdRule>, rs: seq<Reading>, t: Reading)
    ensures StreamEvents(rules, rs + [t]) == StreamEvents(rules, rs) + ReadingEvents(rules, t)
  {
    assert (rs + [t])[..|rs|] == rs;
  }

  /** An evaluation reads and writes its own cell only. */
  lemma EventFrame(e: Event, store: Store, key: string)
    requires key != EventKey(e)
    ensures CellAt(After(e, store), key) == CellAt(store, key)
  {
  }
}
