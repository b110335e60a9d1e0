/** Alerting rules as configured, and how one rule judges one value. */
module RuleSchema {
  import opened Options
  import opened Readings
  import opened StoreKeys

  datatype Severity = Critical | Warning | Info

  datatype Operator = Gt | Gte | Lt | Lte | Outside | Inside

  /** A bound of a range; a missing `min` or `max` is an infinity. */
  datatype Bound = NegInfinity | Finite(value: real) | PosInfinity

  datatype ThresholdRule = ThresholdRule(
    id: string,
    metric: Metric,
    operator: Operator,
    threshold: Option<real>,
    min: Option<real>,
    max: Option<real>,
    sustainSeconds: nat,
    severity: Severity,
    message: string)

  datatype ConnectivityRule = ConnectivityRule(
    id: string,
    silenceSeconds: nat,
    severity: Severity,
    message: string)

  datatype Evaluation = Evaluation(breaching: bool, threshold: Bound)

  predicate Below(value: real, bound: Bound) {
    bound.PosInfinity? || (bound.Finite? && value < bound.value)
  }

  predicate Above(value: real, bound: Bound) {
    bound.NegInfinity? || (bound.Finite? && value > bound.value)
  }

  function EvaluateRule(rule: ThresholdRule, value: real): Evaluation {
    if rule.operator.Outside? || rule.operator.Inside? then
      var min := if rule.min.Some? then Finite(rule.min.value) else NegInfinity;
      var max := if rule.max.Some? then Finite(rule.max.value) else PosInfinity;
      var breaching :=
        if rule.operator.Outside? then Below(value, min) || Above(value, max)
        else !Below(value, min) && !Above(value, max);
      Evaluation(breaching, if Below(value, min) then min else max)
    else
      var threshold := if rule.threshold.Some? then rule.threshold.value else 0.0;
      var breaching :=
        match rule.operator
        case Gt => value > threshold
        case Gte => value >= threshold
        case Lt => value < threshold
        case _ => value <= threshold;
      Evaluation(breaching, Finite(threshold))
  }

  predicate Breaching(rule: ThresholdRule, t: Reading) {
    EvaluateRule(rule, MetricValue(t, rule.metric)).breaching
  }

  /** The refinement the configuration file must pass: range operators need both bounds, the others a threshold. */
  predicate MeetsSchema(rule: ThresholdRule) {
    && rule.id != "" && rule.message != ""
    && (if rule.operator.Outside? || rule.operator.Inside? then rule.min.Some? && rule.max.Some?
        else rule.threshold.Some?)
  }

  /**
   What an accepted rule means by its configured numbers: when a value breaches, and that a breach
   reports the bound it is measured against (for `inside`, the range's upper end).
   */
  lemma AcceptedRuleMeaning(rule: ThresholdRule, value: real)
    requires MeetsSchema(rule)
    ensures var e := EvaluateRule(rule, value);
            match rule.operator
            case Gt => e == Evaluation(value > rule.threshold.value, Finite(rule.threshold.value))
            case Gte => e == Evaluation(value >= rule.threshold.value, Finite(rule.threshold.value))
            case Lt => e == Evaluation(value < rule.threshold.value, Finite(rule.threshold.value))
            case Lte => e == Evaluation(value <= rule.threshold.value, Finite(rule.threshold.value))
            case Outside =>
              && (e.breaching <==> value < rule.min.value || value > rule.max.value)
              && (e.breaching ==>
                    (e.threshold == Finite(rule.min.value) && value < rule.min.value) ||
                    (e.threshold == Finite(rule.max.value) && value > rule.max.value))
            case Inside =>
              && (e.breaching <==> rule.min.value <= value <= rule.max.value)
              && (e.breaching ==> e.threshold == Finite(rule.max.value))
  {
  }

  /** No two rules share a key on these devices; the schema does not ask for it. */
  predicate SafeOn(rules: seq<ThresholdRule>, ds: set<string>) {
    forall i, j, d, d' | 0 <= i < j < |rules| && d in ds && d' in ds ::
      RuleKey(rules[i].id, d) != RuleKey(rules[j].id, d')
  }

  /** Rule ids under which no two rules share a key, whatever the devices. */
  predicate SafeRules(rules: seq<ThresholdRule>) {
    forall i, j | 0 <= i < j < |rules| :: Separated(rules[i].id, rules[j].id)
  }

  lemma SafeEverywhere(rules: seq<ThresholdRule>, ds: set<string>)
    requires SafeRules(rules)
    ensures SafeOn(rules, ds)
  {
    hide RuleKey, Separated;
    forall i, j, d, d' | 0 <= i < j < |rules| && d in ds && d' in ds
      ensures RuleKey(rules[i].id, d) != RuleKey(rules[j].id, d') {
      SeparatedKeysDiffer(rules[i].id, d, rules[j].id, d');
    }
  }
}
