/**
 A sweep gets through: from any point of any run, its remaining pairs can all be checked, in their
 order and at its time, each check recorded once.
 */
module SweepProgress {
  import opened Options
  import opened RuleSchema
  import opened KeyValueStore
  import opened Evaluation
  import opened Connectivity
  import opened EngineSteps

  /** The k-th sweep's next step when no call fails. */
  function DueSweep(e: Engine, k: nat): Action
    requires Active(e, k)
  {
    match e.sweeps[k].phase
    case Ready =>
      if Silent(HeadCheck(e.sweeps[k], e.sweeps[k].nowMs, Completed)) then SweepLook(k, true) else SweepDelete(k, Written)
    case Looked(_) => SweepResume(k, e.sweeps[k].nowMs)
    case Marking(_) => SweepMark(k, Written)
  }

  function StepsLeft(phase: SweepPhase): nat {
    match phase
    case Ready => 2
    case Looked(_) => 1
    case Marking(_) => 0
  }

  /** The check is that of the pair, at the sweep's time, and went through. */
  predicate ChecksPair(c: Check, pair: (ConnectivityRule, Device), nowMs: int) {
    c.rule == pair.0 && c.device == pair.1 && c.nowMs == nowMs && c.outcome.Completed?
  }

  /** The first n pairs the sweep had left have been checked, in order, and those after them are left. */
  ghost predicate GotThrough(e: Engine, k: nat, e': Engine, n: nat)
    requires k < |e.sweeps|
  {
    && |e'.sweeps| == |e.sweeps| && n <= |e.sweeps[k].pairs|
    && e'.sweeps[k].pairs == e.sweeps[k].pairs[n..] && e'.sweeps[k].nowMs == e.sweeps[k].nowMs
    && |e'.checked| == |e.checked| + n && e.checked <= e'.checked
    && forall i | 0 <= i < n :: ChecksPair(e'.checked[|e.checked| + i], e.sweeps[k].pairs[i], e.sweeps[k].nowMs)
  }

  lemma DueSweepProceeds(rules: seq<ThresholdRule>, e: Engine, k: nat)
    requires Active(e, k)
    ensures var e' := Step(rules, e, DueSweep(e, k));
            GotThrough(e, k, e', 1) ||
            (GotThrough(e, k, e', 0) && StepsLeft(e'.sweeps[k].phase) < StepsLeft(e.sweeps[k].phase))
  {
    hide SilentSeconds, CheckKey, OfflineAlert;
  }

  lemma ThroughTrans(e: Engine, k: nat, e': Engine, n: nat, e'': Engine, m: nat)
    requires k < |e.sweeps| && GotThrough(e, k, e', n) && GotThrough(e', k, e'', m)
    ensures GotThrough(e, k, e'', n + m)
  {
    hide ChecksPair;
    forall i | 0 <= i < n + m
      ensures ChecksPair(e''.checked[|e.checked| + i], e.sweeps[k].pairs[i], e.sweeps[k].nowMs) {
      if i < n {
        assert e''.checked[|e.checked| + i] == e'.checked[|e.checked| + i];
      } else {
        assert e'.sweeps[k].pairs[i - n] == e.sweeps[k].pairs[i];
        assert ChecksPair(e''.checked[|e'.checked| + (i - n)], e'.sweeps[k].pairs[i - n], e'.sweeps[k].nowMs);
      }
    }
  }

  lemma ExecSnoc(rules: seq<ThresholdRule>, e: Engine, acts: seq<Action>, a: Action)
    ensures Exec(rules, e, acts + [a]) == Step(rules, Exec(rules, e, acts), a)
  {
    hide Step;
    assert (acts + [a])[..|acts|] == acts;
  }

  /** Whatever has happened so far, also in the midst of a check, the k-th sweep can be brought to its end. */
  lemma {:induction false} SweepCompletes(rules: seq<ThresholdRule>, start: Engine, acts: seq<Action>, k: nat)
    returns (more: seq<Action>)
    requires k < |Exec(rules, start, acts).sweeps|
    ensures acts <= more
    ensures var e, e' := Exec(rules, start, acts), Exec(rules, start, more);
            GotThrough(e, k, e', |e.sweeps[k].pairs|) && e'.sweeps[k].pairs == []
    decreases |Exec(rules, start, acts).sweeps[k].pairs|, StepsLeft(Exec(rules, start, acts).sweeps[k].phase)
  {
    hide Exec, Step, DueSweep, ChecksPair;
    var e := Exec(rules, start, acts);
    if e.sweeps[k].pairs == [] {
      more := acts;
    } else {
      var a := DueSweep(e, k);
      var n := if GotThrough(e, k, Step(rules, e, a), 1) then 1 else 0;
      DueSweepProceeds(rules, e, k);
      ExecSnoc(rules, start, acts, a);
      more := SweepCompletes(rules, start, acts + [a], k);
      ThroughTrans(e, k, Step(rules, e, a), n, Exec(rules, start, more), |Step(rules, e, a).sweeps[k].pairs|);
    }
  }
}
