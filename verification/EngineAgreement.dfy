/**
 The service's methods and the step-by-step engine are two accounts of one code, and agree: the calls a
 method makes, taken one at a time, take the engine to the same store, alerts and log. And how a message
 is handled is up to the replies alone.
 */
module EngineAgreement {
  import opened Options
  import opened Readings
  import opened RuleSchema
  import opened StoreKeys
  import opened KeyValueStore
  import opened Evaluation
  import opened Connectivity
  import opened ConsumerChannel
  import opened Clients
  import opened RuleEngine
  import EngineSteps

  /** The engine's steps for an evaluation that turns out so. */
  function StepsOf(e: Event): seq<EngineSteps.Action> {
    if !Breaching(e.rule, e.reading) then [EngineSteps.Delete(ReplyFor(e.outcome))]
    else if e.outcome.ReadFailed? then [EngineSteps.Fetch(false)]
    else [EngineSteps.Fetch(true), EngineSteps.Resume, EngineSteps.Write(ReplyFor(e.outcome))]
  }

  lemma ExecOne(rules: seq<ThresholdRule>, e: EngineSteps.Engine, a: EngineSteps.Action)
    ensures EngineSteps.Exec(rules, e, [a]) == EngineSteps.Step(rules, e, a)
  {
    hide EngineSteps.Step;
    assert [a][..0] == [];
  }

  lemma ExecThree(rules: seq<ThresholdRule>, e: EngineSteps.Engine, acts: seq<EngineSteps.Action>)
    requires |acts| == 3
    ensures EngineSteps.Exec(rules, e, acts) ==
            EngineSteps.Step(rules, EngineSteps.Step(rules, EngineSteps.Step(rules, e, acts[0]), acts[1]), acts[2])
  {
    hide EngineSteps.Step;
    assert acts[..2][..1] == acts[..1] && acts[..1][..0] == [];
    assert EngineSteps.Exec(rules, e, acts[..1]) == EngineSteps.Step(rules, e, acts[0]);
    assert EngineSteps.Exec(rules, e, acts[..2]) == EngineSteps.Step(rules, EngineSteps.Exec(rules, e, acts[..1]), acts[1]);
  }

  /** The evaluation has had its effect, is logged, and the handler goes on or gives the message up. */
  ghost predicate Evaluated(e: EngineSteps.Engine, i: nat, ev: Event, e': EngineSteps.Engine) {
    && e'.store == After(ev, e.store) && e'.published == e.published + AlertsOf(ev, e.store)
    && e'.log == e.log + [ev] && e'.sweeps == e.sweeps && e'.inbox.queue == e.inbox.queue
    && if ev.outcome.Completed? then e'.pc == EngineSteps.Evaluating(i + 1) && e'.inbox == e.inbox
       else e'.pc.Idle? && e'.inbox.settled == e.inbox.settled + [Delivery(ev.reading, false)]
  }

  lemma ConcludeEvaluated(rules: seq<ThresholdRule>, e: EngineSteps.Engine, i: nat, ev: Event, mid: EngineSteps.Engine)
    requires i < |rules| && e.inbox.inFlight == Some(ev.reading) && ev.rule == rules[i]
    requires mid.inbox == e.inbox && mid.log == e.log && mid.sweeps == e.sweeps
    requires mid.store == After(ev, e.store) && mid.published == e.published + AlertsOf(ev, e.store)
    ensures Evaluated(e, i, ev, EngineSteps.Conclude(mid, rules, i, ev.outcome))
  {
    hide After, AlertsOf;
  }

  lemma DeletionAgrees(rules: seq<ThresholdRule>, e: EngineSteps.Engine, i: nat, ev: Event)
    requires i < |rules| && e.pc == EngineSteps.Evaluating(i) && e.inbox.inFlight == Some(ev.reading) && ev.rule == rules[i]
    requires !Breaching(ev.rule, ev.reading) && Possible(ev)
    ensures Evaluated(e, i, ev, EngineSteps.Step(rules, e, EngineSteps.Delete(ReplyFor(ev.outcome))))
  {
    hide Breaching, EngineSteps.Conclude, NextState;
    ConcludeEvaluated(rules, e, i, ev, e.(store := After(ev, e.store)));
  }

  lemma FailedReadAgrees(rules: seq<ThresholdRule>, e: EngineSteps.Engine, i: nat, ev: Event)
    requires i < |rules| && e.pc == EngineSteps.Evaluating(i) && e.inbox.inFlight == Some(ev.reading) && ev.rule == rules[i]
    requires Breaching(ev.rule, ev.reading) && ev.outcome.ReadFailed?
    ensures Evaluated(e, i, ev, EngineSteps.Step(rules, e, EngineSteps.Fetch(false)))
  {
    hide Breaching, EngineSteps.Conclude, NextState, Fires;
    ConcludeEvaluated(rules, e, i, ev, e);
  }

  lemma WriteAgrees(rules: seq<ThresholdRule>, e: EngineSteps.Engine, i: nat, ev: Event)
    requires i < |rules| && e.pc == EngineSteps.Evaluating(i) && e.inbox.inFlight == Some(ev.reading) && ev.rule == rules[i]
    requires Breaching(ev.rule, ev.reading) && !ev.outcome.ReadFailed?
    ensures var fetched := EngineSteps.Step(rules, e, EngineSteps.Fetch(true));
            var resumed := EngineSteps.Step(rules, fetched, EngineSteps.Resume);
            Evaluated(e, i, ev, EngineSteps.Step(rules, resumed, EngineSteps.Write(ReplyFor(ev.outcome))))
  {
    hide Breaching, EngineSteps.Conclude, NextState, Fires, AlertFor;
    var cell := CellAt(e.store, EventKey(ev));
    var news := if Fires(ev.rule, ev.reading, cell) then [AlertFor(ev.rule, ev.reading)] else [];
    var fetched := e.(pc := EngineSteps.Fetched(i, cell));
    assert EngineSteps.Step(rules, e, EngineSteps.Fetch(true)) == fetched;
    var resumed := e.(published := e.published + news, pc := EngineSteps.Storing(i, NextState(ev.rule, ev.reading, cell)));
    assert EngineSteps.Step(rules, fetched, EngineSteps.Resume) == resumed;
    ConcludeEvaluated(rules, e, i, ev, resumed.(store := After(ev, e.store)));
  }

  /** Taken step by step, the evaluation has the effect it has as a whole, and is logged with its outcome. */
  lemma EvaluationAgrees(rules: seq<ThresholdRule>, e: EngineSteps.Engine, i: nat, outcome: Outcome)
    requires i < |rules| && e.pc == EngineSteps.Evaluating(i) && e.inbox.inFlight.Some?
    requires Possible(Event(rules[i], e.inbox.inFlight.value, outcome))
    ensures var ev := Event(rules[i], e.inbox.inFlight.value, outcome);
            Evaluated(e, i, ev, EngineSteps.Exec(rules, e, StepsOf(ev)))
  {
    hide EngineSteps.Exec, EngineSteps.Step, Breaching, Evaluated;
    var ev := Event(rules[i], e.inbox.inFlight.value, outcome);
    if !Breaching(ev.rule, ev.reading) {
      ExecOne(rules, e, EngineSteps.Delete(ReplyFor(outcome)));
      DeletionAgrees(rules, e, i, ev);
    } else if outcome.ReadFailed? {
      ExecOne(rules, e, EngineSteps.Fetch(false));
      FailedReadAgrees(rules, e, i, ev);
    } else {
      ExecThree(rules, e, StepsOf(ev));
      WriteAgrees(rules, e, i, ev);
    }
  }

  /** The engine's steps for a check of the k-th sweep that turns out so. */
  function StepsOfCheck(k: nat, c: Check, store: Store): seq<EngineSteps.Action> {
    if !Silent(c) then [EngineSteps.SweepDelete(k, ReplyFor(c.outcome))]
    else if c.outcome.ReadFailed? then [EngineSteps.SweepLook(k, false)]
    else if CheckKey(c) in store then [EngineSteps.SweepLook(k, true), EngineSteps.SweepResume(k, c.clockMs)]
    else [EngineSteps.SweepLook(k, true), EngineSteps.SweepResume(k, c.clockMs), EngineSteps.SweepMark(k, ReplyFor(c.outcome))]
  }

  lemma ExecTwo(rules: seq<ThresholdRule>, e: EngineSteps.Engine, acts: seq<EngineSteps.Action>)
    requires |acts| == 2
    ensures EngineSteps.Exec(rules, e, acts) == EngineSteps.Step(rules, EngineSteps.Step(rules, e, acts[0]), acts[1])
  {
    hide EngineSteps.Step;
    assert acts[..1][..0] == [];
    assert EngineSteps.Exec(rules, e, acts[..1]) == EngineSteps.Step(rules, e, acts[0]);
  }

  /** The k-th sweep is about to make this check. */
  predicate AboutToCheck(e: EngineSteps.Engine, k: nat, c: Check) {
    && EngineSteps.Active(e, k) && e.sweeps[k].phase.Ready?
    && c.rule == e.sweeps[k].pairs[0].0 && c.device == e.sweeps[k].pairs[0].1 && c.nowMs == e.sweeps[k].nowMs
  }

  /** The check has had its effect, is recorded, and the sweep goes on to its next pair or gives up. */
  ghost predicate Checked(e: EngineSteps.Engine, k: nat, c: Check, e': EngineSteps.Engine)
    requires EngineSteps.Active(e, k)
  {
    && e'.store == AfterCheck(c, e.store) && e'.published == e.published + ReportsOf(c, e.store)
    && |e'.checked| == |e.checked| + 1 && e'.checked[..|e.checked|] == e.checked
    && SameQuestionAs(e'.checked[|e.checked|], c) && e'.checked[|e.checked|].outcome == c.outcome
    && e'.sweeps == e.sweeps[k := EngineSteps.Sweep(c.nowMs, if c.outcome.Completed? then e.sweeps[k].pairs[1..] else [],
                                                    EngineSteps.Ready)]
    && e'.pc == e.pc && e'.inbox == e.inbox && e'.log == e.log
  }

  predicate SameQuestionAs(c: Check, c': Check) {
    c.rule == c'.rule && c.device == c'.device && c.nowMs == c'.nowMs
  }

  lemma EndChecked(e: EngineSteps.Engine, k: nat, c: Check, mid: EngineSteps.Engine, clockMs: int)
    requires AboutToCheck(e, k, c) && |mid.sweeps| == |e.sweeps| && mid.sweeps[k].pairs == e.sweeps[k].pairs
    requires mid.sweeps[k].nowMs == e.sweeps[k].nowMs && mid.sweeps[k := e.sweeps[k]] == e.sweeps
    requires mid.store == AfterCheck(c, e.store) && mid.published == e.published + ReportsOf(c, e.store)
    requires mid.checked == e.checked && mid.pc == e.pc && mid.inbox == e.inbox && mid.log == e.log
    ensures Checked(e, k, c, EngineSteps.EndCheck(mid, k, clockMs, c.outcome))
  {
    hide AfterCheck, ReportsOf;
    var e' := EngineSteps.EndCheck(mid, k, clockMs, c.outcome);
    assert e'.sweeps == mid.sweeps[k := EngineSteps.NextPair(e.sweeps[k], c.outcome.Completed?)];
    assert e'.sweeps == e.sweeps[k := EngineSteps.NextPair(e.sweeps[k], c.outcome.Completed?)];
  }

  lemma ClearAgrees(rules: seq<ThresholdRule>, e: EngineSteps.Engine, k: nat, c: Check)
    requires AboutToCheck(e, k, c) && PossibleCheck(c, e.store) && !Silent(c)
    ensures Checked(e, k, c, EngineSteps.Step(rules, e, EngineSteps.SweepDelete(k, ReplyFor(c.outcome))))
  {
    hide EngineSteps.EndCheck, SilentSeconds, ConnectivityKey;
    EndChecked(e, k, c, e.(store := AfterCheck(c, e.store)), c.nowMs);
  }

  lemma FailedLookAgrees(rules: seq<ThresholdRule>, e: EngineSteps.Engine, k: nat, c: Check)
    requires AboutToCheck(e, k, c) && Silent(c) && c.outcome.ReadFailed?
    ensures Checked(e, k, c, EngineSteps.Step(rules, e, EngineSteps.SweepLook(k, false)))
  {
    hide EngineSteps.EndCheck, SilentSeconds, ConnectivityKey;
    EndChecked(e, k, c, e, c.nowMs);
  }

  /** After an answered look, the sweep knows whether the flag is there. */
  lemma LookAgrees(rules: seq<ThresholdRule>, e: EngineSteps.Engine, k: nat, c: Check)
    requires AboutToCheck(e, k, c) && Silent(c)
    ensures EngineSteps.Step(rules, e, EngineSteps.SweepLook(k, true)) ==
            e.(sweeps := e.sweeps[k := e.sweeps[k].(phase := EngineSteps.Looked(CheckKey(c) in e.store))])
  {
    hide EngineSteps.EndCheck, SilentSeconds, ConnectivityKey;
  }

  lemma FlaggedAgrees(rules: seq<ThresholdRule>, e: EngineSteps.Engine, k: nat, c: Check)
    requires AboutToCheck(e, k, c) && PossibleCheck(c, e.store) && Silent(c) && !c.outcome.ReadFailed?
    requires CheckKey(c) in e.store
    ensures var looked := e.(sweeps := e.sweeps[k := e.sweeps[k].(phase := EngineSteps.Looked(true))]);
            Checked(e, k, c, EngineSteps.Step(rules, looked, EngineSteps.SweepResume(k, c.clockMs)))
  {
    hide EngineSteps.EndCheck, SilentSeconds, ConnectivityKey;
    var looked := e.(sweeps := e.sweeps[k := e.sweeps[k].(phase := EngineSteps.Looked(true))]);
    EndChecked(e, k, c, looked, c.nowMs);
  }

  lemma ReportAgrees(rules: seq<ThresholdRule>, e: EngineSteps.Engine, k: nat, c: Check)
    requires AboutToCheck(e, k, c) && Silent(c) && CheckKey(c) !in e.store
    ensures var looked := e.(sweeps := e.sweeps[k := e.sweeps[k].(phase := EngineSteps.Looked(false))]);
            EngineSteps.Step(rules, looked, EngineSteps.SweepResume(k, c.clockMs)) ==
            e.(published := e.published + [OfflineAlert(c)],
               sweeps := e.sweeps[k := e.sweeps[k].(phase := EngineSteps.Marking(c.clockMs))])
  {
    hide EngineSteps.EndCheck, Silent, ConnectivityKey, OfflineAlert;
    var looked := e.(sweeps := e.sweeps[k := e.sweeps[k].(phase := EngineSteps.Looked(false))]);
    SameAlert(EngineSteps.HeadCheck(looked.sweeps[k], c.clockMs, Completed), c);
    assert looked.sweeps[k := e.sweeps[k].(phase := EngineSteps.Marking(c.clockMs))] ==
           e.sweeps[k := e.sweeps[k].(phase := EngineSteps.Marking(c.clockMs))];
  }

  lemma MarkAgrees(rules: seq<ThresholdRule>, e: EngineSteps.Engine, k: nat, c: Check)
    requires AboutToCheck(e, k, c) && Silent(c) && !c.outcome.ReadFailed? && CheckKey(c) !in e.store
    ensures var marking := e.(published := e.published + [OfflineAlert(c)],
                              sweeps := e.sweeps[k := e.sweeps[k].(phase := EngineSteps.Marking(c.clockMs))]);
            Checked(e, k, c, EngineSteps.Step(rules, marking, EngineSteps.SweepMark(k, ReplyFor(c.outcome))))
  {
    hide EngineSteps.EndCheck, SilentSeconds, ConnectivityKey, OfflineAlert;
    var marking := e.(published := e.published + [OfflineAlert(c)],
                      sweeps := e.sweeps[k := e.sweeps[k].(phase := EngineSteps.Marking(c.clockMs))]);
    EndChecked(e, k, c, marking.(store := AfterCheck(c, e.store)), c.clockMs);
  }

  /** Taken step by step, the check has the effect it has as a whole, and the sweep goes on or gives up. */
  lemma CheckAgrees(rules: seq<ThresholdRule>, e: EngineSteps.Engine, k: nat, c: Check)
    requires AboutToCheck(e, k, c) && PossibleCheck(c, e.store)
    ensures Checked(e, k, c, EngineSteps.Exec(rules, e, StepsOfCheck(k, c, e.store)))
  {
    hide EngineSteps.Exec, EngineSteps.Step, Checked, Silent, CheckKey, OfflineAlert;
    if !Silent(c) {
      ExecOne(rules, e, EngineSteps.SweepDelete(k, ReplyFor(c.outcome)));
      ClearAgrees(rules, e, k, c);
    } else if c.outcome.ReadFailed? {
      ExecOne(rules, e, EngineSteps.SweepLook(k, false));
      FailedLookAgrees(rules, e, k, c);
    } else if CheckKey(c) in e.store {
      ExecTwo(rules, e, StepsOfCheck(k, c, e.store));
      LookAgrees(rules, e, k, c);
      FlaggedAgrees(rules, e, k, c);
    } else {
      ExecThree(rules, e, StepsOfCheck(k, c, e.store));
      LookAgrees(rules, e, k, c);
      ReportAgrees(rules, e, k, c);
      MarkAgrees(rules, e, k, c);
    }
  }

  lemma SameAlert(c: Check, c': Check)
    requires c.rule == c'.rule && c.device == c'.device && c.nowMs == c'.nowMs && c.clockMs == c'.clockMs
    ensures OfflineAlert(c) == OfflineAlert(c')
  {
  }

  /** An evaluation whose calls fit the fates can turn out in one way only. */
  lemma OutcomeDecided(e: Event, e': Event, store: Store, fates: nat -> Fate, n: nat)
    requires e.rule == e'.rule && e.reading == e'.reading && Possible(e) && Possible(e')
    requires AllAsFated(EvaluationCalls(e, store), fates, n) && AllAsFated(EvaluationCalls(e', store), fates, n)
    ensures e == e'
  {
    hide Breaching, NextState, AlertFor, Fires;
    assert AsFated(EvaluationCalls(e, store)[0], fates(n + 0)) && AsFated(EvaluationCalls(e', store)[0], fates(n + 0));
    if Breaching(e.rule, e.reading) && !e.outcome.ReadFailed? && !e'.outcome.ReadFailed? {
      var last := |EvaluationCalls(e, store)| - 1;
      assert |EvaluationCalls(e', store)| - 1 == last;
      assert AsFated(EvaluationCalls(e, store)[last], fates(n + last));
      assert AsFated(EvaluationCalls(e', store)[last], fates(n + last));
    }
  }

  lemma FitSplit(a: seq<Call>, b: seq<Call>, fates: nat -> Fate, n: nat)
    requires AllAsFated(a + b, fates, n)
    ensures AllAsFated(a, fates, n) && AllAsFated(b, fates, n + |a|)
  {
    hide AsFated;
    forall k | 0 <= k < |a| ensures AsFated(a[k], fates(n + k)) {
      assert (a + b)[k] == a[k];
    }
    forall k | 0 <= k < |b| ensures AsFated(b[k], fates(n + |a| + k)) {
      assert (a + b)[|a| + k] == b[k] && n + (|a| + k) == n + |a| + k;
    }
  }

  /** After the same evaluations, the next one is the same. */
  lemma NextDecided(rules: seq<ThresholdRule>, t: Reading, store: Store, fates: nat -> Fate, n: nat,
                    done: seq<Event>, e: Event, e': Event)
    requires e.rule == e'.rule && e.reading == e'.reading && Possible(e) && Possible(e')
    requires AllAsFated(RunCalls(done + [e], store), fates, n) && AllAsFated(RunCalls(done + [e'], store), fates, n)
    ensures e == e'
  {
    hide *;
    RunCallsSnoc(done, e, store);
    RunCallsSnoc(done, e', store);
    FitSplit(RunCalls(done, store), EvaluationCalls(e, RunStore(done, store)), fates, n);
    FitSplit(RunCalls(done, store), EvaluationCalls(e', RunStore(done, store)), fates, n);
    OutcomeDecided(e, e', RunStore(done, store), fates, n + |RunCalls(done, store)|);
  }

  lemma {:induction false} FirstDecided(rules: seq<ThresholdRule>, t: Reading, store: Store, fates: nat -> Fate, n: nat,
                                        es: seq<Event>, es': seq<Event>, j: nat)
    requires Handles(rules, t, es) && Handles(rules, t, es') && j <= |es| && j <= |es'|
    requires AllAsFated(RunCalls(es[..j], store), fates, n) && AllAsFated(RunCalls(es'[..j], store), fates, n)
    ensures es[..j] == es'[..j]
  {
    hide *;
    if j > 0 {
      var init, init' := es[..j - 1], es'[..j - 1];
      assert es[..j] == init + [es[j - 1]] && es'[..j] == init' + [es'[j - 1]];
      RunCallsSnoc(init, es[j - 1], store);
      RunCallsSnoc(init', es'[j - 1], store);
      FitSplit(RunCalls(init, store), EvaluationCalls(es[j - 1], RunStore(init, store)), fates, n);
      FitSplit(RunCalls(init', store), EvaluationCalls(es'[j - 1], RunStore(init', store)), fates, n);
      FirstDecided(rules, t, store, fates, n, es, es', j - 1);
      HandledAt(rules, t, es, j - 1);
      HandledAt(rules, t, es', j - 1);
      NextDecided(rules, t, store, fates, n, init, es[j - 1], es'[j - 1]);
    }
  }

  lemma HandledAt(rules: seq<ThresholdRule>, t: Reading, es: seq<Event>, k: nat)
    requires Handles(rules, t, es) && k < |es|
    ensures k < |rules| && es[k].rule == rules[k] && es[k].reading == t && Possible(es[k])
  {
  }

  /** The calls of the first j evaluations come first. */
  lemma {:induction false} CallsPrefix(es: seq<Event>, store: Store, j: nat)
    requires j <= |es|
    ensures RunCalls(es[..j], store) <= RunCalls(es, store)
  {
    hide EvaluationCalls;
    if j == |es| {
      assert es[..j] == es;
    } else {
      CallsPrefix(es[..|es| - 1], store, j);
      assert es[..|es| - 1][..j] == es[..j];
    }
  }

  /**
   How a message is handled is decided by the store and the replies: two ways of going through the rules
   whose calls all fit the same replies are one, so the handler can neither skip a call nor make an
   outcome up.
   */
  lemma RepliesDecide(rules: seq<ThresholdRule>, t: Reading, store: Store, fates: nat -> Fate, n: nat,
                      es: seq<Event>, es': seq<Event>)
    requires Handles(rules, t, es) && Handles(rules, t, es')
    requires AllAsFated(RunCalls(es, store), fates, n) && AllAsFated(RunCalls(es', store), fates, n)
    ensures es == es'
  {
    hide EvaluationCalls, RunCalls, AsFated, Possible;
    var j := if |es| <= |es'| then |es| else |es'|;
    CallsPrefix(es, store, j);
    CallsPrefix(es', store, j);
    assert forall k | 0 <= k < |RunCalls(es[..j], store)| :: RunCalls(es[..j], store)[k] == RunCalls(es, store)[k];
    assert forall k | 0 <= k < |RunCalls(es'[..j], store)| :: RunCalls(es'[..j], store)[k] == RunCalls(es', store)[k];
    FirstDecided(rules, t, store, fates, n, es, es', j);
    assert es[..|es|] == es && es'[..|es'|] == es';
    assert forall k | 0 <= k < j :: es[k] == es[..j][k] && es'[k] == es'[..j][k];
  }

  /** The same of one check. */
  lemma CheckDecided(c: Check, c': Check, store: Store, fates: nat -> Fate, n: nat)
    requires c.rule == c'.rule && c.device == c'.device && c.nowMs == c'.nowMs
    requires PossibleCheck(c, store) && PossibleCheck(c', store)
    requires AllAsFated(CheckCalls(c, store), fates, n) && AllAsFated(CheckCalls(c', store), fates, n)
    ensures c.outcome == c'.outcome
  {
    hide SilentSeconds, ConnectivityKey, OfflineAlert;
    var a, b := CheckCalls(c, store), CheckCalls(c', store);
    assert AsFated(a[0], fates(n + 0)) && AsFated(b[0], fates(n + 0));
    if |a| == 3 && |b| == 3 {
      assert AsFated(a[2], fates(n + 2)) && AsFated(b[2], fates(n + 2));
    }
  }
}
