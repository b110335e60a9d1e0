/**
 The sweeps at the grain of their store calls: as long as no sweep starts before the one before it
 has ended, the connectivity keys and alerts are those of the finished checks done one after the
 other, whatever the telemetry handler does in between.
 */
module SweepRefinement {
  import opened StoreKeys
  import opened RuleSchema
  import opened KeyValueStore
  import opened Evaluation
  import opened Connectivity
  import opened EngineSteps
  import RuleEngine

  /** The part of the store under connectivity keys. */
  function SweepPart(store: Store): Store {
    map key | key in store && IsConnectivityKey(key) :: store[key]
  }

  function OfflineAlerts(alerts: seq<Alert>): seq<Alert> {
    if alerts == [] then []
    else
      var init, last := alerts[..|alerts| - 1], alerts[|alerts| - 1];
      OfflineAlerts(init) + if last.metric.Connectivity? then [last] else []
  }

  /** The check in progress in the k-th sweep. */
  function Head(e: Engine, k: int): Check
    requires Active(e, k)
  {
    var s := e.sweeps[k];
    HeadCheck(s, if s.phase.Marking? then s.phase.clockMs else s.nowMs, Completed)
  }

  ghost predicate PhaseInv(e: Engine, k: int)
    requires Active(e, k)
  {
    match e.sweeps[k].phase
    case Ready => true
    case Looked(present) => Silent(Head(e, k)) && (present <==> CheckKey(Head(e, k)) in e.store)
    case Marking(_) => Silent(Head(e, k)) && CheckKey(Head(e, k)) !in e.store
  }

  predicate IsMarking(e: Engine, k: int) {
    Active(e, k) && e.sweeps[k].phase.Marking?
  }

  /** One sweep at a time, and what it has read still holds. */
  ghost predicate OneSweep(e: Engine) {
    && (forall k, l | Active(e, k) && Active(e, l) :: k == l)
    && (forall k | Active(e, k) :: PhaseInv(e, k))
  }

  /** The alerts are those of the finished checks, and one more while its flag is still to be set. */
  ghost predicate ReportsMatch(start: Store, e: Engine) {
    && ((forall k :: !IsMarking(e, k)) ==> OfflineAlerts(e.published) == SweepAlerts(e.checked, SweepPart(start)))
    && (forall k | IsMarking(e, k) ::
          OfflineAlerts(e.published) == SweepAlerts(e.checked, SweepPart(start)) + [OfflineAlert(Head(e, k))])
  }

  ghost predicate SweepsRefine(start: Store, e: Engine) {
    !e.overlapped ==>
      OneSweep(e) && SweepPart(e.store) == SweepStore(e.checked, SweepPart(start)) && ReportsMatch(start, e)
  }

  lemma OfflineSnoc(alerts: seq<Alert>, b: bool, a: Alert)
    ensures OfflineAlerts(alerts + if b then [a] else []) ==
            OfflineAlerts(alerts) + if b && a.metric.Connectivity? then [a] else []
  {
    if b {
      assert (alerts + [a])[..|alerts|] == alerts;
    } else {
      assert alerts + [] == alerts;
    }
  }

  lemma SweepPartWrites(store: Store, key: string, entry: Entry)
    ensures SweepPart(store[key := entry]) ==
            if IsConnectivityKey(key) then SweepPart(store)[key := entry] else SweepPart(store)
    ensures SweepPart(store - {key}) == if IsConnectivityKey(key) then SweepPart(store) - {key} else SweepPart(store)
    ensures IsConnectivityKey(key) ==> (key in SweepPart(store) <==> key in store)
  {
  }

  /** A check commutes with the view through connectivity keys. */
  lemma SweepPartAfter(c: Check, store: Store)
    ensures SweepPart(AfterCheck(c, store)) == AfterCheck(c, SweepPart(store))
    ensures ReportsOf(c, SweepPart(store)) == ReportsOf(c, store)
  {
    hide Silent, SweepPart;
    KeySpacesDisjoint("", "", c.device.deviceId, "");
    KeySpacesDisjoint(c.rule.id, "", c.device.deviceId, "");
    SweepPartWrites(store, CheckKey(c), OfflineFlag);
  }

  /** A step that touches no connectivity key, no offline alert and no sweep is invisible. */
  lemma UnseenBySweeps(start: Store, e: Engine, e': Engine)
    requires SweepsRefine(start, e)
    requires SweepPart(e'.store) == SweepPart(e.store) && OfflineAlerts(e'.published) == OfflineAlerts(e.published)
    requires e'.sweeps == e.sweeps && e'.checked == e.checked && e'.overlapped == e.overlapped
    ensures SweepsRefine(start, e')
  {
    hide SweepPart, OfflineAlerts, SweepStore, SweepAlerts, PhaseInv;
    if !e.overlapped {
      forall k | Active(e, k) ensures Active(e', k) && Head(e', k) == Head(e, k) && PhaseInv(e', k) {
        assert PhaseInv(e, k);
        SamePhase(e, e', k);
      }
      assert forall k :: Active(e', k) <==> Active(e, k);
      assert forall k :: IsMarking(e', k) <==> IsMarking(e, k);
    }
  }

  lemma SamePhase(e: Engine, e': Engine, k: nat)
    requires Active(e, k) && PhaseInv(e, k) && e'.sweeps == e.sweeps && SweepPart(e'.store) == SweepPart(e.store)
    ensures Active(e', k) && PhaseInv(e', k)
  {
    hide SweepPart, Silent;
    var c := Head(e, k);
    KeySpacesDisjoint(c.rule.id, "", c.device.deviceId, "");
    SweepPartWrites(e.store, CheckKey(c), OfflineFlag);
    SweepPartWrites(e'.store, CheckKey(c), OfflineFlag);
  }

  /** The telemetry handler is unseen by the sweeps. */
  lemma HandlerUnseen(rules: seq<ThresholdRule>, e: Engine, a: Action)
    ensures var e' := HandlerStep(rules, e, a);
            && SweepPart(e'.store) == SweepPart(e.store) && OfflineAlerts(e'.published) == OfflineAlerts(e.published)
            && e'.sweeps == e.sweeps && e'.checked == e.checked && e'.overlapped == e.overlapped
  {
    hide SweepPart, OfflineAlerts, HandlerStep, EvaluateRule, RuleKey;
    HandlerEffect(rules, e, a);
    var e' := HandlerStep(rules, e, a);
    if e.inbox.inFlight.Some? && !e.pc.Idle? && e.pc.i < |rules| && HandlerWrites(rules[e.pc.i], e.inbox.inFlight.value, e, e') {
      var rule, t := rules[e.pc.i], e.inbox.inFlight.value;
      var key := RuleKey(rule.id, t.deviceId);
      KeySpacesDisjoint(rule.id, t.deviceId, "", "");
      SweepPartWrites(e.store, key, OfflineFlag);
      OfflineSnoc(e.published, true, AlertFor(rule, t));
      if state :| e'.store == e.store[key := Breach(state)] {
        SweepPartWrites(e.store, key, Breach(state));
      }
    }
  }

  /** What the other sweeps are doing, when there can be only one. */
  lemma AfterEndCheck(e: Engine, k: nat, clockMs: int, outcome: Outcome)
    requires Active(e, k) && forall l | Active(e, l) :: l == k
    ensures var e' := EndCheck(e, k, clockMs, outcome);
            && (forall l | Active(e', l) :: l == k && e'.sweeps[l].phase.Ready?)
            && forall l :: !IsMarking(e', l)
  {
    var e' := EndCheck(e, k, clockMs, outcome);
    forall l | Active(e', l) ensures l == k {
      if l != k { assert Active(e, l); }
    }
  }

  /** Finishing a check whose store effect has just happened keeps the refinement. */
  lemma EndCheckRefines(start: Store, e: Engine, k: nat, store': Store, clockMs: int, outcome: Outcome)
    requires !e.overlapped && Active(e, k) && OneSweep(e)
    requires SweepPart(e.store) == SweepStore(e.checked, SweepPart(start))
    requires var c := HeadCheck(e.sweeps[k], clockMs, outcome);
             && store' == AfterCheck(c, e.store)
             && OfflineAlerts(e.published) == SweepAlerts(e.checked, SweepPart(start)) + ReportsOf(c, e.store)
    ensures SweepsRefine(start, EndCheck(e.(store := store'), k, clockMs, outcome))
  {
    hide SweepPart, OfflineAlerts, SweepStore, SweepAlerts, AfterCheck, ReportsOf, EndCheck, PhaseInv;
    var c, e0 := HeadCheck(e.sweeps[k], clockMs, outcome), e.(store := store');
    assert forall l | Active(e0, l) :: Active(e, l);
    AfterEndCheck(e0, k, clockMs, outcome);
    SweepPartAfter(c, e.store);
    RuleEngine.SweepSnoc(e.checked, c, SweepPart(start));
    EndCheckFields(e0, k, clockMs, outcome);
    ReadyPhases(EndCheck(e0, k, clockMs, outcome));
  }

  lemma EndCheckFields(e: Engine, k: nat, clockMs: int, outcome: Outcome)
    requires Active(e, k)
    ensures var e' := EndCheck(e, k, clockMs, outcome);
            && e'.store == e.store && e'.published == e.published && e'.overlapped == e.overlapped
            && e'.checked == e.checked + [HeadCheck(e.sweeps[k], clockMs, outcome)]
  {
  }

  lemma ReadyPhases(e: Engine)
    ensures forall k | Active(e, k) && e.sweeps[k].phase.Ready? :: PhaseInv(e, k)
  {
  }

  /** No alert is outstanding while the one sweep there is does not mark. */
  lemma NoneOutstanding(start: Store, e: Engine, k: nat)
    requires !e.overlapped && SweepsRefine(start, e) && Active(e, k) && !e.sweeps[k].phase.Marking?
    ensures OfflineAlerts(e.published) == SweepAlerts(e.checked, SweepPart(start))
  {
    assert forall l :: !IsMarking(e, l);
  }

  lemma DeleteRefines(start: Store, e: Engine, k: nat, reply: WriteReply)
    requires SweepsRefine(start, e)
    ensures SweepsRefine(start, SweepStep(e, k, SweepDelete(k, reply)))
  {
    hide SweepPart, OfflineAlerts, SweepStore, SweepAlerts, SweepsRefine, Silent;
    if Active(e, k) && e.sweeps[k].phase.Ready? && !Silent(HeadCheck(e.sweeps[k], e.sweeps[k].nowMs, Completed)) {
      var s := e.sweeps[k];
      SameQuestion(s, s.nowMs, OutcomeOf(reply));
      var key := CheckKey(HeadCheck(s, s.nowMs, Completed));
      var store' := if TookEffect(reply) then e.store - {key} else e.store;
      if !e.overlapped {
        NoneOutstanding(start, e, k);
        Unfold(start, e);
        EndCheckRefines(start, e, k, store', s.nowMs, OutcomeOf(reply));
      } else {
        Overlapped(start, EndCheck(e.(store := store'), k, s.nowMs, OutcomeOf(reply)));
      }
    }
  }

  /** Clock and outcome do not change which device a check asks about, or the answer. */
  lemma SameQuestion(s: Sweep, clockMs: int, outcome: Outcome)
    requires s.pairs != []
    ensures Silent(HeadCheck(s, clockMs, outcome)) <==> Silent(HeadCheck(s, s.nowMs, Completed))
    ensures CheckKey(HeadCheck(s, clockMs, outcome)) == CheckKey(HeadCheck(s, s.nowMs, Completed))
  {
  }

  lemma Unfold(start: Store, e: Engine)
    requires !e.overlapped && SweepsRefine(start, e)
    ensures OneSweep(e) && SweepPart(e.store) == SweepStore(e.checked, SweepPart(start)) && ReportsMatch(start, e)
  {
  }

  lemma Overlapped(start: Store, e: Engine)
    requires e.overlapped
    ensures SweepsRefine(start, e)
  {
  }

  /** Entering a new phase of the same check. */
  lemma PhaseRefines(start: Store, e: Engine, k: nat, phase: SweepPhase, published': seq<Alert>)
    requires !e.overlapped && SweepsRefine(start, e) && Active(e, k) && !e.sweeps[k].phase.Marking?
    requires var e' := e.(sweeps := e.sweeps[k := e.sweeps[k].(phase := phase)], published := published');
             && PhaseInv(e', k)
             && OfflineAlerts(published') ==
                OfflineAlerts(e.published) + if phase.Marking? then [OfflineAlert(Head(e', k))] else []
    ensures SweepsRefine(start, e.(sweeps := e.sweeps[k := e.sweeps[k].(phase := phase)], published := published'))
  {
    hide SweepPart, OfflineAlerts, SweepStore, SweepAlerts, Silent, PhaseInv;
    var e' := e.(sweeps := e.sweeps[k := e.sweeps[k].(phase := phase)], published := published');
    NoneOutstanding(start, e, k);
    forall l | Active(e', l) ensures l == k {
      assert Active(e, l);
    }
    assert Active(e', k) && (IsMarking(e', k) <==> phase.Marking?);
  }

  lemma LookRefines(start: Store, e: Engine, k: nat, ok: bool)
    requires SweepsRefine(start, e)
    ensures SweepsRefine(start, SweepStep(e, k, SweepLook(k, ok)))
  {
    hide SweepPart, OfflineAlerts, SweepStore, SweepAlerts, SweepsRefine, Silent;
    if Active(e, k) && e.sweeps[k].phase.Ready? && Silent(HeadCheck(e.sweeps[k], e.sweeps[k].nowMs, Completed)) {
      var s := e.sweeps[k];
      var key := CheckKey(HeadCheck(s, s.nowMs, Completed));
      SameQuestion(s, s.nowMs, ReadFailed);
      if e.overlapped {
        Overlapped(start, SweepStep(e, k, SweepLook(k, ok)));
      } else if ok {
        PhaseRefines(start, e, k, Looked(key in e.store), e.published);
      } else {
        NoneOutstanding(start, e, k);
        Unfold(start, e);
        EndCheckRefines(start, e, k, e.store, s.nowMs, ReadFailed);
      }
    }
  }

  lemma ResumeRefines(start: Store, e: Engine, k: nat, clockMs: int)
    requires SweepsRefine(start, e)
    ensures SweepsRefine(start, SweepStep(e, k, SweepResume(k, clockMs)))
  {
    hide SweepPart, OfflineAlerts, SweepStore, SweepAlerts, SweepsRefine, Silent;
    if Active(e, k) && e.sweeps[k].phase.Looked? {
      var s := e.sweeps[k];
      SameQuestion(s, clockMs, Completed);
      if e.overlapped {
        Overlapped(start, SweepStep(e, k, SweepResume(k, clockMs)));
      } else {
        Unfold(start, e);
        assert PhaseInv(e, k);
        if s.phase.present {
          NoneOutstanding(start, e, k);
          EndCheckRefines(start, e, k, e.store, s.nowMs, Completed);
        } else {
          var alert := OfflineAlert(HeadCheck(s, clockMs, Completed));
          OfflineSnoc(e.published, true, alert);
          PhaseRefines(start, e, k, Marking(clockMs), e.published + [alert]);
        }
      }
    }
  }

  lemma MarkRefines(start: Store, e: Engine, k: nat, reply: WriteReply)
    requires SweepsRefine(start, e)
    ensures SweepsRefine(start, SweepStep(e, k, SweepMark(k, reply)))
  {
    hide SweepPart, OfflineAlerts, SweepStore, SweepAlerts, SweepsRefine, Silent;
    if Active(e, k) && e.sweeps[k].phase.Marking? {
      var s := e.sweeps[k];
      SameQuestion(s, s.phase.clockMs, OutcomeOf(reply));
      SameQuestion(s, s.phase.clockMs, Completed);
      var key := CheckKey(HeadCheck(s, s.nowMs, Completed));
      var store' := if TookEffect(reply) then e.store[key := OfflineFlag] else e.store;
      if e.overlapped {
        Overlapped(start, SweepStep(e, k, SweepMark(k, reply)));
      } else {
        Unfold(start, e);
        assert PhaseInv(e, k) && IsMarking(e, k);
        EndCheckRefines(start, e, k, store', s.phase.clockMs, OutcomeOf(reply));
      }
    }
  }

  // Adding a sweep makes no earlier sweep active.
  lemma NewestActive(e: Engine, e': Engine, k: nat)
    requires |e'.sweeps| == |e.sweeps| + 1 && e'.sweeps[..|e.sweeps|] == e.sweeps
    requires Active(e', k)
    ensures k == |e.sweeps| || Active(e, k)
  {
    if k < |e.sweeps| {
      assert e'.sweeps[..|e.sweeps|][k] == e.sweeps[k];
    }
  }

  lemma StartSweepRefines(start: Store, e: Engine, nowMs: int, pairs: seq<(ConnectivityRule, Device)>)
    requires SweepsRefine(start, e)
    ensures SweepsRefine(start, Step([], e, StartSweep(nowMs, pairs)))
  {
    hide SweepPart, OfflineAlerts, SweepStore, SweepAlerts, Silent;
    var e' := Step([], e, StartSweep(nowMs, pairs));
    if !e'.overlapped {
      assert forall k :: !Active(e, k);
      forall k | Active(e', k) ensures k == |e.sweeps| {
        NewestActive(e, e', k);
      }
      assert forall k :: !IsMarking(e, k);
    }
  }

  lemma StepSweeps(rules: seq<ThresholdRule>, start: Store, e: Engine, a: Action)
    requires SweepsRefine(start, e)
    ensures SweepsRefine(start, Step(rules, e, a))
  {
    hide SweepPart, OfflineAlerts, SweepsRefine, SweepStep, HandlerStep;
    match a {
      case Receive(t) => UnseenBySweeps(start, e, Step(rules, e, a));
      case StartSweep(nowMs, pairs) => StartSweepRefines(start, e, nowMs, pairs);
      case SweepDelete(k, reply) => DeleteRefines(start, e, k, reply);
      case SweepLook(k, ok) => LookRefines(start, e, k, ok);
      case SweepResume(k, clockMs) => ResumeRefines(start, e, k, clockMs);
      case SweepMark(k, reply) => MarkRefines(start, e, k, reply);
      case _ => HandlerUnseen(rules, e, a); UnseenBySweeps(start, e, HandlerStep(rules, e, a));
    }
  }

  /** In every run, until sweeps overlap, the sweeps are their finished checks in sequence. */
  lemma {:induction false} SweepRefinementHolds(rules: seq<ThresholdRule>, start: Store, acts: seq<Action>)
    ensures SweepsRefine(start, Exec(rules, Start(start), acts))
  {
    hide Step, SweepsRefine;
    if acts == [] {
      StartRefines(start);
    } else {
      SweepRefinementHolds(rules, start, acts[..|acts| - 1]);
      StepSweeps(rules, start, Exec(rules, Start(start), acts[..|acts| - 1]), acts[|acts| - 1]);
    }
  }

  lemma StartRefines(start: Store)
    ensures SweepsRefine(start, Start(start))
  {
    RuleEngine.SweepStart(SweepPart(start));
  }

  /**
   Offline alerts in any run whose sweeps do not overlap and whose checks hit no error: exactly the
   rising edges of silence over the finished checks, with the one still to be flagged at the end.
   */
  lemma OfflineAlertsExact(rules: seq<ThresholdRule>, start: Store, acts: seq<Action>)
    requires forall key | IsConnectivityKey(key) :: key !in start
    ensures var e := Exec(rules, Start(start), acts);
            !e.overlapped && Undisturbed(e.checked) && SafeChecks(e.checked) ==>
              && ((forall k :: !IsMarking(e, k)) ==> OfflineAlerts(e.published) == EdgeAlerts(e.checked))
              && (forall k | IsMarking(e, k) ::
                    OfflineAlerts(e.published) == EdgeAlerts(e.checked) + [OfflineAlert(Head(e, k))])
  {
    hide Exec, OfflineAlerts, SweepAlerts, EdgeAlerts, SafeChecks, Undisturbed, SweepStore, OneSweep;
    SweepRefinementHolds(rules, start, acts);
    var e := Exec(rules, Start(start), acts);
    if !e.overlapped && Undisturbed(e.checked) && SafeChecks(e.checked) {
      ConnectivityEdges(e.checked, SweepPart(start));
    }
  }
}
