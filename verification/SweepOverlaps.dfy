/**
 The sweeps when they do overlap, key by key. The connectivity alerts of a (rule, device) pair match
 its finished checks as long as no sweep misfires on its key, and a step breaks the match exactly when
 it is a misfire: a sweep resuming on a look that no longer holds, or beside another one that still has
 to set the flag.
 */
module SweepOverlaps {
  import opened Options
  import opened StoreKeys
  import opened RuleSchema
  import opened KeyValueStore
  import opened Evaluation
  import opened Connectivity
  import opened EngineSteps
  import opened SweepRefinement
  import RuleEngine

  function Question(s: Sweep): Check
    requires s.pairs != []
  {
    HeadCheck(s, s.nowMs, Completed)
  }

  /** The k-th sweep is checking the pair of this key. */
  predicate At(e: Engine, k: int, key: string) {
    Active(e, k) && CheckKey(Question(e.sweeps[k])) == key
  }

  /** It has published the alert and still has to set the flag. */
  predicate Marks(e: Engine, k: int, key: string) {
    At(e, k, key) && e.sweeps[k].phase.Marking?
  }

  function PendingAlert(e: Engine, k: int, key: string): Alert
    requires Marks(e, k, key)
  {
    OfflineAlert(HeadCheck(e.sweeps[k], e.sweeps[k].phase.clockMs, Completed))
  }

  predicate IsOn(a: Alert, key: string) {
    a.metric.Connectivity? && ConnectivityKey(a.ruleId, a.deviceId) == key
  }

  /** The offline alerts on one key, in order. */
  function AlertsOn(alerts: seq<Alert>, key: string): seq<Alert> {
    if alerts == [] then []
    else
      var init, last := alerts[..|alerts| - 1], alerts[|alerts| - 1];
      AlertsOn(init, key) + if IsOn(last, key) then [last] else []
  }

  /** The alerts on one key that the checks, one after the other, must raise. */
  function DueOn(cs: seq<Check>, start: Store, key: string): seq<Alert> {
    AlertsOn(SweepAlerts(cs, start), key)
  }

  function FlagAfter(cs: seq<Check>, start: Store, key: string): Option<Entry> {
    Lookup(SweepStore(cs, start), key)
  }

  /**
   For this key the flag and the alerts are those of the finished checks, one after the other; one
   alert more is out exactly while one sweep still has to set the flag.
   */
  ghost predicate Matches(start: Store, e: Engine, key: string) {
    && Lookup(e.store, key) == FlagAfter(e.checked, start, key)
    && (forall j, k | Marks(e, j, key) && Marks(e, k, key) :: j == k)
    && ((forall k :: !Marks(e, k, key)) ==> AlertsOn(e.published, key) == DueOn(e.checked, start, key))
    && (forall k | Marks(e, k, key) ::
          Lookup(e.store, key).None? &&
          AlertsOn(e.published, key) == DueOn(e.checked, start, key) + [PendingAlert(e, k, key)])
  }

  /** A sweep that has looked, or has to set a flag, has found its device silent. */
  ghost predicate FoundSilent(e: Engine) {
    forall k | Active(e, k) && !e.sweeps[k].phase.Ready? :: Silent(Question(e.sweeps[k]))
  }

  /** The sweep goes on from a look that no longer holds, or while another one has to set the flag. */
  ghost predicate Misfires(e: Engine, key: string, a: Action) {
    && a.SweepResume? && At(e, a.k, key) && e.sweeps[a.k].phase.Looked?
    && (e.sweeps[a.k].phase.present != Lookup(e.store, key).Some? || exists j :: Marks(e, j, key))
  }

  lemma AlertsOnSnoc(alerts: seq<Alert>, b: bool, a: Alert, key: string)
    ensures AlertsOn(alerts + if b then [a] else [], key) ==
            AlertsOn(alerts, key) + if b && IsOn(a, key) then [a] else []
  {
    if b {
      assert (alerts + [a])[..|alerts|] == alerts;
    } else {
      assert alerts + [] == alerts;
    }
  }

  /** One more finished check, seen by one key. */
  lemma DueSnoc(cs: seq<Check>, c: Check, start: Store, key: string)
    ensures DueOn(cs + [c], start, key) ==
            DueOn(cs, start, key) +
            if CheckKey(c) == key && !c.outcome.ReadFailed? && Silent(c) && FlagAfter(cs, start, key).None?
            then [OfflineAlert(c)] else []
    ensures FlagAfter(cs + [c], start, key) ==
            if CheckKey(c) != key || !TookHold(c.outcome) then FlagAfter(cs, start, key)
            else if !Silent(c) then None
            else if FlagAfter(cs, start, key).Some? then FlagAfter(cs, start, key)
            else Some(OfflineFlag)
  {
    hide AlertsOn, SweepAlerts, SweepStore, Silent;
    RuleEngine.SweepSnoc(cs, c, start);
    AlertsOnSnoc(SweepAlerts(cs, start), Reports(c, SweepStore(cs, start)), OfflineAlert(c), key);
  }

  /** Nothing a key can see has changed. */
  lemma Unseen(start: Store, e: Engine, e': Engine, key: string)
    requires Lookup(e'.store, key) == Lookup(e.store, key) && AlertsOn(e'.published, key) == AlertsOn(e.published, key)
    requires FlagAfter(e'.checked, start, key) == FlagAfter(e.checked, start, key)
    requires DueOn(e'.checked, start, key) == DueOn(e.checked, start, key)
    requires forall k :: Marks(e', k, key) <==> Marks(e, k, key)
    requires forall k | Marks(e, k, key) :: PendingAlert(e', k, key) == PendingAlert(e, k, key)
    ensures Matches(start, e', key) <==> Matches(start, e, key)
  {
    hide Lookup, AlertsOn, FlagAfter, DueOn, Marks;
  }

  /** The telemetry handler, arrivals and the start of a sweep are unseen by every connectivity key. */
  lemma HandlerOff(rules: seq<ThresholdRule>, e: Engine, a: Action, key: string)
    requires IsConnectivityKey(key)
    ensures var e' := HandlerStep(rules, e, a);
            && Lookup(e'.store, key) == Lookup(e.store, key) && AlertsOn(e'.published, key) == AlertsOn(e.published, key)
            && e'.sweeps == e.sweeps && e'.checked == e.checked
  {
    hide AlertsOn, HandlerStep, EvaluateRule, RuleKey;
    HandlerEffect(rules, e, a);
    if e.inbox.inFlight.Some? && !e.pc.Idle? && e.pc.i < |rules| {
      var rule, t := rules[e.pc.i], e.inbox.inFlight.value;
      KeySpacesDisjoint(rule.id, t.deviceId, "", "");
      AlertsOnSnoc(e.published, true, AlertFor(rule, t), key);
    }
  }

  /** A sweep at another pair's key. */
  lemma ElsewhereUnseen(start: Store, e: Engine, k: nat, a: Action, key: string)
    requires IsConnectivityKey(key) && Active(e, k) && !At(e, k, key)
    ensures Matches(start, SweepStep(e, k, a), key) <==> Matches(start, e, key)
  {
    hide AlertsOn, Silent, DueOn, FlagAfter, Matches, CheckKey;
    var s, e' := e.sweeps[k], SweepStep(e, k, a);
    var clockMs := if a.SweepResume? then a.clockMs else if s.phase.Marking? then s.phase.clockMs else s.nowMs;
    SameQuestion(s, clockMs, Completed);
    AlertsOnSnoc(e.published, true, OfflineAlert(HeadCheck(s, clockMs, Completed)), key);
    AlertKey(HeadCheck(s, clockMs, Completed), key);
    ElsewhereChecked(start, e, k, a, key);
    Unseen(start, e, e', key);
  }

  lemma AlertKey(c: Check, key: string)
    ensures IsOn(OfflineAlert(c), key) <==> CheckKey(c) == key
  {
  }

  lemma ElsewhereChecked(start: Store, e: Engine, k: nat, a: Action, key: string)
    requires Active(e, k) && !At(e, k, key)
    ensures var e' := SweepStep(e, k, a);
            && DueOn(e'.checked, start, key) == DueOn(e.checked, start, key)
            && FlagAfter(e'.checked, start, key) == FlagAfter(e.checked, start, key)
  {
    hide Silent, DueOn, FlagAfter, CheckKey;
    var e' := SweepStep(e, k, a);
    if e'.checked != e.checked {
      var c := e'.checked[|e.checked|];
      SameQuestion(e.sweeps[k], c.clockMs, c.outcome);
      DueSnoc(e.checked, c, start, key);
    }
  }

  /** A check that ends takes its own mark with it, and no other. */
  lemma EndUnmarks(e: Engine, k: nat, clockMs: int, outcome: Outcome, key: string)
    requires Active(e, k)
    ensures var e' := EndCheck(e, k, clockMs, outcome);
            && (forall j :: Marks(e', j, key) <==> Marks(e, j, key) && j != k)
            && (forall j | Marks(e', j, key) :: PendingAlert(e', j, key) == PendingAlert(e, j, key))
  {
    hide CheckKey, OfflineAlert;
  }

  /** The end of a check on this key whose sweep had no flag to set, and which demands no alert. */
  lemma QuietEnd(start: Store, e: Engine, k: nat, store': Store, c: Check, key: string)
    requires Matches(start, e, key) && At(e, k, key) && !Marks(e, k, key)
    requires c == HeadCheck(e.sweeps[k], c.clockMs, c.outcome)
    requires c.outcome.ReadFailed? || !Silent(c) || Lookup(e.store, key).Some?
    requires Lookup(store', key) == if TookHold(c.outcome) && !Silent(c) then None else Lookup(e.store, key)
    ensures Matches(start, EndCheck(e.(store := store'), k, c.clockMs, c.outcome), key)
  {
    hide Silent, DueOn, FlagAfter, AlertsOn, Marks, Lookup, PendingAlert;
    SameQuestion(e.sweeps[k], c.clockMs, c.outcome);
    DueSnoc(e.checked, c, start, key);
    var e0 := e.(store := store');
    EndUnmarks(e0, k, c.clockMs, c.outcome, key);
    SameMarks(e, e0, key);
  }

  lemma SameMarks(e: Engine, e': Engine, key: string)
    requires e'.sweeps == e.sweeps
    ensures forall k :: Marks(e', k, key) <==> Marks(e, k, key)
    ensures forall k | Marks(e, k, key) :: PendingAlert(e', k, key) == PendingAlert(e, k, key)
  {
    hide OfflineAlert, CheckKey;
  }

  lemma DeleteMatches(start: Store, e: Engine, k: nat, reply: WriteReply, key: string)
    requires Matches(start, e, key) && At(e, k, key)
    ensures Matches(start, SweepStep(e, k, SweepDelete(k, reply)), key)
  {
    hide Silent, Matches, CheckKey;
    var s := e.sweeps[k];
    if s.phase.Ready? && !Silent(Question(s)) {
      SameQuestion(s, s.nowMs, OutcomeOf(reply));
      QuietEnd(start, e, k, if TookEffect(reply) then e.store - {key} else e.store,
               HeadCheck(s, s.nowMs, OutcomeOf(reply)), key);
    }
  }

  /** A sweep enters a phase in which it has no flag to set. */
  lemma PhaseUnseen(start: Store, e: Engine, k: nat, phase: SweepPhase, key: string)
    requires Active(e, k) && !Marks(e, k, key) && !phase.Marking?
    ensures Matches(start, e.(sweeps := e.sweeps[k := e.sweeps[k].(phase := phase)]), key) <==> Matches(start, e, key)
  {
    hide DueOn, FlagAfter, AlertsOn, Lookup, OfflineAlert, Matches, CheckKey;
    Unseen(start, e, e.(sweeps := e.sweeps[k := e.sweeps[k].(phase := phase)]), key);
  }

  lemma LookMatches(start: Store, e: Engine, k: nat, ok: bool, key: string)
    requires Matches(start, e, key) && At(e, k, key)
    ensures Matches(start, SweepStep(e, k, SweepLook(k, ok)), key)
  {
    hide Silent, Matches, CheckKey;
    var s := e.sweeps[k];
    if s.phase.Ready? && Silent(Question(s)) {
      if ok {
        PhaseUnseen(start, e, k, Looked(key in e.store), key);
      } else {
        SameQuestion(s, s.nowMs, ReadFailed);
        QuietEnd(start, e, k, e.store, HeadCheck(s, s.nowMs, ReadFailed), key);
      }
    }
  }

  /** The flag goes up, or its write is lost, and the check behind the pending alert is over. */
  lemma MarkMatches(start: Store, e: Engine, k: nat, reply: WriteReply, key: string)
    requires Matches(start, e, key) && At(e, k, key) && FoundSilent(e)
    ensures Matches(start, SweepStep(e, k, SweepMark(k, reply)), key)
  {
    hide Silent, DueOn, FlagAfter, AlertsOn, CheckKey;
    var s := e.sweeps[k];
    if s.phase.Marking? {
      assert Marks(e, k, key);
      var c := HeadCheck(s, s.phase.clockMs, OutcomeOf(reply));
      SameQuestion(s, s.phase.clockMs, OutcomeOf(reply));
      DueSnoc(e.checked, c, start, key);
      var e0 := e.(store := if TookEffect(reply) then e.store[key := OfflineFlag] else e.store);
      EndUnmarks(e0, k, c.clockMs, c.outcome, key);
      SameMarks(e, e0, key);
    }
  }

  /** Resuming keeps the match exactly when the look still holds and no other sweep has a flag to set. */
  lemma ResumeExactly(start: Store, e: Engine, k: nat, clockMs: int, key: string)
    requires Matches(start, e, key) && At(e, k, key) && FoundSilent(e)
    ensures Matches(start, SweepStep(e, k, SweepResume(k, clockMs)), key) <==> !Misfires(e, key, SweepResume(k, clockMs))
  {
    hide Silent, DueOn, FlagAfter, AlertsOn, CheckKey, Matches;
    var s := e.sweeps[k];
    if s.phase.Looked? {
      assert !Marks(e, k, key);
      if s.phase.present {
        ResumePresent(start, e, k, clockMs, key);
      } else {
        ResumeAbsent(start, e, k, clockMs, key);
      }
    }
  }

  lemma ResumePresent(start: Store, e: Engine, k: nat, clockMs: int, key: string)
    requires Matches(start, e, key) && At(e, k, key) && FoundSilent(e) && e.sweeps[k].phase == Looked(true)
    ensures Matches(start, SweepStep(e, k, SweepResume(k, clockMs)), key) <==> !Misfires(e, key, SweepResume(k, clockMs))
  {
    hide Silent, DueOn, FlagAfter, AlertsOn, CheckKey;
    var s := e.sweeps[k];
    var c := Question(s);
    if Lookup(e.store, key).Some? {
      assert forall j :: !Marks(e, j, key);
      QuietEnd(start, e, k, e.store, c, key);
    } else {
      DueSnoc(e.checked, c, start, key);
    }
  }

  lemma ResumeAbsent(start: Store, e: Engine, k: nat, clockMs: int, key: string)
    requires Matches(start, e, key) && At(e, k, key) && FoundSilent(e) && e.sweeps[k].phase == Looked(false)
    ensures Matches(start, SweepStep(e, k, SweepResume(k, clockMs)), key) <==> !Misfires(e, key, SweepResume(k, clockMs))
  {
    hide Silent, DueOn, FlagAfter, AlertsOn, Lookup, OfflineAlert, Matches, CheckKey;
    var s, e' := e.sweeps[k], SweepStep(e, k, SweepResume(k, clockMs));
    var c := HeadCheck(s, clockMs, Completed);
    SameQuestion(s, clockMs, Completed);
    AlertKey(c, key);
    AlertsOnSnoc(e.published, true, OfflineAlert(c), key);
    assert Marks(e', k, key) && PendingAlert(e', k, key) == OfflineAlert(c);
    forall j | j != k
      ensures Marks(e', j, key) <==> Marks(e, j, key) {
    }
    OneMoreMark(start, e, e', k, key);
  }

  /** One more sweep that has to set the flag: right exactly if the flag is down and no other sweep has to set it. */
  lemma OneMoreMark(start: Store, e: Engine, e': Engine, k: nat, key: string)
    requires Matches(start, e, key) && !Marks(e, k, key) && Marks(e', k, key)
    requires forall j | j != k :: Marks(e', j, key) <==> Marks(e, j, key)
    requires e'.store == e.store && e'.checked == e.checked
    requires AlertsOn(e'.published, key) == AlertsOn(e.published, key) + [PendingAlert(e', k, key)]
    ensures Matches(start, e', key) <==> Lookup(e.store, key).None? && forall j :: !Marks(e, j, key)
  {
    hide DueOn, FlagAfter, AlertsOn, Marks, PendingAlert, Lookup;
  }

  lemma SweepMatchesExactly(start: Store, e: Engine, k: nat, a: Action, key: string)
    requires IsConnectivityKey(key) && Matches(start, e, key) && FoundSilent(e)
    requires a.SweepDelete? || a.SweepLook? || a.SweepResume? || a.SweepMark?
    requires a.k == k
    ensures Matches(start, SweepStep(e, k, a), key) <==> !Misfires(e, key, a)
  {
    hide Silent, Matches, FoundSilent, CheckKey, SweepStep;
    if Active(e, k) {
      if !At(e, k, key) {
        ElsewhereUnseen(start, e, k, a, key);
      } else {
        match a {
          case SweepDelete(_, reply) => DeleteMatches(start, e, k, reply, key);
          case SweepLook(_, ok) => LookMatches(start, e, k, ok, key);
          case SweepResume(_, clockMs) => ResumeExactly(start, e, k, clockMs, key);
          case SweepMark(_, reply) => MarkMatches(start, e, k, reply, key);
        }
      }
    } else {
      assert SweepStep(e, k, a) == e by { IdleSweep(e, k, a); }
    }
  }

  lemma IdleSweep(e: Engine, k: nat, a: Action)
    requires !Active(e, k)
    ensures SweepStep(e, k, a) == e
  {
  }

  /** Starting a sweep is unseen by every key: it has not looked yet. */
  lemma StartUnseen(start: Store, e: Engine, nowMs: int, pairs: seq<(ConnectivityRule, Device)>, key: string)
    ensures Matches(start, Step([], e, StartSweep(nowMs, pairs)), key) <==> Matches(start, e, key)
  {
    hide DueOn, FlagAfter, AlertsOn, Lookup, OfflineAlert, Matches, CheckKey;
    var e' := Step([], e, StartSweep(nowMs, pairs));
    forall k ensures Marks(e', k, key) <==> Marks(e, k, key) {
      if 0 <= k < |e.sweeps| { assert e'.sweeps[k] == e.sweeps[k]; }
    }
    Unseen(start, e, e', key);
  }

  /** From a state that matches, a step breaks the match exactly if it is a misfire on the key. */
  lemma MisfireExactly(rules: seq<ThresholdRule>, start: Store, e: Engine, a: Action, key: string)
    requires IsConnectivityKey(key) && Matches(start, e, key) && FoundSilent(e)
    ensures Matches(start, Step(rules, e, a), key) <==> !Misfires(e, key, a)
  {
    hide Matches, FoundSilent, SweepStep, HandlerStep, AlertsOn, DueOn, FlagAfter, Lookup;
    match a {
      case SweepDelete(k, _) => SweepMatchesExactly(start, e, k, a, key);
      case SweepLook(k, _) => SweepMatchesExactly(start, e, k, a, key);
      case SweepResume(k, _) => SweepMatchesExactly(start, e, k, a, key);
      case SweepMark(k, _) => SweepMatchesExactly(start, e, k, a, key);
      case StartSweep(nowMs, pairs) => StartUnseen(start, e, nowMs, pairs, key);
      case Receive(_) => SameMarks(e, Step(rules, e, a), key); Unseen(start, e, Step(rules, e, a), key);
      case _ =>
        HandlerOff(rules, e, a, key);
        SameMarks(e, HandlerStep(rules, e, a), key);
        Unseen(start, e, HandlerStep(rules, e, a), key);
    }
  }

  /** What a misfire does: a due alert is never raised, or an alert goes out that no check will account for. */
  lemma MisfireEffect(rules: seq<ThresholdRule>, start: Store, e: Engine, a: Action, key: string)
    requires IsConnectivityKey(key) && Matches(start, e, key) && FoundSilent(e) && Misfires(e, key, a)
    ensures var e' := Step(rules, e, a);
            if e.sweeps[a.k].phase.present then
              && e'.published == e.published
              && DueOn(e'.checked, start, key) == DueOn(e.checked, start, key) + [OfflineAlert(Question(e.sweeps[a.k]))]
            else
              && e'.checked == e.checked
              && AlertsOn(e'.published, key) ==
                 AlertsOn(e.published, key) + [OfflineAlert(HeadCheck(e.sweeps[a.k], a.clockMs, Completed))]
              && (FlagAfter(e.checked, start, key).Some? ||
                  |AlertsOn(e'.published, key)| == |DueOn(e.checked, start, key)| + 2)
  {
    hide Silent, DueOn, FlagAfter, AlertsOn, CheckKey;
    var s := e.sweeps[a.k];
    if s.phase.present {
      DueSnoc(e.checked, Question(s), start, key);
    } else {
      SameQuestion(s, a.clockMs, Completed);
      AlertKey(HeadCheck(s, a.clockMs, Completed), key);
      AlertsOnSnoc(e.published, true, OfflineAlert(HeadCheck(s, a.clockMs, Completed)), key);
    }
  }

  lemma StepFoundSilent(rules: seq<ThresholdRule>, e: Engine, a: Action)
    requires FoundSilent(e)
    ensures FoundSilent(Step(rules, e, a))
  {
    hide Silent, HandlerStep, SweepStep;
    match a {
      case SweepDelete(k, _) => SweepFoundSilent(e, k, a);
      case SweepLook(k, _) => SweepFoundSilent(e, k, a);
      case SweepResume(k, _) => SweepFoundSilent(e, k, a);
      case SweepMark(k, _) => SweepFoundSilent(e, k, a);
      case Receive(_) =>
      case StartSweep(nowMs, pairs) =>
      case _ => HandlerSweeps(rules, e, a);
    }
  }

  lemma HandlerSweeps(rules: seq<ThresholdRule>, e: Engine, a: Action)
    ensures HandlerStep(rules, e, a).sweeps == e.sweeps
  {
    hide Breaching, Fires, NextState, AlertFor;
  }

  lemma SweepFoundSilent(e: Engine, k: nat, a: Action)
    requires FoundSilent(e)
    ensures FoundSilent(SweepStep(e, k, a))
  {
    hide Silent, CheckKey, OfflineAlert;
    var e' := SweepStep(e, k, a);
    forall j | Active(e', j) && !e'.sweeps[j].phase.Ready? ensures Silent(Question(e'.sweeps[j])) {
      if j != k {
        assert e'.sweeps[j] == e.sweeps[j] && Active(e, j);
      } else {
        assert Active(e, k);
      }
    }
  }

  /** The state after the first n steps. */
  function StateAt(rules: seq<ThresholdRule>, start: Store, acts: seq<Action>, n: nat): Engine
    requires n <= |acts|
  {
    Exec(rules, Start(start), acts[..n])
  }

  ghost predicate MatchesUpTo(rules: seq<ThresholdRule>, start: Store, acts: seq<Action>, key: string, n: nat) {
    n <= |acts| && forall i: nat | i <= n :: Matches(start, StateAt(rules, start, acts, i), key)
  }

  ghost predicate NoMisfireUpTo(rules: seq<ThresholdRule>, start: Store, acts: seq<Action>, key: string, n: nat) {
    n <= |acts| && forall i: nat | i < n :: !Misfires(StateAt(rules, start, acts, i), key, acts[i])
  }

  lemma AfterStep(rules: seq<ThresholdRule>, start: Store, acts: seq<Action>, n: nat)
    requires n < |acts|
    ensures StateAt(rules, start, acts, n + 1) == Step(rules, StateAt(rules, start, acts, n), acts[n])
  {
    hide Step;
    assert acts[..n + 1][..n] == acts[..n];
  }

  lemma {:induction false} RunFoundSilent(rules: seq<ThresholdRule>, start: Store, acts: seq<Action>, n: nat)
    requires n <= |acts|
    ensures FoundSilent(StateAt(rules, start, acts, n))
  {
    if n > 0 {
      hide StateAt, FoundSilent;
      RunFoundSilent(rules, start, acts, n - 1);
      AfterStep(rules, start, acts, n - 1);
      StepFoundSilent(rules, StateAt(rules, start, acts, n - 1), acts[n - 1]);
    }
  }

  lemma StartMatches(rules: seq<ThresholdRule>, start: Store, acts: seq<Action>, key: string)
    ensures Matches(start, StateAt(rules, start, acts, 0), key)
  {
  }

  /**
   In every run, with sweeps overlapping as they may: the flag and the alerts of a key are those of its
   finished checks at every step if and only if no sweep misfires on the key.
   */
  lemma {:induction false} MatchesExactly(rules: seq<ThresholdRule>, start: Store, acts: seq<Action>, key: string, n: nat)
    requires IsConnectivityKey(key) && n <= |acts|
    ensures MatchesUpTo(rules, start, acts, key, n) <==> NoMisfireUpTo(rules, start, acts, key, n)
  {
    hide StateAt, Matches, FoundSilent, Misfires;
    if n == 0 {
      StartMatches(rules, start, acts, key);
    } else {
      MatchesExactly(rules, start, acts, key, n - 1);
      if MatchesUpTo(rules, start, acts, key, n - 1) {
        var e := StateAt(rules, start, acts, n - 1);
        RunFoundSilent(rules, start, acts, n - 1);
        assert Matches(start, e, key);
        MisfireExactly(rules, start, e, acts[n - 1], key);
        AfterStep(rules, start, acts, n - 1);
        assert NoMisfireUpTo(rules, start, acts, key, n) <==> !Misfires(e, key, acts[n - 1]);
        assert MatchesUpTo(rules, start, acts, key, n) <==> Matches(start, StateAt(rules, start, acts, n), key);
      } else {
        var i: nat :| i < n - 1 && Misfires(StateAt(rules, start, acts, i), key, acts[i]);
        assert !NoMisfireUpTo(rules, start, acts, key, n);
        var j: nat :| j <= n - 1 && !Matches(start, StateAt(rules, start, acts, j), key);
        assert !MatchesUpTo(rules, start, acts, key, n);
      }
    }
  }

  /** At most one sweep is at the key. */
  ghost predicate AloneAt(e: Engine, key: string) {
    forall j, k | At(e, j, key) && At(e, k, key) :: j == k
  }

  ghost predicate AloneUpTo(rules: seq<ThresholdRule>, start: Store, acts: seq<Action>, key: string, n: nat) {
    n <= |acts| && forall i: nat | i <= n :: AloneAt(StateAt(rules, start, acts, i), key)
  }

  /** What a sweep has read under the key still holds. */
  ghost predicate LooksHold(e: Engine, key: string) {
    forall k | At(e, k, key) && e.sweeps[k].phase.Looked? :: e.sweeps[k].phase.present == Lookup(e.store, key).Some?
  }

  /** A sweep's step elsewhere writes elsewhere. */
  lemma ElsewhereStore(e: Engine, k: nat, a: Action, key: string)
    requires !At(e, k, key)
    ensures Lookup(SweepStep(e, k, a).store, key) == Lookup(e.store, key)
  {
    hide Silent, CheckKey, OfflineAlert;
  }

  lemma SweepLooksHold(e: Engine, k: nat, a: Action, key: string)
    requires AloneAt(e, key) && LooksHold(e, key)
    ensures LooksHold(SweepStep(e, k, a), key)
  {
    hide Silent, CheckKey, OfflineAlert, Lookup, SweepStep;
    var e' := SweepStep(e, k, a);
    forall j | At(e', j, key) && e'.sweeps[j].phase.Looked?
      ensures e'.sweeps[j].phase.present == Lookup(e'.store, key).Some? {
      if j == k {
        OwnLook(e, k, a, key);
      } else {
        OtherSweeps(e, k, a, j);
        assert At(e, j, key);
        if !At(e, k, key) {
          ElsewhereStore(e, k, a, key);
        }
      }
    }
  }

  lemma OtherSweeps(e: Engine, k: nat, a: Action, j: nat)
    requires j != k && j < |SweepStep(e, k, a).sweeps|
    ensures j < |e.sweeps| && SweepStep(e, k, a).sweeps[j] == e.sweeps[j]
  {
    hide Silent, CheckKey, OfflineAlert;
  }

  lemma OwnLook(e: Engine, k: nat, a: Action, key: string)
    requires LooksHold(e, key)
    requires At(SweepStep(e, k, a), k, key) && SweepStep(e, k, a).sweeps[k].phase.Looked?
    ensures SweepStep(e, k, a).sweeps[k].phase.present == Lookup(SweepStep(e, k, a).store, key).Some?
  {
    hide Silent, OfflineAlert, CheckKey;
  }

  lemma StepLooksHold(rules: seq<ThresholdRule>, e: Engine, a: Action, key: string)
    requires IsConnectivityKey(key) && AloneAt(e, key) && LooksHold(e, key)
    ensures LooksHold(Step(rules, e, a), key)
  {
    hide Silent, CheckKey, OfflineAlert, HandlerStep, SweepStep, Lookup;
    match a {
      case SweepDelete(k, _) => SweepLooksHold(e, k, a, key);
      case SweepLook(k, _) => SweepLooksHold(e, k, a, key);
      case SweepResume(k, _) => SweepLooksHold(e, k, a, key);
      case SweepMark(k, _) => SweepLooksHold(e, k, a, key);
      case Receive(_) =>
      case StartSweep(nowMs, pairs) =>
      case _ => HandlerOff(rules, e, a, key);
    }
  }

  lemma {:induction false} RunLooksHold(rules: seq<ThresholdRule>, start: Store, acts: seq<Action>, key: string, n: nat)
    requires IsConnectivityKey(key) && AloneUpTo(rules, start, acts, key, n)
    ensures LooksHold(StateAt(rules, start, acts, n), key)
  {
    if n > 0 {
      hide StateAt, LooksHold, AloneAt;
      RunLooksHold(rules, start, acts, key, n - 1);
      AfterStep(rules, start, acts, n - 1);
      assert AloneAt(StateAt(rules, start, acts, n - 1), key);
      StepLooksHold(rules, StateAt(rules, start, acts, n - 1), acts[n - 1], key);
    }
  }

  lemma AloneNoMisfire(e: Engine, a: Action, key: string)
    requires AloneAt(e, key) && LooksHold(e, key)
    ensures !Misfires(e, key, a)
  {
    hide CheckKey, Lookup;
  }

  /** Overlapping sweeps are harmless to a key that no two of them are at, at one time. */
  lemma OverlapElsewhere(rules: seq<ThresholdRule>, start: Store, acts: seq<Action>, key: string)
    requires IsConnectivityKey(key) && AloneUpTo(rules, start, acts, key, |acts|)
    ensures Matches(start, Exec(rules, Start(start), acts), key)
  {
    hide Exec, Matches, AloneAt, LooksHold, Misfires;
    forall i: nat | i < |acts| ensures !Misfires(StateAt(rules, start, acts, i), key, acts[i]) {
      assert AloneUpTo(rules, start, acts, key, i);
      RunLooksHold(rules, start, acts, key, i);
      AloneNoMisfire(StateAt(rules, start, acts, i), acts[i], key);
    }
    MatchesExactly(rules, start, acts, key, |acts|);
    assert acts[..|acts|] == acts;
    assert Matches(start, StateAt(rules, start, acts, |acts|), key);
  }

  lemma EdgesOnKey(start: Store, e: Engine, key: string)
    requires Matches(start, e, key) && Undisturbed(e.checked) && SafeChecks(e.checked)
    requires forall k | IsConnectivityKey(k) :: k !in start
    ensures (forall k :: !Marks(e, k, key)) ==> AlertsOn(e.published, key) == AlertsOn(EdgeAlerts(e.checked), key)
    ensures forall k | Marks(e, k, key) ::
              AlertsOn(e.published, key) == AlertsOn(EdgeAlerts(e.checked), key) + [PendingAlert(e, k, key)]
  {
    hide AlertsOn, SweepAlerts, EdgeAlerts, Undisturbed, SafeChecks, PendingAlert, Marks;
    ConnectivityEdges(e.checked, start);
  }

  /**
   A pair's offline alerts in any run without a misfire on its key and without failed checks: exactly
   the rising edges of its silence, and the one whose flag is still to be set.
   */
  lemma OfflineAlertsOnKey(rules: seq<ThresholdRule>, start: Store, acts: seq<Action>, key: string)
    requires IsConnectivityKey(key) && NoMisfireUpTo(rules, start, acts, key, |acts|)
    requires forall k | IsConnectivityKey(k) :: k !in start
    ensures var e := Exec(rules, Start(start), acts);
            Undisturbed(e.checked) && SafeChecks(e.checked) ==>
              && ((forall k :: !Marks(e, k, key)) ==> AlertsOn(e.published, key) == AlertsOn(EdgeAlerts(e.checked), key))
              && forall k | Marks(e, k, key) ::
                   AlertsOn(e.published, key) == AlertsOn(EdgeAlerts(e.checked), key) + [PendingAlert(e, k, key)]
  {
    hide Exec, Matches, AlertsOn, EdgeAlerts, Undisturbed, SafeChecks, PendingAlert, Marks;
    MatchesExactly(rules, start, acts, key, |acts|);
    assert acts[..|acts|] == acts;
    var e := Exec(rules, Start(start), acts);
    assert Matches(start, StateAt(rules, start, acts, |acts|), key);
    if Undisturbed(e.checked) && SafeChecks(e.checked) {
      EdgesOnKey(start, e, key);
    }
  }
}
