/**
 When a registration can come to consume twice on one channel: exactly after a set-up has started
 beside another one that will still ask for the same registration there. That happens in two ways: a
 registration finds the channel while the loop over the registrations runs, or a new channel is put in
 place while a set-up still has a call to make.
 */
module RabbitDoubling {
  import opened Options
  import opened RabbitConnection
  import opened RabbitSubscriptions

  /** The attempt's next answer puts its channel in place. */
  predicate AboutToAssign(s: Client, i: nat) {
    && i < |s.running| && s.running[i].stage.Opening? && s.running[i].stage.call >= LAST_OPENING_CALL
    && Answerable(s, s.running[i].stage.conn)
  }

  /** The step starts a set-up beside another one. */
  predicate SetsUpBeside(s: Client, a: Action) {
    match a
    case Consume => RegistersBeside(s)
    case Advance(i) => AboutToAssign(s, i) && PlacesBeside(s, s.running[i].stage.conn)
    case _ => false
  }

  /** No step of the run starts a set-up beside another one. */
  predicate Calm(s: Client, acts: seq<Action>) {
    acts == [] || (Calm(s, acts[..|acts| - 1]) && !SetsUpBeside(Exec(s, acts[..|acts| - 1]), acts[|acts| - 1]))
  }

  /** A registration can end up consuming twice on one channel without any further set-up starting beside another. */
  ghost predicate CanDouble(s: Client) {
    exists acts :: Calm(s, acts) && !Distinct(Exec(s, acts).subscribed)
  }

  lemma OverlapRaised(s: Client, a: Action)
    ensures Step(s, a).overlap <==> s.overlap || SetsUpBeside(s, a)
  {
    hide Without, NextConsumer, Fail, PlacesBeside, RegistersBeside;
    match a {
      case Advance(i) =>
        if i < |s.running| {
          SameOverlap(s, i, 0);
          match s.running[i].stage {
            case Connecting =>
            case Opening(conn, _) => SameOverlap(AssignChannel(s, conn), i, 0);
            case SettingUp(on, next, _) => SameOverlap(Subscribe(s, next, on), i, next + 1);
          }
        }
      case Reject(i) => if i < |s.running| { SameOverlap(s, i, 0); }
      case Consume => UnusableAlone(s);
      case _ =>
    }
  }

  lemma UnusableAlone(s: Client)
    ensures !Usable(s) ==> !RegistersBeside(s)
  {
  }

  /** The history field of the model says just this. */
  lemma {:induction false} OverlapIsNotCalm(s: Client, acts: seq<Action>)
    ensures Exec(s, acts).overlap <==> s.overlap || !Calm(s, acts)
  {
    hide Step, SetsUpBeside;
    if acts != [] {
      OverlapIsNotCalm(s, acts[..|acts| - 1]);
      OverlapRaised(Exec(s, acts[..|acts| - 1]), acts[|acts| - 1]);
    }
  }

  lemma {:induction false} CalmAppend(s: Client, a: seq<Action>, b: seq<Action>)
    ensures Calm(s, a + b) <==> Calm(s, a) && Calm(Exec(s, a), b)
  {
    hide SetsUpBeside, Exec;
    if b == [] {
      assert a + b == a;
    } else {
      CalmAppend(s, a, b[..|b| - 1]);
      ExecAppend(s, a, b[..|b| - 1]);
      assert (a + b)[..|a + b| - 1] == a + b[..|b| - 1];
    }
  }

  /** Only registrations and attempts that open a channel are not quiet. */
  predicate Quiet(s: Client, a: Action) {
    !a.Consume? && !(a.Advance? && a.i < |s.running| && s.running[a.i].stage.Opening?)
  }

  /** A run of quiet steps. */
  predicate AllQuiet(s: Client, acts: seq<Action>) {
    acts == [] || (AllQuiet(s, acts[..|acts| - 1]) && Quiet(Exec(s, acts[..|acts| - 1]), acts[|acts| - 1]))
  }

  lemma {:induction false} QuietIsCalm(s: Client, acts: seq<Action>)
    requires AllQuiet(s, acts)
    ensures Calm(s, acts)
  {
    if acts != [] {
      hide Exec;
      QuietIsCalm(s, acts[..|acts| - 1]);
    }
  }

  lemma {:induction false} QuietAppend(s: Client, a: seq<Action>, b: seq<Action>)
    ensures AllQuiet(s, a + b) <==> AllQuiet(s, a) && AllQuiet(Exec(s, a), b)
  {
    hide Quiet, Exec;
    if b == [] {
      assert a + b == a;
    } else {
      QuietAppend(s, a, b[..|b| - 1]);
      ExecAppend(s, a, b[..|b| - 1]);
      assert (a + b)[..|a + b| - 1] == a + b[..|b| - 1];
    }
  }

  /** A quiet step, and a quiet run from there. */
  lemma Prepend(s: Client, a: Action, rest: seq<Action>)
    requires Quiet(s, a) && AllQuiet(Step(s, a), rest)
    ensures AllQuiet(s, [a] + rest) && Exec(s, [a] + rest) == Exec(Step(s, a), rest)
  {
    hide Step, Quiet;
    assert [a][..0] == [];
    assert Exec(s, [a]) == Step(s, a);
    QuietAppend(s, [a], rest);
    ExecAppend(s, [a], rest);
  }

  lemma EmptyRun(s: Client)
    ensures AllQuiet(s, []) && Calm(s, []) && Exec(s, []) == s
  {
  }

  /** Where the attempt stands does not matter to what comes next. */
  lemma SameNext(s: Client, i: nat, stage: Stage, next: nat)
    requires i < |s.running| && Usable(s)
    ensures NextConsumer(s.(running := s.running[i := s.running[i].(stage := stage)]), i, next) == NextConsumer(s, i, next)
  {
    var moved := s.running[i := s.running[i].(stage := stage)];
    assert Without(moved, i) == Without(s.running, i);
    assert s.channel.Some?;
    assert moved[i := moved[i].(stage := SettingUp(s.channel.value, next, 0))] ==
           s.running[i := s.running[i].(stage := SettingUp(s.channel.value, next, 0))];
  }

  /** Where the set-up's subscribing call goes out: where it is out already, or on the channel there is. */
  function Target(s: Client, on: nat, call: nat): nat
    requires s.channel.Some?
  {
    if call >= LAST_SETUP_CALL then on else s.channel.value
  }

  /** The calls left of one registration's set-up in the loop can all be answered. */
  lemma {:induction false} FinishRegistration(s: Client, i: nat, on: nat, next: nat, call: nat) returns (acts: seq<Action>)
    requires i < |s.running| && s.running[i].stage == SettingUp(on, next, call) && on in s.live && Usable(s)
    ensures AllQuiet(s, acts)
    ensures Exec(s, acts) == NextConsumer(Record(s, Subscription(next, Target(s, on, call))), i, next + 1)
    decreases LAST_SETUP_CALL - call
  {
    hide NextConsumer, Fail, Exec, AllQuiet;
    EmptyRun(Step(s, Advance(i)));
    if call >= LAST_SETUP_CALL {
      Prepend(s, Advance(i), []);
      acts := [Advance(i)] + [];
    } else {
      var c := s.channel.value;
      var stage := SettingUp(c, next, call + 1);
      var s' := s.(running := s.running[i := s.running[i].(stage := stage)]);
      assert Step(s, Advance(i)) == s';
      var rest := FinishRegistration(s', i, c, next, call + 1);
      Prepend(s, Advance(i), rest);
      acts := [Advance(i)] + rest;
      SameNext(Record(s, Subscription(next, c)), i, stage, next + 1);
    }
  }

  /** Registrations in a row, all on one connection. */
  function Row(from: nat, to: nat, on: nat): seq<Subscription>
    requires from <= to
  {
    seq(to - from, k requires 0 <= k => Subscription(from + k, on))
  }

  function RecordAll(s: Client, xs: seq<Subscription>): Client {
    s.(subscribed := s.subscribed + xs)
  }

  /** The loop can run up to any registration. */
  lemma {:induction false} RunLoop(s: Client, i: nat, on: nat, next: nat, call: nat, target: nat) returns (acts: seq<Action>)
    requires i < |s.running| && s.running[i].stage == SettingUp(on, next, call) && on in s.live && Usable(s)
    requires next <= target < s.consumers
    ensures AllQuiet(s, acts)
    ensures Exec(s, acts) ==
            NextConsumer(RecordAll(s, [Subscription(next, Target(s, on, call))] + Row(next + 1, target + 1, s.channel.value)),
                         i, target + 1)
    decreases target - next
  {
    hide Exec, AllQuiet, Without;
    var first := FinishRegistration(s, i, on, next, call);
    var x, c := Subscription(next, Target(s, on, call)), s.channel.value;
    if next == target {
      assert [x] + Row(next + 1, target + 1, c) == [x];
      acts := first;
    } else {
      var stage := SettingUp(c, next + 1, 0);
      var s' := Record(s, x).(running := s.running[i := s.running[i].(stage := stage)]);
      assert Exec(s, first) == s';
      var rest := RunLoop(s', i, c, next + 1, 0, target);
      QuietAppend(s, first, rest);
      ExecAppend(s, first, rest);
      acts := first + rest;
      RowGrows(s, x, next, target, c);
      SameNext(RecordAll(s, [x] + Row(next + 1, target + 1, c)), i, stage, target + 1);
    }
  }

  lemma RowGrows(s: Client, x: Subscription, next: nat, target: nat, c: nat)
    requires next < target
    ensures (s.subscribed + [x]) + ([Subscription(next + 1, c)] + Row(next + 2, target + 1, c)) ==
            s.subscribed + ([x] + Row(next + 1, target + 1, c))
  {
    assert [Subscription(next + 1, c)] + Row(next + 2, target + 1, c) == Row(next + 1, target + 1, c);
  }

  /** A registration setting itself up can finish. */
  lemma {:induction false} FinishTask(s: Client, k: nat, index: nat, call: nat, on: nat) returns (acts: seq<Action>)
    requires k < |s.tasks| && s.tasks[k] == Task(index, call, on) && on in s.live && Usable(s)
    ensures AllQuiet(s, acts)
    ensures Exec(s, acts) ==
            s.(tasks := Without(s.tasks, k), subscribed := s.subscribed + [Subscription(index, Target(s, on, call))])
    decreases LAST_SETUP_CALL - call
  {
    hide Exec, AllQuiet;
    EmptyRun(Step(s, TaskAdvances(k)));
    if call >= LAST_SETUP_CALL {
      Prepend(s, TaskAdvances(k), []);
      acts := [TaskAdvances(k)] + [];
    } else {
      var c := s.channel.value;
      var moved := s.tasks[k := Task(index, call + 1, c)];
      var s' := s.(tasks := moved);
      assert Step(s, TaskAdvances(k)) == s';
      var rest := FinishTask(s', k, index, call + 1, c);
      Prepend(s, TaskAdvances(k), rest);
      acts := [TaskAdvances(k)] + rest;
      assert Without(moved, k) == Without(s.tasks, k);
    }
  }

  lemma TwiceIsDouble<T>(xs: seq<T>, x: T)
    requires x in xs
    ensures !Distinct(xs + [x])
  {
    var i :| 0 <= i < |xs| && xs[i] == x;
    assert (xs + [x])[i] == (xs + [x])[|xs|];
  }

  lemma SubscribedByNext(s: Client, i: nat, next: nat)
    requires i < |s.running|
    ensures var r := NextConsumer(s, i, next);
            r.subscribed == s.subscribed && r.tasks == s.tasks && r.channel == s.channel && r.live == s.live && r.consumers == s.consumers
  {
    hide Succeed, Fail;
    LeaveFrame(s, i);
  }

  /** What a loop that has run up to a registration leaves: it is there, and the other set-ups are where they were. */
  lemma LoopReaches(s: Client, i: nat, on: nat, next: nat, call: nat, target: nat) returns (acts: seq<Action>)
    requires i < |s.running| && s.running[i].stage == SettingUp(on, next, call) && on in s.live && Usable(s)
    requires next <= target < s.consumers && (next == target ==> call < LAST_SETUP_CALL)
    ensures AllQuiet(s, acts)
    ensures var s' := Exec(s, acts);
            && s.subscribed <= s'.subscribed && Subscription(target, s.channel.value) in s'.subscribed
            && s'.tasks == s.tasks && s'.channel == s.channel && s'.live == s.live && s'.consumers == s.consumers
            && forall j | 0 <= j < |s.running| && j != i :: s.running[j] in s'.running
  {
    hide Exec, AllQuiet, NextConsumer;
    acts := RunLoop(s, i, on, next, call, target);
    var c := s.channel.value;
    var xs := [Subscription(next, Target(s, on, call))] + Row(next + 1, target + 1, c);
    SubscribedByNext(RecordAll(s, xs), i, target + 1);
    assert xs[target - next] == Subscription(target, c);
    var s' := Exec(s, acts);
    forall j | 0 <= j < |s.running| && j != i ensures s.running[j] in s'.running {
      var j' := KeepsOthers(RecordAll(s, xs), i, target + 1, j);
      assert s'.running[j'] == s.running[j];
    }
  }

  /** The loop of one attempt moves no other attempt, except up in the list. */
  lemma KeepsOthers(s: Client, i: nat, next: nat, j: nat) returns (j': nat)
    requires i < |s.running| && j < |s.running| && j != i && Usable(s)
    ensures j' < |NextConsumer(s, i, next).running| && NextConsumer(s, i, next).running[j'] == s.running[j]
  {
    j' := if next >= s.consumers && j > i then j - 1 else j;
  }

  /** The loop reaches a registration that its own set-up will still ask for, and then that set-up ends as well. */
  lemma LoopThenTask(s: Client, i: nat, on: nat, next: nat, call: nat, k: nat)
    requires i < |s.running| && s.running[i].stage == SettingUp(on, next, call) && on in s.live && Usable(s)
    requires k < |s.tasks| && TaskBusy(s, s.tasks[k]) && next <= s.tasks[k].index < s.consumers
    requires next == s.tasks[k].index ==> call < LAST_SETUP_CALL
    ensures CanDouble(s)
  {
    hide Exec, Calm, AllQuiet, Without, Distinct;
    var t, x := s.tasks[k], Subscription(s.tasks[k].index, s.channel.value);
    var loop := LoopReaches(s, i, on, next, call, t.index);
    var s1 := Exec(s, loop);
    var task := FinishTask(s1, k, t.index, t.call, t.on);
    QuietAppend(s, loop, task);
    ExecAppend(s, loop, task);
    QuietIsCalm(s, loop + task);
    TwiceIsDouble(s1.subscribed, x);
    assert Calm(s, loop + task);
  }

  /** The loop of one attempt reaches the registration that another one's will still ask for, and that one goes on as well. */
  lemma LoopThenLoop(s: Client, i: nat, on: nat, j: nat)
    requires i < |s.running| && j < |s.running| && j != i && Usable(s) && on in s.live
    requires s.running[i].stage == SettingUp(on, 0, 0)
    requires LoopBusy(s, s.running[j].stage) && s.running[j].stage.next < s.consumers
    ensures CanDouble(s)
  {
    hide Exec, Calm, AllQuiet, Without, Distinct, NextConsumer;
    var other, c := s.running[j].stage, s.channel.value;
    var n := if other.call < LAST_SETUP_CALL then other.next else other.next + 1;
    var loop := LoopReaches(s, i, on, 0, 0, n);
    var s1 := Exec(s, loop);
    var j' :| 0 <= j' < |s1.running| && s1.running[j'] == s.running[j];
    var more := RunLoop(s1, j', other.on, other.next, other.call, n);
    QuietAppend(s, loop, more);
    ExecAppend(s, loop, more);
    QuietIsCalm(s, loop + more);
    var xs := [Subscription(other.next, Target(s1, other.on, other.call))] + Row(other.next + 1, n + 1, c);
    SubscribedByNext(RecordAll(s1, xs), j', n + 1);
    assert xs == xs[..|xs| - 1] + [Subscription(n, c)];
    assert s1.subscribed + xs == (s1.subscribed + xs[..|xs| - 1]) + [Subscription(n, c)];
    TwiceIsDouble(s1.subscribed + xs[..|xs| - 1], Subscription(n, c));
    assert Calm(s, loop + more);
  }

  /** Whatever the state, a set-up that starts beside another one can lead to a registration consuming twice. */
  lemma BesideCanDouble(s: Client, a: Action)
    requires InRange(s) && SetsUpBeside(s, a)
    ensures CanDouble(Step(s, a))
  {
    hide CanDouble;
    if a.Consume? {
      RegisterCanDouble(s);
    } else {
      PlaceCanDouble(s, a.i);
    }
  }

  lemma RegisterCanDouble(s: Client)
    requires InRange(s) && RegistersBeside(s)
    ensures CanDouble(Register(s))
  {
    hide CanDouble;
    var s' := Register(s);
    var j :| 0 <= j < |s.running| && s.running[j].stage.SettingUp? && s.running[j].stage.on in s.live;
    var stage := s.running[j].stage;
    assert s.running[j] in s.running;
    assert s'.tasks[|s.tasks|] == Task(s.consumers, 0, s.channel.value);
    LoopThenTask(s', j, stage.on, stage.next, stage.call, |s.tasks|);
  }

  lemma PlaceCanDouble(s: Client, i: nat)
    requires InRange(s) && AboutToAssign(s, i) && PlacesBeside(s, s.running[i].stage.conn)
    ensures CanDouble(Step(s, Advance(i)))
  {
    hide CanDouble, Succeed, Fail;
    var conn := s.running[i].stage.conn;
    var s' := Step(s, Advance(i));
    if k :| 0 <= k < |s.tasks| && TaskBusy(s, s.tasks[k]) {
      assert s.tasks[k] in s.tasks;
      assert s'.running[i].stage == SettingUp(conn, 0, 0) && s'.tasks == s.tasks;
      LoopThenTask(s', i, conn, 0, 0, k);
    } else {
      var j :| 0 <= j < |s.running| && LoopBusy(s, s.running[j].stage);
      assert s.running[j] in s.running;
      assert s'.running[i].stage == SettingUp(conn, 0, 0) && s'.running[j] == s.running[j];
      LoopThenLoop(s', i, conn, j);
    }
  }

  /** After a calm run, and a step that is calm as well, no calm continuation doubles a registration. */
  lemma CalmCannotDouble(acts: seq<Action>, a: Action, more: seq<Action>)
    requires Calm(Start(), acts) && !SetsUpBeside(Exec(Start(), acts), a)
    requires Calm(Step(Exec(Start(), acts), a), more)
    ensures Distinct(Exec(Step(Exec(Start(), acts), a), more).subscribed)
  {
    hide Step, Start, Distinct, SetsUpBeside, Subscriptions;
    var all := acts + [a];
    assert all[..|acts|] == acts;
    assert Exec(Start(), all) == Step(Exec(Start(), acts), a) && Calm(Start(), all);
    CalmAppend(Start(), all, more);
    ExecAppend(Start(), all, more);
    OverlapIsNotCalm(Start(), all + more);
    NoOverlapAtStart();
    SubscribedOnce(all + more);
  }

  lemma NoOverlapAtStart()
    ensures !Start().overlap
  {
  }

  lemma RunInRange(acts: seq<Action>)
    ensures InRange(Exec(Start(), acts))
  {
    hide Exec, InRange, Fresh, Distinct;
    SubscribedOnce(acts);
  }

  /**
   After any run in which no set-up has started beside another one, for any number of registrations: a
   step makes it possible that one of them consumes twice on one channel exactly if it starts a set-up
   beside another.
   */
  lemma DoublingExactly(acts: seq<Action>, a: Action)
    requires Calm(Start(), acts)
    ensures CanDouble(Step(Exec(Start(), acts), a)) <==> SetsUpBeside(Exec(Start(), acts), a)
  {
    hide Step, Start, Distinct, SetsUpBeside, InRange, Exec, Calm;
    var s := Exec(Start(), acts);
    if SetsUpBeside(s, a) {
      RunInRange(acts);
      BesideCanDouble(s, a);
    } else if CanDouble(Step(s, a)) {
      var more :| Calm(Step(s, a), more) && !Distinct(Exec(Step(s, a), more).subscribed);
      CalmCannotDouble(acts, a, more);
    }
  }

  // Both sides of the second guard are reached.

  lemma PrependCalm(s: Client, a: Action, rest: seq<Action>)
    requires !SetsUpBeside(s, a) && Calm(Step(s, a), rest)
    ensures Calm(s, [a] + rest) && Exec(s, [a] + rest) == Exec(Step(s, a), rest)
  {
    hide Step, SetsUpBeside;
    assert [a][..0] == [];
    assert Exec(s, [a]) == Step(s, a);
    CalmAppend(s, [a], rest);
    ExecAppend(s, [a], rest);
  }

  /** The connection is there. */
  lemma ConnectCall(s: Client)
    requires s.running == [Attempt(Retry, Connecting, false)]
    ensures Step(s, Advance(0)) ==
            s.(running := [Attempt(Retry, Opening(s.dialled, 0), false)], live := s.live + {s.dialled}, dialled := s.dialled + 1)
    ensures !SetsUpBeside(s, Advance(0))
  {
    hide NextConsumer, Fail, AssignChannel;
  }

  /** One call up to the channel is answered. */
  lemma OpenCall(s: Client, conn: nat, call: nat)
    requires |s.running| == 1 && s.running[0].stage == Opening(conn, call) && call < LAST_OPENING_CALL && conn in s.live
    ensures Step(s, Advance(0)) == s.(running := [s.running[0].(stage := Opening(conn, call + 1))])
    ensures !SetsUpBeside(s, Advance(0))
  {
    hide NextConsumer, Fail, AssignChannel;
  }

  /** A retry's timer fires, and all calls before the one that gives it its channel are answered. */
  function OpenRun(): seq<Action> {
    [TimerFires] + ([Advance(0)] + ([Advance(0)] + ([Advance(0)] + [])))
  }

  lemma RetryOpens(s: Client)
    requires s.running == [] && s.timers == 1 && !s.closing
    ensures Calm(s, OpenRun())
    ensures Exec(s, OpenRun()) ==
            s.(timers := 0, running := [Attempt(Retry, Opening(s.dialled, 2), false)],
               live := s.live + {s.dialled}, dialled := s.dialled + 1)
  {
    hide Exec, Calm, Step, SetsUpBeside;
    var s1 := s.(timers := 0, running := [Attempt(Retry, Connecting, false)]);
    var s2 := s1.(running := [Attempt(Retry, Opening(s.dialled, 0), false)], live := s.live + {s.dialled}, dialled := s.dialled + 1);
    var s3 := s2.(running := [Attempt(Retry, Opening(s.dialled, 1), false)]);
    var s4 := s2.(running := [Attempt(Retry, Opening(s.dialled, 2), false)]);
    TimerCall(s);
    ConnectCall(s1);
    OpenCall(s2, s.dialled, 0);
    OpenCall(s3, s.dialled, 1);
    EmptyRun(s4);
    PrependCalm(s3, Advance(0), []);
    PrependCalm(s2, Advance(0), [Advance(0)] + []);
    PrependCalm(s1, Advance(0), [Advance(0)] + ([Advance(0)] + []));
    PrependCalm(s, TimerFires, [Advance(0)] + ([Advance(0)] + ([Advance(0)] + [])));
  }

  lemma TimerCall(s: Client)
    requires s.running == [] && s.timers == 1 && !s.closing
    ensures Step(s, TimerFires) == s.(timers := 0, running := [Attempt(Retry, Connecting, false)])
    ensures !SetsUpBeside(s, TimerFires)
  {
  }

  /** The channel is there, and there is nothing to set up. */
  lemma ChannelCall(s: Client, conn: nat)
    requires s.running == [Attempt(Retry, Opening(conn, LAST_OPENING_CALL), false)] && conn in s.live
    requires s.consumers == 0 && s.tasks == []
    ensures var s' := Step(s, Advance(0));
            && s'.channel == Some(conn) && s'.running == [] && !s'.reconnecting && s'.timers == s.timers && s'.live == s.live
            && s'.dialled == s.dialled && s'.consumers == 0 && s'.tasks == [] && s'.closing == s.closing
            && s'.subscribed == s.subscribed
    ensures !SetsUpBeside(s, Advance(0))
  {
    hide Fail;
  }

  /** The first attempt fails and leaves its connection behind; the retry gets a channel on a second one. */
  function RetryRun(): seq<Action> {
    [Advance(0)] + ([Reject(0)] + (OpenRun() + ([Advance(0)] + [])))
  }

  lemma RetryGetsChannel(s: Client)
    requires s.channel.None? && s.running == [Attempt(Initial, Connecting, false)] && s.timers == 0
    requires s.live == {} && s.dialled == 0 && s.consumers == 0 && s.tasks == [] && !s.closing && !s.reconnecting
    requires s.subscribed == []
    ensures Calm(s, RetryRun())
    ensures var e := Exec(s, RetryRun());
            && e.channel == Some(1) && e.running == [] && e.timers == 0 && e.live == {0, 1} && e.subscribed == []
            && e.dialled == 2 && e.consumers == 0 && e.tasks == [] && !e.closing && !e.reconnecting
  {
    hide Exec, Calm, NextConsumer, OpenRun, PlacesBeside;
    var s1 := s.(running := [Attempt(Initial, Opening(0, 0), false)], live := {0}, dialled := 1);
    var s2 := s1.(running := [], reconnecting := true, timers := 1);
    assert Step(s, Advance(0)) == s1;
    assert Step(s1, Reject(0)) == s2;
    RetryOpens(s2);
    var s3 := Exec(s2, OpenRun());
    ChannelCall(s3, 1);
    EmptyRun(Step(s3, Advance(0)));
    PrependCalm(s3, Advance(0), []);
    CalmAppend(s2, OpenRun(), [Advance(0)] + []);
    ExecAppend(s2, OpenRun(), [Advance(0)] + []);
    PrependCalm(s1, Reject(0), OpenRun() + ([Advance(0)] + []));
    PrependCalm(s, Advance(0), [Reject(0)] + (OpenRun() + ([Advance(0)] + [])));
  }

  /** The leftover connection closes, and a retry is about to put a channel in place on a third one. */
  lemma LeftoverCloses(s: Client)
    requires s.channel == Some(1) && s.running == [] && s.timers == 0 && !s.closing && !s.reconnecting
    requires s.live == {0, 1} && s.dialled == 2 && forall x | x in s.subscribed :: x.on == 1
    ensures Calm(s, [CloseEvent(0)] + OpenRun())
    ensures var e := Exec(s, [CloseEvent(0)] + OpenRun());
            && e.channel.None? && e.running == [Attempt(Retry, Opening(2, 2), false)] && e.live == {1, 2}
            && e.tasks == s.tasks && e.consumers == s.consumers && e.subscribed == s.subscribed
  {
    hide Exec, Calm, OpenRun, SetsUpBeside, Elsewhere;
    var s1 := s.(channel := None, live := {1}, reconnecting := true, timers := 1);
    NoneElsewhere(s.subscribed, 0);
    assert Step(s, CloseEvent(0)) == s1;
    RetryOpens(s1);
    CloseIsCalm(s, 0);
    PrependCalm(s, CloseEvent(0), OpenRun());
    assert {1} + {2} == {1, 2};
  }

  lemma CloseIsCalm(s: Client, conn: nat)
    ensures !SetsUpBeside(s, CloseEvent(conn))
  {
  }

  lemma {:induction false} NoneElsewhere(xs: seq<Subscription>, conn: nat)
    requires forall x | x in xs :: x.on != conn
    ensures Elsewhere(xs, conn) == xs
  {
    if xs != [] {
      NoneElsewhere(xs[..|xs| - 1], conn);
    }
  }

  /** A registration finds the channel of a retry on connection 1. */
  lemma RegistrationFinds(s: Client)
    requires s.channel == Some(1) && s.running == [] && s.live == {0, 1} && s.consumers == 0 && s.tasks == []
    ensures Step(s, Consume) == s.(consumers := 1, tasks := [Task(0, 0, 1)]) && !SetsUpBeside(s, Consume)
  {
  }

  /** The second way of starting a set-up beside another: the registration is still at its first call. */
  function SecondWay(): seq<Action> {
    RetryRun() + ([Consume] + ([CloseEvent(0)] + OpenRun()))
  }

  /**
   It is reached without any loop: a registration finds a channel, the connection a failed attempt left
   behind closes, and the retry puts a new channel in place.
   */
  lemma SecondWayReached()
    ensures Calm(Start(), SecondWay()) && SetsUpBeside(Exec(Start(), SecondWay()), Advance(0))
    ensures CanDouble(Step(Exec(Start(), SecondWay()), Advance(0)))
    ensures forall j | 0 <= j < |Exec(Start(), SecondWay()).running| :: !Exec(Start(), SecondWay()).running[j].stage.SettingUp?
  {
    hide Exec, Calm, RetryRun, OpenRun, CanDouble, Step;
    var tail := [Consume] + ([CloseEvent(0)] + OpenRun());
    RetryGetsChannel(Start());
    var s := Exec(Start(), RetryRun());
    RegistrationFinds(s);
    LeftoverCloses(Step(s, Consume));
    PrependCalm(s, Consume, [CloseEvent(0)] + OpenRun());
    CalmAppend(Start(), RetryRun(), tail);
    ExecAppend(Start(), RetryRun(), tail);
    var e := Exec(Start(), SecondWay());
    assert TaskBusy(e, e.tasks[0]);
    DoublingExactly(SecondWay(), Advance(0));
  }

  /** The same run, but the registration's subscribing call is out on connection 1 when the new channel comes. */
  function SentBefore(): seq<Action> {
    RetryRun() + ([Consume] + (OwnCalls() + ([CloseEvent(0)] + OpenRun())))
  }

  function OwnCalls(): seq<Action> {
    [TaskAdvances(0), TaskAdvances(0), TaskAdvances(0), TaskAdvances(0), TaskAdvances(0)]
  }

  lemma {:induction false} OwnCallsQuiet(s: Client, acts: seq<Action>)
    requires forall a | a in acts :: a.TaskAdvances?
    ensures AllQuiet(s, acts)
  {
    if acts != [] {
      assert acts[|acts| - 1] in acts;
      OwnCallsQuiet(s, acts[..|acts| - 1]);
    }
  }

  /** That call is not repeated on the new channel: no registration can then consume twice on one channel. */
  lemma SentCallIsHarmless()
    ensures var s := Exec(Start(), SentBefore());
            && Calm(Start(), SentBefore()) && AboutToAssign(s, 0) && s.tasks == [Task(0, LAST_SETUP_CALL, 1)]
            && s.running == [Attempt(Retry, Opening(2, LAST_OPENING_CALL), false)] && s.live == {1, 2}
            && !CanDouble(Step(s, Advance(0)))
  {
    hide Exec, Calm, RetryRun, OpenRun, CanDouble, Step, AllQuiet;
    var calls, last := OwnCalls() + ([CloseEvent(0)] + OpenRun()), [CloseEvent(0)] + OpenRun();
    RetryGetsChannel(Start());
    var s := Exec(Start(), RetryRun());
    RegistrationFinds(s);
    var s1 := Step(s, Consume);
    TaskProceeds(s1, 0, 1);
    OwnCallsQuiet(s1, OwnCalls());
    QuietIsCalm(s1, OwnCalls());
    LeftoverCloses(Exec(s1, OwnCalls()));
    CalmAppend(s1, OwnCalls(), last);
    ExecAppend(s1, OwnCalls(), last);
    PrependCalm(s, Consume, calls);
    CalmAppend(Start(), RetryRun(), [Consume] + calls);
    ExecAppend(Start(), RetryRun(), [Consume] + calls);
    DoublingExactly(SentBefore(), Advance(0));
  }
}
