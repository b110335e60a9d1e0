/**
 When a registration can come to consume on two connections at once, so that its handler runs beside
 itself although it consumes once on each channel: exactly after a channel has been put in place while
 another live connection has a consumer, or has one on its way.
 */
module RabbitCopies {
  import opened Options
  import opened RabbitConnection
  import opened RabbitSubscriptions
  import opened RabbitDoubling

  /** A registration consumes on two connections; what is listed is on live connections only. */
  ghost predicate Copied(s: Client) {
    exists x, y :: x in s.subscribed && y in s.subscribed && x.index == y.index && x.on != y.on
  }

  /** Its subscribing call is out on this connection. */
  predicate AskedOn(s: Client, w: Id, on: nat) {
    Asked(s, w) && On(s, w) == on
  }

  /** A consumer is on this connection, or its subscribing call is out there. */
  ghost predicate Held(s: Client, on: nat) {
    (exists x :: x in s.subscribed && x.on == on) || exists w :: AskedOn(s, w, on)
  }

  /** The step puts a usable channel in place while some connection holds a consumer. */
  ghost predicate PlacesElsewhere(s: Client, a: Action) {
    a.Advance? && AboutToAssign(s, a.i) && s.running[a.i].stage.conn in s.live && exists on :: Held(s, on)
  }

  /** No step of the run does. */
  ghost predicate Kept(s: Client, acts: seq<Action>) {
    acts == [] || (Kept(s, acts[..|acts| - 1]) && !PlacesElsewhere(Exec(s, acts[..|acts| - 1]), acts[|acts| - 1]))
  }

  /** A registration can end up consuming on two connections without any further such step. */
  ghost predicate CanCopy(s: Client) {
    exists acts :: Kept(s, acts) && Copied(Exec(s, acts))
  }

  /** All consumers, there or on their way, are on one connection, the one of the channel if that is usable. */
  ghost predicate OneHome(s: Client) {
    && (forall c, d | Held(s, c) && Held(s, d) :: c == d)
    && (Usable(s) ==> forall c | Held(s, c) :: c == s.channel.value)
  }

  lemma {:induction false} KeptAppend(s: Client, a: seq<Action>, b: seq<Action>)
    ensures Kept(s, a + b) <==> Kept(s, a) && Kept(Exec(s, a), b)
  {
    hide PlacesElsewhere, Exec;
    if b == [] {
      assert a + b == a;
    } else {
      KeptAppend(s, a, b[..|b| - 1]);
      ExecAppend(s, a, b[..|b| - 1]);
      assert (a + b)[..|a + b| - 1] == a + b[..|b| - 1];
    }
  }

  lemma {:induction false} QuietIsKept(s: Client, acts: seq<Action>)
    requires AllQuiet(s, acts)
    ensures Kept(s, acts)
  {
    if acts != [] {
      hide Exec, Held;
      QuietIsKept(s, acts[..|acts| - 1]);
    }
  }

  /** Nothing is held that was not, and the channel is the same or not usable. */
  lemma FewerHeld(s: Client, s': Client)
    requires OneHome(s) && forall c | Held(s', c) :: Held(s, c)
    requires Usable(s') ==> Usable(s) && s'.channel == s.channel
    ensures OneHome(s')
  {
    hide Held;
  }

  lemma LeftAsked(s: Client, i: nat, s': Client, w: Id)
    requires i < |s.running| && s'.running == Without(s.running, i) && s'.live == s.live && s'.tasks == s.tasks
    requires Asked(s', w)
    ensures Asked(s, BeforeLoop(i, w)) && On(s, BeforeLoop(i, w)) == On(s', w)
  {
    hide Without;
    WithoutElements(s.running, i);
  }

  lemma LeftHeld(s: Client, i: nat, s': Client)
    requires i < |s.running| && s'.running == Without(s.running, i) && s'.live == s.live
    requires s'.subscribed == s.subscribed && s'.tasks == s.tasks
    ensures forall c | Held(s', c) :: Held(s, c)
  {
    hide Without;
    forall c | Held(s', c) ensures Held(s, c) {
      if w :| AskedOn(s', w, c) {
        LeftAsked(s, i, s', w);
        assert AskedOn(s, BeforeLoop(i, w), c);
      }
    }
  }

  lemma DropAsked(s: Client, k: nat, w: Id)
    requires k < |s.tasks| && Asked(s.(tasks := Without(s.tasks, k)), w)
    ensures Asked(s, BeforeOwn(k, w)) && On(s, BeforeOwn(k, w)) == On(s.(tasks := Without(s.tasks, k)), w)
  {
    hide Without;
    WithoutElements(s.tasks, k);
  }

  lemma DropHeld(s: Client, k: nat)
    requires k < |s.tasks|
    ensures forall c | Held(s.(tasks := Without(s.tasks, k)), c) :: Held(s, c)
  {
    hide Without;
    var s' := s.(tasks := Without(s.tasks, k));
    forall c | Held(s', c) ensures Held(s, c) {
      if w :| AskedOn(s', w, c) {
        DropAsked(s, k, w);
        assert AskedOn(s, BeforeOwn(k, w), c);
      }
    }
  }

  lemma LeaveHome(s: Client, i: nat)
    requires i < |s.running| && OneHome(s)
    ensures OneHome(Succeed(s, i)) && OneHome(Fail(s, i))
  {
    hide OneHome, Held, Succeed, Fail;
    LeaveFrame(s, i);
    LeftHeld(s, i, Succeed(s, i));
    LeftHeld(s, i, Fail(s, i));
    FewerHeld(s, Succeed(s, i));
    FewerHeld(s, Fail(s, i));
  }

  /** A set-up whose next call goes out on the channel there is. */
  lemma LoopMovedHome(s: Client, i: nat, next: nat, call: nat)
    requires i < |s.running| && Usable(s) && OneHome(s)
    ensures OneHome(s.(running := s.running[i := s.running[i].(stage := SettingUp(s.channel.value, next, call))]))
  {
    var s' := s.(running := s.running[i := s.running[i].(stage := SettingUp(s.channel.value, next, call))]);
    forall c | Held(s', c) ensures c == s.channel.value {
      if w :| AskedOn(s', w, c) {
        assert w != Loop(i) ==> AskedOn(s, w, c);
        assert w != Loop(i) ==> Held(s, c);
      } else {
        assert Held(s, c);
      }
    }
  }

  lemma OwnMovedHome(s: Client, k: nat, task: Task)
    requires k < |s.tasks| && Usable(s) && OneHome(s) && task.on == s.channel.value
    ensures OneHome(s.(tasks := s.tasks[k := task]))
  {
    var s' := s.(tasks := s.tasks[k := task]);
    forall c | Held(s', c) ensures c == s.channel.value {
      if w :| AskedOn(s', w, c) {
        assert w != Own(k) ==> AskedOn(s, w, c);
        assert w != Own(k) ==> Held(s, c);
      } else {
        assert Held(s, c);
      }
    }
  }

  /** What was on its way is there. */
  lemma AnsweredHome(s: Client, n: nat, on: nat)
    requires OneHome(s) && (on in s.live ==> Held(s, on))
    ensures OneHome(Subscribe(s, n, on))
  {
    var s' := Subscribe(s, n, on);
    forall c | Held(s', c) ensures Held(s, c) {
      if w :| AskedOn(s', w, c) {
        assert AskedOn(s, w, c);
      }
    }
    FewerHeld(s, s');
  }

  lemma NextHome(s: Client, i: nat, next: nat)
    requires i < |s.running| && OneHome(s)
    ensures OneHome(NextConsumer(s, i, next))
  {
    hide OneHome, Succeed, Fail;
    LeaveHome(s, i);
    if Usable(s) {
      LoopMovedHome(s, i, next, 0);
    }
  }

  /** A channel put in place where nothing is held, or one of a closed connection. */
  lemma AssignedHome(s: Client, conn: nat)
    requires OneHome(s) && (conn in s.live ==> forall c :: !Held(s, c))
    ensures OneHome(AssignChannel(s, conn))
  {
    hide PlacesBeside;
    var s' := AssignChannel(s, conn);
    forall c | Held(s', c) ensures Held(s, c) {
      if w :| AskedOn(s', w, c) {
        assert AskedOn(s, w, c);
      }
    }
  }

  lemma ConnectHome(s: Client, i: nat)
    requires i < |s.running| && Dialled(s) && OneHome(s)
    ensures OneHome(s.(running := s.running[i := s.running[i].(stage := Opening(s.dialled, 0))],
                       live := s.live + {s.dialled}, dialled := s.dialled + 1))
  {
    var s' := s.(running := s.running[i := s.running[i].(stage := Opening(s.dialled, 0))],
                 live := s.live + {s.dialled}, dialled := s.dialled + 1);
    forall c | Held(s', c) ensures Held(s, c) {
      if w :| AskedOn(s', w, c) {
        match w {
          case Own(k) => assert s.tasks[k] in s.tasks;
          case Loop(j) => assert s.running[j] in s.running;
        }
        assert AskedOn(s, w, c);
      }
    }
    FewerHeld(s, s');
  }

  lemma OpenedHome(s: Client, i: nat, stage: Stage)
    requires i < |s.running| && stage.Opening? && OneHome(s)
    ensures OneHome(s.(running := s.running[i := s.running[i].(stage := stage)]))
  {
    var s' := s.(running := s.running[i := s.running[i].(stage := stage)]);
    forall c | Held(s', c) ensures Held(s, c) {
      if w :| AskedOn(s', w, c) {
        assert AskedOn(s, w, c);
      }
    }
    FewerHeld(s, s');
  }

  lemma AdvanceHome(s: Client, i: nat)
    requires i < |s.running| && Dialled(s) && OneHome(s) && !PlacesElsewhere(s, Advance(i))
    ensures OneHome(AdvanceAttempt(s, i))
  {
    hide OneHome, NextConsumer, Fail, Subscribe, AssignChannel, Dialled, Held;
    LeaveHome(s, i);
    match s.running[i].stage {
      case Connecting => ConnectHome(s, i);
      case Opening(conn, call) =>
        if Answerable(s, conn) {
          if call >= LAST_OPENING_CALL {
            AssignedHome(s, conn);
            AssignedRunning(s, conn);
            NextHome(AssignChannel(s, conn), i, 0);
          } else {
            OpenedHome(s, i, Opening(conn, call + 1));
          }
        }
      case SettingUp(on, next, call) =>
        if Answerable(s, on) {
          if call >= LAST_SETUP_CALL {
            AskedHeld(s, Loop(i));
            AnsweredHome(s, next, on);
            SameRunning(s, next, on);
            NextHome(Subscribe(s, next, on), i, next + 1);
          } else if Usable(s) {
            LoopMovedHome(s, i, next, call + 1);
          }
        }
    }
  }

  lemma AskedHeld(s: Client, w: Id)
    requires Is(s, w)
    ensures Asked(s, w) ==> Held(s, On(s, w))
  {
    assert Asked(s, w) ==> AskedOn(s, w, On(s, w));
  }

  lemma TaskHome(s: Client, k: nat)
    requires k < |s.tasks| && OneHome(s)
    ensures OneHome(AdvanceTask(s, k)) && OneHome(s.(tasks := Without(s.tasks, k)))
  {
    hide OneHome, Held, Without;
    var t, dropped := s.tasks[k], s.(tasks := Without(s.tasks, k));
    DropHeld(s, k);
    FewerHeld(s, dropped);
    if Answerable(s, t.on) {
      if t.call >= LAST_SETUP_CALL {
        AskedHeld(s, Own(k));
        OwnAnsweredHome(s, dropped, t.index, t.on);
      } else if Usable(s) {
        OwnMovedHome(s, k, Task(t.index, t.call + 1, s.channel.value));
      }
    }
  }

  lemma OwnAnsweredHome(s: Client, s1: Client, n: nat, on: nat)
    requires OneHome(s) && (on in s.live ==> Held(s, on)) && forall c | Held(s1, c) :: Held(s, c)
    requires s1.channel == s.channel && s1.live == s.live
    ensures OneHome(Subscribe(s1, n, on))
  {
    var s' := Subscribe(s1, n, on);
    forall c | Held(s', c) ensures Held(s, c) {
      if w :| AskedOn(s', w, c) {
        assert AskedOn(s1, w, c);
      } else {
        assert c == on || Held(s1, c);
      }
    }
    FewerHeld(s, s');
  }

  lemma RegisterHome(s: Client)
    requires OneHome(s)
    ensures OneHome(Register(s)) && OneHome(s.(closing := true)) && (s.timers > 0 ==> OneHome(FireTimer(s)))
  {
    hide RegistersBeside, OneHome;
    SameHeld(s, Register(s));
    SameHeld(s, s.(closing := true));
    FewerHeld(s, Register(s));
    FewerHeld(s, s.(closing := true));
    if s.timers > 0 {
      SameHeld(s, FireTimer(s));
      FewerHeld(s, FireTimer(s));
    }
  }

  /** New set-ups and attempts have not asked for anything yet. */
  lemma SameHeld(s: Client, s': Client)
    requires s.running <= s'.running && s.tasks <= s'.tasks && s'.live == s.live && s'.subscribed == s.subscribed
    requires forall i | |s.running| <= i < |s'.running| :: s'.running[i].stage.Connecting?
    requires forall k | |s.tasks| <= k < |s'.tasks| :: s'.tasks[k].call == 0
    ensures forall c | Held(s', c) :: Held(s, c)
  {
    forall c | Held(s', c) ensures Held(s, c) {
      if w :| AskedOn(s', w, c) {
        assert AskedOn(s, w, c);
      }
    }
  }

  lemma CloseHome(s: Client, conn: nat)
    requires OneHome(s)
    ensures OneHome(HandleClose(s, conn))
  {
    hide Elsewhere, OneHome;
    ElsewhereMembers(s.subscribed, conn);
    var s' := HandleClose(s, conn);
    assert forall j | 0 <= j < |s.running| :: s'.running[j].stage == s.running[j].stage;
    forall c | Held(s', c) ensures Held(s, c) {
      if w :| AskedOn(s', w, c) {
        assert AskedOn(s, w, c);
      }
    }
    FewerHeld(s, s');
  }

  lemma StepHome(s: Client, a: Action)
    requires Dialled(s) && OneHome(s) && !PlacesElsewhere(s, a)
    ensures OneHome(Step(s, a))
  {
    hide OneHome, Dialled, PlacesElsewhere, AdvanceAttempt, Fail, HandleClose, Register, FireTimer, AdvanceTask, Without;
    RegisterHome(s);
    match a {
      case Advance(i) => if i < |s.running| { AdvanceHome(s, i); }
      case Reject(i) => if i < |s.running| { LeaveHome(s, i); }
      case TaskAdvances(k) => if k < |s.tasks| { TaskHome(s, k); }
      case TaskRejected(k) => if k < |s.tasks| { TaskHome(s, k); }
      case CloseEvent(conn) => CloseHome(s, conn);
      case _ =>
    }
  }

  lemma RunFresh(acts: seq<Action>)
    ensures Fresh(Exec(Start(), acts)) && InRange(Exec(Start(), acts))
  {
    hide Exec, Fresh, InRange, Distinct;
    SubscribedOnce(acts);
  }

  /** As long as no channel has been put in place beside a consumer elsewhere, there is one home for all. */
  lemma {:induction false} KeptHome(acts: seq<Action>)
    requires Kept(Start(), acts)
    ensures OneHome(Exec(Start(), acts))
  {
    if acts != [] {
      hide Step, OneHome, PlacesElsewhere, Dialled, OwnConnections, OpeningApart, InRange;
      KeptHome(acts[..|acts| - 1]);
      RunFresh(acts[..|acts| - 1]);
      StepHome(Exec(Start(), acts[..|acts| - 1]), acts[|acts| - 1]);
    } else {
      NothingHeld();
    }
  }

  lemma NothingHeld()
    ensures OneHome(Start())
  {
    assert forall w :: !Asked(Start(), w);
  }

  lemma HomeIsNotCopied(s: Client)
    requires OneHome(s)
    ensures !Copied(s)
  {
    forall x, y | x in s.subscribed && y in s.subscribed ensures x.on == y.on {
      assert Held(s, x.on) && Held(s, y.on);
    }
  }

  lemma KeptCannotCopy(acts: seq<Action>, a: Action, more: seq<Action>)
    requires Kept(Start(), acts) && !PlacesElsewhere(Exec(Start(), acts), a)
    requires Kept(Step(Exec(Start(), acts), a), more)
    ensures !Copied(Exec(Step(Exec(Start(), acts), a), more))
  {
    hide Step, Start, PlacesElsewhere, OneHome, Copied;
    var all := acts + [a];
    assert all[..|acts|] == acts;
    assert Exec(Start(), all) == Step(Exec(Start(), acts), a) && Kept(Start(), all);
    KeptAppend(Start(), all, more);
    ExecAppend(Start(), all, more);
    KeptHome(all + more);
    HomeIsNotCopied(Exec(Start(), all + more));
  }

  /** A loop that begins on the new channel comes to what is there elsewhere. */
  lemma LoopCopies(s: Client, i: nat, conn: nat, x: Subscription)
    requires i < |s.running| && s.running[i].stage == SettingUp(conn, 0, 0) && s.channel == Some(conn) && conn in s.live
    requires x in s.subscribed && x.on != conn && x.index < s.consumers
    ensures CanCopy(s)
  {
    hide Exec, Kept, AllQuiet;
    var loop := LoopReaches(s, i, conn, 0, 0, x.index);
    QuietIsKept(s, loop);
    var s' := Exec(s, loop);
    assert x in s'.subscribed && Subscription(x.index, conn) in s'.subscribed;
    assert Copied(s');
  }

  /** Or to what is on its way elsewhere, which then comes there. */
  lemma LoopThenOwnCopies(s: Client, i: nat, conn: nat, k: nat)
    requires i < |s.running| && s.running[i].stage == SettingUp(conn, 0, 0) && s.channel == Some(conn) && conn in s.live
    requires Asked(s, Own(k)) && s.tasks[k].on != conn && s.tasks[k].index < s.consumers
    ensures CanCopy(s)
  {
    hide Exec, Kept, AllQuiet, Without;
    var t := s.tasks[k];
    var loop := LoopReaches(s, i, conn, 0, 0, t.index);
    var s1 := Exec(s, loop);
    var own := FinishTask(s1, k, t.index, t.call, t.on);
    QuietAppend(s, loop, own);
    ExecAppend(s, loop, own);
    QuietIsKept(s, loop + own);
    var s2 := Exec(s, loop + own);
    assert Subscription(t.index, t.on) in s2.subscribed && Subscription(t.index, conn) in s2.subscribed;
    assert Copied(s2);
  }

  lemma LoopThenLoopCopies(s: Client, i: nat, conn: nat, j: nat)
    requires i < |s.running| && s.running[i].stage == SettingUp(conn, 0, 0) && s.channel == Some(conn) && conn in s.live
    requires j != i && Asked(s, Loop(j)) && s.running[j].stage.on != conn && s.running[j].stage.next < s.consumers
    ensures CanCopy(s)
  {
    hide Exec, Kept, AllQuiet, Without, NextConsumer;
    var st := s.running[j].stage;
    var loop := LoopReaches(s, i, conn, 0, 0, st.next);
    var s1 := Exec(s, loop);
    var j' :| 0 <= j' < |s1.running| && s1.running[j'] == s.running[j];
    var more := FinishRegistration(s1, j', st.on, st.next, st.call);
    SubscribedByNext(Record(s1, Subscription(st.next, st.on)), j', st.next + 1);
    QuietAppend(s, loop, more);
    ExecAppend(s, loop, more);
    QuietIsKept(s, loop + more);
    var s2 := Exec(s, loop + more);
    assert Subscription(st.next, st.on) in s2.subscribed && Subscription(st.next, conn) in s2.subscribed;
    assert Copied(s2);
  }

  /** Whatever the state, a channel put in place beside a consumer elsewhere can lead to a copy of it. */
  lemma ElsewhereCanCopy(s: Client, a: Action)
    requires Fresh(s) && InRange(s) && PlacesElsewhere(s, a)
    ensures CanCopy(Step(s, a))
  {
    hide CanCopy, Succeed, Fail, PlacesBeside, OpeningApart;
    var i, conn, s' := a.i, s.running[a.i].stage.conn, Step(s, a);
    assert s.running[i] in s.running;
    var on :| Held(s, on);
    if x :| x in s.subscribed && x.on == on {
      assert s'.running[i].stage == SettingUp(conn, 0, 0);
      LoopCopies(s', i, conn, x);
    } else {
      var w :| AskedOn(s, w, on);
      AskedOnUsed(s, w, conn);
      match w {
        case Own(k) =>
          assert s.tasks[k] in s.tasks;
          assert s'.running[i].stage == SettingUp(conn, 0, 0) && Asked(s', Own(k));
          LoopThenOwnCopies(s', i, conn, k);
        case Loop(j) =>
          assert s.running[j] in s.running;
          assert s'.running[i].stage == SettingUp(conn, 0, 0) && Asked(s', Loop(j));
          LoopThenLoopCopies(s', i, conn, j);
      }
    }
  }

  /**
   After any run in which no channel has been put in place beside a consumer elsewhere: a step makes it
   possible that a registration consumes on two live connections exactly if it does that.
   */
  lemma CopyingExactly(acts: seq<Action>, a: Action)
    requires Kept(Start(), acts)
    ensures CanCopy(Step(Exec(Start(), acts), a)) <==> PlacesElsewhere(Exec(Start(), acts), a)
  {
    hide Step, Start, PlacesElsewhere, InRange, Fresh, Exec, Kept, Copied;
    var s := Exec(Start(), acts);
    if PlacesElsewhere(s, a) {
      RunFresh(acts);
      ElsewhereCanCopy(s, a);
    } else if CanCopy(Step(s, a)) {
      var more :| Kept(Step(s, a), more) && Copied(Exec(Step(s, a), more));
      KeptCannotCopy(acts, a, more);
    }
  }

  /** The close of a leftover connection is enough: the registration on the channel before it is set up again. */
  lemma LeftoverCloseCopies()
    ensures CanCopy(Step(Exec(Start(), SentBefore()), Advance(0)))
    ensures !CanDouble(Step(Exec(Start(), SentBefore()), Advance(0)))
  {
    hide Exec, SentBefore, CanDouble, CanCopy, Fresh, InRange, Step;
    SentCallIsHarmless();
    RunFresh(SentBefore());
    var s := Exec(Start(), SentBefore());
    assert AskedOn(s, Own(0), 1);
    assert Held(s, 1);
    ElsewhereCanCopy(s, Advance(0));
  }
}
