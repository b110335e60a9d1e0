/**
 How often a registration consumes on one channel. Serial handling rests on one consumer per queue
 with a prefetch of one; a registration set up twice on a channel would get two messages at a time.
 */
module RabbitSubscriptions {
  import opened Options
  import opened RabbitConnection

  predicate Distinct<T(==)>(xs: seq<T>) {
    forall i, j | 0 <= i < j < |xs| :: xs[i] != xs[j]
  }

  lemma DistinctAppend<T>(xs: seq<T>, x: T)
    requires Distinct(xs) && x !in xs
    ensures Distinct(xs + [x])
  {
  }

  /** A set-up under way: a registration's own, or an attempt's loop over the registrations. */
  datatype Id = Own(k: int) | Loop(i: int)

  predicate Is(s: Client, w: Id) {
    match w
    case Own(k) => 0 <= k < |s.tasks|
    case Loop(i) => 0 <= i < |s.running| && s.running[i].stage.SettingUp?
  }

  /** The connection whose channel its call is out on, the registration it is at, and the call. */
  function On(s: Client, w: Id): nat
    requires Is(s, w)
  {
    match w
    case Own(k) => s.tasks[k].on
    case Loop(i) => s.running[i].stage.on
  }

  function Number(s: Client, w: Id): nat
    requires Is(s, w)
  {
    match w
    case Own(k) => s.tasks[k].index
    case Loop(i) => s.running[i].stage.next
  }

  function Call(s: Client, w: Id): nat
    requires Is(s, w)
  {
    match w
    case Own(k) => s.tasks[k].call
    case Loop(i) => s.running[i].stage.call
  }

  /** Its subscribing call is out on a live connection. */
  predicate Asked(s: Client, w: Id) {
    Is(s, w) && On(s, w) in s.live && Call(s, w) >= LAST_SETUP_CALL
  }

  /** It still has registration n to subscribe, on whatever channel there is then. */
  predicate Will(s: Client, w: Id, n: nat) {
    && Is(s, w) && On(s, w) in s.live
    && ((n == Number(s, w) && Call(s, w) < LAST_SETUP_CALL) || (w.Loop? && Number(s, w) < n < s.consumers))
  }

  /** It has registration n on its way to a consumer on this connection. */
  ghost predicate Claims(s: Client, w: Id, n: nat, on: nat) {
    || (Asked(s, w) && n == Number(s, w) && on == On(s, w))
    || (Usable(s) && on == s.channel.value && Will(s, w, n))
  }

  /** Connections are numbered as they are dialled. */
  predicate Dialled(s: Client) {
    && (forall c | c in s.live :: c < s.dialled)
    && (s.channel.Some? ==> s.channel.value < s.dialled)
    && (forall x | x in s.subscribed :: x.on in s.live)
    && (forall t | t in s.tasks :: t.on < s.dialled)
    && (forall a | a in s.running && a.stage.SettingUp? :: a.stage.on < s.dialled)
  }

  /** Nothing is on the connection of an attempt that has not put its channel in place. */
  predicate Unused(s: Client, conn: nat) {
    && conn < s.dialled && s.channel != Some(conn)
    && (forall x | x in s.subscribed :: x.on != conn) && (forall t | t in s.tasks :: t.on != conn)
    && (forall a | a in s.running && a.stage.SettingUp? :: a.stage.on != conn)
  }

  ghost predicate OwnConnections(s: Client) {
    forall a | a in s.running && a.stage.Opening? :: Unused(s, a.stage.conn)
  }

  predicate OpeningApart(running: seq<Attempt>) {
    forall i, j | 0 <= i < j < |running| && running[i].stage.Opening? && running[j].stage.Opening? ::
      running[i].stage.conn != running[j].stage.conn
  }

  ghost predicate Fresh(s: Client) {
    Dialled(s) && OwnConnections(s) && OpeningApart(s.running)
  }

  /** Registrations and set-ups under way are numbered within the registrations made. */
  ghost predicate InRange(s: Client) {
    && (forall x | x in s.subscribed :: x.index < s.consumers)
    && (forall t | t in s.tasks :: t.index < s.consumers)
    && (forall a | a in s.running && a.stage.SettingUp? :: a.stage.next < s.consumers)
  }

  /** No consumer is there twice, on its way twice, or on its way and there. */
  ghost predicate Single(s: Client) {
    && Distinct(s.subscribed)
    && (forall w, n: nat, on: nat | Claims(s, w, n, on) :: Subscription(n, on) !in s.subscribed)
    && (forall w, w', n: nat, on: nat | Claims(s, w, n, on) && Claims(s, w', n, on) :: w == w')
  }

  /** A loop goes on over the channel it began on, and has subscribed the registrations behind it there. */
  ghost predicate SteadyAt(s: Client, stage: Stage) {
    stage.SettingUp? && stage.on in s.live ==>
      && (Usable(s) && LoopBusy(s, stage) ==> s.channel.value == stage.on)
      && forall n: nat | n < stage.next :: Subscription(n, stage.on) in s.subscribed
  }

  ghost predicate Steady(s: Client) {
    forall a | a in s.running :: SteadyAt(s, a.stage)
  }

  ghost predicate Subscriptions(s: Client) {
    Fresh(s) && InRange(s) && (!s.overlap ==> Single(s) && Steady(s))
  }

  lemma {:induction false} ElsewhereMembers(xs: seq<Subscription>, conn: nat)
    ensures forall x :: x in Elsewhere(xs, conn) <==> x in xs && x.on != conn
    ensures Distinct(xs) ==> Distinct(Elsewhere(xs, conn))
  {
    if xs != [] {
      var init, last := xs[..|xs| - 1], xs[|xs| - 1];
      ElsewhereMembers(init, conn);
      assert xs == init + [last];
      if Distinct(xs) {
        assert last !in init;
        if last.on != conn { DistinctAppend(Elsewhere(init, conn), last); }
      }
    }
  }

  // Connections are dialled fresh.

  lemma WithoutMembers<T>(xs: seq<T>, i: nat)
    requires i < |xs|
    ensures forall x | x in Without(xs, i) :: x in xs
  {
  }

  /** Removing an attempt keeps the others' connections apart, from its own as well. */
  lemma LeftApart(running: seq<Attempt>, i: nat)
    requires i < |running| && OpeningApart(running)
    ensures OpeningApart(Without(running, i))
    ensures running[i].stage.Opening? ==>
              forall a | a in Without(running, i) && a.stage.Opening? :: a.stage.conn != running[i].stage.conn
  {
    hide Without;
    WithoutElements(running, i);
    var rest := Without(running, i);
    forall a | a in rest && a.stage.Opening? && running[i].stage.Opening? ensures a.stage.conn != running[i].stage.conn {
      var j :| 0 <= j < |rest| && rest[j] == a;
    }
  }

  /** An attempt that leaves leaves the numbering as it is. */
  lemma LeftFresh(s: Client, i: nat, s': Client)
    requires i < |s.running| && Fresh(s) && s'.running == Without(s.running, i)
    requires s'.channel == s.channel && s'.live == s.live && s'.dialled == s.dialled
    requires s'.subscribed == s.subscribed && s'.tasks == s.tasks
    ensures Fresh(s')
  {
    hide Without, OpeningApart;
    WithoutMembers(s.running, i);
    LeftApart(s.running, i);
  }

  /** An attempt that moves to a call on a channel in place, or goes on opening its own. */
  lemma MovedFresh(s: Client, i: nat, stage: Stage)
    requires i < |s.running| && Fresh(s)
    requires stage.SettingUp? ==> s.channel == Some(stage.on)
    requires stage.Opening? ==> s.running[i].stage.Opening? && s.running[i].stage.conn == stage.conn
    requires !stage.Connecting?
    ensures Fresh(s.(running := s.running[i := s.running[i].(stage := stage)]))
  {
    assert s.running[i] in s.running;
  }

  lemma NextFresh(s: Client, i: nat, next: nat)
    requires i < |s.running| && Fresh(s)
    ensures Fresh(NextConsumer(s, i, next)) && Fresh(Fail(s, i))
  {
    hide Fresh, Without;
    LeftFresh(s, i, Succeed(s, i));
    LeftFresh(s, i, Fail(s, i));
    if s.channel.Some? {
      MovedFresh(s, i, SettingUp(s.channel.value, next, 0));
    }
  }

  /** What an attempt that leaves does not change. */
  lemma LeaveFrame(s: Client, i: nat)
    requires i < |s.running|
    ensures var r := Succeed(s, i);
            && r.running == Without(s.running, i) && r.channel == s.channel && r.live == s.live && r.dialled == s.dialled
            && r.subscribed == s.subscribed && r.tasks == s.tasks && r.consumers == s.consumers && r.overlap == s.overlap
    ensures var r := Fail(s, i);
            && r.running == Without(s.running, i) && r.channel == s.channel && r.live == s.live && r.dialled == s.dialled
            && r.subscribed == s.subscribed && r.tasks == s.tasks && r.consumers == s.consumers && r.overlap == s.overlap
  {
    hide Without;
  }

  lemma SameFresh(s: Client, s': Client)
    requires Fresh(s) && s'.running == s.running && s'.channel == s.channel && s'.live == s.live && s'.dialled == s.dialled
    requires s'.subscribed == s.subscribed && s'.tasks == s.tasks
    ensures Fresh(s')
  {
    hide OpeningApart;
  }

  /** A channel put in place by an attempt that goes on over it, or leaves. */
  lemma AssignFresh(s: Client, i: nat)
    requires i < |s.running| && Fresh(s) && s.running[i].stage.Opening?
    ensures Fresh(NextConsumer(AssignChannel(s, s.running[i].stage.conn), i, 0))
  {
    hide Fresh, Without, PlacesBeside, Succeed, Fail;
    var conn := s.running[i].stage.conn;
    var s1 := AssignChannel(s, conn);
    LeaveFrame(s1, i);
    if s1.consumers == 0 {
      LeftAfterAssign(s, i, Succeed(s1, i));
    } else if Usable(s1) {
      SettlesAfterAssign(s, i);
      SameFresh(s.(channel := Some(conn), running := s.running[i := s.running[i].(stage := SettingUp(conn, 0, 0))]),
                NextConsumer(s1, i, 0));
    } else {
      LeftAfterAssign(s, i, Fail(s1, i));
    }
  }

  lemma LeftAfterAssign(s: Client, i: nat, r: Client)
    requires i < |s.running| && Fresh(s) && s.running[i].stage.Opening? && r.running == Without(s.running, i)
    requires r.channel == Some(s.running[i].stage.conn) && r.live == s.live && r.dialled == s.dialled
    requires r.subscribed == s.subscribed && r.tasks == s.tasks
    ensures Fresh(r)
  {
    hide Without, OpeningApart;
    assert s.running[i] in s.running;
    LeftApart(s.running, i);
    WithoutMembers(s.running, i);
  }

  lemma SettlesAfterAssign(s: Client, i: nat)
    requires i < |s.running| && Fresh(s) && s.running[i].stage.Opening?
    ensures var conn := s.running[i].stage.conn;
            Fresh(s.(channel := Some(conn), running := s.running[i := s.running[i].(stage := SettingUp(conn, 0, 0))]))
  {
    var conn := s.running[i].stage.conn;
    var running := s.running[i := s.running[i].(stage := SettingUp(conn, 0, 0))];
    assert s.running[i] in s.running;
    forall a | a in running && a.stage.Opening? ensures a.stage.conn != conn && a in s.running {
      var j :| 0 <= j < |running| && running[j] == a;
    }
  }

  lemma SubscribeFresh(s: Client, index: nat, on: nat)
    requires Fresh(s)
    requires exists a :: a in s.running && a.stage.SettingUp? && a.stage.on == on
    ensures Fresh(Subscribe(s, index, on))
  {
    hide OpeningApart;
  }

  lemma ConnectFresh(s: Client, i: nat)
    requires i < |s.running| && Fresh(s)
    ensures Fresh(s.(running := s.running[i := s.running[i].(stage := Opening(s.dialled, 0))],
                     live := s.live + {s.dialled}, dialled := s.dialled + 1))
  {
    var running := s.running[i := s.running[i].(stage := Opening(s.dialled, 0))];
    forall j, k | 0 <= j < k < |running| && running[j].stage.Opening? && running[k].stage.Opening?
      ensures running[j].stage.conn != running[k].stage.conn {
      assert s.running[j] in s.running && s.running[k] in s.running;
    }
  }

  lemma AdvanceFresh(s: Client, i: nat)
    requires i < |s.running| && Fresh(s)
    ensures Fresh(AdvanceAttempt(s, i))
  {
    hide Fresh, NextConsumer, Fail, AssignChannel, Subscribe;
    NextFresh(s, i, 0);
    assert s.running[i] in s.running;
    match s.running[i].stage {
      case Connecting => ConnectFresh(s, i);
      case Opening(conn, call) =>
        AssignFresh(s, i);
        MovedFresh(s, i, Opening(conn, call + 1));
      case SettingUp(on, next, call) =>
        SubscribeFresh(s, next, on);
        SameRunning(s, next, on);
        NextFresh(Subscribe(s, next, on), i, next + 1);
        if s.channel.Some? {
          MovedFresh(s, i, SettingUp(s.channel.value, next, call + 1));
        }
    }
  }

  lemma SameRunning(s: Client, index: nat, on: nat)
    ensures Subscribe(s, index, on).running == s.running && Subscribe(s, index, on).tasks == s.tasks
  {
  }

  lemma DropFresh(s: Client, k: nat)
    requires k < |s.tasks| && Fresh(s)
    ensures Fresh(s.(tasks := Without(s.tasks, k)))
  {
    hide Without, OpeningApart;
    WithoutMembers(s.tasks, k);
  }

  lemma OwnSubscribeFresh(s: Client, index: nat, on: nat)
    requires Fresh(s) && forall a | a in s.running && a.stage.Opening? :: a.stage.conn != on
    ensures Fresh(Subscribe(s, index, on))
  {
    hide OpeningApart;
  }

  lemma TaskFresh(s: Client, k: nat)
    requires k < |s.tasks| && Fresh(s)
    ensures Fresh(AdvanceTask(s, k))
  {
    hide Without, OpeningApart, Subscribe;
    assert s.tasks[k] in s.tasks;
    DropFresh(s, k);
    OwnSubscribeFresh(s.(tasks := Without(s.tasks, k)), s.tasks[k].index, s.tasks[k].on);
  }

  lemma RegisterFresh(s: Client)
    requires Fresh(s)
    ensures Fresh(Register(s))
  {
    hide RegistersBeside, OpeningApart;
  }

  lemma HitMembers(running: seq<Attempt>)
    ensures forall a | a in Hit(running) :: exists b :: b in running && b.stage == a.stage
    ensures OpeningApart(running) ==> OpeningApart(Hit(running))
  {
    forall a | a in Hit(running) ensures exists b :: b in running && b.stage == a.stage {
      var i :| 0 <= i < |running| && Hit(running)[i] == a;
      assert running[i] in running;
    }
  }

  lemma CloseFresh(s: Client, conn: nat)
    requires Fresh(s)
    ensures Fresh(HandleClose(s, conn))
  {
    hide Elsewhere, Hit, OpeningApart;
    ElsewhereMembers(s.subscribed, conn);
    HitMembers(s.running);
  }

  lemma TimerFresh(s: Client)
    requires s.timers > 0 && Fresh(s)
    ensures Fresh(FireTimer(s))
  {
  }

  lemma StepFresh(s: Client, a: Action)
    requires Fresh(s)
    ensures Fresh(Step(s, a))
  {
    hide Fresh, AdvanceAttempt, Fail, HandleClose, Register, FireTimer, AdvanceTask, Without;
    match a {
      case Advance(i) => if i < |s.running| { AdvanceFresh(s, i); }
      case Reject(i) => if i < |s.running| { NextFresh(s, i, 0); }
      case TaskAdvances(k) => if k < |s.tasks| { TaskFresh(s, k); }
      case TaskRejected(k) => if k < |s.tasks| { DropFresh(s, k); }
      case CloseEvent(conn) => CloseFresh(s, conn);
      case Consume => RegisterFresh(s);
      case TimerFires => if s.timers > 0 { TimerFresh(s); }
      case Shutdown => ShutdownKeeps(s);
    }
  }

  lemma ShutdownKeeps(s: Client)
    ensures Fresh(s) ==> Fresh(s.(closing := true))
  {
    hide OpeningApart;
  }

  // Everything is numbered within the registrations made.

  lemma LeftInRange(s: Client, i: nat, s': Client)
    requires i < |s.running| && InRange(s) && s'.running == Without(s.running, i)
    requires s'.subscribed == s.subscribed && s'.tasks == s.tasks && s'.consumers == s.consumers
    ensures InRange(s')
  {
    hide Without;
    WithoutMembers(s.running, i);
  }

  lemma MovedInRange(s: Client, i: nat, stage: Stage)
    requires i < |s.running| && InRange(s) && (stage.SettingUp? ==> stage.next < s.consumers)
    ensures InRange(s.(running := s.running[i := s.running[i].(stage := stage)]))
  {
  }

  lemma NextInRange(s: Client, i: nat, next: nat)
    requires i < |s.running| && InRange(s)
    ensures InRange(NextConsumer(s, i, next)) && InRange(Fail(s, i))
  {
    hide InRange, Succeed, Fail;
    LeaveFrame(s, i);
    LeftInRange(s, i, Succeed(s, i));
    LeftInRange(s, i, Fail(s, i));
    if next < s.consumers && s.channel.Some? {
      MovedInRange(s, i, SettingUp(s.channel.value, next, 0));
    }
  }

  lemma AnsweredInRange(s: Client, n: nat, on: nat)
    requires InRange(s) && n < s.consumers
    ensures InRange(Subscribe(s, n, on))
  {
  }

  lemma PlacedInRange(s: Client, i: nat, conn: nat)
    requires i < |s.running| && InRange(s)
    ensures InRange(AssignChannel(s, conn))
    ensures InRange(s.(running := s.running[i := s.running[i].(stage := Opening(s.dialled, 0))],
                       live := s.live + {s.dialled}, dialled := s.dialled + 1))
  {
    hide PlacesBeside;
  }

  lemma AdvanceInRange(s: Client, i: nat)
    requires i < |s.running| && InRange(s)
    ensures InRange(AdvanceAttempt(s, i))
  {
    hide InRange, NextConsumer, Fail, AssignChannel, Subscribe;
    NextInRange(s, i, 0);
    match s.running[i].stage {
      case Connecting => PlacedInRange(s, i, 0);
      case Opening(conn, call) =>
        PlacedInRange(s, i, conn);
        AssignedRunning(s, conn);
        NextInRange(AssignChannel(s, conn), i, 0);
        MovedInRange(s, i, Opening(conn, call + 1));
      case SettingUp(on, next, call) =>
        StageInRange(s, i);
        AnsweredInRange(s, next, on);
        SameRunning(s, next, on);
        NextInRange(Subscribe(s, next, on), i, next + 1);
        if s.channel.Some? {
          MovedInRange(s, i, SettingUp(s.channel.value, next, call + 1));
        }
    }
  }

  lemma AssignedRunning(s: Client, conn: nat)
    ensures AssignChannel(s, conn).running == s.running
  {
    hide PlacesBeside;
  }

  lemma StageInRange(s: Client, i: nat)
    requires InRange(s) && i < |s.running| && s.running[i].stage.SettingUp?
    ensures s.running[i].stage.next < s.consumers
  {
    assert s.running[i] in s.running;
  }

  lemma TaskInRange(s: Client, k: nat)
    requires k < |s.tasks| && InRange(s)
    ensures InRange(AdvanceTask(s, k)) && InRange(s.(tasks := Without(s.tasks, k)))
  {
    hide Without;
    assert s.tasks[k] in s.tasks;
    WithoutMembers(s.tasks, k);
  }

  lemma CloseInRange(s: Client, conn: nat)
    requires InRange(s)
    ensures InRange(HandleClose(s, conn))
  {
    hide Elsewhere, Hit;
    ElsewhereMembers(s.subscribed, conn);
    HitMembers(s.running);
  }

  lemma RegisterInRange(s: Client)
    requires InRange(s)
    ensures InRange(Register(s)) && InRange(s.(closing := true)) && (s.timers > 0 ==> InRange(FireTimer(s)))
  {
    hide RegistersBeside;
  }

  lemma StepInRange(s: Client, a: Action)
    requires InRange(s)
    ensures InRange(Step(s, a))
  {
    hide InRange, AdvanceAttempt, Fail, HandleClose, Register, FireTimer, AdvanceTask, Without;
    RegisterInRange(s);
    match a {
      case Advance(i) => if i < |s.running| { AdvanceInRange(s, i); }
      case Reject(i) => if i < |s.running| { NextInRange(s, i, 0); }
      case TaskAdvances(k) => if k < |s.tasks| { TaskInRange(s, k); }
      case TaskRejected(k) => if k < |s.tasks| { TaskInRange(s, k); }
      case CloseEvent(conn) => CloseInRange(s, conn);
      case _ =>
    }
  }

  // No consumer is there, or on its way, twice.

  /** The set-up that is w now was this one before the i-th attempt left. */
  function BeforeLoop(i: nat, w: Id): Id {
    match w
    case Own(_) => w
    case Loop(j) => if j < i then w else Loop(j + 1)
  }

  function BeforeOwn(k: nat, w: Id): Id {
    match w
    case Own(l) => if l < k then w else Own(l + 1)
    case Loop(_) => w
  }

  /** Nothing is there and every claim was one before, of the same set-up. */
  lemma FewerSingle(s: Client, s': Client)
    requires Single(s) && Distinct(s'.subscribed) && forall x | x in s'.subscribed :: x in s.subscribed
    requires forall w, n: nat, on: nat | Claims(s', w, n, on) :: Claims(s, w, n, on)
    ensures Single(s')
  {
    hide Claims, Distinct;
  }

  lemma LeftSingle(s: Client, i: nat, s': Client)
    requires i < |s.running| && Single(s) && s'.running == Without(s.running, i)
    requires s'.channel == s.channel && s'.live == s.live && s'.consumers == s.consumers
    requires s'.subscribed == s.subscribed && s'.tasks == s.tasks
    ensures Single(s')
    ensures forall w, n: nat, on: nat | Claims(s', w, n, on) :: Claims(s, BeforeLoop(i, w), n, on)
  {
    hide Without, Distinct;
    WithoutElements(s.running, i);
    forall w, n: nat, on: nat | Claims(s', w, n, on) ensures Claims(s, BeforeLoop(i, w), n, on) {
    }
    forall w, w', n: nat, on: nat | Claims(s', w, n, on) && Claims(s', w', n, on) ensures w == w' {
      assert Claims(s, BeforeLoop(i, w), n, on) && Claims(s, BeforeLoop(i, w'), n, on);
    }
  }

  lemma DropClaims(s: Client, k: nat)
    requires k < |s.tasks|
    ensures var s' := s.(tasks := Without(s.tasks, k));
            forall w, n: nat, on: nat | Claims(s', w, n, on) ::
              Claims(s, BeforeOwn(k, w), n, on) && BeforeOwn(k, w) != Own(k)
  {
    hide Without;
    WithoutElements(s.tasks, k);
  }

  lemma DropSingle(s: Client, k: nat)
    requires k < |s.tasks| && Single(s)
    ensures var s' := s.(tasks := Without(s.tasks, k));
            && Single(s')
            && forall w, n: nat, on: nat | Claims(s', w, n, on) ::
                 Claims(s, BeforeOwn(k, w), n, on) && BeforeOwn(k, w) != Own(k)
  {
    hide Without, Distinct, Claims;
    var s' := s.(tasks := Without(s.tasks, k));
    DropClaims(s, k);
    forall w, w', n: nat, on: nat | Claims(s', w, n, on) && Claims(s', w', n, on) ensures w == w' {
      assert Claims(s, BeforeOwn(k, w), n, on) && Claims(s, BeforeOwn(k, w'), n, on);
    }
  }

  /** What no set-up claims can be recorded as there. */
  lemma RecordSingle(s: Client, n: nat, on: nat)
    requires Single(s) && Subscription(n, on) !in s.subscribed && forall w :: !Claims(s, w, n, on)
    ensures Single(s.(subscribed := s.subscribed + [Subscription(n, on)]))
  {
    hide Distinct;
    var s' := s.(subscribed := s.subscribed + [Subscription(n, on)]);
    DistinctAppend(s.subscribed, Subscription(n, on));
    SameClaims(s, s');
  }

  lemma SameClaims(s: Client, s': Client)
    requires s'.channel == s.channel && s'.live == s.live && s'.consumers == s.consumers
    requires s'.running == s.running && s'.tasks == s.tasks
    ensures forall w, n: nat, on: nat :: Claims(s', w, n, on) <==> Claims(s, w, n, on)
  {
  }

  /** A registration's own set-up ends: it is there now, and no longer on its way. */
  lemma AnsweredOwn(s: Client, k: nat)
    requires k < |s.tasks| && Single(s) && s.tasks[k].call >= LAST_SETUP_CALL
    ensures Single(Subscribe(s.(tasks := Without(s.tasks, k)), s.tasks[k].index, s.tasks[k].on))
  {
    hide Without, Distinct, Claims;
    var s', t := s.(tasks := Without(s.tasks, k)), s.tasks[k];
    DropSingle(s, k);
    if t.on in s.live {
      assert Claims(s, Own(k), t.index, t.on) by { AskedClaims(s, Own(k)); }
      RecordSingle(s', t.index, t.on);
    }
  }

  lemma AskedClaims(s: Client, w: Id)
    requires Asked(s, w)
    ensures Claims(s, w, Number(s, w), On(s, w))
  {
  }

  /** The call that a registration's own set-up makes next is for the same registration, on the channel there is. */
  lemma MovedOwn(s: Client, k: nat)
    requires k < |s.tasks| && Single(s) && s.tasks[k].call < LAST_SETUP_CALL && s.tasks[k].on in s.live && Usable(s)
    ensures Single(s.(tasks := s.tasks[k := Task(s.tasks[k].index, s.tasks[k].call + 1, s.channel.value)]))
  {
    hide Distinct;
    var s' := s.(tasks := s.tasks[k := Task(s.tasks[k].index, s.tasks[k].call + 1, s.channel.value)]);
    FewerSingle(s, s');
  }

  /** A loop that has not asked for it yet, or has gone past it, goes on with fewer registrations to come. */
  lemma MovedLoop(s: Client, i: nat, next: nat, call: nat)
    requires i < |s.running| && s.running[i].stage.SettingUp? && s.running[i].stage.on in s.live && Usable(s)
    requires next < s.consumers
    requires s.running[i].stage.next < next || (s.running[i].stage.next == next && s.running[i].stage.call < LAST_SETUP_CALL)
    ensures var s' := s.(running := s.running[i := s.running[i].(stage := SettingUp(s.channel.value, next, call))]);
            && (forall w, n: nat, on: nat | Claims(s', w, n, on) :: Claims(s, w, n, on))
            && (forall n: nat, on: nat | Claims(s', Loop(i), n, on) :: n >= next)
            && (Single(s) ==> Single(s'))
  {
    hide Distinct, Single;
    var s' := s.(running := s.running[i := s.running[i].(stage := SettingUp(s.channel.value, next, call))]);
    if Single(s) {
      SameDistinct(s);
      FewerSingle(s, s');
    }
  }

  lemma SameDistinct(s: Client)
    requires Single(s)
    ensures Distinct(s.subscribed)
  {
    hide Claims;
  }

  /** The registration a loop leaves behind is on nobody's way any more. */
  lemma PassedLoop(s: Client, i: nat)
    requires i < |s.running| && s.running[i].stage.SettingUp? && s.running[i].stage.call >= LAST_SETUP_CALL
    requires Single(s) && Answerable(s, s.running[i].stage.on)
    ensures var st := s.running[i].stage;
            var r := NextConsumer(s, i, st.next + 1);
            Single(r) && (st.on in s.live ==> forall w :: !Claims(r, w, st.next, st.on))
  {
    hide Claims, Succeed, Fail, Single;
    var st := s.running[i].stage;
    var r := NextConsumer(s, i, st.next + 1);
    LeaveFrame(s, i);
    if st.next + 1 >= s.consumers || s.channel.None? {
      LeftSingle(s, i, r);
      LeftPassed(s, i, r);
    } else if Usable(s) {
      MovedLoop(s, i, st.next + 1, 0);
      MovedPassed(s, i, r);
    } else {
      LeftSingle(s, i, r);
      LeftPassed(s, i, r);
    }
  }

  lemma LeftPassed(s: Client, i: nat, r: Client)
    requires i < |s.running| && s.running[i].stage.SettingUp? && s.running[i].stage.call >= LAST_SETUP_CALL && Single(s)
    requires forall w, n: nat, on: nat | Claims(r, w, n, on) :: Claims(s, BeforeLoop(i, w), n, on)
    ensures var st := s.running[i].stage; st.on in s.live ==> forall w :: !Claims(r, w, st.next, st.on)
  {
    hide Claims, Distinct;
    var st := s.running[i].stage;
    if st.on in s.live {
      AskedClaims(s, Loop(i));
      forall w ensures !Claims(r, w, st.next, st.on) {
        assert BeforeLoop(i, w) != Loop(i);
      }
    }
  }

  lemma MovedPassed(s: Client, i: nat, r: Client)
    requires i < |s.running| && s.running[i].stage.SettingUp? && s.running[i].stage.call >= LAST_SETUP_CALL && Single(s)
    requires forall w, n: nat, on: nat | Claims(r, w, n, on) :: Claims(s, w, n, on)
    requires forall n: nat, on: nat | Claims(r, Loop(i), n, on) :: n > s.running[i].stage.next
    ensures var st := s.running[i].stage; st.on in s.live ==> forall w :: !Claims(r, w, st.next, st.on)
  {
    hide Claims, Distinct;
    if s.running[i].stage.on in s.live {
      AskedClaims(s, Loop(i));
    }
  }

  function Record(s: Client, x: Subscription): Client {
    s.(subscribed := s.subscribed + [x])
  }

  lemma SucceedCommutes(s: Client, i: nat, x: Subscription)
    requires i < |s.running|
    ensures Succeed(Record(s, x), i) == Record(Succeed(s, i), x)
  {
    hide Without;
  }

  lemma FailCommutes(s: Client, i: nat, x: Subscription)
    requires i < |s.running|
    ensures Fail(Record(s, x), i) == Record(Fail(s, i), x)
  {
    hide Without, Min;
    if s.running[i].kind.Initial? {
      ScheduleCommutes(s.(running := Without(s.running, i)), x);
    }
  }

  lemma ScheduleCommutes(s: Client, x: Subscription)
    ensures ScheduleReconnect(Record(s, x)) == Record(ScheduleReconnect(s), x)
  {
  }

  /** Recording a subscription and going on with the loop commute. */
  lemma RecordCommutes(s: Client, i: nat, n: nat, on: nat, next: nat)
    requires i < |s.running| && on in s.live
    ensures var r := NextConsumer(s, i, next);
            NextConsumer(Subscribe(s, n, on), i, next) == r.(subscribed := r.subscribed + [Subscription(n, on)])
    ensures NextConsumer(s, i, next).subscribed == s.subscribed
  {
    hide Succeed, Fail;
    var x := Subscription(n, on);
    SucceedCommutes(s, i, x);
    FailCommutes(s, i, x);
    LeaveFrame(s, i);
    assert Subscribe(s, n, on) == Record(s, x);
  }

  lemma AnsweredLoop(s: Client, i: nat)
    requires i < |s.running| && s.running[i].stage.SettingUp? && s.running[i].stage.call >= LAST_SETUP_CALL
    requires Single(s) && Answerable(s, s.running[i].stage.on)
    ensures var st := s.running[i].stage; Single(NextConsumer(Subscribe(s, st.next, st.on), i, st.next + 1))
  {
    hide Claims, NextConsumer, Distinct;
    var st := s.running[i].stage;
    PassedLoop(s, i);
    if st.on in s.live {
      AskedClaims(s, Loop(i));
      RecordCommutes(s, i, st.next, st.on, st.next + 1);
      RecordSingle(NextConsumer(s, i, st.next + 1), st.next, st.on);
    }
  }

  /** A channel that is not put in place beside another set-up leaves only what is out already. */
  lemma AssignedClaims(s: Client, conn: nat)
    requires !PlacesBeside(s, conn)
    ensures var s' := AssignChannel(s, conn);
            && forall w, n: nat, on: nat | Claims(s', w, n, on) :: Claims(s, w, n, on) && Asked(s, w) && on == On(s, w)
  {
    var s' := AssignChannel(s, conn);
    forall w, n: nat, on: nat | Claims(s', w, n, on) ensures Claims(s, w, n, on) && Asked(s, w) && on == On(s, w) {
      if conn in s.live && Is(s, w) && On(s, w) in s.live {
        match w {
          case Own(k) => assert !TaskBusy(s, s.tasks[k]);
          case Loop(i) => assert !LoopBusy(s, s.running[i].stage);
        }
      }
    }
  }

  /** The attempt's own loop then begins on a channel on which nothing is and nothing is on its way. */
  lemma BegunSingle(s: Client, i: nat, conn: nat)
    requires i < |s.running| && !s.running[i].stage.SettingUp? && Unused(s, conn) && conn in s.live
    requires Single(s) && !PlacesBeside(s, conn)
    ensures var s' := AssignChannel(s, conn);
            Single(s'.(running := s'.running[i := s'.running[i].(stage := SettingUp(conn, 0, 0))]))
  {
    hide Distinct, PlacesBeside;
    var s1 := AssignChannel(s, conn);
    var s' := s1.(running := s1.running[i := s1.running[i].(stage := SettingUp(conn, 0, 0))]);
    AssignedClaims(s, conn);
    forall w, n: nat, on: nat | Claims(s', w, n, on) && w != Loop(i) ensures Claims(s1, w, n, on) && on != conn {
      BegunOthers(s1, s', i, conn, w, n, on);
      AskedOnUsed(s, w, conn);
    }
    assert forall n: nat, on: nat | Claims(s', Loop(i), n, on) :: on == conn;
    SingleWithOne(s, s', Loop(i), conn);
  }

  lemma BegunOthers(s1: Client, s': Client, i: nat, conn: nat, w: Id, n: nat, on: nat)
    requires i < |s1.running| && s' == s1.(running := s1.running[i := s1.running[i].(stage := SettingUp(conn, 0, 0))])
    requires w != Loop(i) && Claims(s', w, n, on)
    ensures Claims(s1, w, n, on)
  {
  }

  lemma AskedOnUsed(s: Client, w: Id, conn: nat)
    requires Unused(s, conn) && Asked(s, w)
    ensures On(s, w) != conn
  {
    match w {
      case Own(k) => assert s.tasks[k] in s.tasks;
      case Loop(i) => assert s.running[i] in s.running;
    }
  }

  /** One set-up with claims on a connection of its own beside fewer claims than before. */
  lemma SingleWithOne(s: Client, s': Client, own: Id, conn: nat)
    requires Single(s) && s'.subscribed == s.subscribed && forall x | x in s.subscribed :: x.on != conn
    requires forall w, n: nat, on: nat | Claims(s', w, n, on) && w != own :: Claims(s, w, n, on) && on != conn
    requires forall n: nat, on: nat | Claims(s', own, n, on) :: on == conn
    ensures Single(s')
  {
    hide Claims, Distinct;
  }

  /** The head of the loop over the registrations raises no history flag. */
  lemma SameOverlap(s: Client, i: nat, next: nat)
    requires i < |s.running|
    ensures NextConsumer(s, i, next).overlap == s.overlap && Fail(s, i).overlap == s.overlap
  {
    hide Succeed, Fail;
    LeaveFrame(s, i);
  }

  lemma NextSingle(s: Client, i: nat)
    requires i < |s.running| && Single(s)
    ensures Single(Succeed(s, i)) && Single(Fail(s, i))
  {
    hide Single, Succeed, Fail;
    LeaveFrame(s, i);
    LeftSingle(s, i, Succeed(s, i));
    LeftSingle(s, i, Fail(s, i));
  }

  lemma AssignSingle(s: Client, i: nat)
    requires i < |s.running| && s.running[i].stage.Opening? && Fresh(s) && Single(s)
    requires !PlacesBeside(s, s.running[i].stage.conn)
    ensures Single(NextConsumer(AssignChannel(s, s.running[i].stage.conn), i, 0))
  {
    hide Single, Succeed, Fail, PlacesBeside, Dialled, OpeningApart;
    var conn := s.running[i].stage.conn;
    var s1 := AssignChannel(s, conn);
    assert s.running[i] in s.running;
    assert s1.running == s.running && s1.subscribed == s.subscribed;
    AssignedSingle(s, conn);
    NextSingle(s1, i);
    if conn in s.live {
      BegunSingle(s, i, conn);
    }
  }

  lemma AssignedSingle(s: Client, conn: nat)
    requires Single(s) && !PlacesBeside(s, conn)
    ensures Single(AssignChannel(s, conn))
  {
    hide Claims, PlacesBeside, Single;
    AssignedClaims(s, conn);
    SameDistinct(s);
    FewerSingle(s, AssignChannel(s, conn));
  }

  lemma ConnectSingle(s: Client, i: nat)
    requires i < |s.running| && s.running[i].stage.Connecting? && Dialled(s) && Single(s)
    ensures Single(s.(running := s.running[i := s.running[i].(stage := Opening(s.dialled, 0))],
                      live := s.live + {s.dialled}, dialled := s.dialled + 1))
  {
    hide Single;
    var s' := s.(running := s.running[i := s.running[i].(stage := Opening(s.dialled, 0))],
                 live := s.live + {s.dialled}, dialled := s.dialled + 1);
    SameDistinct(s);
    forall w, n: nat, on: nat | Claims(s', w, n, on) ensures Claims(s, w, n, on) {
      match w {
        case Own(k) => assert s.tasks[k] in s.tasks;
        case Loop(j) => assert s.running[j] in s.running;
      }
    }
    FewerSingle(s, s');
  }

  lemma OpenedSingle(s: Client, i: nat, stage: Stage)
    requires i < |s.running| && s.running[i].stage.Opening? && stage.Opening? && Single(s)
    ensures Single(s.(running := s.running[i := s.running[i].(stage := stage)]))
  {
    hide Single;
    SameDistinct(s);
    FewerSingle(s, s.(running := s.running[i := s.running[i].(stage := stage)]));
  }

  lemma AdvanceSingle(s: Client, i: nat)
    requires i < |s.running| && Fresh(s) && InRange(s) && Single(s) && !AdvanceAttempt(s, i).overlap
    ensures Single(AdvanceAttempt(s, i))
  {
    hide Single, NextConsumer, Fail, Subscribe, OwnConnections, OpeningApart, PlacesBeside, InRange;
    NextSingle(s, i);
    match s.running[i].stage {
      case Connecting => ConnectSingle(s, i);
      case Opening(conn, call) =>
        if Answerable(s, conn) {
          if call >= LAST_OPENING_CALL {
            SameOverlap(AssignChannel(s, conn), i, 0);
            AssignSingle(s, i);
          } else {
            OpenedSingle(s, i, Opening(conn, call + 1));
          }
        }
      case SettingUp(on, next, call) =>
        if Answerable(s, on) {
          if call >= LAST_SETUP_CALL {
            AnsweredLoop(s, i);
          } else if Usable(s) {
            StageInRange(s, i);
            MovedLoop(s, i, next, call + 1);
          }
        }
    }
  }

  lemma TaskSingle(s: Client, k: nat)
    requires k < |s.tasks| && Single(s)
    ensures Single(AdvanceTask(s, k)) && Single(s.(tasks := Without(s.tasks, k)))
  {
    hide Single, Without, Subscribe;
    DropSingle(s, k);
    var t := s.tasks[k];
    if Answerable(s, t.on) {
      if t.call >= LAST_SETUP_CALL {
        AnsweredOwn(s, k);
      } else if Usable(s) {
        MovedOwn(s, k);
      }
    }
  }

  /** A registration made where no loop runs is on its way once, on its own. */
  lemma RegisterSingle(s: Client)
    requires Single(s) && InRange(s) && !Register(s).overlap
    ensures Single(Register(s))
  {
    hide Distinct;
    var s' := Register(s);
    if Usable(s) {
      assert s'.tasks[|s.tasks|] == Task(s.consumers, 0, s.channel.value);
      forall w, n: nat, on: nat | Claims(s', w, n, on) && w != Own(|s.tasks|) ensures Claims(s, w, n, on) && n < s.consumers {
        OldClaims(s, w, n, on);
      }
      OwnClaimIsNew(s);
      SingleWithNew(s, s', Own(|s.tasks|), s.consumers);
    } else {
      assert forall w, n: nat, on: nat | Claims(s', w, n, on) :: Claims(s, w, n, on);
      FewerSingle(s, s');
    }
  }

  lemma OldClaims(s: Client, w: Id, n: nat, on: nat)
    requires InRange(s) && Usable(s) && !RegistersBeside(s)
    requires Claims(Register(s), w, n, on) && w != Own(|s.tasks|)
    ensures Claims(s, w, n, on) && n < s.consumers
  {
    if w.Own? && 0 <= w.k < |s.tasks| {
      assert s.tasks[w.k] in s.tasks;
    }
  }

  lemma OwnClaimIsNew(s: Client)
    requires Usable(s)
    ensures forall n: nat, on: nat | Claims(Register(s), Own(|s.tasks|), n, on) :: n == s.consumers
  {
    hide RegistersBeside;
  }

  /** One set-up with claims to a registration of its own beside fewer claims than before. */
  lemma SingleWithNew(s: Client, s': Client, own: Id, number: nat)
    requires Single(s) && s'.subscribed == s.subscribed && forall x | x in s.subscribed :: x.index < number
    requires forall w, n: nat, on: nat | Claims(s', w, n, on) && w != own :: Claims(s, w, n, on) && n < number
    requires forall n: nat, on: nat | Claims(s', own, n, on) :: n == number
    ensures Single(s')
  {
    hide Claims, Distinct;
  }

  lemma CloseSingle(s: Client, conn: nat)
    requires Single(s)
    ensures Single(HandleClose(s, conn))
  {
    hide Elsewhere, Single;
    ElsewhereMembers(s.subscribed, conn);
    SameDistinct(s);
    var s' := HandleClose(s, conn);
    assert forall j | 0 <= j < |s.running| :: s'.running[j].stage == s.running[j].stage;
    forall w, n: nat, on: nat | Claims(s', w, n, on) ensures Claims(s, w, n, on) {
    }
    FewerSingle(s, s');
  }

  lemma TimerSingle(s: Client)
    requires Single(s)
    ensures Single(s.(closing := true)) && (s.timers > 0 ==> Single(FireTimer(s)))
  {
    hide Single;
    SameDistinct(s);
    FewerSingle(s, s.(closing := true));
    if s.timers > 0 {
      FewerSingle(s, FireTimer(s));
    }
  }

  lemma StepSingle(s: Client, a: Action)
    requires Fresh(s) && InRange(s) && Single(s) && !Step(s, a).overlap
    ensures Single(Step(s, a))
  {
    hide Single, Fresh, InRange, AdvanceAttempt, Fail, HandleClose, Register, FireTimer, AdvanceTask, Without;
    TimerSingle(s);
    match a {
      case Advance(i) => if i < |s.running| { AdvanceSingle(s, i); }
      case Reject(i) => if i < |s.running| { NextSingle(s, i); }
      case TaskAdvances(k) => if k < |s.tasks| { TaskSingle(s, k); }
      case TaskRejected(k) => if k < |s.tasks| { TaskSingle(s, k); }
      case CloseEvent(conn) => CloseSingle(s, conn);
      case Consume => RegisterSingle(s);
      case _ =>
    }
  }

  // A loop goes on over the channel it began on.

  lemma LeftSteady(s: Client, i: nat, s': Client)
    requires i < |s.running| && Steady(s) && s'.running == Without(s.running, i)
    requires s'.channel == s.channel && s'.live == s.live && s'.consumers == s.consumers && s'.subscribed == s.subscribed
    ensures Steady(s')
  {
    hide Without;
    WithoutMembers(s.running, i);
    forall a | a in s'.running ensures SteadyAt(s', a.stage) {
      assert SteadyAt(s, a.stage);
    }
  }

  lemma LeaveSteady(s: Client, i: nat)
    requires i < |s.running| && Steady(s)
    ensures Steady(Succeed(s, i)) && Steady(Fail(s, i))
  {
    hide Steady, Succeed, Fail;
    LeaveFrame(s, i);
    LeftSteady(s, i, Succeed(s, i));
    LeftSteady(s, i, Fail(s, i));
  }

  lemma MovedSteady(s: Client, i: nat, next: nat, call: nat)
    requires i < |s.running| && Steady(s) && Usable(s)
    requires forall n: nat | n < next :: Subscription(n, s.channel.value) in s.subscribed
    ensures Steady(s.(running := s.running[i := s.running[i].(stage := SettingUp(s.channel.value, next, call))]))
  {
    var s' := s.(running := s.running[i := s.running[i].(stage := SettingUp(s.channel.value, next, call))]);
    forall a | a in s'.running ensures SteadyAt(s', a.stage) {
      assert a in s.running ==> SteadyAt(s, a.stage);
    }
  }

  lemma AnsweredSteady(s: Client, n: nat, on: nat)
    requires Steady(s)
    ensures Steady(Subscribe(s, n, on))
  {
    forall a | a in s.running ensures SteadyAt(Subscribe(s, n, on), a.stage) {
      assert SteadyAt(s, a.stage);
    }
  }

  /** What a busy loop has behind it. */
  lemma Behind(s: Client, i: nat)
    requires i < |s.running| && s.running[i].stage.SettingUp? && s.running[i].stage.on in s.live && Steady(s)
    ensures var st := s.running[i].stage;
            && (Usable(s) && LoopBusy(s, st) ==> s.channel.value == st.on)
            && forall n: nat | n < st.next :: Subscription(n, st.on) in s.subscribed
  {
    assert s.running[i] in s.running && SteadyAt(s, s.running[i].stage);
  }

  lemma NextSteady(s: Client, i: nat, next: nat)
    requires i < |s.running| && Steady(s)
    requires Usable(s) && next < s.consumers ==> forall n: nat | n < next :: Subscription(n, s.channel.value) in s.subscribed
    ensures Steady(NextConsumer(s, i, next))
  {
    hide Steady, Succeed, Fail;
    LeaveSteady(s, i);
    if Usable(s) && next < s.consumers {
      MovedSteady(s, i, next, 0);
    }
  }

  lemma AssignedSteady(s: Client, conn: nat)
    requires Steady(s) && !PlacesBeside(s, conn)
    ensures Steady(AssignChannel(s, conn))
  {
    var s' := AssignChannel(s, conn);
    forall a | a in s'.running ensures SteadyAt(s', a.stage) {
      assert a in s.running ==> SteadyAt(s, a.stage);
    }
  }

  lemma ConnectSteady(s: Client, i: nat)
    requires i < |s.running| && Dialled(s) && Steady(s)
    ensures Steady(s.(running := s.running[i := s.running[i].(stage := Opening(s.dialled, 0))],
                      live := s.live + {s.dialled}, dialled := s.dialled + 1))
  {
    var s' := s.(running := s.running[i := s.running[i].(stage := Opening(s.dialled, 0))],
                 live := s.live + {s.dialled}, dialled := s.dialled + 1);
    forall a | a in s'.running ensures SteadyAt(s', a.stage) {
      assert a in s.running ==> SteadyAt(s, a.stage);
    }
  }

  lemma OpenedSteady(s: Client, i: nat, stage: Stage)
    requires i < |s.running| && stage.Opening? && Steady(s)
    ensures Steady(s.(running := s.running[i := s.running[i].(stage := stage)]))
  {
    var s' := s.(running := s.running[i := s.running[i].(stage := stage)]);
    forall a | a in s'.running ensures SteadyAt(s', a.stage) {
      assert a in s.running ==> SteadyAt(s, a.stage);
    }
  }

  lemma LoopSteady(s: Client, i: nat)
    requires i < |s.running| && s.running[i].stage.SettingUp? && Steady(s)
    ensures Steady(AdvanceAttempt(s, i))
  {
    hide Steady, NextConsumer, Fail;
    var st := s.running[i].stage;
    LeaveSteady(s, i);
    if Answerable(s, st.on) {
      if st.on in s.live {
        Behind(s, i);
      }
      if st.call >= LAST_SETUP_CALL {
        AnsweredSteady(s, st.next, st.on);
        NextSteady(Subscribe(s, st.next, st.on), i, st.next + 1);
      } else if Usable(s) {
        MovedSteady(s, i, st.next, st.call + 1);
      }
    }
  }

  lemma AdvanceSteady(s: Client, i: nat)
    requires i < |s.running| && Fresh(s) && Steady(s) && !AdvanceAttempt(s, i).overlap
    ensures Steady(AdvanceAttempt(s, i))
  {
    hide Steady, NextConsumer, Fail, Subscribe, OwnConnections, OpeningApart, PlacesBeside;
    LeaveSteady(s, i);
    match s.running[i].stage {
      case Connecting => ConnectSteady(s, i);
      case Opening(conn, call) =>
        if Answerable(s, conn) {
          if call >= LAST_OPENING_CALL {
            SameOverlap(AssignChannel(s, conn), i, 0);
            AssignedSteady(s, conn);
            NextSteady(AssignChannel(s, conn), i, 0);
          } else {
            OpenedSteady(s, i, Opening(conn, call + 1));
          }
        }
      case SettingUp(on, next, call) => LoopSteady(s, i);
    }
  }

  lemma TaskSteady(s: Client, k: nat)
    requires k < |s.tasks| && Steady(s)
    ensures Steady(AdvanceTask(s, k)) && Steady(s.(tasks := Without(s.tasks, k)))
  {
    hide Without, Subscribe, Steady;
    var t, dropped := s.tasks[k], s.(tasks := Without(s.tasks, k));
    TasksSteady(s, dropped.tasks);
    AnsweredSteady(dropped, t.index, t.on);
    if Usable(s) {
      TasksSteady(s, s.tasks[k := Task(t.index, t.call + 1, s.channel.value)]);
    }
  }

  lemma TasksSteady(s: Client, tasks: seq<Task>)
    requires Steady(s)
    ensures Steady(s.(tasks := tasks))
  {
    forall a | a in s.running ensures SteadyAt(s.(tasks := tasks), a.stage) {
      assert SteadyAt(s, a.stage);
    }
  }

  lemma RegisterSteady(s: Client)
    requires Steady(s) && !Register(s).overlap
    ensures Steady(Register(s))
  {
    var s' := Register(s);
    forall a | a in s'.running ensures SteadyAt(s', a.stage) {
      assert a in s.running ==> SteadyAt(s, a.stage);
    }
  }

  lemma CloseSteady(s: Client, conn: nat)
    requires Steady(s)
    ensures Steady(HandleClose(s, conn))
  {
    hide Elsewhere, Hit;
    ElsewhereMembers(s.subscribed, conn);
    HitMembers(s.running);
    var s' := HandleClose(s, conn);
    forall a | a in s'.running ensures SteadyAt(s', a.stage) {
      var b :| b in s.running && b.stage == a.stage;
      assert SteadyAt(s, b.stage);
    }
  }

  lemma TimerSteady(s: Client)
    requires Steady(s)
    ensures Steady(s.(closing := true)) && (s.timers > 0 ==> Steady(FireTimer(s)))
  {
    forall a | a in s.running ensures SteadyAt(s.(closing := true), a.stage) {
      assert SteadyAt(s, a.stage);
    }
    if s.timers > 0 {
      forall a | a in FireTimer(s).running ensures SteadyAt(FireTimer(s), a.stage) {
        assert a in s.running ==> SteadyAt(s, a.stage);
      }
    }
  }

  lemma StepSteady(s: Client, a: Action)
    requires Fresh(s) && Steady(s) && !Step(s, a).overlap
    ensures Steady(Step(s, a))
  {
    hide Steady, Fresh, AdvanceAttempt, Fail, HandleClose, Register, FireTimer, AdvanceTask, Without;
    TimerSteady(s);
    match a {
      case Advance(i) => if i < |s.running| { AdvanceSteady(s, i); }
      case Reject(i) => if i < |s.running| { LeaveSteady(s, i); }
      case TaskAdvances(k) => if k < |s.tasks| { TaskSteady(s, k); }
      case TaskRejected(k) => if k < |s.tasks| { TaskSteady(s, k); }
      case CloseEvent(conn) => CloseSteady(s, conn);
      case Consume => RegisterSteady(s);
      case _ =>
    }
  }

  /** The history flag stays up. */
  lemma OverlapStays(s: Client, a: Action)
    requires s.overlap
    ensures Step(s, a).overlap
  {
    hide Without, NextConsumer, Fail, PlacesBeside, RegistersBeside;
    match a {
      case Advance(i) =>
        if i < |s.running| {
          SameOverlap(s, i, 0);
          match s.running[i].stage {
            case Connecting =>
            case Opening(conn, _) => SameOverlap(AssignChannel(s, conn), i, 0);
            case SettingUp(on, next, _) => SameOverlap(Subscribe(s, next, on), i, next + 1);
          }
        }
      case Reject(i) => if i < |s.running| { SameOverlap(s, i, 0); }
      case _ =>
    }
  }

  lemma StepSubscriptions(s: Client, a: Action)
    requires Subscriptions(s)
    ensures Subscriptions(Step(s, a))
  {
    hide Fresh, InRange, Single, Steady, Step;
    StepFresh(s, a);
    StepInRange(s, a);
    if !Step(s, a).overlap {
      if s.overlap {
        OverlapStays(s, a);
      }
      StepSingle(s, a);
      StepSteady(s, a);
    }
  }

  /** Unless a set-up has started beside another one, no registration consumes twice on one channel. */
  lemma {:induction false} SubscribedOnce(acts: seq<Action>)
    ensures Subscriptions(Exec(Start(), acts))
    ensures !Exec(Start(), acts).overlap ==> Distinct(Exec(Start(), acts).subscribed)
  {
    hide Step;
    if acts != [] {
      SubscribedOnce(acts[..|acts| - 1]);
      StepSubscriptions(Exec(Start(), acts[..|acts| - 1]), acts[|acts| - 1]);
      hide Subscriptions;
    }
  }

  /** An attempt that gets through the loop on the channel in place leaves every registration consuming on it, once. */
  lemma SuccessSubscribesAll(s: Client, i: nat)
    requires Subscriptions(s) && !s.overlap && Is(s, Loop(i)) && Usable(s) && s.channel.value == On(s, Loop(i))
    requires s.running[i].stage.call >= LAST_SETUP_CALL && s.running[i].stage.next + 1 >= s.consumers
    ensures var s' := Step(s, Advance(i));
            && |s'.running| == |s.running| - 1 && s'.consumers == s.consumers && s'.channel == s.channel && Usable(s')
            && Distinct(s'.subscribed)
            && forall n: nat | n < s.consumers :: Subscription(n, s.channel.value) in s'.subscribed
  {
    hide Distinct, Claims, Fresh, InRange;
    Behind(s, i);
    StepSubscriptions(s, Advance(i));
    SameOverlap(Subscribe(s, s.running[i].stage.next, s.running[i].stage.on), i, s.running[i].stage.next + 1);
  }

  // A registration that comes late.

  /** The loop's last call is answered. */
  lemma LoopEnds(s: Client, a: Attempt)
    requires s.running == [a] && a.stage == SettingUp(0, 1, 5) && s.channel == Some(0) && 0 in s.live && s.consumers == 2
    ensures var s' := Step(s, Advance(0));
            s'.subscribed == s.subscribed + [Subscription(1, 0)] && s'.tasks == s.tasks && s'.live == s.live
  {
    hide Succeed, Fail, AssignChannel;
    LeaveFrame(Subscribe(s, 1, 0), 0);
  }

  /** The registration's own last call is answered. */
  lemma OwnEnds(s: Client)
    requires s.tasks == [Task(1, 5, 0)] && 0 in s.live
    ensures Step(s, TaskAdvances(0)).subscribed == s.subscribed + [Subscription(1, 0)]
  {
    hide AdvanceAttempt, Fail, FireTimer, HandleClose, Register;
  }

  /** Both the loop and the registration's own set-up are at their last call, and both are answered. */
  lemma BothEnd(s: Client, a: Attempt)
    requires s.running == [a] && a.stage == SettingUp(0, 1, 5) && s.channel == Some(0) && 0 in s.live
    requires s.consumers == 2 && s.tasks == [Task(1, 5, 0)] && s.subscribed == [Subscription(0, 0)]
    ensures Exec(s, [Advance(0), TaskAdvances(0)]).subscribed ==
            [Subscription(0, 0), Subscription(1, 0), Subscription(1, 0)]
  {
    hide Exec, Step;
    LoopEnds(s, a);
    OwnEnds(Step(s, Advance(0)));
    TwoThen(s, Step(s, Advance(0)), Advance(0), TaskAdvances(0));
  }

  /** The registration is made, and the loop goes on to it. */
  lemma LoopFindsLate(s: Client, a: Attempt)
    requires s.running == [a] && a.stage == SettingUp(0, 0, 5) && s.channel == Some(0) && 0 in s.live
    requires s.consumers == 1 && s.tasks == [] && s.subscribed == []
    ensures var s' := Exec(s, [Consume, Advance(0)]);
            && s'.running == [a.(stage := SettingUp(0, 1, 0))] && s'.channel == Some(0) && s'.live == s.live
            && s'.consumers == 2 && s'.tasks == [Task(1, 0, 0)] && s'.subscribed == [Subscription(0, 0)]
  {
    hide Exec, Fail, AssignChannel;
    var s' := Step(s, Consume);
    assert s'.tasks == [Task(1, 0, 0)] && s'.consumers == 2;
    TwoThen(s, s', Consume, Advance(0));
  }

  /** A registration that arrives while the loop over the registrations runs is set up by both. */
  lemma LateConsumeSubscribesTwice(s: Client, a: Attempt)
    requires s.running == [a] && a.stage == SettingUp(0, 0, 5) && s.channel == Some(0) && 0 in s.live
    requires s.consumers == 1 && s.tasks == [] && s.subscribed == []
    ensures var taskRun := [TaskAdvances(0), TaskAdvances(0), TaskAdvances(0), TaskAdvances(0), TaskAdvances(0)];
            Exec(s, (([Consume, Advance(0)] + SetupCalls(0)) + (taskRun + [Advance(0), TaskAdvances(0)]))).subscribed
            == [Subscription(0, 0), Subscription(1, 0), Subscription(1, 0)]
  {
    hide Exec, Step, SetupCalls;
    var taskRun := [TaskAdvances(0), TaskAdvances(0), TaskAdvances(0), TaskAdvances(0), TaskAdvances(0)];
    LoopFindsLate(s, a);
    var s2 := Exec(s, [Consume, Advance(0)]);
    SetupProceeds(s2, 0, 1);
    var s3 := Exec(s2, SetupCalls(0));
    TaskProceeds(s3, 1, 0);
    BothEnd(Exec(s3, taskRun), a.(stage := SettingUp(0, 1, 5)));
    ExecAppend(s, [Consume, Advance(0)], SetupCalls(0));
    ExecAppend(s3, taskRun, [Advance(0), TaskAdvances(0)]);
    ExecAppend(s, [Consume, Advance(0)] + SetupCalls(0), taskRun + [Advance(0), TaskAdvances(0)]);
  }

  /** One call of a registration's own set-up is answered. */
  lemma TaskCall(s: Client, index: nat, call: nat, on: nat)
    requires s.tasks == [Task(index, call, on)] && call < LAST_SETUP_CALL && s.channel == Some(on) && on in s.live
    ensures Step(s, TaskAdvances(0)) == s.(tasks := [Task(index, call + 1, on)])
  {
    hide AdvanceAttempt, Fail, FireTimer, HandleClose, Register;
  }

  lemma TaskProceeds(s: Client, index: nat, on: nat)
    requires s.tasks == [Task(index, 0, on)] && s.channel == Some(on) && on in s.live
    ensures Exec(s, [TaskAdvances(0), TaskAdvances(0), TaskAdvances(0), TaskAdvances(0), TaskAdvances(0)]) ==
            s.(tasks := [Task(index, 5, on)])
  {
    hide Step, Exec;
    TaskCall(s, index, 0, on);
    TaskCall(s.(tasks := [Task(index, 1, on)]), index, 1, on);
    TaskCall(s.(tasks := [Task(index, 2, on)]), index, 2, on);
    TaskCall(s.(tasks := [Task(index, 3, on)]), index, 3, on);
    TaskCall(s.(tasks := [Task(index, 4, on)]), index, 4, on);
    ExecFive(s, [TaskAdvances(0), TaskAdvances(0), TaskAdvances(0), TaskAdvances(0), TaskAdvances(0)]);
  }

  /** Such a state is reached: one registration, and the first attempt at the end of setting it up. */
  lemma FirstSetupReached()
    ensures var s := Exec(Start(), [Consume, Advance(0), Advance(0), Advance(0), Advance(0)] + SetupCalls(0));
            && s.running == [Attempt(Initial, SettingUp(0, 0, 5), false)] && s.channel == Some(0) && 0 in s.live
            && s.consumers == 1 && s.tasks == [] && s.subscribed == []
  {
    hide Exec;
    var first := [Consume, Advance(0), Advance(0), Advance(0), Advance(0)];
    ExecFive(Start(), first);
    FirstAttemptOpens(Start());
    ExecAppend(Start(), first, SetupCalls(0));
    SetupProceeds(Exec(Start(), first), 0, 0);
  }

  lemma FirstAttemptOpens(s: Client)
    requires s.running == [Attempt(Initial, Connecting, false)] && s.channel.None? && s.consumers == 0
    requires s.tasks == [] && s.subscribed == [] && s.dialled == 0
    ensures var r := Step(Step(Step(Step(Step(s, Consume), Advance(0)), Advance(0)), Advance(0)), Advance(0));
            && r.running == [Attempt(Initial, SettingUp(0, 0, 0), false)] && r.channel == Some(0) && 0 in r.live
            && r.consumers == 1 && r.tasks == [] && r.subscribed == []
  {
    hide Fail, FireTimer, HandleClose, PlacesBeside;
    var s1 := s.(consumers := 1);
    var s2 := s1.(running := [Attempt(Initial, Opening(0, 0), false)], live := s.live + {0}, dialled := 1);
    var s3 := s2.(running := [Attempt(Initial, Opening(0, 1), false)]);
    var s4 := s2.(running := [Attempt(Initial, Opening(0, 2), false)]);
    assert Step(s, Consume) == s1;
    assert Step(s1, Advance(0)) == s2;
    assert Step(s2, Advance(0)) == s3;
    assert Step(s3, Advance(0)) == s4;
  }
}
