/**
 The broker client's connection protocol, one step per await: establishing a connection and its
 channel, setting up consumers on it, close events at any moment, and the reconnect loop with its
 capped backoff. A call may be answered or fail, whatever happened meanwhile, with two limits: a call
 that goes out on a closed connection fails, and the answer to a call that was out when its connection
 closed comes in before a new channel is in place, or not at all.
 */
module RabbitConnection {
  import opened Options

  const BASE_RECONNECT_DELAY_MS := 2000
  const MAX_RECONNECT_DELAY_MS := 30000

  /**
   The await an attempt to establish is at; setting up one consumer takes six calls. `conn` is the
   attempt's own connection, `on` the one whose channel the call has gone out on.
   */
  datatype Stage =
    | Connecting
    | Opening(conn: nat, call: nat)
    | SettingUp(on: nat, next: nat, call: nat)

  const LAST_OPENING_CALL := 2
  const LAST_SETUP_CALL := 5

  datatype Kind = Initial | Retry

  /** A running attempt; `hit` records that a close event has fired while it ran. */
  datatype Attempt = Attempt(kind: Kind, stage: Stage, hit: bool)

  /** A `consume` call that found a channel and sets its registration up by itself. */
  datatype Task = Task(index: nat, call: nat, on: nat)

  /** A registration consuming on the channel of a connection. */
  datatype Subscription = Subscription(index: nat, on: nat)

  /**
   `channel` names the connection its channel is on, and `live` the connections that have not closed.
   `subscribed` lists what is consuming on any of them. `failures`, `hitRetrySucceeded` and `overlap` are
   history: failed retries since the channel was last set, whether a retry that was hit has succeeded,
   and whether a set-up has started beside another one.
   */
  datatype Client = Client(
    channel: Option<nat>,
    closing: bool,
    reconnecting: bool,
    delayMs: nat,
    timers: nat,
    running: seq<Attempt>,
    live: set<nat>,
    dialled: nat,
    consumers: nat,
    tasks: seq<Task>,
    subscribed: seq<Subscription>,
    failures: nat,
    hitRetrySucceeded: bool,
    overlap: bool)

  datatype Action =
    | Advance(i: nat)
    | Reject(i: nat)
    | TimerFires
    | CloseEvent(conn: nat)
    | Consume
    | TaskAdvances(k: nat)
    | TaskRejected(k: nat)
    | Shutdown

  /** Module initialisation has just called `establish`. */
  function Start(): Client {
    Client(None, false, false, BASE_RECONNECT_DELAY_MS, 0, [Attempt(Initial, Connecting, false)], {}, 0, 0, [], [],
           0, false, false)
  }

  function ScheduleReconnect(s: Client): Client {
    if s.closing || s.reconnecting then s else s.(reconnecting := true, timers := s.timers + 1)
  }

  function Without<T>(xs: seq<T>, i: nat): seq<T>
    requires i < |xs|
  {
    xs[..i] + xs[i + 1..]
  }

  function Min(a: nat, b: nat): nat {
    if a <= b then a else b
  }

  /** `establish` has returned. */
  function Succeed(s: Client, i: nat): Client
    requires i < |s.running|
  {
    var rest := s.(running := Without(s.running, i));
    if s.running[i].kind.Initial? then rest
    else rest.(reconnecting := false, hitRetrySucceeded := s.hitRetrySucceeded || s.running[i].hit)
  }

  /** `establish` has thrown. */
  function Fail(s: Client, i: nat): Client
    requires i < |s.running|
  {
    var rest := s.(running := Without(s.running, i));
    if s.running[i].kind.Initial? then ScheduleReconnect(rest)
    else rest.(delayMs := Min(s.delayMs * 2, MAX_RECONNECT_DELAY_MS), timers := s.timers + 1, failures := s.failures + 1)
  }

  /** There is a channel, and calls on it go out. */
  predicate Usable(s: Client) {
    s.channel.Some? && s.channel.value in s.live
  }

  /** The answer to a call out on this connection can still come in. */
  predicate Answerable(s: Client, on: nat) {
    on in s.live || s.channel.None?
  }

  /**
   The loop over the registrations, at its head. Without a channel every remaining set-up returns at
   once; on the channel of a closed connection the first call fails.
   */
  function NextConsumer(s: Client, i: nat, next: nat): Client
    requires i < |s.running|
  {
    if next >= s.consumers || s.channel.None? then Succeed(s, i)
    else if Usable(s) then s.(running := s.running[i := s.running[i].(stage := SettingUp(s.channel.value, next, 0))])
    else Fail(s, i)
  }

  /** The answer to the call that subscribes: the consumer is there, unless its connection has closed. */
  function Subscribe(s: Client, index: nat, on: nat): Client {
    if on in s.live then s.(subscribed := s.subscribed + [Subscription(index, on)]) else s
  }

  /** The set-up still has a call to make after the one that is out. */
  predicate TaskBusy(s: Client, t: Task) {
    t.on in s.live && t.call < LAST_SETUP_CALL
  }

  predicate LoopBusy(s: Client, stage: Stage) {
    stage.SettingUp? && stage.on in s.live && (stage.call < LAST_SETUP_CALL || stage.next + 1 < s.consumers)
  }

  /** A registration made now is set up beside a loop that will come to it. */
  predicate RegistersBeside(s: Client) {
    Usable(s) && exists j | 0 <= j < |s.running| :: s.running[j].stage.SettingUp? && s.running[j].stage.on in s.live
  }

  /** A channel put in place now is set up beside another set-up that will go on over it. */
  predicate PlacesBeside(s: Client, conn: nat) {
    conn in s.live &&
    ((exists k | 0 <= k < |s.tasks| :: TaskBusy(s, s.tasks[k])) ||
     exists j | 0 <= j < |s.running| :: LoopBusy(s, s.running[j].stage))
  }

  /** The new channel is in place, also when its connection has closed in the meantime. */
  function AssignChannel(s: Client, conn: nat): Client {
    s.(channel := Some(conn), delayMs := BASE_RECONNECT_DELAY_MS, failures := 0,
       overlap := s.overlap || PlacesBeside(s, conn))
  }

  /** The call an attempt is waiting for has been answered. */
  function AdvanceAttempt(s: Client, i: nat): Client
    requires i < |s.running|
  {
    var a := s.running[i];
    match a.stage
    case Connecting =>
      s.(running := s.running[i := a.(stage := Opening(s.dialled, 0))],
         live := s.live + {s.dialled}, dialled := s.dialled + 1)
    case Opening(conn, call) =>
      if !Answerable(s, conn) then s
      else if call >= LAST_OPENING_CALL then NextConsumer(AssignChannel(s, conn), i, 0)
      else if conn in s.live then s.(running := s.running[i := a.(stage := Opening(conn, call + 1))])
      else Fail(s, i)
    case SettingUp(on, next, call) =>
      if !Answerable(s, on) then s
      else if call >= LAST_SETUP_CALL then NextConsumer(Subscribe(s, next, on), i, next + 1)
      else if Usable(s) then s.(running := s.running[i := a.(stage := SettingUp(s.channel.value, next, call + 1))])
      else Fail(s, i)
  }

  function FireTimer(s: Client): Client
    requires s.timers > 0
  {
    var rest := s.(timers := s.timers - 1);
    if s.closing then rest.(reconnecting := false)
    else rest.(running := s.running + [Attempt(Retry, Connecting, false)])
  }

  function Hit(running: seq<Attempt>): seq<Attempt> {
    seq(|running|, i requires 0 <= i < |running| => running[i].(hit := true))
  }

  /** The subscriptions on other connections. */
  function Elsewhere(subscribed: seq<Subscription>, conn: nat): seq<Subscription> {
    if subscribed == [] then []
    else
      var init, last := Elsewhere(subscribed[..|subscribed| - 1], conn), subscribed[|subscribed| - 1];
      if last.on != conn then init + [last] else init
  }

  /**
   Any connection's close event clears the channel, whichever connection the channel was on; only the
   consumers on the connection itself are gone.
   */
  function HandleClose(s: Client, conn: nat): Client {
    ScheduleReconnect(s.(channel := None, live := s.live - {conn}, running := Hit(s.running),
                         subscribed := Elsewhere(s.subscribed, conn)))
  }

  /** A registration sets itself up if there is a channel, unless its first call fails. */
  function Register(s: Client): Client {
    var registered := s.(consumers := s.consumers + 1);
    if !Usable(s) then registered
    else
      registered.(tasks := s.tasks + [Task(s.consumers, 0, s.channel.value)],
                  overlap := s.overlap || RegistersBeside(s))
  }

  function AdvanceTask(s: Client, k: nat): Client
    requires k < |s.tasks|
  {
    var task := s.tasks[k];
    if !Answerable(s, task.on) then s
    else if task.call >= LAST_SETUP_CALL then Subscribe(s.(tasks := Without(s.tasks, k)), task.index, task.on)
    else if Usable(s) then s.(tasks := s.tasks[k := Task(task.index, task.call + 1, s.channel.value)])
    else s.(tasks := Without(s.tasks, k))
  }

  function Step(s: Client, a: Action): Client {
    match a
    case Advance(i) => if i < |s.running| then AdvanceAttempt(s, i) else s
    case Reject(i) => if i < |s.running| then Fail(s, i) else s
    case TimerFires => if s.timers > 0 then FireTimer(s) else s
    case CloseEvent(conn) => if conn in s.live then HandleClose(s, conn) else s
    case Consume => Register(s)
    case TaskAdvances(k) => if k < |s.tasks| then AdvanceTask(s, k) else s
    case TaskRejected(k) => if k < |s.tasks| then s.(tasks := Without(s.tasks, k)) else s
    case Shutdown => s.(closing := true)
  }

  function Exec(s: Client, acts: seq<Action>): Client {
    if acts == [] then s else Step(Exec(s, acts[..|acts| - 1]), acts[|acts| - 1])
  }

  function Retries(running: seq<Attempt>): nat {
    if running == [] then 0
    else Retries(running[..|running| - 1]) + if running[|running| - 1].kind.Retry? then 1 else 0
  }

  function Pow2(n: nat): nat {
    if n == 0 then 1 else 2 * Pow2(n - 1)
  }

  /** The pending timers and running retries are one loop while `reconnecting`, and none otherwise. */
  ghost predicate SingleLoop(s: Client) {
    s.timers + Retries(s.running) == if s.reconnecting then 1 else 0
  }

  ghost predicate Backoff(s: Client) {
    s.delayMs == Min(BASE_RECONNECT_DELAY_MS * Pow2(s.failures), MAX_RECONNECT_DELAY_MS)
  }

  /**
   An attempt at its set-up stage that no close event has hit has a usable channel, and one whose own
   connection has closed has been hit.
   */
  ghost predicate UnhitHasChannel(s: Client) {
    && (forall i | 0 <= i < |s.running| && s.running[i].stage.SettingUp? && !s.running[i].hit :: Usable(s))
    && (forall i | 0 <= i < |s.running| && s.running[i].stage.Opening? && !s.running[i].hit ::
          s.running[i].stage.conn in s.live)
  }

  predicate IsUnhitInitial(running: seq<Attempt>, i: int) {
    0 <= i < |running| && running[i].kind.Initial? && !running[i].hit
  }

  ghost predicate UnhitInitialRunning(s: Client) {
    exists i :: IsUnhitInitial(s.running, i)
  }

  /** Without a usable channel, the loop is on or the first attempt is still running undisturbed. */
  ghost predicate Alive(s: Client) {
    !s.closing && !s.hitRetrySucceeded && !Usable(s) ==> s.reconnecting || UnhitInitialRunning(s)
  }

  /** The service has no channel on a live connection, and nothing under way that could give it one. */
  ghost predicate Stranded(s: Client) {
    !s.closing && !Usable(s) && s.timers == 0 && s.running == []
  }

  lemma {:induction false} RetriesAppend(a: seq<Attempt>, b: seq<Attempt>)
    ensures Retries(a + b) == Retries(a) + Retries(b)
  {
    if b == [] {
      assert a + b == a;
    } else {
      RetriesAppend(a, b[..|b| - 1]);
      assert (a + b)[..|a + b| - 1] == a + b[..|b| - 1];
    }
  }

  lemma RetriesOne(a: Attempt)
    ensures Retries([a]) == if a.kind.Retry? then 1 else 0
  {
    assert [a][..0] == [];
  }

  lemma RetriesWithout(running: seq<Attempt>, i: nat)
    requires i < |running|
    ensures Retries(running) == Retries(Without(running, i)) + if running[i].kind.Retry? then 1 else 0
  {
    hide Retries;
    RetriesAppend(running[..i], running[i + 1..]);
    RetriesAppend(running[..i], [running[i]]);
    RetriesOne(running[i]);
    RetriesAppend(running[..i] + [running[i]], running[i + 1..]);
    assert running == (running[..i] + [running[i]]) + running[i + 1..];
  }

  /** Only an attempt's kind counts, not where it stands. */
  lemma {:induction false} RetriesByKind(a: seq<Attempt>, b: seq<Attempt>)
    requires |a| == |b| && forall i | 0 <= i < |a| :: a[i].kind == b[i].kind
    ensures Retries(a) == Retries(b)
  {
    if a != [] {
      RetriesByKind(a[..|a| - 1], b[..|b| - 1]);
    }
  }

  lemma SucceedLoop(s: Client, i: nat)
    requires i < |s.running| && SingleLoop(s)
    ensures SingleLoop(Succeed(s, i)) && SingleLoop(Fail(s, i))
  {
    hide Retries;
    RetriesWithout(s.running, i);
  }

  lemma MoveLoop(s: Client, i: nat, stage: Stage)
    requires i < |s.running| && SingleLoop(s)
    ensures Retries(s.running[i := s.running[i].(stage := stage)]) == Retries(s.running)
  {
    hide Retries;
    RetriesByKind(s.running, s.running[i := s.running[i].(stage := stage)]);
  }

  lemma NextConsumerLoop(s: Client, i: nat, next: nat)
    requires i < |s.running| && SingleLoop(s)
    ensures SingleLoop(NextConsumer(s, i, next))
  {
    hide Retries, Succeed, Fail;
    SucceedLoop(s, i);
    if s.channel.Some? {
      MoveLoop(s, i, SettingUp(s.channel.value, next, 0));
    }
  }

  lemma AdvanceLoop(s: Client, i: nat)
    requires i < |s.running| && SingleLoop(s)
    ensures SingleLoop(AdvanceAttempt(s, i))
  {
    hide Retries, Succeed, Fail, NextConsumer, PlacesBeside;
    SucceedLoop(s, i);
    match s.running[i].stage {
      case Connecting => MoveLoop(s, i, Opening(s.dialled, 0));
      case Opening(conn, call) =>
        MoveLoop(s, i, Opening(conn, call + 1));
        NextConsumerLoop(AssignChannel(s, conn), i, 0);
      case SettingUp(on, next, call) =>
        NextConsumerLoop(Subscribe(s, next, on), i, next + 1);
        if s.channel.Some? {
          MoveLoop(s, i, SettingUp(s.channel.value, next, call + 1));
        }
    }
  }

  /** Every step keeps the loop single. */
  lemma StepLoop(s: Client, a: Action)
    requires SingleLoop(s)
    ensures SingleLoop(Step(s, a))
  {
    hide Retries, AdvanceAttempt, Fail;
    match a {
      case Advance(i) => if i < |s.running| { AdvanceLoop(s, i); }
      case Reject(i) => if i < |s.running| { SucceedLoop(s, i); }
      case TimerFires =>
        RetriesAppend(s.running, [Attempt(Retry, Connecting, false)]);
        RetriesOne(Attempt(Retry, Connecting, false));
      case CloseEvent(conn) => RetriesByKind(s.running, Hit(s.running));
      case _ =>
    }
  }

  /** The delays there are, in milliseconds. */
  lemma BackoffSchedule(s: Client)
    requires Backoff(s)
    ensures s.delayMs == if s.failures == 0 then 2000
                         else if s.failures == 1 then 4000
                         else if s.failures == 2 then 8000
                         else if s.failures == 3 then 16000
                         else 30000
  {
    if s.failures >= 4 {
      PowerGrows(s.failures);
    }
  }

  lemma {:induction false} PowerGrows(n: nat)
    requires n >= 4
    ensures Pow2(n) >= 16
  {
    if n > 4 {
      PowerGrows(n - 1);
    }
  }

  lemma FailBackoff(s: Client, i: nat)
    requires i < |s.running| && Backoff(s)
    ensures Backoff(Fail(s, i))
  {
    hide Without;
  }

  lemma NextConsumerBackoff(s: Client, i: nat, next: nat)
    requires i < |s.running| && Backoff(s)
    ensures Backoff(NextConsumer(s, i, next))
  {
    hide Fail, Without, Pow2, Min;
    FailBackoff(s, i);
  }

  lemma AssignBackoff(s: Client, conn: nat)
    ensures Backoff(AssignChannel(s, conn)) && AssignChannel(s, conn).running == s.running
  {
    hide PlacesBeside;
  }

  lemma AdvanceBackoff(s: Client, i: nat)
    requires i < |s.running| && Backoff(s)
    ensures Backoff(AdvanceAttempt(s, i))
  {
    hide NextConsumer, Fail, AssignChannel, Pow2, Min;
    FailBackoff(s, i);
    match s.running[i].stage {
      case Connecting =>
      case Opening(conn, call) =>
        AssignBackoff(s, conn);
        NextConsumerBackoff(AssignChannel(s, conn), i, 0);
      case SettingUp(on, next, call) =>
        NextConsumerBackoff(Subscribe(s, next, on), i, next + 1);
    }
  }

  lemma StepBackoff(s: Client, a: Action)
    requires Backoff(s)
    ensures Backoff(Step(s, a))
  {
    hide AdvanceAttempt, Fail, Without, Hit, Pow2, Min;
    match a {
      case Advance(i) => if i < |s.running| { AdvanceBackoff(s, i); }
      case Reject(i) => if i < |s.running| { FailBackoff(s, i); }
      case _ =>
    }
  }

  lemma WithoutElements<T>(xs: seq<T>, i: nat)
    requires i < |xs|
    ensures |Without(xs, i)| == |xs| - 1
    ensures forall j | 0 <= j < |Without(xs, i)| :: Without(xs, i)[j] == xs[if j < i then j else j + 1]
    ensures forall j | 0 <= j < |xs| && j != i :: Without(xs, i)[if j < i then j else j - 1] == xs[j]
  {
  }

  /** Removing another attempt keeps the first one running, and no attempt appears. */
  lemma WithoutUnhit(running: seq<Attempt>, i: nat)
    requires i < |running|
    ensures (exists j :: j != i && IsUnhitInitial(running, j)) ==> exists k :: IsUnhitInitial(Without(running, i), k)
    ensures forall k | 0 <= k < |Without(running, i)| :: Without(running, i)[k] in running
  {
    WithoutElements(running, i);
    if j :| j != i && IsUnhitInitial(running, j) {
      assert IsUnhitInitial(Without(running, i), if j < i then j else j - 1);
    }
  }

  lemma RemovedUnhit(s: Client, i: nat, s': Client)
    requires i < |s.running| && UnhitHasChannel(s)
    requires s'.running == Without(s.running, i) && s'.channel == s.channel && s'.live == s.live
    ensures UnhitHasChannel(s')
  {
    hide Without;
    WithoutUnhit(s.running, i);
    forall k | 0 <= k < |s'.running| && !s'.running[k].hit
      ensures s'.running[k].stage.SettingUp? ==> Usable(s')
      ensures s'.running[k].stage.Opening? ==> s'.running[k].stage.conn in s'.live {
      var j :| 0 <= j < |s.running| && s.running[j] == s'.running[k];
    }
  }

  lemma SucceedAlive(s: Client, i: nat)
    requires i < |s.running| && UnhitHasChannel(s) && Alive(s)
    requires Usable(s) || s.running[i].hit
    ensures UnhitHasChannel(Succeed(s, i)) && Alive(Succeed(s, i))
  {
    hide Without, UnhitHasChannel;
    WithoutUnhit(s.running, i);
    RemovedUnhit(s, i, Succeed(s, i));
    if UnhitInitialRunning(s) {
      var j :| IsUnhitInitial(s.running, j);
    }
  }

  lemma FailAlive(s: Client, i: nat)
    requires i < |s.running| && UnhitHasChannel(s) && SingleLoop(s) && Alive(s)
    ensures UnhitHasChannel(Fail(s, i)) && Alive(Fail(s, i))
  {
    hide Retries, Without, UnhitHasChannel;
    RemovedUnhit(s, i, Fail(s, i));
    WithoutUnhit(s.running, i);
    RetriesWithout(s.running, i);
  }

  lemma MoveAlive(s: Client, i: nat, stage: Stage, s': Client)
    requires i < |s.running| && UnhitHasChannel(s) && Alive(s)
    requires stage.SettingUp? ==> Usable(s) || s.running[i].hit
    requires stage.Opening? ==> stage.conn in s'.live || s.running[i].hit
    requires s'.running == s.running[i := s.running[i].(stage := stage)] && s.live <= s'.live
    requires s'.channel == s.channel && s'.closing == s.closing && s'.reconnecting == s.reconnecting
    requires s'.hitRetrySucceeded == s.hitRetrySucceeded
    ensures UnhitHasChannel(s') && Alive(s')
  {
    if UnhitInitialRunning(s) {
      var j :| IsUnhitInitial(s.running, j);
      assert IsUnhitInitial(s'.running, j);
    }
  }

  lemma NextConsumerAlive(s: Client, i: nat, next: nat)
    requires i < |s.running| && UnhitHasChannel(s) && SingleLoop(s) && Alive(s)
    requires Usable(s) || s.running[i].hit
    ensures UnhitHasChannel(NextConsumer(s, i, next)) && Alive(NextConsumer(s, i, next))
  {
    hide Succeed, Fail, UnhitHasChannel, Alive, SingleLoop;
    if next >= s.consumers || s.channel.None? {
      SucceedAlive(s, i);
    } else if Usable(s) {
      MoveAlive(s, i, SettingUp(s.channel.value, next, 0), NextConsumer(s, i, next));
    } else {
      FailAlive(s, i);
    }
  }

  /** Putting a channel in place, even one of a closed connection, takes no attempt's usable channel away. */
  lemma AssignAlive(s: Client, i: nat, conn: nat)
    requires i < |s.running| && s.running[i].stage.Opening? && s.running[i].stage.conn == conn && Answerable(s, conn)
    requires UnhitHasChannel(s) && Alive(s)
    ensures UnhitHasChannel(AssignChannel(s, conn)) && Alive(AssignChannel(s, conn))
    ensures Usable(AssignChannel(s, conn)) || s.running[i].hit
  {
    hide PlacesBeside;
  }

  /** Recording a subscription changes nothing an attempt relies on. */
  lemma SubscribeAlive(s: Client, index: nat, on: nat)
    requires UnhitHasChannel(s) && SingleLoop(s) && Alive(s)
    ensures var s' := Subscribe(s, index, on); UnhitHasChannel(s') && SingleLoop(s') && Alive(s') && (Usable(s') <==> Usable(s))
  {
  }

  lemma AdvanceAlive(s: Client, i: nat)
    requires i < |s.running| && UnhitHasChannel(s) && SingleLoop(s) && Alive(s)
    ensures UnhitHasChannel(AdvanceAttempt(s, i)) && Alive(AdvanceAttempt(s, i))
  {
    hide NextConsumer, Fail, AssignChannel, Alive, SingleLoop;
    match s.running[i].stage {
      case Connecting => MoveAlive(s, i, Opening(s.dialled, 0), AdvanceAttempt(s, i));
      case Opening(conn, call) =>
        if Answerable(s, conn) {
          if call >= LAST_OPENING_CALL {
            AssignAlive(s, i, conn);
            AssignLoop(s, conn);
            NextConsumerAlive(AssignChannel(s, conn), i, 0);
          } else if conn in s.live {
            MoveAlive(s, i, Opening(conn, call + 1), AdvanceAttempt(s, i));
          } else {
            FailAlive(s, i);
          }
        }
      case SettingUp(on, next, call) =>
        if Answerable(s, on) {
          if call >= LAST_SETUP_CALL {
            SubscribeAlive(s, next, on);
            NextConsumerAlive(Subscribe(s, next, on), i, next + 1);
          } else if Usable(s) {
            MoveAlive(s, i, SettingUp(s.channel.value, next, call + 1), AdvanceAttempt(s, i));
          } else {
            FailAlive(s, i);
          }
        }
    }
  }

  lemma AssignLoop(s: Client, conn: nat)
    requires SingleLoop(s)
    ensures SingleLoop(AssignChannel(s, conn)) && AssignChannel(s, conn).running == s.running
  {
    hide PlacesBeside;
  }

  lemma CloseAlive(s: Client, conn: nat)
    requires UnhitHasChannel(s) && SingleLoop(s) && Alive(s)
    ensures UnhitHasChannel(HandleClose(s, conn)) && Alive(HandleClose(s, conn))
  {
    hide Retries, Elsewhere;
  }

  lemma TimerAlive(s: Client)
    requires s.timers > 0 && UnhitHasChannel(s) && Alive(s)
    ensures UnhitHasChannel(FireTimer(s)) && Alive(FireTimer(s))
  {
    if UnhitInitialRunning(s) && !s.closing {
      var j :| IsUnhitInitial(s.running, j);
      assert IsUnhitInitial(FireTimer(s).running, j);
    }
  }

  /** Set-ups that run on their own do not concern the attempts. */
  lemma TaskAlive(s: Client, k: nat)
    requires UnhitHasChannel(s) && Alive(s)
    ensures UnhitHasChannel(Register(s)) && Alive(Register(s))
    ensures k < |s.tasks| ==> UnhitHasChannel(AdvanceTask(s, k)) && Alive(AdvanceTask(s, k))
  {
    hide Without, RegistersBeside;
  }

  lemma StepAlive(s: Client, a: Action)
    requires UnhitHasChannel(s) && SingleLoop(s) && Alive(s)
    ensures UnhitHasChannel(Step(s, a)) && Alive(Step(s, a))
  {
    hide AdvanceAttempt, Fail, SingleLoop, HandleClose, FireTimer, Register, AdvanceTask, Without;
    match a {
      case Advance(i) => if i < |s.running| { AdvanceAlive(s, i); }
      case Reject(i) => if i < |s.running| { FailAlive(s, i); }
      case TimerFires => if s.timers > 0 { TimerAlive(s); }
      case CloseEvent(conn) => CloseAlive(s, conn);
      case Consume => TaskAlive(s, 0);
      case TaskAdvances(k) => TaskAlive(s, k);
      case _ =>
    }
  }

  ghost predicate ClientInv(s: Client) {
    SingleLoop(s) && Backoff(s) && UnhitHasChannel(s) && Alive(s)
  }

  lemma FreshInv(s: Client, a: Attempt)
    requires s.running == [a] && a == Attempt(Initial, Connecting, false)
    requires s.timers == 0 && !s.reconnecting && s.failures == 0 && s.delayMs == BASE_RECONNECT_DELAY_MS
    ensures ClientInv(s)
  {
    hide Retries;
    RetriesOne(a);
    assert IsUnhitInitial(s.running, 0);
  }

  lemma StartInv()
    ensures ClientInv(Start())
  {
    hide ClientInv, Retries;
    FreshInv(Start(), Start().running[0]);
  }

  /** The connection invariants hold in every reachable state, over every interleaving. */
  lemma {:induction false} ClientInvariant(acts: seq<Action>)
    ensures ClientInv(Exec(Start(), acts))
  {
    hide Step, SingleLoop, Backoff, UnhitHasChannel, Alive, Start;
    if acts == [] {
      StartInv();
    } else {
      ClientInvariant(acts[..|acts| - 1]);
      var s, a := Exec(Start(), acts[..|acts| - 1]), acts[|acts| - 1];
      StepLoop(s, a);
      StepBackoff(s, a);
      StepAlive(s, a);
    }
  }

  /**
   No lost reconnect: as long as no close event has hit a retry that went on to succeed, a service
   that is not closing and has no channel has an attempt running or a timer pending.
   */
  lemma NoLostReconnect(acts: seq<Action>)
    ensures !Exec(Start(), acts).hitRetrySucceeded ==> !Stranded(Exec(Start(), acts))
  {
    hide Exec, Backoff, UnhitHasChannel;
    ClientInvariant(acts);
  }

  /**
   The last attempt returns without a usable channel: at the end of a consumer's set-up, when a close
   event has cleared the channel, or there is no registration left and the channel is that of a closed
   connection; or right when it puts such a channel in place and there is nothing to set up.
   */
  ghost predicate LastAttemptSwallowsClose(s: Client, a: Action) {
    && a == Advance(0) && |s.running| == 1 && s.timers == 0 && !s.closing
    && match s.running[0].stage
       case Connecting => false
       case Opening(conn, call) =>
         Answerable(s, conn) && call >= LAST_OPENING_CALL && conn !in s.live && s.consumers == 0
       case SettingUp(on, next, call) =>
         Answerable(s, on) && call >= LAST_SETUP_CALL && !Usable(s) && (s.channel.None? || next + 1 >= s.consumers)
  }

  lemma FailFrame(s: Client, i: nat)
    requires i < |s.running|
    ensures var r := Fail(s, i);
            && r.closing == s.closing && r.dialled == s.dialled && r.channel == s.channel && r.live == s.live
            && |r.running| <= |s.running|
            && (r.reconnecting ==> s.reconnecting || s.running[i].kind.Initial?)
            && (s.closing && r.reconnecting ==> s.reconnecting)
  {
  }

  /** What the head of the registration loop leaves alone. */
  lemma NextConsumerFrame(s: Client, i: nat, next: nat)
    requires i < |s.running|
    ensures var r := NextConsumer(s, i, next);
            && r.closing == s.closing && r.dialled == s.dialled && r.channel == s.channel && r.live == s.live
            && |r.running| <= |s.running|
            && (r.reconnecting ==> s.reconnecting || s.running[i].kind.Initial?)
            && (s.closing && r.reconnecting ==> s.reconnecting)
  {
    hide Fail;
    FailFrame(s, i);
  }

  /** When it strands the client. */
  lemma NextStranded(s: Client, i: nat, next: nat)
    requires i < |s.running| && SingleLoop(s) && !s.closing
    ensures Stranded(NextConsumer(s, i, next)) <==>
              |s.running| == 1 && s.timers == 0 && !Usable(s) && (next >= s.consumers || s.channel.None?)
  {
    hide Fail, Retries;
    FailNotStranded(s, i);
  }

  lemma AdvanceStranded(s: Client, i: nat)
    requires i < |s.running| && SingleLoop(s) && !s.closing
    ensures Stranded(AdvanceAttempt(s, i)) <==> LastAttemptSwallowsClose(s, Advance(i))
  {
    hide PlacesBeside, NextConsumer, Fail, SingleLoop;
    FailNotStranded(s, i);
    match s.running[i].stage {
      case Connecting =>
      case Opening(conn, call) =>
        AssignLoop(s, conn);
        NextStranded(AssignChannel(s, conn), i, 0);
      case SettingUp(on, next, call) =>
        SubscribeLoop(s, next, on);
        NextStranded(Subscribe(s, next, on), i, next + 1);
    }
  }

  lemma SubscribeLoop(s: Client, index: nat, on: nat)
    requires SingleLoop(s)
    ensures SingleLoop(Subscribe(s, index, on))
  {
    hide Retries;
  }

  lemma FailNotStranded(s: Client, i: nat)
    requires i < |s.running| && SingleLoop(s)
    ensures !Stranded(Fail(s, i))
  {
    RetriesWithout(s.running, i);
  }

  /**
   Exactly when a service becomes stranded, without a channel on a live connection and without anything
   that could give it one: its last attempt returns although a close event has hit it.
   */
  lemma StrandedExactly(s: Client, a: Action)
    requires ClientInv(s) && !Stranded(s)
    ensures Stranded(Step(s, a)) <==> LastAttemptSwallowsClose(s, a)
    ensures LastAttemptSwallowsClose(s, a) ==> s.running[0].hit
  {
    hide Backoff, AdvanceAttempt, Fail;
    match a {
      case Advance(i) =>
        if i < |s.running| {
          if s.closing {
            AdvanceKeepsClosing(s, i);
          } else {
            AdvanceStranded(s, i);
          }
        }
      case Reject(i) => if i < |s.running| { FailNotStranded(s, i); }
      case _ =>
    }
  }

  /** Advancing an attempt starts no other; only its first await makes a connection. */
  lemma AdvanceKeepsClosing(s: Client, i: nat)
    requires i < |s.running|
    ensures var r := AdvanceAttempt(s, i);
            && r.closing == s.closing && |r.running| <= |s.running|
            && r.dialled == s.dialled + (if s.running[i].stage.Connecting? then 1 else 0)
            && (r.reconnecting ==> s.reconnecting || s.running[i].kind.Initial?)
            && (s.closing && r.reconnecting ==> s.reconnecting)
  {
    hide PlacesBeside, NextConsumer, Fail;
    FailFrame(s, i);
    match s.running[i].stage {
      case Connecting =>
      case Opening(conn, call) => NextConsumerFrame(AssignChannel(s, conn), i, 0);
      case SettingUp(on, next, call) => NextConsumerFrame(Subscribe(s, next, on), i, next + 1);
    }
  }

  /** The attempt's last call is answered, and there is no usable channel for the next one. */
  predicate NextCallFails(s: Client, i: nat) {
    && i < |s.running|
    && match s.running[i].stage
       case Connecting => false
       case Opening(conn, call) => Answerable(s, conn) && call < LAST_OPENING_CALL && conn !in s.live
       case SettingUp(on, _, call) => Answerable(s, on) && call < LAST_SETUP_CALL && !Usable(s)
  }

  /**
   An attempt whose next call finds no usable channel does not hang: it is over, and a retry, or a first
   attempt before shutdown and with the loop off, leaves a timer for the next one.
   */
  lemma AttemptDoesNotHang(s: Client, i: nat)
    requires NextCallFails(s, i)
    ensures var s' := Step(s, Advance(i));
            && s'.running == s.running[..i] + s.running[i + 1..] && s'.tasks == s.tasks && s'.subscribed == s.subscribed
            && (s.running[i].kind.Retry? ==> s'.timers == s.timers + 1)
            && (s.running[i].kind.Initial? && !s.closing && !s.reconnecting ==> s'.timers == s.timers + 1 && s'.reconnecting)
  {
  }

  /** Nor does a registration's own set-up: it is over, and leaves no consumer. */
  lemma TaskDoesNotHang(s: Client, k: nat)
    requires k < |s.tasks| && Answerable(s, s.tasks[k].on) && s.tasks[k].call < LAST_SETUP_CALL && !Usable(s)
    ensures Step(s, TaskAdvances(k)) == s.(tasks := s.tasks[..k] + s.tasks[k + 1..])
    ensures Step(s, TaskRejected(k)) == s.(tasks := s.tasks[..k] + s.tasks[k + 1..])
  {
  }

  /** A stranded service with no connection left stays so until it is shut down. */
  lemma StrandedForever(s: Client, a: Action)
    requires Stranded(s) && s.live == {}
    ensures a.Shutdown? || (Stranded(Step(s, a)) && Step(s, a).live == {})
  {
  }

  /** After shutdown no attempt starts: the running ones can only move on or end. */
  lemma NoAttemptAfterShutdown(s: Client, a: Action)
    requires s.closing
    ensures Step(s, a).closing && |Step(s, a).running| <= |s.running| && Step(s, a).dialled <= s.dialled + 1
    ensures Step(s, a).dialled > s.dialled ==>
              a.Advance? && a.i < |s.running| && s.running[a.i].stage.Connecting?
  {
    hide AdvanceAttempt;
    if a.Advance? && a.i < |s.running| {
      AdvanceKeepsClosing(s, a.i);
    }
  }

  function Firings(s: Client, acts: seq<Action>): nat {
    if acts == [] then 0
    else
      var init, last := acts[..|acts| - 1], acts[|acts| - 1];
      Firings(s, init) + if last.TimerFires? && Exec(s, init).timers > 0 then 1 else 0
  }

  lemma ClosingStep(s: Client, a: Action)
    requires SingleLoop(s) && s.closing
    ensures !s.reconnecting ==> !Step(s, a).reconnecting
    ensures a.TimerFires? && s.timers > 0 ==> s.reconnecting && !Step(s, a).reconnecting
  {
    hide AdvanceAttempt, Retries, Without;
    if a.Advance? && a.i < |s.running| {
      AdvanceKeepsClosing(s, a.i);
    }
  }

  /** After shutdown the loop ends with at most one more timer firing, whatever the rest of the run is. */
  lemma {:induction false} LoopEndsAfterShutdown(s: Client, acts: seq<Action>)
    requires SingleLoop(s) && s.closing
    ensures SingleLoop(Exec(s, acts)) && Exec(s, acts).closing
    ensures Firings(s, acts) <= 1
    ensures Firings(s, acts) == 1 ==> !Exec(s, acts).reconnecting
  {
    hide Step, SingleLoop;
    if acts != [] {
      var init, last := acts[..|acts| - 1], acts[|acts| - 1];
      LoopEndsAfterShutdown(s, init);
      StepLoop(Exec(s, init), last);
      ClosingStep(Exec(s, init), last);
      NoAttemptAfterShutdown(Exec(s, init), last);
    }
  }

  lemma {:induction false} ExecAppend(s: Client, a: seq<Action>, b: seq<Action>)
    ensures Exec(s, a + b) == Exec(Exec(s, a), b)
  {
    hide Step;
    if b == [] {
      assert a + b == a;
    } else {
      ExecAppend(s, a, b[..|b| - 1]);
      assert (a + b)[..|a + b| - 1] == a + b[..|b| - 1];
    }
  }

  /** The calls of one consumer's set-up, up to the last, all answered. */
  function SetupCalls(i: nat): seq<Action> {
    [Advance(i), Advance(i), Advance(i), Advance(i), Advance(i)]
  }

  /** One call of a set-up in the loop is answered. */
  lemma SetupCall(s: Client, on: nat, next: nat, call: nat)
    requires |s.running| == 1 && s.running[0].stage == SettingUp(on, next, call) && call < LAST_SETUP_CALL
    requires s.channel == Some(on) && on in s.live
    ensures Step(s, Advance(0)) == s.(running := [s.running[0].(stage := SettingUp(on, next, call + 1))])
  {
    hide NextConsumer, Fail, AssignChannel;
  }

  lemma SetupProceeds(s: Client, on: nat, next: nat)
    requires |s.running| == 1 && s.running[0].stage == SettingUp(on, next, 0) && s.channel == Some(on) && on in s.live
    ensures Exec(s, SetupCalls(0)) == s.(running := [s.running[0].(stage := SettingUp(on, next, 5))])
  {
    hide Step, Exec;
    var a := s.running[0];
    SetupCall(s, on, next, 0);
    SetupCall(s.(running := [a.(stage := SettingUp(on, next, 1))]), on, next, 1);
    SetupCall(s.(running := [a.(stage := SettingUp(on, next, 2))]), on, next, 2);
    SetupCall(s.(running := [a.(stage := SettingUp(on, next, 3))]), on, next, 3);
    SetupCall(s.(running := [a.(stage := SettingUp(on, next, 4))]), on, next, 4);
    ExecFive(s, SetupCalls(0));
  }

  lemma ExecFive(s: Client, acts: seq<Action>)
    requires |acts| == 5
    ensures Exec(s, acts) == Step(Step(Step(Step(Step(s, acts[0]), acts[1]), acts[2]), acts[3]), acts[4])
  {
    hide Step;
    assert acts[..4][..3] == acts[..3] && acts[..3][..2] == acts[..2] && acts[..2][..1] == acts[..1] && acts[..1][..0] == [];
    assert Exec(s, acts[..1]) == Step(s, acts[0]);
    assert Exec(s, acts[..2]) == Step(Exec(s, acts[..1]), acts[1]);
    assert Exec(s, acts[..3]) == Step(Exec(s, acts[..2]), acts[2]);
    assert Exec(s, acts[..4]) == Step(Exec(s, acts[..3]), acts[3]);
  }

  /**
   A close event is lost this way: the first attempt fails after connecting and leaves connection 0
   behind, a retry gets a channel on connection 1 and sets up one consumer, connection 0 closes while
   the last call is out, the guard swallows it, and the retry returns.
   */
  function StrandingRun(): seq<Action> {
    [Consume, Advance(0), Reject(0), TimerFires, Advance(0)]
    + [Advance(0), Advance(0), Advance(0)] + SetupCalls(0) + [CloseEvent(0), Advance(0)]
  }

  /** The first attempt connects, fails, and leaves its connection behind. */
  lemma FirstAttemptFails(s: Client)
    requires s.channel.None? && !s.closing && !s.reconnecting && s.timers == 0 && s.consumers == 0
    requires s.running == [Attempt(Initial, Connecting, false)] && s.live == {} && s.dialled == 0
    ensures Step(Step(Step(s, Consume), Advance(0)), Reject(0)) ==
            s.(consumers := 1, running := [], live := {0}, dialled := 1, reconnecting := true, timers := 1)
  {
    hide NextConsumer, AssignChannel;
    var s1 := s.(consumers := 1);
    var s2 := s1.(running := [Attempt(Initial, Opening(0, 0), false)], live := {0}, dialled := 1);
    assert Step(s, Consume) == s1;
    assert Step(s1, Advance(0)) == s2;
    assert Without(s2.running, 0) == [];
  }

  /** The timer fires, and the retry connects. */
  lemma RetryConnects(s: Client)
    requires s.timers == 1 && !s.closing && s.running == [] && s.live == {0} && s.dialled == 1
    ensures Step(Step(s, TimerFires), Advance(0)) ==
            s.(timers := 0, running := [Attempt(Retry, Opening(1, 0), false)], live := {0, 1}, dialled := 2)
  {
    hide NextConsumer, AssignChannel;
    var s1 := s.(timers := 0, running := [Attempt(Retry, Connecting, false)]);
    assert Step(s, TimerFires) == s1;
  }

  lemma RunToChannel(s: Client)
    requires s == Start()
    ensures var mid := Exec(s, [Consume, Advance(0), Reject(0), TimerFires, Advance(0)]);
            mid == s.(reconnecting := true, running := [Attempt(Retry, Opening(1, 0), false)], live := {0, 1},
                      dialled := 2, consumers := 1)
  {
    hide Step, Exec;
    FirstAttemptFails(s);
    RetryConnects(s.(consumers := 1, running := [], live := {0}, dialled := 1, reconnecting := true, timers := 1));
    ExecFive(s, [Consume, Advance(0), Reject(0), TimerFires, Advance(0)]);
  }

  lemma CloseCanStrand()
    ensures var end := Exec(Start(), StrandingRun());
            && Stranded(end) && end.channel.None? && end.hitRetrySucceeded && end.live == {1}
            && end.subscribed == [Subscription(0, 1)]
  {
    hide Exec;
    var s := Start();
    RunToChannel(s);
    var s1 := Exec(s, [Consume, Advance(0), Reject(0), TimerFires, Advance(0)]);
    var s2 := s1.(running := [Attempt(Retry, Opening(1, 1), false)]);
    var s3 := s1.(running := [Attempt(Retry, Opening(1, 2), false)]);
    var s4 := s1.(running := [Attempt(Retry, SettingUp(1, 0, 0), false)], channel := Some(1));
    assert Step(s1, Advance(0)) == s2 && Step(s2, Advance(0)) == s3;
    assert Step(s3, Advance(0)) == s4;
    SetupProceeds(s4, 1, 0);
    var s5 := Exec(s4, SetupCalls(0));
    var s6 := s5.(channel := None, live := {1}, running := [Attempt(Retry, SettingUp(1, 0, 5), true)]);
    assert Step(s5, CloseEvent(0)) == s6;
    var s7 := Step(s6, Advance(0));
    assert Stranded(s7) && s7.channel.None? && s7.hitRetrySucceeded && s7.live == {1};
    assert s7.subscribed == [Subscription(0, 1)];
    ThreeSteps(s1, s2, s3, Advance(0), Advance(0), Advance(0));
    TwoThen(s5, s6, CloseEvent(0), Advance(0));
    var first := [Consume, Advance(0), Reject(0), TimerFires, Advance(0)];
    ExecAppend(s, first, [Advance(0), Advance(0), Advance(0)]);
    ExecAppend(s, first + [Advance(0), Advance(0), Advance(0)], SetupCalls(0));
    ExecAppend(s, first + [Advance(0), Advance(0), Advance(0)] + SetupCalls(0), [CloseEvent(0), Advance(0)]);
  }

  lemma TwoThen(s: Client, mid: Client, a: Action, b: Action)
    requires Step(s, a) == mid
    ensures Exec(s, [a, b]) == Step(mid, b)
  {
    hide Step;
    assert [a, b][..1] == [a] && [a][..0] == [];
    assert Exec(s, [a]) == mid;
  }

  /**
   A channel of a closed connection is put in place this way: the connection of a retry closes between the
   answer to its last opening call and the retry's going on. With nothing to set up the retry returns,
   and the client is stranded although it has a channel.
   */
  function DeadChannelRun(): seq<Action> {
    [Advance(0), Reject(0), TimerFires, Advance(0), Advance(0)] + [Advance(0), CloseEvent(1), Advance(0)]
  }

  lemma DeadChannelStrands()
    ensures var end := Exec(Start(), DeadChannelRun());
            Stranded(end) && end.channel == Some(1) && end.hitRetrySucceeded && end.live == {0}
  {
    hide Exec, Fail, PlacesBeside;
    var s := Start();
    var s5 := Exec(s, [Advance(0), Reject(0), TimerFires, Advance(0), Advance(0)]);
    RetryOpening(s);
    ExecFive(s, [Advance(0), Reject(0), TimerFires, Advance(0), Advance(0)]);
    var s6 := s5.(running := [Attempt(Retry, Opening(1, 2), false)]);
    assert Step(s5, Advance(0)) == s6;
    var s7 := s6.(running := [Attempt(Retry, Opening(1, 2), true)], live := {0});
    assert Step(s6, CloseEvent(1)) == s7;
    ThreeSteps(s5, s6, s7, Advance(0), CloseEvent(1), Advance(0));
    ExecAppend(s, [Advance(0), Reject(0), TimerFires, Advance(0), Advance(0)], [Advance(0), CloseEvent(1), Advance(0)]);
  }

  lemma RetryOpening(s: Client)
    requires s == Start()
    ensures Step(Step(Step(Step(Step(s, Advance(0)), Reject(0)), TimerFires), Advance(0)), Advance(0)) ==
            s.(reconnecting := true, running := [Attempt(Retry, Opening(1, 1), false)], live := {0, 1}, dialled := 2)
  {
    hide NextConsumer, AssignChannel;
    var s1 := s.(running := [Attempt(Initial, Opening(0, 0), false)], live := {0}, dialled := 1);
    var s2 := s1.(running := [], reconnecting := true, timers := 1);
    assert Step(s, Advance(0)) == s1;
    assert Step(s1, Reject(0)) == s2;
    RetryConnects(s2);
  }

  lemma ThreeSteps(s: Client, s1: Client, s2: Client, a: Action, b: Action, c: Action)
    requires Step(s, a) == s1 && Step(s1, b) == s2
    ensures Exec(s, [a, b, c]) == Step(s2, c)
  {
    hide Step;
    assert [a, b, c][..2][..1] == [a] && [a, b, c][..2] == [a, b] && [a][..0] == [];
    assert Exec(s, [a]) == s1;
    assert Exec(s, [a, b]) == s2;
  }
}
