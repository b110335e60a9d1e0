/** The broker client service: its event handlers and calls, each a transition of the connection protocol. */
module RabbitMqService {
  import opened Options
  import opened RabbitConnection

  /** What became of a delivered message: acknowledged, dead-lettered, or left to the broker. */
  datatype Settlement = Acked | DeadLettered | Unsettled

  datatype Message = Message(routingKey: string, body: string)

  class RabbitMqService {
    var channel: Option<nat>
    var closing: bool
    var reconnecting: bool
    var reconnectDelayMs: nat
    var consumers: nat
    /** Pending reconnect timers, and the calls of `establish` and set-up tasks that are awaiting something. */
    var timers: nat
    var running: seq<Attempt>
    var tasks: seq<Task>
    var live: set<nat>
    var dialled: nat
    ghost var subscribed: seq<Subscription>
    ghost var failures: nat
    ghost var hitRetrySucceeded: bool
    ghost var overlap: bool
    /** What this client has put on the exchange. */
    var sent: seq<Message>

    ghost function View(): Client
      reads this
    {
      Client(channel, closing, reconnecting, reconnectDelayMs, timers, running, live, dialled, consumers, tasks,
             subscribed, failures, hitRetrySucceeded, overlap)
    }

    /** Module initialisation: the first attempt is under way. */
    constructor ()
      ensures View() == Start() && sent == []
    {
      channel, closing, reconnecting, reconnectDelayMs := None, false, false, BASE_RECONNECT_DELAY_MS;
      consumers, timers, dialled := 0, 0, 0;
      running := [Attempt(Initial, Connecting, false)];
      tasks, live, sent := [], {}, [];
      subscribed, failures, hitRetrySucceeded, overlap := [], 0, false, false;
    }

    /** Sends if there is a channel; otherwise, or when the channel refuses, the message is dropped with a warning. */
    method Publish(routingKey: string, body: string, takes: bool)
      modifies this`sent
      ensures sent == old(sent) + if channel.Some? && takes then [Message(routingKey, body)] else []
    {
      if channel.None? {
        return;
      }
      if takes {
        sent := sent + [Message(routingKey, body)];
      }
    }

    method ScheduleReconnect()
      modifies this`reconnecting, this`timers
      ensures View() == RabbitConnection.ScheduleReconnect(old(View()))
    {
      if closing || reconnecting {
        return;
      }
      reconnecting := true;
      AttemptReconnect();
    }

    method AttemptReconnect()
      modifies this`timers
      ensures timers == old(timers) + 1
    {
      timers := timers + 1;
    }

    method HandleClose(conn: nat)
      requires conn in live
      modifies this
      ensures View() == Step(old(View()), CloseEvent(conn)) && sent == old(sent)
    {
      channel := None;
      live := live - {conn};
      subscribed := Elsewhere(subscribed, conn);
      running := Hit(running);
      if closing {
        return;
      }
      ScheduleReconnect();
    }

    /** The timer's callback: gives the loop up when closing, and otherwise starts an attempt. */
    method Reconnect()
      requires timers > 0
      modifies this
      ensures View() == Step(old(View()), TimerFires) && sent == old(sent)
    {
      timers := timers - 1;
      if closing {
        reconnecting := false;
        return;
      }
      running := running + [Attempt(Retry, Connecting, false)];
    }

    /** An await of an attempt has been rejected: a retry backs off and sets a timer, the first attempt starts the loop. */
    method AttemptRejected(i: nat)
      requires i < |running|
      modifies this
      ensures View() == Step(old(View()), Reject(i)) && sent == old(sent)
    {
      var failed := running[i];
      running := Without(running, i);
      if failed.kind.Initial? {
        ScheduleReconnect();
      } else {
        reconnectDelayMs := Min(reconnectDelayMs * 2, MAX_RECONNECT_DELAY_MS);
        failures := failures + 1;
        AttemptReconnect();
      }
    }

    /** An attempt has returned. */
    method AttemptReturned(i: nat)
      requires i < |running|
      modifies this
      ensures View() == Succeed(old(View()), i) && sent == old(sent)
    {
      var returned := running[i];
      running := Without(running, i);
      if returned.kind.Retry? {
        reconnecting := false;
        hitRetrySucceeded := hitRetrySucceeded || returned.hit;
      }
    }

    /**
     The head of the loop over the registrations: without a channel the set-ups left return at once, and on
     the channel of a closed connection the first call throws.
     */
    method SetUpNext(i: nat, next: nat)
      requires i < |running|
      modifies this
      ensures View() == NextConsumer(old(View()), i, next) && sent == old(sent)
    {
      hide Fail;
      if next >= consumers || channel.None? {
        AttemptReturned(i);
      } else if channel.value in live {
        running := running[i := running[i].(stage := SettingUp(channel.value, next, 0))];
      } else {
        AttemptRejected(i);
      }
    }

    /** The channel and its exchanges are ready: it replaces the current one, and the delay starts over. */
    method ChannelReady(i: nat, conn: nat)
      requires i < |running|
      modifies this
      ensures View() == NextConsumer(AssignChannel(old(View()), conn), i, 0) && sent == old(sent)
    {
      hide NextConsumer, PlacesBeside;
      overlap := overlap || PlacesBeside(View(), conn);
      channel := Some(conn);
      reconnectDelayMs := BASE_RECONNECT_DELAY_MS;
      failures := 0;
      SetUpNext(i, 0);
    }

    /** The answer to a subscribing call has come in. */
    ghost method Subscribed(index: nat, on: nat)
      modifies this`subscribed
      ensures View() == Subscribe(old(View()), index, on)
    {
      if on in live {
        subscribed := subscribed + [Subscription(index, on)];
      }
    }

    /**
     An await of an attempt has been answered. A call out on a closed connection has failed by the time
     there is a new channel.
     */
    method AttemptAdvances(i: nat)
      requires i < |running|
      modifies this
      ensures View() == Step(old(View()), Advance(i)) && sent == old(sent)
    {
      hide NextConsumer, Fail, PlacesBeside, Subscribe;
      var attempt := running[i];
      match attempt.stage
      case Connecting =>
        running := running[i := attempt.(stage := Opening(dialled, 0))];
        live := live + {dialled};
        dialled := dialled + 1;
      case Opening(conn, call) =>
        if conn in live || channel.None? {
          if call >= LAST_OPENING_CALL {
            ChannelReady(i, conn);
          } else if conn in live {
            running := running[i := attempt.(stage := Opening(conn, call + 1))];
          } else {
            AttemptRejected(i);
          }
        }
      case SettingUp(on, next, call) =>
        if on in live || channel.None? {
          if call >= LAST_SETUP_CALL {
            Subscribed(next, on);
            SetUpNext(i, next + 1);
          } else if channel.Some? && channel.value in live {
            running := running[i := attempt.(stage := SettingUp(channel.value, next, call + 1))];
          } else {
            AttemptRejected(i);
          }
        }
    }

    /** Records a registration, and sets it up at once if there is a channel; on a closed one the first call throws. */
    method Consume()
      modifies this
      ensures View() == Step(old(View()), Action.Consume) && sent == old(sent)
    {
      hide RegistersBeside;
      if channel.Some? && channel.value in live {
        overlap := overlap || RegistersBeside(View());
        tasks := tasks + [Task(consumers, 0, channel.value)];
      }
      consumers := consumers + 1;
    }

    /** An await of a registration's own set-up has been answered: its next call goes out on the channel there is then. */
    method SetUpAdvances(k: nat)
      requires k < |tasks|
      modifies this
      ensures View() == Step(old(View()), TaskAdvances(k)) && sent == old(sent)
    {
      hide Subscribe, Without;
      var task := tasks[k];
      if task.on in live || channel.None? {
        if task.call >= LAST_SETUP_CALL {
          tasks := Without(tasks, k);
          Subscribed(task.index, task.on);
        } else if channel.Some? && channel.value in live {
          tasks := tasks[k := Task(task.index, task.call + 1, channel.value)];
        } else {
          tasks := Without(tasks, k);
        }
      }
    }

    /** A call of a registration's own set-up has failed: the set-up is over, and the registration stays on record. */
    method SetUpRejected(k: nat)
      requires k < |tasks|
      modifies this
      ensures tasks == old(tasks)[..k] + old(tasks)[k + 1..] && subscribed == old(subscribed) && consumers == old(consumers)
      ensures View() == Step(old(View()), TaskRejected(k)) && sent == old(sent)
    {
      tasks := Without(tasks, k);
    }

    /** From here on no reconnect is scheduled, and none that is due connects. */
    method OnApplicationShutdown()
      modifies this
      ensures closing && View() == old(View()).(closing := true) && sent == old(sent)
      ensures View() == Step(old(View()), Shutdown)
    {
      closing := true;
    }

    /**
     Settles one message: acknowledged exactly if it parsed and its handler completed, else rejected
     without requeue; without a channel, or when the channel refuses the call, it is left to the broker.
     */
    method HandleMessage(parsed: bool, handlerCompletes: bool, takes: bool) returns (settlement: Settlement)
      ensures settlement.Acked? <==> channel.Some? && takes && parsed && handlerCompletes
      ensures settlement.DeadLettered? <==> channel.Some? && takes && !(parsed && handlerCompletes)
    {
      var handled := false;
      if parsed && handlerCompletes {
        handled := true;
      }
      if channel.None? || !takes {
        return Unsettled;
      }
      settlement := if handled then Acked else DeadLettered;
    }
  }
}
