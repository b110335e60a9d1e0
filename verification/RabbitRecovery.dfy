/**
 The client can always come back: unless it is stranded with no connection left, some continuation of
 any run before shutdown ends with a channel and every registration consuming on it.
 */
module RabbitRecovery {
  import opened Options
  import opened RabbitConnection
  import opened RabbitSubscriptions
  import opened RabbitDoubling

  /** There is a channel on a live connection, and every registration consumes on it. */
  ghost predicate Recovered(s: Client) {
    Usable(s) && forall n: nat | n < s.consumers :: Subscription(n, s.channel.value) in s.subscribed
  }

  /** Some continuation without further registrations recovers. */
  ghost predicate CanRecover(s: Client) {
    exists acts :: Recovered(Exec(s, acts)) && Exec(s, acts).consumers == s.consumers
  }

  lemma ExecFirst(s: Client, a: Action, rest: seq<Action>)
    ensures Exec(s, [a] + rest) == Exec(Step(s, a), rest)
  {
    hide Step;
    assert [a][..0] == [];
    ExecAppend(s, [a], rest);
  }

  lemma ExecNone(s: Client)
    ensures Exec(s, []) == s
  {
  }

  /** The state with one more attempt at the end of the list. */
  function Joined(s: Client, timers: nat, stage: Stage): Client {
    s.(timers := timers, running := s.running + [Attempt(Retry, stage, false)])
  }

  /** The retry that a timer starts connects. */
  lemma TimerConnects(s: Client)
    requires s.timers > 0 && !s.closing
    ensures Step(s, TimerFires) == Joined(s, s.timers - 1, Connecting)
    ensures Step(Joined(s, s.timers - 1, Connecting), Advance(|s.running|)) ==
            Joined(s, s.timers - 1, Opening(s.dialled, 0)).(live := s.live + {s.dialled}, dialled := s.dialled + 1)
  {
    hide NextConsumer, Fail, AssignChannel;
    var i, a := |s.running|, Attempt(Retry, Opening(s.dialled, 0), false);
    assert (s.running + [Attempt(Retry, Connecting, false)])[i := a] == s.running + [a];
  }

  /** One call up to its channel is answered. */
  lemma OpeningMoves(s: Client, timers: nat, conn: nat, call: nat)
    requires conn in s.live && call < LAST_OPENING_CALL
    ensures Step(Joined(s, timers, Opening(conn, call)), Advance(|s.running|)) == Joined(s, timers, Opening(conn, call + 1))
  {
    hide NextConsumer, Fail, AssignChannel;
    var i, a := |s.running|, Attempt(Retry, Opening(conn, call + 1), false);
    assert (s.running + [Attempt(Retry, Opening(conn, call), false)])[i := a] == s.running + [a];
  }

  /** The retry puts its channel in place; with nothing to set up it returns. */
  lemma ChannelComes(s: Client, timers: nat, conn: nat)
    requires conn in s.live
    ensures var s' := Step(Joined(s, timers, Opening(conn, LAST_OPENING_CALL)), Advance(|s.running|));
            && s'.channel == Some(conn) && s'.live == s.live && s'.consumers == s.consumers && s'.subscribed == s.subscribed
            && (s.consumers > 0 ==> |s.running| < |s'.running| && s'.running[|s.running|].stage == SettingUp(conn, 0, 0))
  {
    hide Fail, PlacesBeside, Without;
  }

  lemma RowHas(from: nat, to: nat, on: nat, n: nat)
    requires from <= n < to
    ensures Subscription(n, on) in Row(from, to, on)
  {
    assert Row(from, to, on)[n - from] == Subscription(n, on);
  }

  /** The loop sets up every registration on the channel in place. */
  lemma LoopSetsUp(s: Client, i: nat, conn: nat) returns (acts: seq<Action>)
    requires s.channel == Some(conn) && conn in s.live && s.consumers > 0
    requires i < |s.running| && s.running[i].stage == SettingUp(conn, 0, 0)
    ensures Recovered(Exec(s, acts)) && Exec(s, acts).consumers == s.consumers
  {
    hide Exec, NextConsumer, AllQuiet, Row;
    acts := RunLoop(s, i, conn, 0, 0, s.consumers - 1);
    var xs := [Subscription(0, conn)] + Row(1, s.consumers, conn);
    SubscribedByNext(RecordAll(s, xs), i, s.consumers);
    forall n: nat | n < s.consumers ensures Subscription(n, conn) in xs {
      if n > 0 {
        RowHas(1, s.consumers, conn, n);
      }
    }
  }

  /** A pending timer is enough. */
  lemma TimerRecovers(s: Client) returns (acts: seq<Action>)
    requires s.timers > 0 && !s.closing
    ensures Recovered(Exec(s, acts)) && Exec(s, acts).consumers == s.consumers
  {
    hide Exec, Step, Joined, Recovered;
    var i, conn, timers := |s.running|, s.dialled, s.timers - 1;
    var t := s.(live := s.live + {conn}, dialled := conn + 1);
    TimerConnects(s);
    SameJoined(s, timers, Opening(conn, 0), t);
    OpeningMoves(t, timers, conn, 0);
    OpeningMoves(t, timers, conn, 1);
    ChannelComes(t, timers, conn);
    var s5 := Step(Joined(t, timers, Opening(conn, 2)), Advance(i));
    var rest: seq<Action> := [];
    if s.consumers > 0 {
      rest := LoopSetsUp(s5, i, conn);
    } else {
      ExecNone(s5);
      NothingToSetUp(s5);
    }
    ExecFirst(Joined(t, timers, Opening(conn, 2)), Advance(i), rest);
    ExecFirst(Joined(t, timers, Opening(conn, 1)), Advance(i), [Advance(i)] + rest);
    ExecFirst(Joined(t, timers, Opening(conn, 0)), Advance(i), [Advance(i)] + ([Advance(i)] + rest));
    ExecFirst(Joined(s, timers, Connecting), Advance(i), [Advance(i)] + ([Advance(i)] + ([Advance(i)] + rest)));
    acts := [TimerFires] + ([Advance(i)] + ([Advance(i)] + ([Advance(i)] + ([Advance(i)] + rest))));
    ExecFirst(s, TimerFires, [Advance(i)] + ([Advance(i)] + ([Advance(i)] + ([Advance(i)] + rest))));
  }

  lemma SameJoined(s: Client, timers: nat, stage: Stage, t: Client)
    requires t == s.(live := t.live, dialled := t.dialled)
    ensures Joined(s, timers, stage).(live := t.live, dialled := t.dialled) == Joined(t, timers, stage)
  {
  }

  lemma NothingToSetUp(s: Client)
    requires Usable(s) && s.consumers == 0
    ensures Recovered(s)
  {
  }

  lemma {:induction false} RetryIsRunning(running: seq<Attempt>) returns (i: nat)
    requires Retries(running) > 0
    ensures i < |running| && running[i].kind.Retry?
  {
    var n := |running| - 1;
    if running[n].kind.Retry? {
      i := n;
    } else {
      i := RetryIsRunning(running[..n]);
    }
  }

  /** Stranded, and with no connection whose close could start the loop. */
  ghost predicate Lost(s: Client) {
    Stranded(s) && s.live == {}
  }

  /** A step that leads to a pending timer: a running attempt fails, or a live connection closes. */
  lemma StepToTimer(s: Client) returns (a: Action)
    requires SingleLoop(s) && !s.closing && s.timers == 0 && !Lost(s)
    ensures Step(s, a).timers > 0 && !Step(s, a).closing && Step(s, a).consumers == s.consumers
  {
    hide Retries, Without, Elsewhere, Hit;
    if s.running == [] {
      var conn :| conn in s.live;
      a := CloseEvent(conn);
      NoRetries();
    } else if s.reconnecting {
      var i := RetryIsRunning(s.running);
      a := Reject(i);
    } else {
      a := Reject(0);
    }
  }

  lemma NoRetries()
    ensures Retries([]) == 0
  {
  }

  /** With no connection, no attempt and no timer, nothing ever comes back. */
  ghost predicate Dead(s: Client) {
    !Usable(s) && s.timers == 0 && s.running == [] && s.live == {}
  }

  lemma {:induction false} DeadForever(s: Client, acts: seq<Action>)
    requires Dead(s)
    ensures Dead(Exec(s, acts))
  {
    if acts != [] {
      hide Exec, Without;
      DeadForever(s, acts[..|acts| - 1]);
      LastOf(s, acts);
    }
  }

  lemma LastOf(s: Client, acts: seq<Action>)
    requires acts != []
    ensures Exec(s, acts) == Step(Exec(s, acts[..|acts| - 1]), acts[|acts| - 1])
  {
    hide Step;
  }

  /**
   Recovery, with its exact condition: after any run before shutdown, the client can get a channel with every
   registration consuming on it, if and only if it is not stranded without a connection.
   */
  lemma RecoversExactly(before: seq<Action>)
    requires !Exec(Start(), before).closing
    ensures CanRecover(Exec(Start(), before)) <==> !Lost(Exec(Start(), before))
  {
    hide Exec, Recovered, SingleLoop, Backoff, UnhitHasChannel, Alive, Step;
    var s := Exec(Start(), before);
    ClientInvariant(before);
    if Lost(s) {
      forall acts ensures !Recovered(Exec(s, acts)) {
        DeadForever(s, acts);
        if Recovered(Exec(s, acts)) {
          RecoveredUsable(Exec(s, acts));
        }
      }
    } else if s.timers > 0 {
      var acts := TimerRecovers(s);
    } else {
      var a := StepToTimer(s);
      var acts := TimerRecovers(Step(s, a));
      ExecFirst(s, a, acts);
    }
  }

  lemma RecoveredUsable(s: Client)
    requires Recovered(s)
    ensures Usable(s)
  {
  }
}
