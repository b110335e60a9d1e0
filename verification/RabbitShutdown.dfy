/**
 Shutdown, said of runs that contain it: from then on no attempt starts, at most one pending timer
 still fires, and only the attempts that were connecting already can bring up another connection.
 */
module RabbitShutdown {
  import opened RabbitConnection

  /** The attempts that are still waiting for their connection. */
  function Dialling(running: seq<Attempt>): nat {
    if running == [] then 0
    else Dialling(running[..|running| - 1]) + Waits(running[|running| - 1])
  }

  function Waits(a: Attempt): nat {
    if a.stage.Connecting? then 1 else 0
  }

  lemma {:induction false} DiallingAppend(a: seq<Attempt>, b: seq<Attempt>)
    ensures Dialling(a + b) == Dialling(a) + Dialling(b)
  {
    hide Waits;
    if b == [] {
      assert a + b == a;
    } else {
      DiallingAppend(a, b[..|b| - 1]);
      assert (a + b)[..|a + b| - 1] == a + b[..|b| - 1];
    }
  }

  lemma DiallingOne(a: Attempt)
    ensures Dialling([a]) == Waits(a)
  {
    assert [a][..0] == [];
  }

  /** What one attempt counts for, when it moves or ends. */
  lemma DiallingChange(running: seq<Attempt>, i: nat, a: Attempt)
    requires i < |running|
    ensures Dialling(running) == Dialling(Without(running, i)) + Waits(running[i])
    ensures Dialling(running[i := a]) == Dialling(Without(running, i)) + Waits(a)
  {
    hide Dialling, Waits;
    var before, after := running[..i], running[i + 1..];
    assert running == (before + [running[i]]) + after && running[i := a] == (before + [a]) + after;
    DiallingAppend(before + [running[i]], after);
    DiallingAppend(before + [a], after);
    DiallingAppend(before, [running[i]]);
    DiallingAppend(before, [a]);
    DiallingAppend(before, after);
    DiallingOne(running[i]);
    DiallingOne(a);
  }

  lemma {:induction false} DiallingHit(running: seq<Attempt>)
    ensures Dialling(Hit(running)) == Dialling(running)
  {
    if running != [] {
      DiallingHit(running[..|running| - 1]);
      assert Hit(running)[..|running| - 1] == Hit(running[..|running| - 1]);
    }
  }

  /** Where the loop over the registrations is reached, the attempt has its connection already. */
  lemma NextDialling(s: Client, i: nat, next: nat)
    requires i < |s.running| && s.running[i].stage != Connecting
    ensures var r := NextConsumer(s, i, next);
            r.dialled == s.dialled && Dialling(r.running) == Dialling(s.running)
  {
    hide Dialling, Without;
    if s.channel.Some? {
      DiallingChange(s.running, i, s.running[i].(stage := SettingUp(s.channel.value, next, 0)));
    }
    DiallingChange(s.running, i, s.running[i]);
  }

  lemma AdvanceDialling(s: Client, i: nat)
    requires i < |s.running|
    ensures var r := AdvanceAttempt(s, i);
            r.dialled + Dialling(r.running) <= s.dialled + Dialling(s.running)
  {
    hide Dialling, Without, NextConsumer, PlacesBeside;
    var a := s.running[i];
    DiallingChange(s.running, i, a);
    match a.stage {
      case Connecting => DiallingChange(s.running, i, a.(stage := Opening(s.dialled, 0)));
      case Opening(conn, call) =>
        NextDialling(AssignChannel(s, conn), i, 0);
        DiallingChange(s.running, i, a.(stage := Opening(conn, call + 1)));
      case SettingUp(on, next, call) =>
        NextDialling(Subscribe(s, next, on), i, next + 1);
        if s.channel.Some? {
          DiallingChange(s.running, i, a.(stage := SettingUp(s.channel.value, next, call + 1)));
        }
    }
  }

  /** While closing, connections made and attempts still waiting for one do not grow together. */
  lemma ClosingDialling(s: Client, a: Action)
    requires s.closing
    ensures var r := Step(s, a);
            r.dialled + Dialling(r.running) <= s.dialled + Dialling(s.running)
  {
    hide Dialling, Without, AdvanceAttempt;
    match a {
      case Advance(i) => if i < |s.running| { AdvanceDialling(s, i); }
      case Reject(i) => if i < |s.running| { DiallingChange(s.running, i, s.running[i]); }
      case CloseEvent(_) => DiallingHit(s.running);
      case _ =>
    }
  }

  /** The attempts a run starts: its steps after which more of them are running. */
  function Starts(s: Client, acts: seq<Action>): nat {
    if acts == [] then 0
    else
      var init, last := acts[..|acts| - 1], acts[|acts| - 1];
      Starts(s, init) + if |Exec(s, acts).running| > |Exec(s, init).running| then 1 else 0
  }

  lemma {:induction false} ClosingRun(s: Client, acts: seq<Action>)
    requires s.closing
    ensures Exec(s, acts).closing && Starts(s, acts) == 0
    ensures Exec(s, acts).dialled + Dialling(Exec(s, acts).running) <= s.dialled + Dialling(s.running)
  {
    hide Step, Dialling;
    if acts != [] {
      var init, last := acts[..|acts| - 1], acts[|acts| - 1];
      ClosingRun(s, init);
      NoAttemptAfterShutdown(Exec(s, init), last);
      ClosingDialling(Exec(s, init), last);
    }
  }

  /** A run that begins with a given step counts what that step starts and fires, and then the rest. */
  lemma {:induction false} CountFirst(s: Client, first: Action, acts: seq<Action>)
    ensures Exec(s, [first] + acts) == Exec(Step(s, first), acts)
    ensures Starts(s, [first] + acts) == Starts(s, [first]) + Starts(Step(s, first), acts)
    ensures Firings(s, [first] + acts) == Firings(s, [first]) + Firings(Step(s, first), acts)
  {
    hide Step;
    if acts == [] {
      assert [first] + acts == [first] && [first][..0] == [];
    } else {
      var init := acts[..|acts| - 1];
      CountFirst(s, first, init);
      assert ([first] + acts)[..|acts|] == [first] + init;
    }
  }

  /**
   Whatever has happened before and whatever happens after: once shutdown has been called, no attempt
   starts, at most one timer fires and then the reconnect loop is over, and the connections made are no
   more than the attempts that were waiting for theirs.
   */
  lemma ShutdownEnds(before: seq<Action>, after: seq<Action>)
    ensures var s := Exec(Start(), before);
            var end := Exec(Start(), before + [Shutdown] + after);
            && Starts(s, [Shutdown] + after) == 0
            && Firings(s, [Shutdown] + after) <= 1
            && (Firings(s, [Shutdown] + after) == 1 ==> !end.reconnecting)
            && end.dialled <= s.dialled + Dialling(s.running)
  {
    hide Exec, Dialling, SingleLoop, Backoff, UnhitHasChannel, Alive;
    var s := Exec(Start(), before);
    ClientInvariant(before);
    ExecAppend(Start(), before, [Shutdown] + after);
    assert before + [Shutdown] + after == before + ([Shutdown] + after);
    CountFirst(s, Shutdown, after);
    var t := Step(s, Shutdown);
    ShutdownCounts(s);
    StepLoop(s, Shutdown);
    ClosingRun(t, after);
    LoopEndsAfterShutdown(t, after);
  }

  lemma ShutdownCounts(s: Client)
    ensures Starts(s, [Shutdown]) == 0 && Firings(s, [Shutdown]) == 0
    ensures Step(s, Shutdown).closing && Step(s, Shutdown).running == s.running && Step(s, Shutdown).dialled == s.dialled
  {
    assert [Shutdown][..0] == [];
  }
}
