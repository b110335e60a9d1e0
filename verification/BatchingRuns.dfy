/**
 Batching transparency said of runs: what the registry and the shadows end up with does not depend on
 how the flushes have cut the stream exactly when no earlier reading can displace a device's last one.
 */
module BatchingRuns {
  import opened Readings
  import opened Registry
  import opened IngestionFlow
  import opened ShadowAgreement

  function Whole(t: Reading): Reading {
    t
  }

  predicate AllStored(attempts: seq<Attempt>) {
    forall k | 0 <= k < |attempts| :: attempts[k].fate.Stored?
  }

  /** Everything enqueued has been stored, and no batch is under way. */
  predicate Settled(s: Flow) {
    s.buffer == [] && s.inFlight.None? && AllStored(s.attempts)
  }

  lemma {:induction false} AllAttemptsStored(attempts: seq<Attempt>)
    requires AllStored(attempts)
    ensures StoredBatches(attempts) == Attempted(attempts)
    ensures |Attempted(attempts)| == |attempts|
    ensures forall k | 0 <= k < |attempts| :: Attempted(attempts)[k] == attempts[k].batch
  {
    if attempts != [] {
      AllAttemptsStored(attempts[..|attempts| - 1]);
    }
  }

  /** The stored batches of a settled run are a way of cutting what has been enqueued. */
  lemma SettledCuts(s: Flow)
    requires Conserved(s) && Settled(s)
    ensures Cuts(StoredBatches(s.attempts), s.enqueued)
  {
    hide Concat, StoredBatches, Attempted;
    AllAttemptsStored(s.attempts);
    assert (Concat(Attempted(s.attempts)) + []) + [] == Concat(Attempted(s.attempts));
  }

  /**
   A settled run leaves each device's last reading in the registry, and once the shadow commands have
   drained, none lost, also in the cache, if no earlier reading can displace it.
   */
  lemma RunKeepsLast(batchSize: nat, acts: seq<Action>, d: string)
    requires batchSize > 0
    ensures var s := Exec(batchSize, acts);
            Settled(s) ==>
              && (LastReadingWins(s.enqueued, RowOf) ==> Find(s.registry, d) == AsRow(LastOf(s.enqueued, d)))
              && (LastReadingWins(s.enqueued, Whole) && s.shadowQueue == [] && NoneLost(s.shadowLog) ==>
                    ShadowOf(s.store, d) == LastOf(s.enqueued, d))
  {
    hide Exec, Settled, Cuts, LastReadingWins, LastOf, ReadingAfter, RegistryAfter, ShadowOf, Shadows, FlushPending, Draining,
         Concat, StoredBatches, Conserved;
    FlowInvariant(batchSize, acts);
    var s := Exec(batchSize, acts);
    if Settled(s) {
      var batches := StoredBatches(s.attempts);
      SettledCuts(s);
      if LastReadingWins(s.enqueued, RowOf) {
        BatchingTransparency(s.enqueued, RowOf);
        RegistryMeaning(batches, d);
        assert Seen(ReadingAfter(batches, d), RowOf) == Seen(LastOf(s.enqueued, d), RowOf);
        RowSeen(ReadingAfter(batches, d));
        RowSeen(LastOf(s.enqueued, d));
      }
      if LastReadingWins(s.enqueued, Whole) && s.shadowQueue == [] && NoneLost(s.shadowLog) {
        BatchingTransparency(s.enqueued, Whole);
        DrainedState(s, d);
        assert Seen(ReadingAfter(batches, d), Whole) == Seen(LastOf(s.enqueued, d), Whole);
      }
    }
  }

  function Enqueues(rs: seq<Reading>): seq<Action> {
    seq(|rs|, k requires 0 <= k < |rs| => Enqueue(rs[k]))
  }

  lemma ExecSnoc(batchSize: nat, acts: seq<Action>, a: Action)
    ensures Exec(batchSize, acts + [a]) == Step(batchSize, Exec(batchSize, acts), a)
  {
    hide Step;
    assert (acts + [a])[..|acts|] == acts;
  }

  /** The state with more readings in the buffer, and perhaps more flushes scheduled. */
  ghost predicate Filled(s: Flow, s': Flow, rs: seq<Reading>) {
    s' == s.(buffer := s.buffer + rs, enqueued := s.enqueued + rs, scheduled := s'.scheduled) && s'.scheduled >= s.scheduled
  }

  lemma FilledOneMore(batchSize: nat, s: Flow, s': Flow, rs: seq<Reading>, t: Reading)
    requires Filled(s, s', rs)
    ensures Filled(s, Step(batchSize, s', Enqueue(t)), rs + [t])
  {
    hide Begin, CommitBatch, AbortBatch, ShadowWrite;
    assert (s.buffer + rs) + [t] == s.buffer + (rs + [t]) && (s.enqueued + rs) + [t] == s.enqueued + (rs + [t]);
  }

  lemma EnqueuesSnoc(acts: seq<Action>, rs: seq<Reading>, t: Reading)
    ensures acts + Enqueues(rs + [t]) == (acts + Enqueues(rs)) + [Enqueue(t)]
  {
    assert Enqueues(rs + [t]) == Enqueues(rs) + [Enqueue(t)];
  }

  /** Enqueuing a batch fills the buffer, whatever flushes it schedules. */
  lemma {:induction false} EnqueueAll(batchSize: nat, acts: seq<Action>, rs: seq<Reading>)
    ensures Filled(Exec(batchSize, acts), Exec(batchSize, acts + Enqueues(rs)), rs)
  {
    if rs == [] {
      var s := Exec(batchSize, acts);
      assert acts + Enqueues(rs) == acts;
      assert s.buffer + [] == s.buffer && s.enqueued + [] == s.enqueued;
    } else {
      hide Exec, Filled, Step, Enqueues;
      var init, t := rs[..|rs| - 1], rs[|rs| - 1];
      assert init + [t] == rs;
      EnqueueAll(batchSize, acts, init);
      EnqueuesSnoc(acts, init, t);
      ExecSnoc(batchSize, acts + Enqueues(init), Enqueue(t));
      FilledOneMore(batchSize, Exec(batchSize, acts), Exec(batchSize, acts + Enqueues(init)), init, t);
    }
  }

  /** A run, of the timer and the flush, that stores what is in the buffer. */
  lemma StoreBuffer(batchSize: nat, acts: seq<Action>)
    requires Conserved(Exec(batchSize, acts))
    requires var s := Exec(batchSize, acts); s.buffer != [] && s.inFlight.None? && s.timerOn
    ensures var s, s' := Exec(batchSize, acts), Exec(batchSize, acts + [Tick, BeginFlush, Commit(true)]);
            && s'.attempts == s.attempts + [Attempt(s.buffer, Stored(true))]
            && s'.buffer == [] && s'.inFlight.None? && s'.timerOn && s'.enqueued == s.enqueued && s'.shadowLog == s.shadowLog
  {
    hide Exec, Upsert, Concat, Attempted;
    assert acts + [Tick, BeginFlush, Commit(true)] == ((acts + [Tick]) + [BeginFlush]) + [Commit(true)];
    ExecSnoc(batchSize, acts, Tick);
    ExecSnoc(batchSize, acts + [Tick], BeginFlush);
    ExecSnoc(batchSize, (acts + [Tick]) + [BeginFlush], Commit(true));
  }

  /** A run that goes on to store one more batch. */
  function BatchRun(acts: seq<Action>, batch: seq<Reading>): seq<Action> {
    (acts + Enqueues(batch)) + [Tick, BeginFlush, Commit(true)]
  }

  lemma StoreOne(batchSize: nat, acts: seq<Action>, batch: seq<Reading>)
    requires batchSize > 0 && batch != []
    requires Settled(Exec(batchSize, acts)) && Exec(batchSize, acts).timerOn
    ensures var s, s' := Exec(batchSize, acts), Exec(batchSize, BatchRun(acts, batch));
            && Settled(s') && s'.timerOn && s'.enqueued == s.enqueued + batch
            && StoredBatches(s'.attempts) == StoredBatches(s.attempts) + [batch] && s'.shadowLog == s.shadowLog
  {
    hide Exec, Enqueues, Conserved, Tables, Shadows, FlushPending, Draining, StoredBatches;
    AttemptSnoc(Exec(batchSize, acts).attempts, Attempt(batch, Stored(true)));
    var filled := acts + Enqueues(batch);
    EnqueueAll(batchSize, acts, batch);
    FlowInvariant(batchSize, filled);
    assert [] + batch == batch;
    StoreBuffer(batchSize, filled);
  }

  /** Every way of cutting a stream is what some run stores. */
  lemma {:induction false} CutIsRun(batchSize: nat, batches: seq<seq<Reading>>) returns (acts: seq<Action>)
    requires batchSize > 0 && forall k | 0 <= k < |batches| :: batches[k] != []
    ensures var s := Exec(batchSize, acts);
            && Settled(s) && s.timerOn && s.shadowLog == []
            && s.enqueued == Concat(batches) && StoredBatches(s.attempts) == batches
  {
    if batches == [] {
      acts := [];
    } else {
      hide Exec, Concat, StoredBatches, BatchRun, Settled;
      var init, batch := batches[..|batches| - 1], batches[|batches| - 1];
      var before := CutIsRun(batchSize, init);
      StoreOne(batchSize, before, batch);
      acts := BatchRun(before, batch);
      assert init + [batch] == batches;
      ConcatSnoc(init, batch);
    }
  }

  /** Whatever the run, once it has settled on this stream the registry has the last readings' rows. */
  ghost predicate EveryRunKeepsRows(batchSize: nat, rs: seq<Reading>) {
    forall acts, d | Settled(Exec(batchSize, acts)) && Exec(batchSize, acts).enqueued == rs ::
      Find(Exec(batchSize, acts).registry, d) == AsRow(LastOf(rs, d))
  }

  /** Batching transparency of runs, with its exact condition on the stream. */
  lemma RunTransparency(batchSize: nat, rs: seq<Reading>)
    requires batchSize > 0
    ensures EveryRunKeepsRows(batchSize, rs) <==> LastReadingWins(rs, RowOf)
  {
    hide Exec, Settled, Cuts, LastReadingWins, LastOf, RegistryAfter, StoredBatches;
    if LastReadingWins(rs, RowOf) {
      forall acts, d | Settled(Exec(batchSize, acts)) && Exec(batchSize, acts).enqueued == rs
        ensures Find(Exec(batchSize, acts).registry, d) == AsRow(LastOf(rs, d)) {
        RunKeepsLast(batchSize, acts, d);
      }
    }
    if EveryRunKeepsRows(batchSize, rs) {
      forall batches, d | Cuts(batches, rs) ensures Find(RegistryAfter(batches), d) == AsRow(LastOf(rs, d)) {
        CutIsReached(batchSize, rs, batches, d);
      }
      RegistryTransparency(rs);
    }
  }

  lemma CutIsReached(batchSize: nat, rs: seq<Reading>, batches: seq<seq<Reading>>, d: string)
    requires batchSize > 0 && Cuts(batches, rs) && EveryRunKeepsRows(batchSize, rs)
    ensures Find(RegistryAfter(batches), d) == AsRow(LastOf(rs, d))
  {
    hide Exec, Settled, LastOf, RegistryAfter, StoredBatches, Conserved, Shadows, FlushPending, Draining;
    var acts := CutIsRun(batchSize, batches);
    FlowInvariant(batchSize, acts);
    assert Find(Exec(batchSize, acts).registry, d) == AsRow(LastOf(rs, d));
  }

  function Drains(n: nat): seq<Action> {
    seq(n, k => RunShadow(true))
  }

  lemma DrainOne(batchSize: nat, s: Flow)
    requires Settled(s) && NoneLost(s.shadowLog) && s.shadowQueue != []
    ensures var s' := Step(batchSize, s, RunShadow(true));
            && Settled(s') && NoneLost(s'.shadowLog) && s'.shadowQueue == s.shadowQueue[1..]
            && s'.enqueued == s.enqueued && s'.attempts == s.attempts
  {
    hide Begin, CommitBatch, AbortBatch, ShadowWrite, AllStored;
  }

  /** The queued shadow commands can all be executed, one after the other. */
  lemma {:induction false} DrainAll(batchSize: nat, acts: seq<Action>, n: nat)
    requires Settled(Exec(batchSize, acts)) && NoneLost(Exec(batchSize, acts).shadowLog)
    requires n <= |Exec(batchSize, acts).shadowQueue|
    ensures var s, s' := Exec(batchSize, acts), Exec(batchSize, acts + Drains(n));
            && Settled(s') && NoneLost(s'.shadowLog) && s'.shadowQueue == s.shadowQueue[n..]
            && s'.enqueued == s.enqueued && s'.attempts == s.attempts
  {
    if n == 0 {
      assert acts + Drains(0) == acts;
    } else {
      hide Exec, Step, Settled, NoneLost;
      DrainAll(batchSize, acts, n - 1);
      assert acts + Drains(n) == (acts + Drains(n - 1)) + [RunShadow(true)];
      ExecSnoc(batchSize, acts + Drains(n - 1), RunShadow(true));
      DrainOne(batchSize, Exec(batchSize, acts + Drains(n - 1)));
    }
  }

  /** Whatever the run, once it has settled and drained, nothing lost, the cache has the last readings. */
  ghost predicate EveryRunKeepsCache(batchSize: nat, rs: seq<Reading>) {
    forall acts, d | Settled(Exec(batchSize, acts)) && Exec(batchSize, acts).enqueued == rs
      && Exec(batchSize, acts).shadowQueue == [] && NoneLost(Exec(batchSize, acts).shadowLog) ::
      ShadowOf(Exec(batchSize, acts).store, d) == LastOf(rs, d)
  }

  lemma CutIsCached(batchSize: nat, rs: seq<Reading>, batches: seq<seq<Reading>>, d: string)
    requires batchSize > 0 && Cuts(batches, rs) && EveryRunKeepsCache(batchSize, rs)
    ensures ReadingAfter(batches, d) == LastOf(rs, d)
  {
    hide Exec, Settled, LastOf, ReadingAfter, StoredBatches, ShadowOf, Conserved, Tables, Shadows, FlushPending, Draining, Drains;
    var stored := CutIsRun(batchSize, batches);
    var n := |Exec(batchSize, stored).shadowQueue|;
    DrainAll(batchSize, stored, n);
    var acts := stored + Drains(n);
    FlowInvariant(batchSize, acts);
    DrainedState(Exec(batchSize, acts), d);
    assert ShadowOf(Exec(batchSize, acts).store, d) == LastOf(rs, d);
  }

  /** The same for the shadow cache, which keeps whole readings. */
  lemma CacheTransparency(batchSize: nat, rs: seq<Reading>)
    requires batchSize > 0
    ensures EveryRunKeepsCache(batchSize, rs) <==> LastReadingWins(rs, Whole)
  {
    hide Exec, Settled, Cuts, LastReadingWins, LastOf, ReadingAfter, StoredBatches, ShadowOf;
    if LastReadingWins(rs, Whole) {
      forall acts, d | Settled(Exec(batchSize, acts)) && Exec(batchSize, acts).enqueued == rs
        && Exec(batchSize, acts).shadowQueue == [] && NoneLost(Exec(batchSize, acts).shadowLog)
        ensures ShadowOf(Exec(batchSize, acts).store, d) == LastOf(rs, d) {
        RunKeepsLast(batchSize, acts, d);
      }
    }
    if EveryRunKeepsCache(batchSize, rs) {
      forall batches, d | Cuts(batches, rs)
        ensures Seen(ReadingAfter(batches, d), Whole) == Seen(LastOf(rs, d), Whole) {
        CutIsCached(batchSize, rs, batches, d);
      }
      assert EveryCutKeepsLast(rs, Whole);
      BatchingTransparency(rs, Whole);
    }
  }
}
