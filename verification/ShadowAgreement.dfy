/** The device shadow against the registry: the cache is the registry as it stood some batches ago. */
module ShadowAgreement {
  import opened Options
  import opened Readings
  import opened StoreKeys
  import opened KeyValueStore
  import opened LatestFold
  import opened Registry
  import opened IngestionFlow

  function ShadowOf(store: Store, d: string): Option<Reading> {
    if ShadowKey(d) in store && store[ShadowKey(d)].Shadow? then Some(store[ShadowKey(d)].reading) else None
  }

  lemma ShadowKeysInjective(d: string, d': string)
    ensures ShadowKey(d) == ShadowKey(d') <==> d == d'
  {
    assert ShadowKey(d)[7..|ShadowKey(d)| - 5] == d;
    assert ShadowKey(d')[7..|ShadowKey(d')| - 5] == d';
  }

  lemma ShadowWritten(store: Store, c: ShadowCommand, d: string)
    ensures ShadowOf(ShadowWrite(store, c), d) ==
            if c.applied && c.reading.deviceId == d then Some(c.reading) else ShadowOf(store, d)
  {
    ShadowKeysInjective(c.reading.deviceId, d);
  }

  predicate NoneLost(log: seq<ShadowCommand>) {
    forall i | 0 <= i < |log| :: log[i].applied
  }

  /** Without losses a shadow is the last command issued for its device. */
  lemma {:induction false} LosslessShadow(log: seq<ShadowCommand>, d: string)
    requires NoneLost(log)
    ensures ShadowOf(ShadowsAfter(log), d) == LastOf(Issued(log), d)
  {
    hide ShadowOf, ShadowWrite;
    if log == [] {
      EmptyShadow(d);
    } else {
      LosslessShadow(log[..|log| - 1], d);
      ShadowWritten(ShadowsAfter(log[..|log| - 1]), log[|log| - 1], d);
      LastOfAppend(Issued(log[..|log| - 1]), [log[|log| - 1].reading], d);
    }
  }

  lemma EmptyShadow(d: string)
    ensures ShadowOf(map[], d) == None
  {
  }

  lemma {:induction false} LastOfAppend(a: seq<Reading>, b: seq<Reading>, d: string)
    ensures LastOf(a + b, d) == if LastOf(b, d).Some? then LastOf(b, d) else LastOf(a, d)
  {
    if b == [] {
      assert a + b == a;
    } else {
      LastOfAppend(a, b[..|b| - 1], d);
      assert (a + b)[..|a + b| - 1] == a + b[..|b| - 1];
    }
  }

  /** The one command a batch gives a device it mentions carries the device's newest reading. */
  lemma LastOfLatest(batch: seq<Reading>, d: string)
    ensures LastOf(Latest(batch), d) == NewestOf(batch, d)
  {
    hide Latest, NewestOf, LastOf;
    var latest := Latest(batch);
    LastOfMeaning(latest, d);
    LatestMeaning(batch);
    NewestOfMeaning(batch, d);
    if LastOf(latest, d).Some? {
      var p: nat :| LastReading(latest, p) && latest[p] == LastOf(latest, d).value;
      LatestIsNewest(batch, p);
    } else {
      CoveredDevice(batch, latest, d);
    }
  }

  lemma {:induction false} CommandsMeaning(batches: seq<seq<Reading>>, d: string)
    ensures LastOf(Commands(batches), d) == ReadingAfter(batches, d)
  {
    hide Latest, NewestOf, LastOf;
    if batches == [] {
      assert LastOf([], d) == None by { LastOfMeaning([], d); }
    } else {
      CommandsMeaning(batches[..|batches| - 1], d);
      LastOfAppend(Commands(batches[..|batches| - 1]), Latest(batches[|batches| - 1]), d);
      LastOfLatest(batches[|batches| - 1], d);
    }
  }

  /**
   At a pipeline boundary with nothing lost, the shadows are the readings last upserted m batches
   into the history, so their time and position are the registry's rows at that point.
   */
  lemma SnapshotAgrees(log: seq<ShadowCommand>, batches: seq<seq<Reading>>, m: nat, d: string)
    requires m <= |batches| && NoneLost(log) && Issued(log) == Commands(batches[..m])
    ensures ShadowOf(ShadowsAfter(log), d) == ReadingAfter(batches[..m], d)
    ensures AsRow(ShadowOf(ShadowsAfter(log), d)) == Find(RegistryAfter(batches[..m]), d)
  {
    hide ShadowOf, ShadowsAfter, Issued, Commands, RegistryAfter, ReadingAfter, LastOf;
    LosslessShadow(log, d);
    CommandsMeaning(batches[..m], d);
    RegistryMeaning(batches[..m], d);
  }

  lemma DrainedState(s: Flow, d: string)
    requires Tables(s) && Shadows(s) && s.shadowQueue == [] && NoneLost(s.shadowLog)
    ensures ShadowOf(s.store, d) == ReadingAfter(StoredBatches(s.attempts), d)
    ensures AsRow(ShadowOf(s.store, d)) == Find(s.registry, d)
  {
    hide ShadowOf, ShadowsAfter, Issued, Commands, RegistryAfter, ReadingAfter;
    var batches := StoredBatches(s.attempts);
    assert batches[..|batches|] == batches;
    assert Issued(s.shadowLog) + [] == Issued(s.shadowLog);
    SnapshotAgrees(s.shadowLog, batches, |batches|, d);
  }

  /** Once the shadow queue has drained and nothing was lost, shadow and registry agree on every device. */
  lemma DrainedShadowAgrees(batchSize: nat, acts: seq<Action>, d: string)
    requires batchSize > 0
    ensures var s := Exec(batchSize, acts);
            s.shadowQueue == [] && NoneLost(s.shadowLog) ==>
              && ShadowOf(s.store, d) == ReadingAfter(StoredBatches(s.attempts), d)
              && AsRow(ShadowOf(s.store, d)) == Find(s.registry, d)
  {
    hide Exec, ShadowOf, ShadowsAfter, RegistryAfter, ReadingAfter, Conserved, Tables, Shadows, Draining, FlushPending;
    FlowInvariant(batchSize, acts);
    var s := Exec(batchSize, acts);
    if s.shadowQueue == [] && NoneLost(s.shadowLog) {
      DrainedState(s, d);
    }
  }

  /** Every command comes from a batch, as that batch's newest reading of its device. */
  ghost predicate FromBatch(batches: seq<seq<Reading>>, t: Reading, k: nat) {
    k < |batches| && NewestOf(batches[k], t.deviceId) == Some(t)
  }

  lemma {:induction false} CommandOrigin(batches: seq<seq<Reading>>, i: nat) returns (k: nat)
    requires i < |Commands(batches)|
    ensures FromBatch(batches, Commands(batches)[i], k)
  {
    hide Latest, NewestOf;
    var n := |batches| - 1;
    var init := Commands(batches[..n]);
    if i < |init| {
      k := CommandOrigin(batches[..n], i);
    } else {
      LatestIsNewest(batches[n], i - |init|);
      k := n;
    }
  }

  /** A shadow, if there is one, is a command that was issued for its device. */
  lemma {:induction false} ShadowOrigin(log: seq<ShadowCommand>, d: string) returns (i: nat)
    ensures ShadowOf(ShadowsAfter(log), d).Some? ==>
              i < |Issued(log)| && Issued(log)[i] == ShadowOf(ShadowsAfter(log), d).value && Issued(log)[i].deviceId == d
  {
    hide ShadowOf, ShadowWrite;
    if log == [] {
      EmptyShadow(d);
      i := 0;
    } else {
      var init, c := log[..|log| - 1], log[|log| - 1];
      ShadowWritten(ShadowsAfter(init), c, d);
      if c.applied && c.reading.deviceId == d {
        i := |Issued(init)|;
      } else {
        i := ShadowOrigin(init, d);
      }
    }
  }

  /**
   A prefix of the commands is the commands of some batches, in full, and a beginning of the next
   batch's.
   */
  lemma {:induction false} CommandBoundary(batches: seq<seq<Reading>>, n: nat) returns (m: nat, k: nat)
    requires n <= |Commands(batches)|
    ensures m <= |batches| && k <= |if m < |batches| then Latest(batches[m]) else []|
    ensures Commands(batches)[..n] ==
            Commands(batches[..m]) + if m < |batches| then Latest(batches[m])[..k] else []
  {
    hide Latest;
    var last := |batches| - 1;
    if batches == [] {
      m, k := 0, 0;
      assert batches[..0] == [];
    } else {
      var init := Commands(batches[..last]);
      if n < |init| {
        m, k := CommandBoundary(batches[..last], n);
        assert batches[..last][..m] == batches[..m];
        assert Commands(batches)[..n] == init[..n];
      } else {
        m, k := last, n - |init|;
        assert Commands(batches)[..n] == init + Latest(batches[last])[..k];
      }
    }
  }

  /** The first k commands of a batch, seen by one device: its newest reading, or nothing. */
  lemma LastOfBeginning(batch: seq<Reading>, k: nat, d: string)
    requires k <= |Latest(batch)|
    ensures LastOf(Latest(batch)[..k], d) == if Mentions(Latest(batch)[..k], d) then NewestOf(batch, d) else None
  {
    hide Latest, NewestOf, LastOf;
    var begun := Latest(batch)[..k];
    LastOfMeaning(begun, d);
    if LastOf(begun, d).Some? {
      var p: nat :| LastReading(begun, p) && begun[p] == LastOf(begun, d).value;
      LatestIsNewest(batch, p);
      assert begun[p].deviceId == d;
    }
  }

  /**
   The whole cache is the registry's readings after m batches, but for the first k commands of the
   next batch's pipeline, which have been executed already.
   */
  ghost predicate CacheAt(store: Store, batches: seq<seq<Reading>>, m: nat, k: nat) {
    && m <= |batches| && k <= |if m < |batches| then Latest(batches[m]) else []|
    && forall d :: ShadowOf(store, d) ==
                   if m < |batches| && Mentions(Latest(batches[m])[..k], d) then ReadingAfter(batches[..m + 1], d)
                   else ReadingAfter(batches[..m], d)
  }

  lemma CacheOf(log: seq<ShadowCommand>, batches: seq<seq<Reading>>, m: nat, k: nat, d: string)
    requires NoneLost(log) && m <= |batches| && k <= |if m < |batches| then Latest(batches[m]) else []|
    requires Issued(log) == Commands(batches[..m]) + if m < |batches| then Latest(batches[m])[..k] else []
    ensures ShadowOf(ShadowsAfter(log), d) ==
            if m < |batches| && Mentions(Latest(batches[m])[..k], d) then ReadingAfter(batches[..m + 1], d)
            else ReadingAfter(batches[..m], d)
  {
    hide ShadowOf, ShadowsAfter, Issued, Commands, LastOf, Latest, NewestOf;
    LosslessShadow(log, d);
    CommandsMeaning(batches[..m], d);
    if m < |batches| {
      LastOfAppend(Commands(batches[..m]), Latest(batches[m])[..k], d);
      LastOfBeginning(batches[m], k, d);
      assert batches[..m + 1][..m] == batches[..m];
      if Mentions(Latest(batches[m])[..k], d) {
        BeginningMentioned(batches[m], k, d);
      }
    } else {
      assert Commands(batches[..m]) + [] == Commands(batches[..m]);
    }
  }

  lemma BeginningMentioned(batch: seq<Reading>, k: nat, d: string)
    requires k <= |Latest(batch)| && Mentions(Latest(batch)[..k], d)
    ensures NewestOf(batch, d).Some?
  {
    hide Latest, NewestOf;
    var p: nat :| p < k && Latest(batch)[..k][p].deviceId == d;
    LatestIsNewest(batch, p);
  }

  lemma {:induction false} IssuedLength(log: seq<ShadowCommand>)
    ensures |Issued(log)| == |log|
  {
    if log != [] {
      IssuedLength(log[..|log| - 1]);
    }
  }

  lemma CacheState(s: Flow) returns (m: nat, k: nat)
    requires Shadows(s) && NoneLost(s.shadowLog)
    ensures CacheAt(s.store, StoredBatches(s.attempts), m, k)
    ensures |Commands(StoredBatches(s.attempts)[..m])| + k == |s.shadowLog|
  {
    hide ShadowOf, ShadowsAfter, Issued, Commands, Mentions, Latest, ReadingAfter;
    var batches := StoredBatches(s.attempts);
    var n := |Issued(s.shadowLog)|;
    IssuedLength(s.shadowLog);
    assert Commands(batches)[..n] == Issued(s.shadowLog);
    m, k := CommandBoundary(batches, n);
    forall d ensures ShadowOf(s.store, d) ==
        if m < |batches| && Mentions(Latest(batches[m])[..k], d) then ReadingAfter(batches[..m + 1], d)
        else ReadingAfter(batches[..m], d) {
      CacheOf(s.shadowLog, batches, m, k, d);
    }
  }

  /**
   At every point, with no command lost, one number of batches fits all devices: the cache is the
   registry as it stood after that many batches, with the next batch's pipeline executed in part. Where
   it stands is the number of commands executed, so the cache never goes back.
   */
  lemma CacheIsPastRegistry(batchSize: nat, acts: seq<Action>) returns (m: nat, k: nat)
    requires batchSize > 0
    ensures var s := Exec(batchSize, acts);
            NoneLost(s.shadowLog) ==>
              CacheAt(s.store, StoredBatches(s.attempts), m, k) &&
              |Commands(StoredBatches(s.attempts)[..m])| + k == |s.shadowLog|
  {
    hide Exec, CacheAt, Conserved, Tables, Shadows, Draining, FlushPending, Commands;
    FlowInvariant(batchSize, acts);
    var s := Exec(batchSize, acts);
    m, k := 0, 0;
    if NoneLost(s.shadowLog) {
      m, k := CacheState(s);
    }
  }

  /** So each registry row the whole cache agrees with is one of two consecutive states of the registry. */
  lemma CacheRows(store: Store, batches: seq<seq<Reading>>, m: nat, k: nat, d: string)
    requires CacheAt(store, batches, m, k)
    ensures AsRow(ShadowOf(store, d)) == Find(RegistryAfter(batches[..m]), d) ||
            (m < |batches| && AsRow(ShadowOf(store, d)) == Find(RegistryAfter(batches[..m + 1]), d))
  {
    hide ShadowOf, RegistryAfter, ReadingAfter, Latest, Mentions;
    RegistryMeaning(batches[..m], d);
    if m < |batches| {
      RegistryMeaning(batches[..m + 1], d);
    }
  }

  /** After m batches the registry holds, for this device, exactly what the shadow holds. */
  ghost predicate StoodAfter(batches: seq<seq<Reading>>, m: nat, d: string, shadow: Option<Reading>) {
    m <= |batches| && shadow == ReadingAfter(batches[..m], d) && AsRow(shadow) == Find(RegistryAfter(batches[..m]), d)
  }

  /**
   At every point, also mid-pipeline and with commands lost, each device's shadow is its registry
   row as it stood some number of batches ago.
   */
  lemma ShadowIsPastRow(batchSize: nat, acts: seq<Action>, d: string) returns (m: nat)
    requires batchSize > 0
    ensures var s := Exec(batchSize, acts);
            StoodAfter(StoredBatches(s.attempts), m, d, ShadowOf(s.store, d))
  {
    hide Exec, ShadowOf, ShadowsAfter, Issued, Commands, RegistryAfter, NewestOf, Conserved, Draining, FlushPending;
    FlowInvariant(batchSize, acts);
    var s := Exec(batchSize, acts);
    var batches := StoredBatches(s.attempts);
    var i := ShadowOrigin(s.shadowLog, d);
    m := 0;
    if ShadowOf(s.store, d).Some? {
      assert Commands(batches)[i] == Issued(s.shadowLog)[i];
      var k := CommandOrigin(batches, i);
      m := k + 1;
      assert batches[..m][..k] == batches[..k];
    }
    RegistryMeaning(batches[..m], d);
  }
}
