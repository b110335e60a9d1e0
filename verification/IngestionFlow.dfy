/**
 The ingestion service as a state machine: a buffer filled by messages, flushes scheduled by size, by
 a timer and by shutdown and run strictly one after the other, batches that are stored or lost as a
 whole, announcements, and a queue of shadow commands that drains behind them.
 */
module IngestionFlow {
  import opened Options
  import opened Readings
  import opened StoreKeys
  import opened KeyValueStore
  import opened LatestFold
  import opened Registry

  /** How an attempt to persist a batch ended; a stored batch is announced unless the broker is unreachable. */
  datatype Fate = Lost | Stored(announced: bool)

  datatype Attempt = Attempt(batch: seq<Reading>, fate: Fate)

  /** The shutdown flush: its place in the chain, and how many readings had been enqueued by then. */
  datatype Drain = Drain(ticket: nat, mark: nat)

  datatype ShadowCommand = ShadowCommand(reading: Reading, applied: bool)

  /** `scheduled`, `started` and `finished` count the links of the flush chain; the last three fields are history. */
  datatype Flow = Flow(
    buffer: seq<Reading>,
    scheduled: nat,
    started: nat,
    finished: nat,
    inFlight: Option<seq<Reading>>,
    timerOn: bool,
    drain: Option<Drain>,
    telemetry: seq<Reading>,
    registry: Devices,
    outbox: seq<Reading>,
    shadowQueue: seq<Reading>,
    store: Store,
    enqueued: seq<Reading>,
    attempts: seq<Attempt>,
    shadowLog: seq<ShadowCommand>)

  datatype Action =
    | Enqueue(t: Reading)
    | Tick
    | BeginFlush
    | Commit(announced: bool)
    | Abort
    | RunShadow(applied: bool)
    | Shutdown

  function Start(): Flow {
    Flow([], 0, 0, 0, None, true, None, [], map[], [], [], map[], [], [], [])
  }

  function Schedule(s: Flow): Flow {
    s.(scheduled := s.scheduled + 1)
  }

  /** Splices the whole buffer; an empty batch ends the flush at once. */
  function Begin(s: Flow): Flow {
    if s.started >= s.scheduled || s.inFlight.Some? then s
    else if s.buffer == [] then s.(started := s.started + 1, finished := s.finished + 1)
    else s.(started := s.started + 1, inFlight := Some(s.buffer), buffer := [])
  }

  /** The transaction went through: rows, registry, announcements, then the shadow pipeline. */
  function CommitBatch(s: Flow, announced: bool): Flow
    requires s.inFlight.Some?
  {
    var batch := s.inFlight.value;
    s.(finished := s.finished + 1, inFlight := None,
       telemetry := s.telemetry + batch,
       registry := Upsert(s.registry, Latest(batch)),
       outbox := if announced then s.outbox + batch else s.outbox,
       shadowQueue := s.shadowQueue + Latest(batch),
       attempts := s.attempts + [Attempt(batch, Stored(announced))])
  }

  function AbortBatch(s: Flow): Flow
    requires s.inFlight.Some?
  {
    s.(finished := s.finished + 1, inFlight := None, attempts := s.attempts + [Attempt(s.inFlight.value, Lost)])
  }

  function ShadowWrite(store: Store, c: ShadowCommand): Store {
    if c.applied then store[ShadowKey(c.reading.deviceId) := Shadow(c.reading)] else store
  }

  function Step(batchSize: nat, s: Flow, a: Action): Flow {
    match a
    case Enqueue(t) =>
      var filled := s.(buffer := s.buffer + [t], enqueued := s.enqueued + [t]);
      if |filled.buffer| >= batchSize then Schedule(filled) else filled
    case Tick => if s.timerOn then Schedule(s) else s
    case BeginFlush => Begin(s)
    case Commit(announced) => if s.inFlight.Some? then CommitBatch(s, announced) else s
    case Abort => if s.inFlight.Some? then AbortBatch(s) else s
    case RunShadow(applied) =>
      if s.shadowQueue == [] then s
      else
        var c := ShadowCommand(s.shadowQueue[0], applied);
        s.(shadowQueue := s.shadowQueue[1..], store := ShadowWrite(s.store, c), shadowLog := s.shadowLog + [c])
    case Shutdown =>
      if s.drain.Some? then s
      else Schedule(s).(timerOn := false, drain := Some(Drain(s.scheduled + 1, |s.enqueued|)))
  }

  function Exec(batchSize: nat, acts: seq<Action>): Flow {
    if acts == [] then Start() else Step(batchSize, Exec(batchSize, acts[..|acts| - 1]), acts[|acts| - 1])
  }

  /** The batches of all attempts, of the stored ones, and of the announced ones, in order. */
  function Attempted(attempts: seq<Attempt>): seq<seq<Reading>> {
    if attempts == [] then [] else Attempted(attempts[..|attempts| - 1]) + [attempts[|attempts| - 1].batch]
  }

  function StoredBatches(attempts: seq<Attempt>): seq<seq<Reading>> {
    if attempts == [] then []
    else
      var init, last := StoredBatches(attempts[..|attempts| - 1]), attempts[|attempts| - 1];
      if last.fate.Stored? then init + [last.batch] else init
  }

  function AnnouncedBatches(attempts: seq<Attempt>): seq<seq<Reading>> {
    if attempts == [] then []
    else
      var init, last := AnnouncedBatches(attempts[..|attempts| - 1]), attempts[|attempts| - 1];
      if last.fate.Stored? && last.fate.announced then init + [last.batch] else init
  }

  function InFlight(s: Flow): seq<Reading> {
    if s.inFlight.Some? then s.inFlight.value else []
  }

  /** The shadow commands the batches give rise to, in order. */
  function Commands(batches: seq<seq<Reading>>): seq<Reading> {
    if batches == [] then [] else Commands(batches[..|batches| - 1]) + Latest(batches[|batches| - 1])
  }

  function Issued(log: seq<ShadowCommand>): seq<Reading> {
    if log == [] then [] else Issued(log[..|log| - 1]) + [log[|log| - 1].reading]
  }

  function ShadowsAfter(log: seq<ShadowCommand>): Store {
    if log == [] then map[] else ShadowWrite(ShadowsAfter(log[..|log| - 1]), log[|log| - 1])
  }

  /** Every reading enqueued is in exactly one place, in arrival order; at most one batch is under way. */
  ghost predicate Conserved(s: Flow) {
    && s.enqueued == Concat(Attempted(s.attempts)) + InFlight(s) + s.buffer
    && s.finished <= s.started <= s.scheduled
    && s.started == s.finished + (if s.inFlight.Some? then 1 else 0)
    && s.inFlight != Some([]) && (forall k | 0 <= k < |s.attempts| :: s.attempts[k].batch != [])
  }

  /** The tables hold the stored batches and nothing else; the outbox holds the announced ones. */
  ghost predicate Tables(s: Flow) {
    && s.telemetry == Concat(StoredBatches(s.attempts))
    && s.outbox == Concat(AnnouncedBatches(s.attempts))
    && s.registry == RegistryAfter(StoredBatches(s.attempts))
  }

  ghost predicate Shadows(s: Flow) {
    && Issued(s.shadowLog) + s.shadowQueue == Commands(StoredBatches(s.attempts))
    && s.store == ShadowsAfter(s.shadowLog)
  }

  /** A buffer at or over the batch size has a flush scheduled that has not taken it yet. */
  ghost predicate FlushPending(batchSize: nat, s: Flow) {
    |s.buffer| >= batchSize ==> s.started < s.scheduled
  }

  /** After shutdown the timer is off, and once its flush has run, everything enqueued before has been attempted. */
  ghost predicate Draining(s: Flow) {
    s.drain.Some? ==>
      var d := s.drain.value;
      && !s.timerOn && d.ticket <= s.scheduled && d.mark <= |s.enqueued|
      && (s.started >= d.ticket ==> d.mark <= |Concat(Attempted(s.attempts))| + |InFlight(s)|)
      && (s.finished >= d.ticket ==> d.mark <= |Concat(Attempted(s.attempts))|)
  }

  lemma AttemptSnoc(attempts: seq<Attempt>, a: Attempt)
    ensures Attempted(attempts + [a]) == Attempted(attempts) + [a.batch]
    ensures StoredBatches(attempts + [a]) ==
            if a.fate.Stored? then StoredBatches(attempts) + [a.batch] else StoredBatches(attempts)
    ensures AnnouncedBatches(attempts + [a]) ==
            if a.fate.Stored? && a.fate.announced then AnnouncedBatches(attempts) + [a.batch]
            else AnnouncedBatches(attempts)
  {
    assert (attempts + [a])[..|attempts|] == attempts;
  }

  /** What an attempt adds to the concatenations. */
  lemma AttemptConcat(attempts: seq<Attempt>, a: Attempt)
    ensures Concat(Attempted(attempts + [a])) == Concat(Attempted(attempts)) + a.batch
  {
    AttemptSnoc(attempts, a);
    ConcatSnoc(Attempted(attempts), a.batch);
  }

  lemma CommandsSnoc(batches: seq<seq<Reading>>, batch: seq<Reading>)
    ensures Commands(batches + [batch]) == Commands(batches) + Latest(batch)
  {
    assert (batches + [batch])[..|batches|] == batches;
  }

  lemma LogSnoc(log: seq<ShadowCommand>, c: ShadowCommand)
    ensures Issued(log + [c]) == Issued(log) + [c.reading]
    ensures ShadowsAfter(log + [c]) == ShadowWrite(ShadowsAfter(log), c)
  {
    assert (log + [c])[..|log|] == log;
  }

  /** The batch under way moves to the attempts, whatever its fate. */
  lemma AttemptConserved(s: Flow, fate: Fate, s': Flow)
    requires Conserved(s) && s.inFlight.Some? && s'.inFlight.None? && s'.attempts == s.attempts + [Attempt(s.inFlight.value, fate)]
    requires s'.enqueued == s.enqueued && s'.buffer == s.buffer
    requires s'.finished == s.finished + 1 && s'.started == s.started && s'.scheduled == s.scheduled
    ensures Conserved(s')
  {
    hide Concat, Attempted;
    AttemptConcat(s.attempts, Attempt(s.inFlight.value, fate));
    var done := Concat(Attempted(s.attempts));
    assert (done + s.inFlight.value) + [] == done + s.inFlight.value;
  }

  lemma ConservedStep(batchSize: nat, s: Flow, a: Action)
    requires Conserved(s)
    ensures Conserved(Step(batchSize, s, a))
  {
    hide Concat, Attempted, Latest, Upsert;
    if s.inFlight.Some? && a.Commit? {
      AttemptConserved(s, Stored(a.announced), Step(batchSize, s, a));
    } else if s.inFlight.Some? && a.Abort? {
      AttemptConserved(s, Lost, Step(batchSize, s, a));
    } else if a.Enqueue? {
      var before := Concat(Attempted(s.attempts)) + InFlight(s);
      assert (before + s.buffer) + [a.t] == before + (s.buffer + [a.t]);
    } else if a.BeginFlush? {
      var done := Concat(Attempted(s.attempts));
      assert (done + []) + s.buffer == (done + s.buffer) + [];
    }
  }

  lemma TablesStep(batchSize: nat, s: Flow, a: Action)
    requires Tables(s)
    ensures Tables(Step(batchSize, s, a))
  {
    hide Concat, Attempted, StoredBatches, AnnouncedBatches, RegistryAfter, Latest, Upsert;
    if s.inFlight.Some? && (a.Commit? || a.Abort?) {
      var batch := s.inFlight.value;
      AttemptSnoc(s.attempts, Attempt(batch, if a.Commit? then Stored(a.announced) else Lost));
      ConcatSnoc(StoredBatches(s.attempts), batch);
      ConcatSnoc(AnnouncedBatches(s.attempts), batch);
    }
  }

  lemma CommitShadows(s: Flow, announced: bool)
    requires Shadows(s) && s.inFlight.Some?
    ensures Shadows(CommitBatch(s, announced))
  {
    hide Commands, Issued, ShadowsAfter, StoredBatches, Latest, Upsert;
    var batch := s.inFlight.value;
    AttemptSnoc(s.attempts, Attempt(batch, Stored(announced)));
    CommandsSnoc(StoredBatches(s.attempts), batch);
    assert (Issued(s.shadowLog) + s.shadowQueue) + Latest(batch) == Issued(s.shadowLog) + (s.shadowQueue + Latest(batch));
  }

  lemma RunShadowStep(s: Flow, c: ShadowCommand, s': Flow)
    requires Shadows(s) && s.shadowQueue != [] && c.reading == s.shadowQueue[0]
    requires s'.shadowQueue == s.shadowQueue[1..] && s'.shadowLog == s.shadowLog + [c] && s'.attempts == s.attempts
    requires s'.store == ShadowWrite(s.store, c)
    ensures Shadows(s')
  {
    hide Commands, Issued, ShadowsAfter, ShadowWrite, StoredBatches;
    LogSnoc(s.shadowLog, c);
    assert s.shadowQueue == [c.reading] + s.shadowQueue[1..];
  }

  lemma ShadowsStep(batchSize: nat, s: Flow, a: Action)
    requires Shadows(s)
    ensures Shadows(Step(batchSize, s, a))
  {
    hide Commands, Issued, ShadowsAfter, ShadowWrite, StoredBatches, Latest, Upsert;
    if s.inFlight.Some? && a.Commit? {
      CommitShadows(s, a.announced);
    } else if s.inFlight.Some? && a.Abort? {
      AttemptSnoc(s.attempts, Attempt(s.inFlight.value, Lost));
    } else if a.RunShadow? && s.shadowQueue != [] {
      RunShadowStep(s, ShadowCommand(s.shadowQueue[0], a.applied), Step(batchSize, s, a));
    }
  }

  lemma PendingStep(batchSize: nat, s: Flow, a: Action)
    requires batchSize > 0 && Conserved(s) && FlushPending(batchSize, s)
    ensures FlushPending(batchSize, Step(batchSize, s, a))
  {
    hide Concat, Attempted, Latest, Upsert;
  }

  lemma DrainingStep(batchSize: nat, s: Flow, a: Action)
    requires Conserved(s) && Draining(s)
    ensures Draining(Step(batchSize, s, a))
  {
    hide Concat, Attempted, Latest, Upsert;
    assert |s.enqueued| == |Concat(Attempted(s.attempts))| + |InFlight(s)| + |s.buffer|;
    if s.inFlight.Some? {
      AttemptConcat(s.attempts, Attempt(s.inFlight.value, Lost));
      if a.Commit? {
        AttemptConcat(s.attempts, Attempt(s.inFlight.value, Stored(a.announced)));
      }
    }
  }

  ghost predicate FlowInv(batchSize: nat, s: Flow) {
    Conserved(s) && Tables(s) && Shadows(s) && FlushPending(batchSize, s) && Draining(s)
  }

  /** Conservation, order, pending flush and drain hold in every reachable state, for every interleaving. */
  lemma {:induction false} FlowInvariant(batchSize: nat, acts: seq<Action>)
    requires batchSize > 0
    ensures FlowInv(batchSize, Exec(batchSize, acts))
  {
    hide Step;
    if acts != [] {
      FlowInvariant(batchSize, acts[..|acts| - 1]);
      var s, a := Exec(batchSize, acts[..|acts| - 1]), acts[|acts| - 1];
      ConservedStep(batchSize, s, a);
      TablesStep(batchSize, s, a);
      ShadowsStep(batchSize, s, a);
      PendingStep(batchSize, s, a);
      DrainingStep(batchSize, s, a);
    }
  }

  /** When the shutdown flush has finished, what was enqueued before it is all attempted, and in order. */
  lemma ShutdownDrains(batchSize: nat, acts: seq<Action>)
    requires batchSize > 0
    ensures var s := Exec(batchSize, acts);
            s.drain.Some? && s.finished >= s.drain.value.ticket ==>
              && s.drain.value.mark <= |s.enqueued|
              && s.enqueued[..s.drain.value.mark] <= Concat(Attempted(s.attempts))
              && Concat(Attempted(s.attempts)) <= s.enqueued
              && (|s.enqueued| == s.drain.value.mark ==>
                    s.buffer == [] && s.inFlight.None? && Concat(Attempted(s.attempts)) == s.enqueued)
  {
    hide Exec, Concat, Attempted, Tables, Shadows, FlushPending;
    FlowInvariant(batchSize, acts);
  }

  lemma ShutdownStep(batchSize: nat, s: Flow)
    requires s.drain.None?
    ensures var s' := Step(batchSize, s, Shutdown);
            !s'.timerOn && s'.drain == Some(Drain(s.scheduled + 1, |s.enqueued|)) && s'.enqueued == s.enqueued
  {
  }

  lemma DrainStays(batchSize: nat, s: Flow, a: Action)
    requires s.drain.Some? && !s.timerOn
    ensures var s' := Step(batchSize, s, a); s'.drain == s.drain && !s'.timerOn && s.enqueued <= s'.enqueued
  {
    hide Upsert, Latest, ShadowWrite;
  }

  /** Once shutdown has been called, the timer is off and its flush has its place, whatever comes after. */
  lemma {:induction false} ShutdownStays(batchSize: nat, before: seq<Action>, after: seq<Action>)
    requires Exec(batchSize, before).drain.None?
    ensures var s, s' := Exec(batchSize, before), Exec(batchSize, before + [Shutdown] + after);
            && !s'.timerOn && s'.drain == Some(Drain(s.scheduled + 1, |s.enqueued|)) && s.enqueued <= s'.enqueued
  {
    hide Step;
    var acts := before + [Shutdown] + after;
    if after == [] {
      assert acts[..|acts| - 1] == before;
      ShutdownStep(batchSize, Exec(batchSize, before));
    } else {
      ShutdownStays(batchSize, before, after[..|after| - 1]);
      assert acts[..|acts| - 1] == before + [Shutdown] + after[..|after| - 1];
      DrainStays(batchSize, Exec(batchSize, acts[..|acts| - 1]), after[|after| - 1]);
    }
  }

  /**
   Shutdown in any run: the timer stays off, and as soon as one link more has finished than had been
   scheduled when it was called, everything enqueued by then has been attempted, in order.
   */
  lemma ShutdownCompletes(batchSize: nat, before: seq<Action>, after: seq<Action>)
    requires batchSize > 0 && Exec(batchSize, before).drain.None?
    ensures var s, s' := Exec(batchSize, before), Exec(batchSize, before + [Shutdown] + after);
            && !s'.timerOn
            && (s'.finished > s.scheduled ==> s.enqueued <= Concat(Attempted(s'.attempts)))
            && (s'.finished <= s.scheduled ==> ChainWork(s') > 0)
  {
    hide Exec, Concat, Attempted, Tables, Shadows, FlushPending;
    ShutdownStays(batchSize, before, after);
    ShutdownDrains(batchSize, before + [Shutdown] + after);
    FlowInvariant(batchSize, before + [Shutdown] + after);
  }

  /** The work left in the chain: two steps for a flush not begun, one for a batch under way. */
  function ChainWork(s: Flow): int {
    2 * (s.scheduled - s.started) + if s.inFlight.Some? then 1 else 0
  }

  /** While there is work a step of the chain is due, and every such step, also a failing one, shortens it. */
  lemma ChainNeverStalls(batchSize: nat, s: Flow, announced: bool)
    requires Conserved(s)
    ensures ChainWork(s) >= 0
    ensures s.inFlight.Some? ==>
              && ChainWork(Step(batchSize, s, Abort)) == ChainWork(s) - 1
              && ChainWork(Step(batchSize, s, Commit(announced))) == ChainWork(s) - 1
    ensures s.inFlight.None? && ChainWork(s) > 0 ==> ChainWork(Step(batchSize, s, BeginFlush)) < ChainWork(s)
    ensures ChainWork(s) == 0 <==> s.finished == s.scheduled
  {
    hide Concat, Attempted, Latest, Upsert;
  }
}
