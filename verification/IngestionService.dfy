/** The ingestion side's services: the admission gate, the batching service and the shadow cache writer. */
module IngestionService {
  import opened Options
  import opened Readings
  import opened StoreKeys
  import opened KeyValueStore
  import opened LatestFold
  import opened Registry
  import opened IngestionFlow
  import opened TopicCodec
  import Clients

  class DeviceShadowService {
    const redis: Clients.RedisClient
    /** Commands handed to the store and not yet executed, in order. */
    var pipelined: seq<Reading>
    ghost var log: seq<ShadowCommand>

    constructor (redis: Clients.RedisClient)
      ensures this.redis == redis && pipelined == [] && log == []
    {
      this.redis := redis;
      pipelined := [];
      log := [];
    }

    /** Appends one command per reading; an empty update sends nothing. */
    method Update(readings: seq<Reading>)
      modifies this
      ensures pipelined == old(pipelined) + readings && log == old(log)
    {
      if |readings| == 0 {
        return;
      }
      for i := 0 to |readings|
        invariant pipelined == old(pipelined) + readings[..i] && log == old(log)
      {
        pipelined := pipelined + [readings[i]];
      }
    }

    /** The store executes the oldest command; an error is swallowed. */
    method ExecuteNext() returns (reply: WriteReply)
      requires pipelined != [] && redis.world.Valid()
      modifies this, redis, redis.world
      ensures redis.world.Valid() && reply == Clients.WriteReplyBy(old(redis.world.Next()))
      ensures redis.world.calls == old(redis.world.calls) +
              [Clients.Stored(ShadowKey(old(pipelined)[0].deviceId), Shadow(old(pipelined)[0]), reply)]
      ensures pipelined == old(pipelined)[1..]
      ensures log == old(log) + [ShadowCommand(old(pipelined)[0], TookEffect(reply))]
      ensures redis.entries == ShadowWrite(old(redis.entries), ShadowCommand(old(pipelined)[0], TookEffect(reply)))
    {
      var reading := pipelined[0];
      reply := redis.Set(ShadowKey(reading.deviceId), Shadow(reading));
      pipelined := pipelined[1..];
      log := log + [ShadowCommand(reading, TookEffect(reply))];
    }
  }

  class IngestionService {
    const batchSize: nat
    const shadow: DeviceShadowService
    var buffer: seq<Reading>
    /** The promise chain: links appended, begun and settled, and the batch of the one under way. */
    var scheduled: nat
    var started: nat
    var finished: nat
    var inFlight: Option<seq<Reading>>
    var timerOn: bool
    var drain: Option<Drain>
    /** Whether the broker client has a channel; its events change this, not the service. */
    var connected: bool
    /** The database tables and the broker's exchange, as far as this service writes them. */
    var telemetry: seq<Reading>
    var registry: Devices
    var outbox: seq<Reading>
    ghost var enqueued: seq<Reading>
    ghost var attempts: seq<Attempt>
    /** How many readings had been enqueued, counted for the drain. */
    var received: nat

    ghost predicate Valid()
      reads this, shadow
    {
      received == |enqueued|
    }

    ghost function View(): Flow
      reads this, shadow, shadow.redis
    {
      Flow(buffer, scheduled, started, finished, inFlight, timerOn, drain, telemetry, registry, outbox,
           shadow.pipelined, shadow.redis.entries, enqueued, attempts, shadow.log)
    }

    constructor (batchSize: nat, shadow: DeviceShadowService)
      requires shadow.pipelined == [] && shadow.log == [] && shadow.redis.entries == map[]
      ensures Valid() && View() == Start()
      ensures this.batchSize == batchSize && this.shadow == shadow
    {
      this.batchSize := batchSize;
      this.shadow := shadow;
      buffer, inFlight := [], None;
      scheduled, started, finished, received := 0, 0, 0, 0;
      timerOn, drain, connected := true, None, false;
      telemetry, registry, outbox := [], map[], [];
      enqueued, attempts := [], [];
    }

    method Enqueue(t: Reading)
      requires Valid()
      modifies this
      ensures Valid() && View() == Step(batchSize, old(View()), Action.Enqueue(t)) && connected == old(connected)
    {
      buffer := buffer + [t];
      enqueued := enqueued + [t];
      received := received + 1;
      if |buffer| >= batchSize {
        ScheduleFlush();
      }
    }

    method ScheduleFlush()
      requires Valid()
      modifies this`scheduled
      ensures Valid() && View() == Schedule(old(View()))
    {
      scheduled := scheduled + 1;
    }

    method TimerTick()
      requires Valid()
      modifies this
      ensures Valid() && View() == Step(batchSize, old(View()), Tick)
    {
      if timerOn {
        ScheduleFlush();
      }
    }

    /** The next link of the chain starts: it splices the buffer, and ends at once if there was nothing in it. */
    method BeginFlush() returns (due: bool)
      requires Valid()
      modifies this
      ensures Valid() && View() == Step(batchSize, old(View()), Action.BeginFlush)
      ensures due <==> old(inFlight).None? && inFlight.Some?
    {
      due := false;
      if started < scheduled && inFlight.None? {
        var batch := buffer;
        buffer := [];
        started := started + 1;
        if |batch| == 0 {
          finished := finished + 1;
        } else {
          inFlight := Some(batch);
          due := true;
        }
      }
    }

    /** Persists the batch under way and ends its link; a failed transaction is logged and dropped. */
    method FinishFlush(commits: bool)
      requires Valid() && inFlight.Some?
      modifies this, shadow
      ensures Valid() && connected == old(connected)
      ensures View() == Step(batchSize, old(View()), if commits then Commit(connected) else Abort)
    {
      hide Upsert, Latest, Begin, Schedule, ShadowWrite;
      var batch := inFlight.value;
      var committed := Persist(batch, commits);
      finished := finished + 1;
      inFlight := None;
      attempts := attempts + [Attempt(batch, if committed then Stored(connected) else Lost)];
    }

    /**
     One transaction for the rows and the registry, which the database commits or not, then the announcements
     and the shadow pipeline.
     */
    method Persist(batch: seq<Reading>, commits: bool) returns (committed: bool)
      modifies this`telemetry, this`registry, this`outbox, shadow
      ensures committed == commits
      ensures committed ==>
                && telemetry == old(telemetry) + batch
                && registry == Upsert(old(registry), Latest(batch))
                && outbox == old(outbox) + (if connected then batch else [])
                && shadow.pipelined == old(shadow.pipelined) + Latest(batch)
      ensures !committed ==>
                && telemetry == old(telemetry) && registry == old(registry) && outbox == old(outbox)
                && shadow.pipelined == old(shadow.pipelined)
      ensures shadow.log == old(shadow.log)
    {
      var latest := LatestByDevice(batch);
      if !commits {
        return false;
      }
      telemetry := telemetry + batch;
      registry := Upsert(registry, latest);
      committed := true;
      PublishTelemetryReceived(batch);
      shadow.Update(latest);
    }

    /** One event per reading, in batch order; without a channel every publish is skipped. */
    method PublishTelemetryReceived(batch: seq<Reading>)
      modifies this`outbox
      ensures outbox == old(outbox) + if connected then batch else []
    {
      for i := 0 to |batch|
        invariant outbox == old(outbox) + if connected then batch[..i] else []
      {
        if connected {
          outbox := outbox + [batch[i]];
        }
      }
    }

    /** Clears the timer and schedules the flush that the shutdown waits for. */
    method OnApplicationShutdown()
      requires Valid()
      modifies this
      ensures Valid() && View() == Step(batchSize, old(View()), Shutdown)
    {
      if drain.None? {
        timerOn := false;
        ScheduleFlush();
        drain := Some(Drain(scheduled, received));
      }
    }
  }

  /** What arrives on a topic: not JSON, JSON of another shape, or JSON shaped like a reading. */
  datatype Payload = NotJson | OtherJson | Shaped(candidate: Reading)

  datatype DropReason = BadTopic | InvalidJson | InvalidSchema | DeviceMismatch

  datatype Verdict = Admit(t: Reading) | Drop(reason: DropReason)

  /** The gate's verdict on one message. */
  function Judge(topic: string, payload: Payload): Verdict {
    if ParseDeviceId(topic).None? then Drop(BadTopic)
    else if payload.NotJson? then Drop(InvalidJson)
    else if payload.OtherJson? || !MeetsSchema(payload.candidate) then Drop(InvalidSchema)
    else if payload.candidate.deviceId != ParseDeviceId(topic).value then Drop(DeviceMismatch)
    else Admit(payload.candidate)
  }

  /**
   A reading is admitted exactly from its own device's topic, when that is one level, and with an id of one
   to 64 characters and values in range.
   */
  lemma AdmittedExactly(topic: string, payload: Payload, t: Reading)
    ensures Judge(topic, payload) == Admit(t) <==>
              && payload == Shaped(t) && topic == "devices/" + t.deviceId + "/telemetry"
              && 1 <= |t.deviceId| <= 64 && '/' !in t.deviceId
              && -60.0 <= t.temp <= 150.0 && 0.0 <= t.humidity <= 100.0 && 0.0 <= t.battery <= 100.0
              && -90.0 <= t.lat <= 90.0 && -180.0 <= t.lon <= 180.0
    ensures Judge(topic, payload) == Admit(t) <==>
              payload == Shaped(t) && Admissible(t) && topic == TelemetryTopic(t.deviceId)
  {
    if ParseDeviceId(topic).Some? {
      PrintParse(topic);
    }
    ParsePrint(t.deviceId);
  }

  /** The topic is that of a one-level device id. */
  ghost predicate IsDeviceTopic(topic: string) {
    exists d :: d != "" && '/' !in d && topic == TelemetryTopic(d)
  }

  /** What each reason for dropping a message means; they are looked for in this order. */
  lemma DropReasons(topic: string, payload: Payload)
    ensures Judge(topic, payload) == Drop(BadTopic) <==> !IsDeviceTopic(topic)
    ensures Judge(topic, payload) == Drop(InvalidJson) <==> IsDeviceTopic(topic) && payload.NotJson?
    ensures Judge(topic, payload) == Drop(InvalidSchema) <==>
              && IsDeviceTopic(topic) && !payload.NotJson?
              && !(payload.Shaped? && MeetsSchema(payload.candidate))
    ensures Judge(topic, payload) == Drop(DeviceMismatch) <==>
              && IsDeviceTopic(topic) && payload.Shaped? && MeetsSchema(payload.candidate)
              && topic != TelemetryTopic(payload.candidate.deviceId)
  {
    hide ParseDeviceId, TelemetryTopic;
    if ParseDeviceId(topic).Some? {
      PrintParse(topic);
      var d := ParseDeviceId(topic).value;
      assert topic == TelemetryTopic(d);
      ParsePrint(d);
    }
    if IsDeviceTopic(topic) {
      var d :| d != "" && '/' !in d && topic == TelemetryTopic(d);
      ParsePrint(d);
    }
    if payload.Shaped? {
      ParsePrint(payload.candidate.deviceId);
    }
  }

  class MqttSubscriber {
    const ingestion: IngestionService
    var dropped: map<DropReason, nat>

    constructor (ingestion: IngestionService)
      ensures this.ingestion == ingestion
      ensures dropped == map[BadTopic := 0, InvalidJson := 0, InvalidSchema := 0, DeviceMismatch := 0]
    {
      this.ingestion := ingestion;
      dropped := map[BadTopic := 0, InvalidJson := 0, InvalidSchema := 0, DeviceMismatch := 0];
    }

    method RecordDropped(reason: DropReason)
      modifies this
      ensures dropped == old(dropped)[reason := (if reason in old(dropped) then old(dropped)[reason] else 0) + 1]
    {
      dropped := dropped[reason := (if reason in dropped then dropped[reason] else 0) + 1];
    }

    /** Every message is counted under one reason, or enqueued as it is; never both, never neither. */
    method HandleMessage(topic: string, payload: Payload)
      requires ingestion.Valid() && ingestion.shadow as object != this && ingestion.shadow.redis as object != this
      modifies this, ingestion
      ensures ingestion.Valid()
      ensures match Judge(topic, payload)
              case Admit(t) =>
                dropped == old(dropped) &&
                ingestion.View() == Step(ingestion.batchSize, old(ingestion.View()), Action.Enqueue(t))
              case Drop(reason) =>
                ingestion.View() == old(ingestion.View()) &&
                dropped == old(dropped)[reason := (if reason in old(dropped) then old(dropped)[reason] else 0) + 1]
    {
      var deviceId := ParseDeviceId(topic);
      if deviceId.None? {
        RecordDropped(BadTopic);
        return;
      }
      if payload.NotJson? {
        RecordDropped(InvalidJson);
        return;
      }
      if payload.OtherJson? || !MeetsSchema(payload.candidate) {
        RecordDropped(InvalidSchema);
        return;
      }
      if payload.candidate.deviceId != deviceId.value {
        RecordDropped(DeviceMismatch);
        return;
      }
      ingestion.Enqueue(payload.candidate);
    }
  }
}
