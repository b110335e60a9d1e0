/**
 The clients a service makes its calls through. How each call turns out, and what the clock shows at
 it, is the outside world's choice and fixed by its number; every call made is on record.
 */
module Clients {
  import opened Options
  import opened KeyValueStore
  import opened Evaluation

  /** A call is answered, or fails without effect, or takes effect and then fails. */
  datatype Fate = Answered | Refused | Unanswered

  function WriteReplyBy(fate: Fate): WriteReply {
    match fate
    case Answered => Written
    case Refused => WriteError(false)
    case Unanswered => WriteError(true)
  }

  function ReadReplyBy(fate: Fate, entry: Option<Entry>): ReadReply {
    if fate.Answered? then Found(entry) else ReadError
  }

  datatype Call =
    | Got(key: string, reply: ReadReply)
    | Stored(key: string, entry: Entry, written: WriteReply)
    | Deleted(key: string, written: WriteReply)
    | Sent(alert: Alert)

  /** The call was answered as its fate has it; publishing has no reply. */
  predicate AsFated(call: Call, fate: Fate) {
    match call
    case Got(_, reply) => reply.Found? <==> fate.Answered?
    case Stored(_, _, written) => written == WriteReplyBy(fate)
    case Deleted(_, written) => written == WriteReplyBy(fate)
    case Sent(_) => true
  }

  /** The calls fit the fates from the n-th on. */
  predicate AllAsFated(calls: seq<Call>, fates: nat -> Fate, n: nat) {
    forall k | 0 <= k < |calls| :: AsFated(calls[k], fates(n + k))
  }

  class World {
    const fates: nat -> Fate
    const clock: nat -> int
    var calls: seq<Call>

    constructor (fates: nat -> Fate, clock: nat -> int)
      ensures this.fates == fates && this.clock == clock && calls == [] && Valid()
    {
      this.fates := fates;
      this.clock := clock;
      calls := [];
    }

    ghost predicate Valid()
      reads this
    {
      AllAsFated(calls, fates, 0)
    }

    /** The fate of the next call. */
    function Next(): Fate
      reads this
    {
      fates(|calls|)
    }

    /** Puts a call on record. */
    method Record(call: Call)
      requires Valid() && AsFated(call, Next())
      modifies this
      ensures Valid() && calls == old(calls) + [call]
    {
      calls := calls + [call];
    }
  }

  class RedisClient {
    const world: World
    var entries: Store

    constructor (world: World)
      ensures this.world == world && entries == map[]
    {
      this.world := world;
      entries := map[];
    }

    method Get(key: string) returns (reply: ReadReply)
      requires world.Valid()
      modifies world
      ensures world.Valid() && world.calls == old(world.calls) + [Got(key, reply)]
      ensures reply == ReadReplyBy(old(world.Next()), Lookup(entries, key))
    {
      reply := ReadReplyBy(world.Next(), Lookup(entries, key));
      world.Record(Got(key, reply));
    }

    method Set(key: string, entry: Entry) returns (reply: WriteReply)
      requires world.Valid()
      modifies this, world
      ensures world.Valid() && world.calls == old(world.calls) + [Stored(key, entry, reply)]
      ensures reply == WriteReplyBy(old(world.Next()))
      ensures entries == if TookEffect(reply) then old(entries)[key := entry] else old(entries)
    {
      reply := WriteReplyBy(world.Next());
      world.Record(Stored(key, entry, reply));
      if TookEffect(reply) {
        entries := entries[key := entry];
      }
    }

    method Del(key: string) returns (reply: WriteReply)
      requires world.Valid()
      modifies this, world
      ensures world.Valid() && world.calls == old(world.calls) + [Deleted(key, reply)]
      ensures reply == WriteReplyBy(old(world.Next()))
      ensures entries == if TookEffect(reply) then old(entries) - {key} else old(entries)
    {
      reply := WriteReplyBy(world.Next());
      world.Record(Deleted(key, reply));
      if TookEffect(reply) {
        entries := entries - {key};
      }
    }
  }

  /** The broker client as the rule engine uses it: alerts are handed over, in order. */
  class AlertPublisher {
    const world: World
    var published: seq<Alert>

    constructor (world: World)
      ensures this.world == world && published == []
    {
      this.world := world;
      published := [];
    }

    method Publish(alert: Alert)
      requires world.Valid()
      modifies this, world
      ensures world.Valid() && world.calls == old(world.calls) + [Sent(alert)]
      ensures published == old(published) + [alert]
    {
      world.Record(Sent(alert));
      published := published + [alert];
    }
  }
}
