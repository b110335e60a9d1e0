/**
 One consumer on one channel with a prefetch of one: messages leave the queue in order, at most one
 is in flight, and each is settled once, by an acknowledgement or by dead-lettering.
 */
module ConsumerChannel {
  import opened Options

  datatype Delivery<M> = Delivery(message: M, acked: bool)

  datatype Channel<M> = Channel(queue: seq<M>, inFlight: Option<M>, settled: seq<Delivery<M>>)

  function Empty<M>(): Channel<M> {
    Channel([], None, [])
  }

  function Publish<M>(c: Channel<M>, m: M): Channel<M> {
    c.(queue := c.queue + [m])
  }

  /** The broker hands out the next message, unless one is still unsettled. */
  function Deliver<M>(c: Channel<M>): Channel<M> {
    if c.inFlight.Some? || c.queue == [] then c
    else c.(inFlight := Some(c.queue[0]), queue := c.queue[1..])
  }

  /** Settles the message in flight: acknowledged if it was handled, dead-lettered without requeue if not. */
  function Settle<M>(c: Channel<M>, handled: bool): Channel<M> {
    if c.inFlight.None? then c
    else c.(inFlight := None, settled := c.settled + [Delivery(c.inFlight.value, handled)])
  }

  function Messages<M>(ds: seq<Delivery<M>>): seq<M> {
    if ds == [] then [] else Messages(ds[..|ds| - 1]) + [ds[|ds| - 1].message]
  }

  function InFlight<M>(c: Channel<M>): seq<M> {
    if c.inFlight.Some? then [c.inFlight.value] else []
  }

  /** Everything ever published to the channel, in order: settled, then in flight, then waiting. */
  function History<M>(c: Channel<M>): seq<M> {
    Messages(c.settled) + InFlight(c) + c.queue
  }

  function DeadLetters<M>(ds: seq<Delivery<M>>): nat {
    if ds == [] then 0 else DeadLetters(ds[..|ds| - 1]) + if ds[|ds| - 1].acked then 0 else 1
  }

  lemma MessagesSnoc<M>(ds: seq<Delivery<M>>, d: Delivery<M>)
    ensures Messages(ds + [d]) == Messages(ds) + [d.message]
    ensures DeadLetters(ds + [d]) == DeadLetters(ds) + if d.acked then 0 else 1
  {
    assert (ds + [d])[..|ds|] == ds;
  }

  lemma {:induction false} MessagesLength<M>(ds: seq<Delivery<M>>)
    ensures |Messages(ds)| == |ds|
    ensures forall i | 0 <= i < |ds| :: Messages(ds)[i] == ds[i].message
  {
    if ds != [] {
      MessagesLength(ds[..|ds| - 1]);
    }
  }

  /** No step loses, repeats or reorders a message: publishing appends one, delivering and settling keep all. */
  lemma Conservation<M>(c: Channel<M>, m: M, handled: bool)
    ensures History(Publish(c, m)) == History(c) + [m]
    ensures History(Deliver(c)) == History(c)
    ensures History(Settle(c, handled)) == History(c)
    ensures c.settled <= Settle(c, handled).settled && Settle(c, handled).inFlight.None?
  {
    if c.inFlight.Some? {
      MessagesSnoc(c.settled, Delivery(c.inFlight.value, handled));
    } else if c.queue != [] {
      assert c.queue == [c.queue[0]] + c.queue[1..];
    }
  }

  /** The i-th message published is the i-th settled, or the one in flight right after, or waits in its place. */
  lemma SettlementPartition<M>(c: Channel<M>, i: nat)
    requires i < |History(c)|
    ensures |History(c)| == |c.settled| + |InFlight(c)| + |c.queue|
    ensures History(c)[i] ==
            if i < |c.settled| then c.settled[i].message
            else if i < |c.settled| + |InFlight(c)| then c.inFlight.value
            else c.queue[i - |c.settled| - |InFlight(c)|]
  {
    MessagesLength(c.settled);
  }
}
