/** The notification service: one row per delivered alert. */
module NotificationService {
  import opened KeyValueStore
  import opened Evaluation
  import opened ConsumerChannel
  import opened Clients
  import opened RuleSchema
  import Pipeline

  class NotificationService {
    /** The alerts table. */
    var rows: seq<Alert>
    var inbox: Channel<Alert>

    constructor ()
      ensures rows == [] && inbox == ConsumerChannel.Empty()
    {
      rows := [];
      inbox := ConsumerChannel.Empty();
    }

    /** Inserts the alert's row; an insert that reports an error may still have been made. */
    method HandleAlert(alert: Alert, fate: Fate) returns (reply: WriteReply)
      modifies this`rows
      ensures reply == WriteReplyBy(fate)
      ensures rows == if TookEffect(reply) then old(rows) + [alert] else old(rows)
    {
      reply := WriteReplyBy(fate);
      if TookEffect(reply) {
        rows := rows + [alert];
      }
    }

    /** Takes the next alert and settles it by how its handler went. */
    method ConsumeNext(fate: Fate) returns (handled: bool)
      requires inbox.inFlight.None? && inbox.queue != []
      modifies this
      ensures History(inbox) == old(History(inbox)) && inbox.inFlight.None?
      ensures inbox.settled == old(inbox.settled) + [Delivery(old(inbox.queue)[0], handled)]
      ensures handled <==> fate.Answered?
      ensures rows == if fate.Refused? then old(rows) else old(rows) + [old(inbox.queue)[0]]
    {
      Conservation(inbox, inbox.queue[0], true);
      inbox := Deliver(inbox);
      var reply := HandleAlert(inbox.inFlight.value, fate);
      handled := reply.Written?;
      Conservation(inbox, inbox.inFlight.value, handled);
      inbox := Settle(inbox, handled);
    }
  }
  /**
   The pipeline's two steps for one alert do the same: it is acknowledged exactly if the insert is answered,
   and its row is there unless the insert was refused, also when the alert is then dead-lettered.
   */
  lemma ConsumeAgrees(rules: seq<ThresholdRule>, batchSize: nat, s: Pipeline.System, fate: Fate)
    requires s.alerts.inFlight.None? && s.alerts.queue != []
    ensures var taken := Pipeline.Step(rules, batchSize, s, Pipeline.TakeAlert);
            var s' := Pipeline.Step(rules, batchSize, taken, Pipeline.InsertAlert(WriteReplyBy(fate)));
            && s'.alerts.settled == s.alerts.settled + [Delivery(s.alerts.queue[0], fate.Answered?)]
            && s'.alerts.inFlight.None? && s'.alerts.queue == s.alerts.queue[1..]
            && s'.inserted == (if fate.Refused? then s.inserted else s.inserted + [s.alerts.queue[0]])
            && s'.flow == s.flow && s'.engine == s.engine && s'.skipped == s.skipped
  {
  }
}
