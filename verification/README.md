# Telemetry pipeline: model and proofs

Devices publish readings over MQTT. The ingestion service admits and batches them, stores each batch
in one transaction, keeps a device registry and a shadow cache, and announces every stored reading on
the broker. The rule engine consumes the announcements, keeps one breach state per (rule, device) in
the shared key-value store, and publishes an alert once per sustained-breach episode; a periodic sweep
does the same for silent devices. The notification service inserts one row per alert. All services
share one broker client, which connects, reconnects with a capped backoff, sets its consumers up
again, and settles every delivery.

This project models those machines in Dafny and proves what they promise over every run.

## How the model is laid out

| part | modules |
|---|---|
| wire contract, topics, keys | `Readings`, `TopicCodec`, `StoreKeys` |
| rules and their evaluation | `RuleSchema`, `KeyValueStore`, `Evaluation`, `Episodes`, `Isolation`, `SafeIds`, `StoreFailures` |
| the clients a service calls, with every call on record | `Clients` |
| offline sweep | `Connectivity`, `SweepHistory`, `SweepRefinement`, `SweepOverlaps`, `SweepRuns`, `SweepFailures`, `SweepProgress` |
| rule engine | `RuleEngine` (the service class), `EngineSteps`, `EngineAgreement`, `EngineHistory`, `EngineEpisodes` |
| ingestion | `LatestFold`, `Registry`, `IngestionFlow`, `BatchingRuns`, `ShadowAgreement`, `IngestionService` (the service classes) |
| broker client | `ConsumerChannel`, `RabbitConnection`, `RabbitSubscriptions`, `RabbitDoubling`, `RabbitCopies`, `RabbitShutdown`, `RabbitRecovery`, `RabbitMqService` (the service class) |
| last stage and composition | `NotificationService`, `Pipeline`, `Delivery`, `AlertPayload`, `ShadowSharing` |
| read side | `Aggregates`, `QueryApi` |

Services whose methods update fields are classes, and each of their methods is proved against a
transition function. Every `await` of the source is a boundary between two transitions, and the
lemmas quantify over all finite sequences of transitions, a transition that is not due changing
nothing. What the outside world decides, how a call turns out and what the clock shows, is an input:
an action's argument, a method's parameter, or the rule engine's `World`, which also records the calls
made. Times are integer milliseconds, metric values are reals, and the key-value store is a map
whose calls may fail with or without having taken effect.

## Main results

- **End to end** (`Pipeline.EndToEnd`, `Pipeline.SchedulingIrrelevant`). The threshold alerts in the
  table are a prefix of a function of the readings alone, `Episodes.HistoryAlerts`, which knows no
  store, batch or schedule; they are all of it once the pipeline is at rest. So two runs over the
  same readings, with any batch sizes, timers, flushes, store calls and sweeps, insert the same alerts
  in the same order.
- **Delivery** (`Delivery.EventualDelivery`, `Delivery.RestsExactly`, `Delivery.StreamDelivered`). From
  every reachable state the pipeline can be brought to rest without losing anything more, if and only if
  no reading is stuck in the buffer after shutdown's flush; and at rest the demanded alerts are in the
  table. Every stream has a run that inserts exactly the alerts it demands.
- **What an alert says** (`AlertPayload.InsertedJustified`, `AlertPayload.HistoryAlertsMeaning`). Every alert in
  the table, in every run, reports an enqueued reading against a configured rule field by field, or the
  silence of a device at the time of a sweep; and the demanded alerts are exactly the reports of first
  sustained readings.
- **Episodes** (`Episodes.EpisodeSemantics`, `SafeIds.ExactlySafeIds`). A rule alerts on exactly the
  first reading of a device's maximal breaching run that comes at least the sustain time after the
  run's first reading, whatever the timestamps. For all accepted rules under the given ids and all
  streams of admissible readings this holds if and only if no id is another id, alone or followed by a
  colon and a rest that fits, with a colon and one more character, into an admissible device id.
- **Interleaving** (`EngineSteps.AsyncRefinement`, `SweepOverlaps.MatchesExactly`). Reads, writes and
  deletions done one await at a time, with any number of sweeps in between, give the threshold alerts
  of undivided evaluations. Overlapping sweeps give a pair the offline alerts of its finished checks at
  every step if and only if no sweep misfires on the pair's key: resumes on a look that no longer
  holds, or while another sweep still has to set the flag.
- **Calls** (`RuleEngine.RuleEngineService.Evaluate`, `EngineAgreement.EvaluationAgrees`,
  `EngineAgreement.RepliesDecide`). The rule engine's methods make the calls the source makes and no other,
  their outcome is those calls' replies, and taken one at a time the calls take the step-by-step engine
  to the same store and alerts.
- **Failures** (`EngineEpisodes.EngineEpisodeBound`, `EngineHistory.SettlementByEvaluation`,
  `SweepFailures.OfflineEpisodeBound`). Between deletions of its key a pair alerts at most once more
  than it loses writes right after alerting, and each message is settled exactly by how its
  evaluations went.
- **Batching** (`IngestionFlow.FlowInvariant`, `BatchingRuns.RunTransparency`,
  `ShadowAgreement.CacheIsPastRegistry`). Nothing enqueued is lost, repeated or reordered before a batch
  is attempted. What a run leaves in the registry and in the shadows is independent of its flushes
  exactly when no earlier reading of a device is at least as new as its last one and looks different.
  With no command lost, the whole shadow cache is one past state of the registry's readings, with the
  next batch's pipeline executed in part.
- **Reconnecting** (`RabbitConnection.ClientInvariant`, `RabbitConnection.StrandedExactly`,
  `RabbitRecovery.RecoversExactly`, `RabbitShutdown.ShutdownEnds`, `RabbitDoubling.DoublingExactly`,
  `RabbitCopies.CopyingExactly`). There is one reconnect loop at most, it can always bring every consumer
  back unless the client is stranded without a connection, and it ends with shutdown. The steps that leave
  the client without a channel on a live connection and without any attempt to get one are characterised
  exactly; so are those that make it possible that a registration consumes twice on one channel, or on
  two connections at once.

## Where the code and its documentation differ

The model follows the code in each case.

- Line 177 of the repository's README promises that alerts fire exactly once per episode. The rule
  schema accepts repeated rule ids and ids with colons, under which two rules can share a key and
  suppress each other's alerts (`Isolation.DuplicateIdsSuppressAlerts`, `SafeIds.UnsafeIdsFail`); and an
  alert is published before its state is written, so a lost write lets it repeat
  (`EngineEpisodes.LostWriteRepeatsAlert`), though not more often than that
  (`EngineEpisodes.EngineEpisodeBound`).
- The sweep timer does not wait for the sweep before it, so two sweeps can both report one device
  (`EngineHistory.OverlappingSweepsReportTwice`), or a due alert can be missed. Overlapping by itself does
  no harm (`SweepOverlaps.OverlapElsewhere`): it takes a misfire (`SweepOverlaps.MisfireExactly`,
  `SweepOverlaps.MisfireEffect`).
- The upsert takes no maximum: a device's `last_seen` can go back to the maximum of its most recent
  batch (`Registry.LastSeenIsBatchMaximum`).
- A close event that lands while the loop is on is swallowed, which can leave the client without a
  channel and without a retry (`RabbitConnection.CloseCanStrand`), or with the channel of a closed
  connection (`RabbitConnection.DeadChannelStrands`).
- A registration can be set up twice on one channel, so that its handler no longer runs serially under
  a prefetch of one. This becomes possible exactly when a set-up starts beside another one that will
  still ask for the same registration on that channel (`RabbitDoubling.DoublingExactly`): a registration
  is made while a loop over the registrations runs (`RabbitSubscriptions.LateConsumeSubscribesTwice`), or
  a channel is put in place while a set-up still has a call to make, since set-ups go on over the current
  channel (`RabbitDoubling.SecondWayReached`). A set-up whose subscribing call is out already stays on
  the channel before it and doubles nothing (`RabbitDoubling.SentCallIsHarmless`).
- The close of any connection clears the channel, also when the channel is on another one that stays
  open. The next channel is then put in place beside consumers that go on consuming, and a handler can
  run beside itself on two connections; that is exactly when it can (`RabbitCopies.CopyingExactly`,
  `RabbitCopies.LeftoverCloseCopies`).
- Line 106 of the repository's README promises that shutdown flushes the batches in flight. A reading that
  comes in after shutdown's flush has taken the buffer, in less than a batch, is never flushed
  (`Delivery.RestsExactly`); those before it are (`IngestionFlow.ShutdownCompletes`).
- The status the API shows and a sixty-second offline rule disagree at an age of exactly 60000 ms
  (`QueryApi.StatusMatchesSweep`).

## Model

| member | source | states |
|---|---|---|
| Pipeline.EndToEnd | apps/ingestion-service/src/ingestion/ingestion.service.ts:34-110 | When no two rules share a key on the enqueued devices: in every reachable state with nothing dropped, the inserted threshold alerts are a prefix of those the announced (and, if every batch was stored and announced, the enqueued) readings demand; all of them at rest |
| Pipeline.SchedulingIrrelevant | apps/rule-engine/src/rules/rule-engine.service.ts:65-110 | Two loss-free runs at rest over the same readings insert the same threshold alerts in the same order, whatever their batch sizes and schedules |
| Delivery.EventualDelivery | apps/notification-service/src/notifications/notification.service.ts:28-44 | From every reachable state with nothing dropped, unless a late reading is stuck in the buffer, some continuation without further readings drops nothing more and ends at rest, with exactly the alerts of the announced readings in the table, and exactly those of the enqueued ones if no batch was lost |
| Delivery.RestsExactly | apps/ingestion-service/src/ingestion/ingestion.service.ts:34-126 | Without further readings the pipeline can come to rest if and only if the buffer is empty, the timer is on, or a flush is still to begin |
| Delivery.ComesToRest | packages/common/src/messaging/rabbitmq.service.ts:118-150 | Whatever has failed so far, the batch under way, the messages and the alerts queued can all be worked off with no further loss |
| Delivery.StreamDelivered | apps/rule-engine/src/rules/rule-engine.service.ts:65-110 | For every stream and batch size some run takes in exactly the stream and inserts exactly the alerts it demands |
| AlertPayload.InsertedJustified | apps/rule-engine/src/rules/rule-engine.service.ts:96-163 | In every run with every failure, each threshold alert in the table reports an enqueued reading against a rule: ids, severity, message, time, the value of the rule's metric, on the breaching side of the reported bound; each offline alert reports the whole seconds of a pair's silence at the time of a sweep over it, stamped by the clock |
| AlertPayload.InsertedDemanded | apps/notification-service/src/notifications/notification.service.ts:28-44 | While nothing has been dropped, each of them reports the first sustained reading of a run, and at rest every such reading has its report in the table |
| AlertPayload.HistoryAlertsMeaning | apps/rule-engine/src/rules/rule-engine.service.ts:72-110 | The demanded alerts are exactly the reports of first sustained readings |
| Evaluation.SaysExactly | apps/rule-engine/src/rules/rule-engine.service.ts:96-106 | For an accepted rule, the alert published is the one that reports the reading's own fields against the configured numbers, and exactly the breaching readings have one |
| Evaluation.SustainedInSeconds | apps/rule-engine/src/rules/rule-engine.service.ts:89 | Sustained means that the whole seconds since the start are at least the rule's |
| Pipeline.SystemInvariant | packages/common/src/messaging/rabbitmq.service.ts:118-154 | In every reachable state each queue's history is what the stage before it published, and the engine's and the ingestion's invariants hold side by side on the shared store |
| Pipeline.AlertsFollowOutbox | apps/notification-service/src/notifications/notification.service.ts:28-44 | The inserted threshold alerts come from the announced readings, in order, also when batches were lost |
| ShadowSharing.SharedShadowAgrees | apps/ingestion-service/src/ingestion/device-shadow.service.ts:11-24 | In the store shared with the rule engine, drained shadows are the readings whose time and position the registry rows have |
| ShadowSharing.SharedCacheIsPastRegistry | apps/ingestion-service/src/ingestion/device-shadow.service.ts:11-24 | In every reachable state of the pipeline, with no command lost, one number of batches fits all devices: the shadows in the shared store are the registry's readings after that many batches, with the next batch's commands executed in part |
| ShadowSharing.ShadowsShared | packages/types/src/telemetry.ts:14-16 | No evaluation or sweep ever touches a shadow, over whole runs of the pipeline |
| Episodes.EpisodeSemantics | apps/rule-engine/src/rules/rule-engine.service.ts:65-94 | From a store without breach states, when no two rules share a key on the stream's devices, the evaluations publish exactly the alerts the history demands, in order |
| Episodes.StreamTracks | apps/rule-engine/src/rules/rule-engine.service.ts:65-94 | After any stream each stored breach state is the one of its rule and device's history, and the alerts are the history's |
| Episodes.ReadingTracks | apps/rule-engine/src/rules/rule-engine.service.ts:65-70 | After the first i rules of one reading, exactly those rules' states and alerts have moved on |
| Episodes.CellMeaning | apps/rule-engine/src/rules/rule-engine.service.ts:83-93 | A breach state exists exactly during a maximal run of breaching readings, holds the run's first delivered timestamp, and is fired exactly if the run was sustained |
| Episodes.FiresIffMustAlert | apps/rule-engine/src/rules/rule-engine.service.ts:89-92 | The incremental test fires exactly on the first sustained reading of a run |
| Episodes.AtMostOncePerRun | apps/rule-engine/src/rules/rule-engine.service.ts:89-92 | Two readings of a device with no recovery between them never both demand an alert |
| Episodes.HistoryAlertsPrefix | apps/rule-engine/src/rules/rule-engine.service.ts:65-94 | Further readings only add alerts at the end |
| SafeIds.ExactlySafeIds | apps/rule-engine/src/rules/rule.schema.ts:40 | For non-empty ids, as the schema has them: the alerts are the history's for all accepted rules over the ids and all streams of admissible readings if and only if no two ids can share a key on admissible devices |
| SafeIds.UnsafeIdsFail | apps/rule-engine/src/rules/rule.schema.ts:40 | For any two ids that can share a key on admissible devices there are accepted rules and one or two admissible readings on which an alert is lost |
| SafeIds.ApartIdsSafe | apps/rule-engine/src/rules/rule-engine.service.ts:76 | Under ids that are apart no two rules share a key on the devices of any stream of admissible readings |
| Isolation.Projection | apps/rule-engine/src/rules/rule-engine.service.ts:65-94 | Seen by one (rule, device) pair, a run on the shared store is a run of that rule alone on that device's readings |
| Isolation.HistoryProjection | apps/rule-engine/src/rules/rule-engine.service.ts:65-94 | The demanded alerts of one pair are those of the rule alone on the device's readings |
| Isolation.InterleavingIrrelevant | apps/rule-engine/src/rules/rule-engine.service.ts:65-94 | Two arrival orders that agree device by device end in one store and give every pair the same alerts |
| Isolation.RunFrame | apps/rule-engine/src/rules/rule-engine.service.ts:76-93 | Evaluations keep breach states under rule keys and change no key but their own |
| Isolation.DuplicateIdsSuppressAlerts | apps/rule-engine/src/rules/rule.schema.ts:40 | With one id used twice, one reading that must raise two alerts raises one |
| StoreFailures.EpisodeCount | apps/rule-engine/src/rules/rule-engine.service.ts:83-93 | While a key is not deleted, its alerts are the ones whose write was lost, plus one exactly if the state went from not fired to fired |
| StoreFailures.EpisodeBound | apps/rule-engine/src/rules/rule-engine.service.ts:78-93 | So there is at most one more than lost writes after an alert, none once fired, and those are among the failed writes |
| StoreFailures.CountIsPublished | apps/rule-engine/src/rules/rule-engine.service.ts:96-107 | The alerts counted on a key are the ones published for its rule and device, when no other pair uses the key |
| StoreFailures.PublishedBound | apps/rule-engine/src/rules/rule-engine.service.ts:78-93 | The bound, for the published alerts of a pair and any pattern of failing calls |
| EngineEpisodes.EngineEpisodeBound | apps/rule-engine/src/rules/rule-engine.service.ts:65-94 | The bound in every run of the step-by-step engine, for any stretch of evaluations without a deletion of the key, when no two rules share a key on the devices of the messages |
| EngineEpisodes.LostWriteRepeatsAlert | apps/rule-engine/src/rules/rule-engine.service.ts:89-93 | Two readings of one run publish two alerts where the history demands one, when the write after the first alert fails and its message is dead-lettered |
| EngineEpisodes.OneRunOneAlert | apps/rule-engine/src/rules/rule-engine.service.ts:89-92 | Of two breaching readings of one device only the first demands an alert |
| EngineEpisodes.PublishedByWindow | apps/rule-engine/src/rules/rule-engine.service.ts:72-94 | The published threshold alerts split, in order, into those before, within and after any stretch of evaluations |
| EngineSteps.AsyncRefinement | apps/rule-engine/src/rules/rule-engine.service.ts:65-146 | With every store call a step and sweeps at every await, rule keys and threshold alerts are those of undivided evaluations and no sweep |
| EngineSteps.StepRefines | apps/rule-engine/src/rules/rule-engine.service.ts:72-94 | Every single step, of the handler or of a sweep, keeps that refinement and what the handler has read |
| EngineHistory.LossFreeHistory | apps/rule-engine/src/rules/rule-engine.service.ts:65-94 | While no message is dead-lettered, the published threshold alerts are a prefix of those the sent messages demand, and equal at rest |
| EngineHistory.RunShape | packages/common/src/messaging/rabbitmq.service.ts:136-150 | A message is dead-lettered for each failed evaluation and for nothing else; without any, the evaluations are each message's rules in order |
| EngineHistory.SettlementByEvaluation | packages/common/src/messaging/rabbitmq.service.ts:136-150 | The k-th settled message was acknowledged after one completed evaluation per rule, or dead-lettered right after its first failed one |
| EngineHistory.SettledInOrder | packages/common/src/messaging/rabbitmq.service.ts:127-154 | In every run the i-th message sent is the i-th settled, as its evaluations went, or the one in flight right after, or waits in its place |
| EngineHistory.ReceivedHistory | packages/common/src/messaging/rabbitmq.service.ts:127-154 | No run loses, repeats or reorders a message |
| EngineHistory.OverlappingSweepsReportTwice | apps/rule-engine/src/rules/rule-engine.service.ts:112-146 | Two overlapping sweeps can both report one device |
| Connectivity.ConnectivityEdges | apps/rule-engine/src/rules/rule-engine.service.ts:130-146 | Over undisturbed checks one after the other, of pairs with different keys, offline alerts are exactly the rising edges of silence, in order |
| Connectivity.FlagTracks | apps/rule-engine/src/rules/rule-engine.service.ts:133-145 | The flag is set exactly if the pair's last check found the device silent |
| Connectivity.SilentInMilliseconds | apps/rule-engine/src/rules/rule-engine.service.ts:131-135 | The floored-seconds test is silence of at least the rule's seconds, to the millisecond |
| Connectivity.DetectionLatency | apps/rule-engine/src/rules/rule-engine.service.ts:112-146 | With checks at most P apart, a device that falls silent is reported between its limit and less than P later |
| SweepRuns.RunBySweeps | apps/rule-engine/src/rules/rule-engine.service.ts:113-128 | In a run whose sweeps take turns and hit no error, the finished checks are the started sweeps' own, one whole sweep after the other, the last perhaps under way |
| SweepRuns.AlertsOnNewSilenceInRuns | apps/rule-engine/src/rules/rule-engine.service.ts:113-146 | In such a run a device the sweep before checked is reported exactly if it is silent now and was not then |
| SweepRuns.AlertsOnFirstSightInRuns | apps/rule-engine/src/rules/rule-engine.service.ts:113-146 | In such a run a device no sweep has checked before is reported exactly if it is silent |
| SweepRuns.RegistrySweepsReport | apps/rule-engine/src/rules/rule-engine.service.ts:112-146 | From the configuration: under separated rule ids, sweeps over the registry rows that take turns and hit no error publish exactly the rising edges, and of a pair the sweep before checked exactly the new silences |
| SweepRuns.RegistryChecksSafe | apps/rule-engine/src/rules/rule-engine.service.ts:118-133 | Such sweeps check pairs whose keys differ |
| SweepRuns.DetectionLatencyInRuns | apps/rule-engine/src/rules/rule-engine.service.ts:112-146 | In a run whose sweeps begin at most P apart, a device with a fixed last-seen time that falls silent is reported by a sweep at its limit or less than P later |
| SweepHistory.SweepChecksOnce | apps/rule-engine/src/rules/rule-engine.service.ts:118-124 | A completed sweep checks every (rule, device) pair once |
| SweepHistory.SweepPairsOnce | apps/rule-engine/src/rules/rule-engine.service.ts:120-124 | The nested loops visit pairwise distinct pairs |
| SweepHistory.SweepPairsMeaning | apps/rule-engine/src/rules/rule-engine.service.ts:121-123 | They visit exactly every rule with every device |
| SweepRefinement.SweepRefinementHolds | apps/rule-engine/src/rules/rule-engine.service.ts:113-146 | Until sweeps overlap, connectivity keys and offline alerts are those of the finished checks in sequence, whatever the telemetry handler does between the awaits |
| SweepRefinement.OfflineAlertsExact | apps/rule-engine/src/rules/rule-engine.service.ts:113-146 | In such runs without failed checks the offline alerts are exactly the rising edges, plus the one whose flag is still to be set |
| SweepOverlaps.MisfireExactly | apps/rule-engine/src/rules/rule-engine.service.ts:112-146 | From a state in which a key's flag and alerts are those of its finished checks, a step breaks that if and only if a sweep at the key resumes on a look that no longer holds or while another one has to set the flag |
| SweepOverlaps.MatchesExactly | apps/rule-engine/src/rules/rule-engine.service.ts:112-146 | In every run, with sweeps overlapping as they may, flag and alerts of a key match its finished checks at every step if and only if no sweep misfires on it |
| SweepOverlaps.MisfireEffect | apps/rule-engine/src/rules/rule-engine.service.ts:140-145 | A misfire leaves a due alert out for good, or publishes one although the flag is up or another alert is still to be flagged |
| SweepOverlaps.OverlapElsewhere | apps/rule-engine/src/rules/rule-engine.service.ts:112-146 | Sweeps that overlap are harmless to a key that no two of them are at, at one time |
| SweepOverlaps.OfflineAlertsOnKey | apps/rule-engine/src/rules/rule-engine.service.ts:112-146 | Without a misfire on a key and without failed checks, its alerts are exactly the rising edges, plus the one whose flag is still to be set |
| SweepFailures.ReportsExactly | apps/rule-engine/src/rules/rule-engine.service.ts:135-145 | While no check takes a flag down, the pair's alerts are the ones whose flag was lost, plus one exactly if the flag went up, for every pattern of failures |
| SweepFailures.ReportsPublished | apps/rule-engine/src/rules/rule-engine.service.ts:144-159 | The reports counted on a key are the alerts published for it |
| SweepFailures.OfflineEpisodeBound | apps/rule-engine/src/rules/rule-engine.service.ts:112-146 | In every run without a misfire on the key, among checks in a row that do not take the flag down the pair alerts at most once more than it loses flags right after alerting |
| RuleEngine.RuleEngineService.Evaluate | apps/rule-engine/src/rules/rule-engine.service.ts:72-94 | A reading that does not breach makes one deletion of the pair's key; one that does makes one read of it and, if that is answered, the alert if it is due and then one write; the outcome is the replies', a failed read exactly when the read got an error; store and alerts are those of the evaluation |
| RuleEngine.RuleEngineService.FireAlert | apps/rule-engine/src/rules/rule-engine.service.ts:96-110 | Publishes the one alert of the reading, which reports it field by field |
| RuleEngine.RuleEngineService.HandleTelemetry | apps/rule-engine/src/rules/rule-engine.service.ts:65-70 | Evaluates all rules in order, or the first rules up to and including the first that fails, making exactly the calls of these evaluations |
| RuleEngine.RuleEngineService.EvaluateConnectivity | apps/rule-engine/src/rules/rule-engine.service.ts:130-162 | A device that is not silent makes one deletion; one that is makes one look, and if that finds no flag, one alert with its whole seconds of silence, stamped by the clock, and then one flag; the outcome is the replies' |
| RuleEngine.RuleEngineService.CheckDevices | apps/rule-engine/src/rules/rule-engine.service.ts:121-123 | Checks all devices against one rule, or those up to and including the first that fails, making exactly the calls of these checks |
| RuleEngine.RuleEngineService.SweepConnectivity | apps/rule-engine/src/rules/rule-engine.service.ts:113-128 | Checks every pair in order, or those up to the first failure, which it swallows, making exactly the calls of these checks; nothing without rules or registry rows |
| EngineAgreement.EvaluationAgrees | apps/rule-engine/src/rules/rule-engine.service.ts:72-94 | The calls of one evaluation, taken one await at a time, take the engine to the store, alerts and log of the evaluation as a whole, and on to the next rule or to dead-lettering |
| EngineAgreement.CheckAgrees | apps/rule-engine/src/rules/rule-engine.service.ts:130-146 | The same of one check of a sweep |
| EngineAgreement.RepliesDecide | apps/rule-engine/src/rules/rule-engine.service.ts:65-94 | How a message is handled is decided by the store and the replies: two ways of handling it whose calls fit the same replies are one |
| EngineAgreement.CheckDecided | apps/rule-engine/src/rules/rule-engine.service.ts:130-146 | So is the outcome of one check |
| SweepProgress.SweepCompletes | apps/rule-engine/src/rules/rule-engine.service.ts:113-128 | From any point of any run a sweep can be brought to its end, each of its remaining pairs checked once, in order and at its time |
| Connectivity.SilentSays | apps/rule-engine/src/rules/rule-engine.service.ts:130-163 | A silent check's alert reports the whole seconds since the device was last seen, at least the rule's, against the rule's seconds, stamped by the clock |
| RuleEngine.SweepKeepsTypes | apps/rule-engine/src/rules/rule-engine.service.ts:133-145 | Sweeps leave every breach state a breach state |
| RuleSchema.AcceptedRuleMeaning | apps/rule-engine/src/rules/rule.schema.ts:25-68 | For a rule the schema accepts, when a value breaches, and that the reported threshold is the bound it crossed (for `inside`, the upper end) |
| StoreKeys.SeparatedIffNoCollision | apps/rule-engine/src/rules/rule-engine.service.ts:76 | Two rule ids never share a key, for any devices, exactly if neither is the other, alone or followed by a colon |
| StoreKeys.ColonFreeSeparated | apps/rule-engine/src/rules/rule-engine.service.ts:76 | Distinct ids without colons never share a key |
| StoreKeys.ApartIffNoCollision | apps/rule-engine/src/rules/rule-engine.service.ts:76 | Two rule ids share no key on admissible device ids exactly if they differ and neither is the other followed by a colon and a rest without a slash that leaves room for a colon and one more character |
| RuleSchema.SafeEverywhere | apps/rule-engine/src/rules/rule-engine.service.ts:76 | Rules with separated ids share no key on any devices |
| StoreKeys.OneRuleKeysInjective | apps/rule-engine/src/rules/rule-engine.service.ts:133 | One rule's keys tell all devices apart, also those with colons in their ids |
| StoreKeys.KeySpacesDisjoint | packages/types/src/telemetry.ts:14-16 | Breach, connectivity and shadow keys are pairwise disjoint |
| TopicCodec.ParsePrint | packages/types/src/telemetry.ts:5-12 | A printed topic parses back to its id exactly for non-empty ids without a slash, and to nothing otherwise |
| TopicCodec.PrintParse | packages/types/src/telemetry.ts:5-12 | A topic that parses is the printed topic of the parsed id |
| TopicCodec.ParserAcceptsSubscription | packages/types/src/telemetry.ts:3-12 | The parser accepts exactly the topics the subscription filter matches whose device level is not empty, and returns that level |
| TopicCodec.MiddleWildcard | packages/types/src/telemetry.ts:3 | A filter with one wildcard level in the middle matches exactly the three-level topics equal to it elsewhere |
| IngestionService.AdmittedExactly | apps/ingestion-service/src/ingestion/mqtt.subscriber.ts:42-72 | A message is admitted exactly from its own device's topic and within the schema's ranges, the id having 1 to 64 characters and no slash |
| IngestionService.DropReasons | apps/ingestion-service/src/ingestion/mqtt.subscriber.ts:42-72 | Which messages are dropped for each of the four reasons, looked for in order: no device's topic, not JSON, outside the schema, another device's topic |
| IngestionService.MqttSubscriber.HandleMessage | apps/ingestion-service/src/ingestion/mqtt.subscriber.ts:42-72 | Every message is either counted under its one drop reason or enqueued unchanged |
| IngestionService.IngestionService.Enqueue | apps/ingestion-service/src/ingestion/ingestion.service.ts:34-39 | Appends the reading, and schedules a flush exactly if the buffer has reached the batch size |
| IngestionService.IngestionService.ScheduleFlush | apps/ingestion-service/src/ingestion/ingestion.service.ts:41-43 | Adds one link to the chain and changes nothing else |
| IngestionService.IngestionService.TimerTick | apps/ingestion-service/src/ingestion/ingestion.service.ts:30-32 | A tick schedules a flush until the timer is cleared |
| IngestionService.IngestionService.BeginFlush | apps/ingestion-service/src/ingestion/ingestion.service.ts:45-49 | The next link starts only after the one before, takes the whole buffer, and ends at once on an empty one |
| IngestionService.IngestionService.FinishFlush | apps/ingestion-service/src/ingestion/ingestion.service.ts:50-55 | The link ends with its batch stored or lost as a whole; a failure never stops the chain |
| IngestionService.IngestionService.Persist | apps/ingestion-service/src/ingestion/ingestion.service.ts:57-98 | If the transaction commits, rows, registry, announcements and shadow commands of a batch together; otherwise none of them |
| IngestionService.IngestionService.PublishTelemetryReceived | apps/ingestion-service/src/ingestion/ingestion.service.ts:100-110 | One event per reading in batch order while there is a channel, and none without |
| IngestionService.IngestionService.OnApplicationShutdown | apps/ingestion-service/src/ingestion/ingestion.service.ts:120-126 | Clears the timer and schedules the flush that shutdown waits for |
| IngestionService.DeviceShadowService.Update | apps/ingestion-service/src/ingestion/device-shadow.service.ts:11-20 | Appends one command per reading, in order |
| IngestionService.DeviceShadowService.ExecuteNext | apps/ingestion-service/src/ingestion/device-shadow.service.ts:16-23 | The oldest command is sent as one write of its device's shadow, and overwrites it or fails without effect on the others, as the reply says |
| IngestionFlow.FlowInvariant | apps/ingestion-service/src/ingestion/ingestion.service.ts:30-126 | In every interleaving: enqueued = attempted batches, then the one under way, then the buffer; tables, outbox and registry are those of the stored and announced batches; a full buffer has a flush pending; shutdown drains |
| IngestionFlow.ShutdownDrains | apps/ingestion-service/src/ingestion/ingestion.service.ts:120-126 | When shutdown's flush has ended, everything enqueued before it has been attempted in order, and the buffer is empty if nothing came later |
| IngestionFlow.ShutdownCompletes | apps/ingestion-service/src/ingestion/ingestion.service.ts:120-126 | Whatever happens before and after shutdown is called: the timer stays off, and once one flush more has ended than had been scheduled, everything enqueued by then has been attempted in order |
| IngestionFlow.ChainNeverStalls | apps/ingestion-service/src/ingestion/ingestion.service.ts:41-55 | While a flush is outstanding a step of the chain is due, and every such step, also a failing one, shortens what is left |
| LatestFold.LatestMeaning | apps/ingestion-service/src/ingestion/ingestion.service.ts:68-75 | The fold holds, for exactly the batch's devices in first-occurrence order, the earliest of the device's newest readings |
| LatestFold.LatestDistinct | apps/ingestion-service/src/ingestion/ingestion.service.ts:68-75 | One entry per device, as a one-statement upsert needs |
| LatestFold.LatestIsNewest | apps/ingestion-service/src/ingestion/ingestion.service.ts:68-75 | A device's entry is its newest reading, scanned for on its own |
| LatestFold.LatestByDevice | apps/ingestion-service/src/ingestion/ingestion.service.ts:68-75 | The loop over an insertion-ordered map computes that fold |
| Registry.UpsertLatest | apps/ingestion-service/src/ingestion/ingestion.service.ts:78-92 | A batch sets exactly the rows of the devices it mentions, each to its newest reading |
| Registry.RegistryMeaning | apps/ingestion-service/src/ingestion/ingestion.service.ts:77-93 | A row is the newest reading of the last committed batch that mentions the device |
| Registry.LastSeenIsBatchMaximum | apps/ingestion-service/src/ingestion/ingestion.service.ts:91 | In any time order, last-seen is the maximum of the most recent committed batch with the device; the row has that reading's own time and position |
| Registry.BatchingTransparency | apps/ingestion-service/src/ingestion/ingestion.service.ts:68-97 | Every cut into batches keeps each device's last reading if and only if no earlier reading of it is at least as new and looks different |
| Registry.RegistryTransparency | apps/ingestion-service/src/ingestion/ingestion.service.ts:77-93 | The same, for the registry's rows |
| Registry.IncreasingTimesTransparent | apps/ingestion-service/src/ingestion/ingestion.service.ts:71 | Strictly increasing times per device meet that condition |
| Registry.DisplacingCut | apps/ingestion-service/src/ingestion/ingestion.service.ts:71-91 | For any reading that can displace a device's last one, a cut under which it does |
| BatchingRuns.RunTransparency | apps/ingestion-service/src/ingestion/ingestion.service.ts:34-93 | Every run that has stored all of a stream, however its flushes cut it, leaves the last readings' rows, if and only if no earlier reading of a device can displace its last one |
| BatchingRuns.CacheTransparency | apps/ingestion-service/src/ingestion/ingestion.service.ts:34-97 | The same for the shadow cache, once its commands have drained and none was lost |
| BatchingRuns.RunKeepsLast | apps/ingestion-service/src/ingestion/ingestion.service.ts:34-97 | One run, one device: registry and cache hold its last enqueued reading under that condition |
| BatchingRuns.CutIsRun | apps/ingestion-service/src/ingestion/ingestion.service.ts:34-55 | Every way of cutting a stream into batches is what some run stores |
| ShadowAgreement.SnapshotAgrees | apps/ingestion-service/src/ingestion/device-shadow.service.ts:16-20 | After the commands of m batches the shadows are the readings of the registry's rows after m batches |
| ShadowAgreement.DrainedShadowAgrees | apps/ingestion-service/src/ingestion/ingestion.service.ts:97 | In every reachable state with the commands drained and none lost, shadow and registry agree on every device |
| ShadowAgreement.CacheIsPastRegistry | apps/ingestion-service/src/ingestion/device-shadow.service.ts:11-24 | At every point, with no command lost, one number of batches fits all devices: the cache is the registry's readings after that many batches, with the next batch's commands executed in part; where it stands is the number of commands executed, so it never goes back |
| ShadowAgreement.CacheRows | apps/ingestion-service/src/ingestion/ingestion.service.ts:97 | So every shadow's time and position are its device's row in one of two consecutive states of the registry |
| ShadowAgreement.ShadowIsPastRow | apps/ingestion-service/src/ingestion/device-shadow.service.ts:11-24 | Also with commands lost, each shadow by itself is its device's row as it stood some batches ago |
| ConsumerChannel.Conservation | packages/common/src/messaging/rabbitmq.service.ts:127-133 | Publishing appends to the channel's history; delivering and settling lose, repeat and reorder nothing |
| RabbitConnection.ClientInvariant | packages/common/src/messaging/rabbitmq.service.ts:61-116 | In every interleaving: one timer or running retry exactly while reconnecting, the capped backoff, a usable channel under every undisturbed set-up, and without a channel on a live connection the loop or the undisturbed first attempt (unless a retry hit by a close has succeeded) |
| RabbitConnection.StepLoop | packages/common/src/messaging/rabbitmq.service.ts:88-116 | Every step keeps pending timers plus running retries at one while `reconnecting`, else none |
| RabbitConnection.StepBackoff | packages/common/src/messaging/rabbitmq.service.ts:71-114 | The delay is 2 s doubled per failed retry since the last channel, capped at 30 s |
| RabbitConnection.BackoffSchedule | packages/common/src/messaging/rabbitmq.service.ts:14-15 | So the delay is 2, 4, 8 and 16 s after none to three failed retries, and 30 s from the fourth on |
| RabbitConnection.NoLostReconnect | packages/common/src/messaging/rabbitmq.service.ts:29-116 | Unless a retry hit by a close event has succeeded, a client that is not closing and has no channel on a live connection has an attempt running or a timer pending |
| RabbitConnection.StrandedExactly | packages/common/src/messaging/rabbitmq.service.ts:61-109 | A client is left without a channel on a live connection and without anything under way exactly when its last attempt returns hit by a close: from its last set-up call with the channel gone or dead, or on putting the channel of a closed connection in place with nothing to set up |
| RabbitConnection.AttemptDoesNotHang | packages/common/src/messaging/rabbitmq.service.ts:61-132 | An attempt whose next call finds no usable channel is over, and leaves a timer for the next one if it is a retry, or the first attempt before shutdown with the loop off |
| RabbitConnection.TaskDoesNotHang | packages/common/src/messaging/rabbitmq.service.ts:53-59 | A registration's own set-up whose next call finds no usable channel, or fails, is over and leaves no consumer |
| RabbitConnection.StrandedForever | packages/common/src/messaging/rabbitmq.service.ts:78-94 | A stranded client with no connection left stays stranded until shutdown |
| RabbitConnection.CloseCanStrand | packages/common/src/messaging/rabbitmq.service.ts:78-91 | A run in which the connection of a failed attempt closes late and strands the client |
| RabbitConnection.DeadChannelStrands | packages/common/src/messaging/rabbitmq.service.ts:65-76 | A run in which a retry puts the channel of its own closed connection in place and returns |
| RabbitConnection.NoAttemptAfterShutdown | packages/common/src/messaging/rabbitmq.service.ts:102-106 | While closing no attempt starts; only one already connecting can still connect |
| RabbitConnection.LoopEndsAfterShutdown | packages/common/src/messaging/rabbitmq.service.ts:102-106 | While closing at most one more timer fires, and then the loop is over, whatever else happens |
| RabbitShutdown.ShutdownEnds | packages/common/src/messaging/rabbitmq.service.ts:88-160 | In any run that calls shutdown, whatever happens before and after: no attempt starts any more, at most one timer fires and then the loop is over, and at most the attempts still waiting for a connection get one |
| RabbitRecovery.RecoversExactly | packages/common/src/messaging/rabbitmq.service.ts:29-132 | After any run before shutdown, some continuation without further registrations ends with a channel on a live connection and every registration consuming on it, if and only if the client is not stranded with no connection left |
| RabbitRecovery.TimerRecovers | packages/common/src/messaging/rabbitmq.service.ts:96-132 | A pending timer is enough, whatever else is going on |
| RabbitSubscriptions.SubscribedOnce | packages/common/src/messaging/rabbitmq.service.ts:53-75 | Unless a set-up has started beside another one that will still ask for the same, no registration consumes twice on one channel, on any live connection |
| RabbitSubscriptions.SuccessSubscribesAll | packages/common/src/messaging/rabbitmq.service.ts:72-74 | An attempt that ends its loop with its channel still in place leaves every registration consuming on it exactly once |
| RabbitSubscriptions.LateConsumeSubscribesTwice | packages/common/src/messaging/rabbitmq.service.ts:53-74 | A registration that arrives while the loop runs ends up consuming twice |
| RabbitSubscriptions.FirstSetupReached | packages/common/src/messaging/rabbitmq.service.ts:61-74 | The state in which that happens is reached from the start |
| RabbitDoubling.DoublingExactly | packages/common/src/messaging/rabbitmq.service.ts:53-74 | After any run in which no set-up has started beside another, a step makes it possible that some registration consumes twice on one channel if and only if it starts one beside another: a registration that finds the channel while a loop runs, or a channel put in place while a set-up still has a call to make |
| RabbitDoubling.BesideCanDouble | packages/common/src/messaging/rabbitmq.service.ts:53-74 | Whatever the state, number of registrations and stage, such a step has a continuation, with no further set-up beside another, in which a registration consumes twice on one channel |
| RabbitDoubling.SecondWayReached | packages/common/src/messaging/rabbitmq.service.ts:53-84 | A run in which a new channel is put in place beside a registration's own set-up, with no loop running before |
| RabbitDoubling.SentCallIsHarmless | packages/common/src/messaging/rabbitmq.service.ts:118-132 | A run in which the subscribing call of a registration's own set-up is out on the channel before when a new one comes: no continuation without a set-up beside another doubles it |
| RabbitDoubling.OverlapIsNotCalm | packages/common/src/messaging/rabbitmq.service.ts:53-74 | The model's history flag is up exactly after a set-up has started beside another |
| RabbitCopies.CopyingExactly | packages/common/src/messaging/rabbitmq.service.ts:69-86 | After any run in which no channel has been put in place beside a consumer elsewhere, a step makes it possible that a registration consumes on two live connections if and only if it puts one in place while a live connection has a consumer, or its subscribing call out |
| RabbitCopies.KeptHome | packages/common/src/messaging/rabbitmq.service.ts:69-86 | In such runs all consumers, there or on their way, are on one connection, and it is the channel's |
| RabbitCopies.ElsewhereCanCopy | packages/common/src/messaging/rabbitmq.service.ts:69-86 | Whatever the state, such a step has a continuation in which a registration consumes on two connections |
| RabbitCopies.LeftoverCloseCopies | packages/common/src/messaging/rabbitmq.service.ts:78-86 | A run in which the close of a leftover connection has that effect, although no registration can consume twice on one channel |
| RabbitMqService.RabbitMqService.Publish | packages/common/src/messaging/rabbitmq.service.ts:38-51 | Sends the one message under its routing key if there is a channel and it takes it, and nothing otherwise |
| RabbitMqService.RabbitMqService.ScheduleReconnect | packages/common/src/messaging/rabbitmq.service.ts:88-94 | Starts the loop with one timer, unless closing or already reconnecting |
| RabbitMqService.RabbitMqService.HandleClose | packages/common/src/messaging/rabbitmq.service.ts:78-86 | Clears the channel, whichever connection closed, and starts the loop unless closing or already on |
| RabbitMqService.RabbitMqService.Reconnect | packages/common/src/messaging/rabbitmq.service.ts:102-108 | A timer's firing gives the loop up when closing, and starts one attempt otherwise |
| RabbitMqService.RabbitMqService.AttemptRejected | packages/common/src/messaging/rabbitmq.service.ts:29-36 | A failed first attempt starts the loop; a failed retry doubles the delay and sets the next timer |
| RabbitMqService.RabbitMqService.AttemptReturned | packages/common/src/messaging/rabbitmq.service.ts:108-110 | A retry that returns ends the loop |
| RabbitMqService.RabbitMqService.SetUpNext | packages/common/src/messaging/rabbitmq.service.ts:72-74 | The loop goes to the next registration, ends after the last or without a channel, and fails on the channel of a closed connection |
| RabbitMqService.RabbitMqService.ChannelReady | packages/common/src/messaging/rabbitmq.service.ts:69-74 | The new channel replaces the old one, the delay is reset, and the registrations are set up from the first |
| RabbitMqService.RabbitMqService.AttemptAdvances | packages/common/src/messaging/rabbitmq.service.ts:61-76 | An answered await moves the attempt to its next call, or fails it when there is no usable channel for that call |
| RabbitMqService.RabbitMqService.Consume | packages/common/src/messaging/rabbitmq.service.ts:53-59 | Records the registration, and sets it up on its own if there is a channel |
| RabbitMqService.RabbitMqService.SetUpAdvances | packages/common/src/messaging/rabbitmq.service.ts:118-132 | An answered await of a registration's own set-up sends its next call on the channel there is then, or ends the set-up |
| RabbitMqService.RabbitMqService.SetUpRejected | packages/common/src/messaging/rabbitmq.service.ts:53-59 | A failed call ends the registration's own set-up and nothing else; the registration stays on record |
| RabbitMqService.RabbitMqService.HandleMessage | packages/common/src/messaging/rabbitmq.service.ts:136-154 | With a channel that takes the call, acknowledges exactly what parsed and was handled and dead-letters everything else; settles nothing otherwise |
| RabbitMqService.RabbitMqService.OnApplicationShutdown | packages/common/src/messaging/rabbitmq.service.ts:156-160 | Sets the closing flag and changes nothing else; the closes it asks for come in as close events |
| NotificationService.NotificationService.HandleAlert | apps/notification-service/src/notifications/notification.service.ts:28-44 | Makes one insert of the alert's row, which takes effect or not as the database has it, and reports its reply |
| NotificationService.NotificationService.ConsumeNext | packages/common/src/messaging/rabbitmq.service.ts:136-150 | The next alert is acknowledged exactly if its insert is answered, and its row follows the rows before it unless the insert was refused |
| NotificationService.ConsumeAgrees | packages/common/src/messaging/rabbitmq.service.ts:136-150 | The pipeline's steps for one alert settle it and insert its row as the service does, for every way the insert can turn out |
| Aggregates.HourAverageIsWeighted | infrastructure/docker/timescaledb/init/03-aggregates.sql:19-35 | An hour's average is the average of its minutes' averages weighted by their row counts |
| Aggregates.HourExtremaAreMinutes | infrastructure/docker/timescaledb/init/03-aggregates.sql:1-35 | An hour's minimum and maximum bound, and are attained in, its minutes' |
| Aggregates.HourIsItsMinutes | infrastructure/docker/timescaledb/init/03-aggregates.sql:1-35 | A value is in an hour's group exactly if it is in one of its sixty minutes' |
| Aggregates.AverageBetween | infrastructure/docker/timescaledb/init/03-aggregates.sql:6-8 | In every bucket the average lies between the minimum and the maximum |
| Aggregates.SpanSplit | infrastructure/docker/timescaledb/init/03-aggregates.sql:3-16 | Cutting a span in two splits the number and the sum of its values |
| Aggregates.BucketSpan | infrastructure/docker/timescaledb/init/03-aggregates.sql:4 | Being grouped under an aligned bucket is lying in its half-open span |
| QueryApi.PointsCover | apps/query-api/src/devices/series.service.ts:70-91 | Below the limit the points summarise exactly the rows from `from` rounded up to a bucket until the end of the bucket with `to`; at the limit, the earliest of them |
| QueryApi.PointMeaning | apps/query-api/src/devices/series.service.ts:78-90 | A point's minimum and maximum are values of rows in its bucket and bound all of them, and its average is their total over their number, between the two |
| QueryApi.PointsAscend | apps/query-api/src/devices/series.service.ts:81 | The points are in strictly ascending time order |
| QueryApi.BucketsMeaning | apps/query-api/src/devices/series.service.ts:78-82 | A bucket is listed exactly if it starts in the window and has a row of the device |
| QueryApi.ListedBucketFilled | apps/query-api/src/devices/series.service.ts:78-90 | Every listed bucket has values, so its average, minimum and maximum exist |
| QueryApi.WindowRounds | apps/query-api/src/devices/series.service.ts:80 | A bucket starts in the window exactly if its rows lie in the window rounded out to buckets |
| QueryApi.StatusMatchesSweep | apps/query-api/src/devices/devices.service.ts:42-52 | Beside a sixty-second rule the shown status and the sweep disagree at exactly that age and nowhere else |

## Left out

- The MQTT, AMQP, Redis and SQL clients themselves: they are a map, first-in-first-out queues and free choices of success or failure.
- Redelivery by the broker after a reconnect, and settlement on a channel other than the delivering one: settlement and serial handling are stated for the life of one channel.
- The engine and the notification service have one consumer per queue; two consumers after a doubled or repeated set-up appear in `RabbitSubscriptions`, `RabbitDoubling` and `RabbitCopies` only.
- The moment at which the answer to a call is seen whose connection has closed meanwhile: it counts as in before the next channel is put in place, or as lost.
- A channel closed by the broker while its connection stays open, which the client does not handle: a call on it may only fail.
- A commit whose reply is lost: a transaction is stored and reported stored, or neither.
- Pipeline.EndToEnd: is about threshold alerts; offline alerts depend on the clock and are stated in `SweepRefinement`, `SweepOverlaps` and `SweepRuns`.
- Pipeline.SchedulingIrrelevant: compares runs in which nothing was dropped, which includes alerts published without a channel.
- IngestionService.IngestionService.Persist: metrics and the ingestion timestamp of the events are not modelled, and the event is its reading.
- IngestionService.IngestionService.PublishTelemetryReceived: the event is its reading, without the ingestion timestamp that no consumer reads; the loop has no await in it, so the channel takes all of a batch or none.
- RabbitMqService.RabbitMqService.HandleMessage: parsing, the handler and the channel's taking the call are three booleans; what handlers do is in the service classes.
- RabbitMqService.RabbitMqService.Publish: the message body is a string, its two fixed properties are not modelled, and whether the channel takes it is a boolean.
- RuleEngine.RuleEngineService.FireAlert: the alert is handed to the broker client; that it is dropped there without a channel is a matter of `Pipeline`.
- Routing keys, bindings, exchanges and the contents of dead-letter queues.
- JSON text, date strings and their offsets: payloads are datatypes and times are integer milliseconds; string lengths count characters.
- Floating-point rounding, NaN and infinities: metric values and averages are reals.
- `first_seen`, `ingested_at` and `created_at` defaults, and which rows a refresh or retention policy has reached: the views are fully refreshed over a fixed table.
- The raw resolution and the default window of a series, the REST and gRPC mapping, and the alerts query.
- Loading rules from the file, health checks, logging, metrics, bootstrap wiring, secrets and the HTTP error filter.
- Webhook delivery, which has no effect on any state, the device simulator and the dashboards.
