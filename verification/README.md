# Kafka consumer/producer lifecycle and consume loops, in Dafny

This project models the core of `kafka-exemple`, a .NET service that reads
messages from a primary Kafka topic, commits their offsets, and hands failed
messages to a retry topic that a second loop consumes. The model covers:

- the **consumer connection factory**: two lazily built slots, `_consumerXXX`
  (primary role, topic fragment `"xxx"`, first group id) and `_consumerXXY`
  (retry role, fragment `"xxy"`, last group id), the "subscription count is
  zero" rebuild check, the shared configuration whose `GroupId` every build
  overwrites, the error callback that disposes and clears the faulting slot on
  a fatal error, the consumer name used in logs, and the syslog to log-level
  mapping with its log filter;
- the **producer connection factory**: one lazily built slot (`??=`) with the
  same fatal-clears, non-fatal-keeps policy;
- the **producer wrapper**: caching of the factory's producer, topic
  resolution by ordinal substring, the integer persistence status, the
  rethrown delivery exception, and the transaction pass-throughs;
- the **primary and retry consume loops**: per-iteration consume, deserialize
  and commit, the catch clauses in their order, the retry hand-off of the
  primary loop, and how each loop ends.

Modelling choices:

- Connections are values. A consumer or producer carries an identity drawn
  from its factory's counter (`nextId`). The source compares connections by
  reference; the model compares identities (`Holds`). Disposal adds the
  identity to the factory's `disposed` set.
- The factories and the wrapper are classes whose fields their methods
  update. Each factory has a `Valid()` invariant: its stored connections were
  issued by it and are not disposed, and the two consumer slots never hold the
  same connection. The wrapper's `Valid()` is its factory's; it says nothing
  about the cached producer, which may be one the factory has since disposed
  and cleared.
- The consumer factory's and the wrapper's fields are also given as values
  (`State()`, of type `Slots` and `WrapperState`). Pure functions of those
  values say what one build, one error callback, one loop iteration
  (`Turn`) and a run of sends (`AfterSends`) do, and the methods are tied to
  them.
- The broker client is abstract. What `Consume`, deserialization, `Commit` and
  `ProduceAsync` yield are inputs (`Iteration`, `Delivery`). An error callback
  that the client fires while polling is an optional `fault` of the iteration,
  delivered to the factory's handler in sequence.
- Exceptions are values (`Exception`, `Outcome`, `Result`), including the null
  dereferences that the source's code can raise.
- A loop runs over a script of iterations. Reaching the end of the script
  stands for the cancellation check at the top of the loop seeing the token
  fired. The loops are `while` loops proved against pure per-iteration step
  functions (`PrimaryStep`, `RetryStep`).

## Model

| member | source | states |
|---|---|---|
| `TopicResolution.ContainsIff` | kafka-exemple/Factory/KafkaConsumerFactory.cs:28 | the ordinal substring scan holds exactly when the fragment occurs at some position of the topic name |
| `TopicResolution.FirstIndex` | kafka-exemple/Factory/KafkaConsumerFactory.cs:28 | the index found holds a topic containing the fragment and no earlier topic contains it; none is found exactly when no topic contains it |
| `TopicResolution.FirstContaining` | kafka-exemple/Kafka/Producer/ProducerWrapper.cs:38 | `First(f => f.Contains(fragment))`: the first matching topic name, or failure exactly when no topic matches |
| `TopicResolution.FirstGroup` | kafka-exemple/Factory/KafkaConsumerFactory.cs:27 | `GroupId.First()` fails exactly on an empty list |
| `TopicResolution.LastGroup` | kafka-exemple/Factory/KafkaConsumerFactory.cs:38 | `GroupId.Last()` fails exactly on an empty list |
| `TopicResolution.GroupRoles` | kafka-exemple/Factory/KafkaConsumerFactory.cs:27-38 | with one group id both roles bind to it; with two, primary binds the first and retry the second |
| `TopicResolution.ExampleTopicTable` | kafka-exemple/Factory/KafkaConsumerFactory.cs:28-39 | with topics `t.xxx`, `t.xxy` the primary role resolves to the first and the retry role to the second |
| `LogLevels.MapSyslogLevel` | kafka-exemple/Factory/KafkaConsumerFactory.cs:105-116 | the mapping never yields Trace, sends unlisted values to Information, and yields Warning or above exactly for Emergency through Warning |
| `LogLevels.MapReversesSeverityOrder` | kafka-exemple/Factory/KafkaProducerFactory.cs:59-70 | for the named levels, a more severe syslog level never maps to a less severe log level |
| `LogLevels.Relay` | kafka-exemple/Factory/KafkaConsumerFactory.cs:79-87 | as written, a broker log line is re-emitted at its mapped level exactly when it is a Warning, Notice, Info, Debug or unlisted line; Emergency, Alert, Critical and Error lines are dropped |
| `LogLevels.RelayIntended` | kafka-exemple/Factory/KafkaProducerFactory.cs:53 | the intended filter forwards exactly the lines at Warning or more severe |
| `LogLevels.RelayDisagreesWithIntended` | kafka-exemple/Factory/KafkaConsumerFactory.cs:83 | the written and intended filters both forward only Warning lines; a Critical line is dropped as written and forwarded as intended |
| `KafkaClient.Origin` | kafka-exemple/Factory/KafkaConsumerFactory.cs:56 | the logged origin is "Lib" exactly for a local error and "Broker" otherwise |
| `KafkaClient.ErrorSeverity` | kafka-exemple/Factory/KafkaConsumerFactory.cs:58-76 | an error callback logs at Critical exactly for a fatal error and at Error otherwise |
| `ConsumerFactory.KafkaConsumerFactory.constructor` | kafka-exemple/Factory/KafkaConsumerFactory.cs:12-21 | both slots start empty and the configuration is stored |
| `ConsumerFactory.KafkaConsumerFactory.CreateConsumer` | kafka-exemple/Factory/KafkaConsumerFactory.cs:45-52 | writes the requested group into the shared configuration, then builds a new, unsubscribed connection bound to it; slots unchanged |
| `ConsumerFactory.KafkaConsumerFactory.Rebuild` | kafka-exemple/Factory/KafkaConsumerFactory.cs:36-40 | the new state and the result are those of `Rebuilding` on the old state: the role's group is resolved first (empty list: failure, nothing changes); the new connection, with the next identity and that group, is stored before the topic lookup, so with no matching topic the slot holds it unsubscribed and the build fails; otherwise it is subscribed to the first matching topic; the other slot is untouched |
| `ConsumerFactory.KafkaConsumerFactory.BuildXXXConsumer` | kafka-exemple/Factory/KafkaConsumerFactory.cs:23-32 | the new state and the result are those of `PrimaryBuild` on the old state, as written: a null dereference when the primary slot is set and the retry slot empty; a rebuild when the primary slot is empty or the retry slot's subscription is empty; otherwise the stored connection, nothing changed (cases spelled out by `PrimaryBuildOutcomes`) |
| `ConsumerFactory.PrimaryBuildOutcomes` | kafka-exemple/Factory/KafkaConsumerFactory.cs:23-32 | the primary build throws a null reference exactly when the primary slot is set and the retry slot empty; in the rebuild branch it fails exactly on an empty group list or when no `xxx` topic exists; a returned connection is the one the primary slot holds; the retry slot never changes |
| `ConsumerFactory.RetryBuildOutcomes` | kafka-exemple/Factory/KafkaConsumerFactory.cs:34-43 | the retry build never dereferences null; in the rebuild branch it fails exactly on an empty group list or when no `xxy` topic exists; a returned connection is the one the retry slot holds; the primary slot never changes |
| `ConsumerFactory.TurnKeepsOtherSlot` | kafka-exemple/Factory/KafkaConsumerFactory.cs:23-77 | a primary iteration (build, then error callback) never changes the retry slot, and a retry iteration never changes the primary slot |
| `ConsumerFactory.PrimaryLoopNeedsRetrySlot` | kafka-exemple/Factory/KafkaConsumerFactory.cs:25 | while the retry slot is empty, after a primary iteration whose build succeeded and that saw no fatal error, the next primary build throws a null reference |
| `ConsumerFactory.KafkaConsumerFactory.BuildXXYConsumer` | kafka-exemple/Factory/KafkaConsumerFactory.cs:34-43 | the new state and the result are those of `RetryBuild` on the old state: the stored retry connection, nothing changed, when it is subscribed; otherwise a rebuild with the last group id and the first `xxy` topic (cases spelled out by `RetryBuildOutcomes`) |
| `ConsumerFactory.KafkaConsumerFactory.BuildXXXConsumerIntended` | kafka-exemple/Factory/KafkaConsumerFactory.cs:25 | the new state and the result are those of `IntendedPrimaryBuild` on the old state: the subscription test on the primary slot itself |
| `ConsumerFactory.IntendedPrimaryBuildOutcomes` | kafka-exemple/Factory/KafkaConsumerFactory.cs:25 | the corrected build never dereferences null; it returns the stored primary connection, nothing changed, exactly while that connection is subscribed; it fails for lack of groups exactly when it rebuilds with an empty list; a returned connection is subscribed and stored; the retry slot never changes |
| `ConsumerFactory.KafkaConsumerFactory.ConsumerName` | kafka-exemple/Factory/KafkaConsumerFactory.cs:89-103 | "xxx" exactly when the primary slot holds the consumer, "xxy" exactly when only the retry slot does, "Desconhecido" otherwise |
| `ConsumerFactory.KafkaConsumerFactory.OnErrorHandler` | kafka-exemple/Factory/KafkaConsumerFactory.cs:53-77 | a fatal error from the connection in a slot disposes it and clears that slot only; fatal errors from other connections and all non-fatal errors change nothing; the report has the severity, origin and the name computed before clearing; the new state is `ErrorCallback` of the old |
| `ConsumerFactoryScenarios.PrimaryBuildNeedsRetrySlot` | kafka-exemple/Factory/KafkaConsumerFactory.cs:23-32 | on a fresh factory the first primary build succeeds and the second throws a null reference, because the retry slot is still empty |
| `ConsumerFactoryScenarios.IntendedPrimaryBuildReuses` | kafka-exemple/Factory/KafkaConsumerFactory.cs:25-31 | with the intended check the second primary build returns the first connection |
| `ConsumerFactoryScenarios.FatalErrorRebuildsPrimary` | kafka-exemple/Factory/KafkaConsumerFactory.cs:58-66 | after a fatal error on the primary connection the next build creates a new connection with the same group and topic |
| `ConsumerFactoryScenarios.NonFatalErrorKeepsRetry` | kafka-exemple/Factory/KafkaConsumerFactory.cs:73-76 | after a non-fatal error the next retry build returns the same connection |
| `ConsumerFactoryScenarios.LastBuildSetsSharedGroupId` | kafka-exemple/Factory/KafkaConsumerFactory.cs:45-47 | the shared configuration's group id is that of the last build, whichever role it was |
| `ConsumerFactoryScenarios.SingleGroupSharedByRoles` | kafka-exemple/Factory/KafkaConsumerFactory.cs:27-38 | with one group id both roles' connections bind to it and are still distinct |
| `ConsumerFactoryScenarios.MissingTopicLeavesUnsubscribedConsumer` | kafka-exemple/Factory/KafkaConsumerFactory.cs:38-39 | with no `xxy` topic the build fails and leaves an unsubscribed connection in the retry slot |
| `ProducerFactory.KafkaProducerFactory.constructor` | kafka-exemple/Factory/KafkaProducerFactory.cs:11-20 | the producer slot starts empty |
| `ProducerFactory.KafkaProducerFactory.BuildProducer` | kafka-exemple/Factory/KafkaProducerFactory.cs:22-30 | builds only when the slot is empty; afterwards the slot holds the returned producer, the previous one when there was one |
| `ProducerFactory.KafkaProducerFactory.OnErrorHandler` | kafka-exemple/Factory/KafkaProducerFactory.cs:32-47 | a fatal error disposes the stored producer, if any, and clears the slot whoever reported it; a non-fatal error changes nothing |
| `ProducerFactoryScenarios.ProducerReuseAndRebuild` | kafka-exemple/Factory/KafkaProducerFactory.cs:22-46 | successive builds return the same producer, also across a non-fatal error; after a fatal error reported by another producer the next build returns a new one |
| `ProducerWrapping.StatusCode` | kafka-exemple/Kafka/Producer/ProducerWrapper.cs:43 | the status code lies in 0..2 and is 2 exactly for Persisted |
| `ProducerWrapping.StatusCodeRoundTrip` | kafka-exemple/Kafka/Producer/ProducerWrapper.cs:41-43 | decoding the integer status gives back the status, and each code comes from one status only |
| `ProducerWrapping.Answer` | kafka-exemple/Kafka/Producer/ProducerWrapper.cs:53-57 | a transaction call succeeds exactly when the client's reply does, and otherwise throws the client's error |
| `ProducerWrapping.PublishedOne` | kafka-exemple/Kafka/Producer/ProducerWrapper.cs:33-38 | one send publishes the message's JSON to the first topic containing the fragment, through the given producer, or nothing when no topic does |
| `ProducerWrapping.PublishedAppend` | kafka-exemple/Kafka/Producer/ProducerWrapper.cs:33-38 | the calls of two runs of sends are the first run's followed by the second's |
| `ProducerWrapping.AfterSendsAppend` | kafka-exemple/Kafka/Producer/ProducerWrapper.cs:33-38 | sending in two runs leaves the same state as sending everything at once: the producer built or reused on the first send serves all later ones |
| `ProducerWrapping.ProducerWrapper.constructor` | kafka-exemple/Kafka/Producer/ProducerWrapper.cs:21-27 | the cached producer is unset and the configured topics are stored |
| `ProducerWrapping.ProducerWrapper.SendMessage` | kafka-exemple/Kafka/Producer/ProducerWrapper.cs:29-51 | caches the factory's producer first; with no matching topic nothing is produced and the lookup failure is returned; otherwise one keyless message with the JSON of the message goes to the first matching topic, and the result is the status code, the rethrown delivery exception, or the other exception; the new state is `AfterSends` of the old for this one send |
| `ProducerWrapping.ProducerWrapper.InitTransactionsOnProducer` | kafka-exemple/Kafka/Producer/ProducerWrapper.cs:53 | issued to the cached producer, whose reply is the result (a broker exception when it fails); a null dereference before the first send, with nothing issued |
| `ProducerWrapping.ProducerWrapper.BeginTransactionOnProducer` | kafka-exemple/Kafka/Producer/ProducerWrapper.cs:54 | issued to the cached producer, whose reply is the result (a broker exception when it fails); a null dereference before the first send, with nothing issued |
| `ProducerWrapping.ProducerWrapper.CommitTransactionOnProducer` | kafka-exemple/Kafka/Producer/ProducerWrapper.cs:55 | issued to the cached producer, whose reply is the result (a broker exception when it fails); a null dereference before the first send, with nothing issued |
| `ProducerWrapping.ProducerWrapper.AbortTransactionOnProducer` | kafka-exemple/Kafka/Producer/ProducerWrapper.cs:56 | issued to the cached producer, whose reply is the result (a broker exception when it fails); a null dereference before the first send, with nothing issued |
| `ProducerWrapping.ProducerWrapper.FlushProducer` | kafka-exemple/Kafka/Producer/ProducerWrapper.cs:57 | issued to the cached producer, whose reply is the result (a broker exception when it fails); a null dereference before the first send, with nothing issued |
| `ProducerWrapping.ProducerWrapper.Dispose` | kafka-exemple/Kafka/Producer/ProducerWrapper.cs:59-62 | neither disposes nor forgets the cached producer |
| `ProducerWrapperScenarios.TransactionsFollowTheCachedProducer` | kafka-exemple/Kafka/Producer/ProducerWrapper.cs:33-57 | a transaction call fails before the first send; a send to an unknown fragment fails; a send to `xxy` returns 2 for a persisted delivery; the next transaction call succeeds on that producer |
| `ConsumeIteration.HeldAfter` | kafka-exemple/Services/KafkaBackgroundService.cs:42-46 | the message variable takes the deserialization result exactly when a message arrived and deserialized, and is unchanged otherwise |
| `ConsumeIteration.Raised` | kafka-exemple/Services/KafkaBackgroundService.cs:38-50 | the try block raises nothing exactly when no message arrived or the commit succeeded; a ConsumeException exactly on a consume failure; another broker exception exactly on a poll or a commit the broker client rejected with a `KafkaException`; any other exception exactly otherwise (a failed deserialization, a commit failing in another way, cancellation, or any other poll failure such as polling a disposed connection) |
| `ConsumeIteration.TraceGrows` | kafka-exemple/Services/KafkaBackgroundService.cs:34-65 | one more iteration from the message variable the trace left extends the trace and appends its hand-off to the sends |
| `ConsumeIteration.TurnChainGrows` | kafka-exemple/Services/KafkaBackgroundService.cs:34-36 | an iteration whose build succeeded extends the chain of factory states with the state it leaves |
| `ConsumeIteration.HeldIsLastParsed` | kafka-exemple/Services/KafkaBackgroundService.cs:32-46 | the message variable declared outside the loop holds the last deserialization result of the iterations so far |
| `BackgroundService.PrimaryStep` | kafka-exemple/Services/KafkaBackgroundService.cs:38-64 | a commit exactly after a message arrived, deserialized and committed; consume and commit exceptions are logged only; the catch-all clause hands off the message variable; a handler that reads a null message ends the loop; a cancellation raised while polling stops the loop at the top |
| `ConsumeIteration.TryConsume` | kafka-exemple/Services/KafkaBackgroundService.cs:40-49 | the try block yields the message variable, the commit and the raised exception that the step function prescribes |
| `BackgroundService.ProduceTopicRetry` | kafka-exemple/Services/KafkaBackgroundService.cs:69-79 | exactly one send of the message to fragment `xxy`, whose failure is swallowed: the message's JSON goes to the first `xxy` topic through the producer the factory's build returns (nothing is published when there is no such topic), and that producer is cached and in the factory's slot |
| `BackgroundService.PrimaryTryCatch` | kafka-exemple/Services/KafkaBackgroundService.cs:38-64 | the try block and its catch clauses behave as the step function says; the producer side ends as `AfterSends` of exactly the step's hand-off, if any |
| `BackgroundService.PrimaryIteration` | kafka-exemple/Services/KafkaBackgroundService.cs:36-64 | the consumer factory ends as `Turn(Primary, …)` says: the build, then the error callback; the iteration fails exactly when that build does, with its exception and before any send; otherwise it behaves as the step function says and the producer side ends as `AfterSends` of its hand-off |
| `BackgroundService.RunPrimary` | kafka-exemple/Services/KafkaBackgroundService.cs:28-67 | the loop's iterations follow the step function from a null message variable; the sends and the published calls are exactly those of the hand-offs, in order, through one producer; the consumer factory's states form a chain of successful `Turn`s; the loop ends on a build exception (the failing `Turn` of the last state, whose after-state is the final one), on an exception leaving an iteration, or on cancellation |
| `BackgroundServiceScenarios.PrimaryLoopEndsAtSecondBuild` | kafka-exemple/Services/KafkaBackgroundService.cs:34-36 | on a fresh factory, with three idle iterations, the primary loop records one iteration and ends when the second build throws a null reference |
| `BackgroundService.PrimaryHeldIsLastParsed` | kafka-exemple/Services/KafkaBackgroundService.cs:32-46 | in the primary loop the message variable is the last deserialization result so far, possibly from an earlier iteration |
| `BackgroundService.PrimaryHandoffIsLastParsed` | kafka-exemple/Services/KafkaBackgroundService.cs:59-64 | a hand-off happens exactly when the catch-all clause runs after some message was deserialized, and carries the last one |
| `BackgroundService.PrimaryEndsOnlyOnCancellationOrNull` | kafka-exemple/Services/KafkaBackgroundService.cs:34-64 | an iteration stops the loop only after cancellation while polling, and ends it by an exception exactly when a commit or catch-all handler runs while no message has been deserialized |
| `BackgroundService.DisposedPollHandsOffAndContinues` | kafka-exemple/Services/KafkaBackgroundService.cs:36-64 | after a fatal error on the primary connection reported while polling, the callback has disposed and cleared it; when polling it then throws, the catch-all hands the held message off again, the loop continues, and the next build rebuilds |
| `BackgroundService.PrimaryStepIntended` | kafka-exemple/Services/KafkaBackgroundService.cs:32-63 | with two corrections (the message variable declared per iteration, and handlers that read its id and hand it off only when it is set), only a failure after this iteration's message was deserialized hands that message off, and no handler throws |
| `BackgroundService.StaleHandoff` | kafka-exemple/Services/KafkaBackgroundService.cs:32-63 | a deserialization failure after a committed message hands the earlier message to the retry topic; the intended step hands nothing off |
| `BackgroundService.FirstParseFailureEndsLoop` | kafka-exemple/Services/KafkaBackgroundService.cs:59-61 | a deserialization failure before any message was deserialized ends the loop without a hand-off |
| `RetryBackgroundService.RetryStep` | kafka-exemple/Services/KafkaRetryBackgroundService.cs:35-56 | commits exactly after a message arrived, deserialized and committed; consume and commit exceptions are logged; any other exception is uncaught and ends the loop; nothing is handed off |
| `RetryBackgroundService.RetryTryCatch` | kafka-exemple/Services/KafkaRetryBackgroundService.cs:35-56 | the try block and its catch clauses behave as the retry step function says |
| `RetryBackgroundService.RetryIteration` | kafka-exemple/Services/KafkaRetryBackgroundService.cs:33-56 | the consumer factory ends as `Turn(Retry, …)` says: the build, then the error callback; the iteration fails exactly when that build does, with its exception; otherwise it behaves as the retry step function says |
| `RetryBackgroundService.RunRetry` | kafka-exemple/Services/KafkaRetryBackgroundService.cs:25-58 | the loop's iterations follow the retry step function; the consumer factory's states form a chain of successful `Turn`s; it ends on a build exception (the failing `Turn` of the last state, whose after-state is the final one), an escaping exception, or cancellation at the top |
| `RetryBackgroundService.RetryNeverPublishes` | kafka-exemple/Services/KafkaRetryBackgroundService.cs:15-23 | the retry loop's trace makes no send |
| `RetryBackgroundService.RetryEndsOnUncaught` | kafka-exemple/Services/KafkaRetryBackgroundService.cs:35-56 | a deserialization failure, a cancellation raised while polling, any other non-broker poll failure or a non-broker commit failure ends the retry loop with that iteration |
| `RetryBackgroundService.RetryCommitHandlerNeedsMessage` | kafka-exemple/Services/KafkaRetryBackgroundService.cs:52-55 | the broker-exception handler throws exactly when the last deserialization result is null; after a failed commit that is exactly when this iteration deserialized null |
| `RetryBackgroundService.HandoffThenRetryCommit` | kafka-exemple/Services/KafkaRetryBackgroundService.cs:39-46 | a message handed off by the primary loop is deserialized and committed by the retry loop, with nothing further |

## Left out

- Asynchrony and threads: `Task.Run`, `async`/`await`, and the broker client
  invoking the error and log callbacks on its own threads. Callbacks are
  ordinary calls, sequenced with the builds and polls.
- The broker client library. What `Consume`, `Commit` and `ProduceAsync`
  yield are inputs (`Iteration`, `Delivery`), and so are the replies to the
  transaction calls and `Flush`. `Subscribe`, `Dispose` and the builders'
  `Build()` are assumed to succeed: the model has no failure path for them.
  The poll's outcomes include a broker exception that is not a consume
  exception and any other exception, such as polling a connection that a
  fatal error has just disposed; which one a disposed connection yields is
  the input's choice.
- JSON: serialization is the opaque payload `JsonOf(message)`, and the
  deserialization result is an input.
- Log text, `DateTime.Now` stamps and the timeout passed to `InitTransactions`.
  Only severities and the handler taken are recorded.
- The producer factory's log callback is the same `Relay` function as the
  consumer factory's.
- Producer error callbacks during a loop's retry send are not in the loop
  model. They are covered by the producer factory's own handler.
- Both hosted services share one singleton consumer factory
  (kafka-exemple/Startup.cs:97, 101-102) and run concurrently. The model runs
  each loop alone on a factory state. The null dereference of the primary
  build (`PrimaryLoopEndsAtSecondBuild`, Findings row 1) therefore happens in
  deployment only while the retry loop has not yet built its slot, or after
  a fatal error cleared it.
- Dependency wiring, configuration binding, health checks, HTTP pipeline and
  the HTTP client: not part of this model.
- The multi-match ambiguity of topic resolution: `First` takes the first
  match, and so does the model.

## Findings

| source | as written | input that shows it | evidently intended | confidence | as-written member | corrected member |
|---|---|---|---|---|---|---|
| kafka-exemple/Factory/KafkaConsumerFactory.cs:25 | the primary build tests the retry slot's subscription | two primary builds on a fresh factory: the second dereferences the empty retry slot | test the primary slot's own subscription | high, not executed | `ConsumerFactoryScenarios.PrimaryBuildNeedsRetrySlot` | `ConsumerFactoryScenarios.IntendedPrimaryBuildReuses` |
| kafka-exemple/Factory/KafkaConsumerFactory.cs:83 | broker log lines are kept when the level is at most Warning | a Critical syslog line is dropped | keep Warning and more severe lines | high, not executed | `LogLevels.RelayDisagreesWithIntended` | `LogLevels.RelayIntended` |
| kafka-exemple/Services/KafkaBackgroundService.cs:32 | the message variable outlives the iteration | a committed message m1, then a deserialization failure: m1 is republished | declare the message variable per iteration, and have the handlers read its id and hand it off only when it is set, so only the message deserialized in the same iteration is handed off | medium, not executed | `BackgroundService.StaleHandoff` | `BackgroundService.PrimaryStepIntended` |

The consumer factory, the log handlers and the primary loop follow the code as
written. The corrected members stand beside them with their own proved
properties.
