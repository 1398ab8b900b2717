# Apexio: delivery from gateway to store

A Dafny model of the Apexio log pipeline and proofs about it. Log events enter through the gateway (REST or
OTLP), go to a topic as JSON payloads, and are taken from there by the writer, which batches them into the
store and then commits the offsets. The project follows an event along that path.

* **Events** (`Text`, `Schema`, `Otlp`): the canonical event, its validation, the REST mapping in both
  directions, the flattening of OTLP requests, attribute precedence and the broker payloads.
* **The topic** (`PartitionedLog`, with `Sums`): partitioned logs, windows of messages, and commits, which move each
  partition to its highest offset plus one.
* **The writer** (`WriterMachine` and the `Writer*` modules, `BatchDelay`): `runConsumer` as a state machine
  with a step for every point where the process waits (a fetch, a write attempt, the sleep between two
  attempts, a commit), so that crashes, restarts, cancellation, new messages and answers of every kind (a write
  or a commit that fails with or without effect) can fall anywhere. A write attempt looks at the context once,
  as it begins; a cancel that comes later finds it in flight.
  `WriterExits` says how each answer ends a process and what it leaves behind.
  `WriterProgram` is the code itself, loop, closure and retry loop, proved to do what the machine does on every
  schedule. `TopicConsumer` is the one-at-a-time consumer that the batching refines.
* **The stores and slices** (`MemoryStore`): the in-memory store over growing arrays, and the reuse of the
  writer's buffer.
* **The brokers** (`MemoryBroker`, `MemoryBrokerOrder`, `MemoryBrokerProgram`, `FanIn`): the in-memory broker as a
  protocol of concurrent calls, the order in which it hands messages over, and as code with other calls between its
  steps, and the goroutine fan-in of the Redpanda subscriber.
* **The gateway and the whole** (`EndToEnd`, `EndToEndDelivery`, `Conservation`, `Surroundings`, `GatewayProgram`):
  the system in which any number of requests and the writer interleave, and the handlers as code, each a run of
  that system with the steps of the others in between, also within each call of the broker.

`dafny verify dfyconfig.toml` checks all of it. There are no axioms, no assumptions and no bodiless members.

## What turned out differently from the documentation

* deploy/README.md:142 says that shutdown flushes the in-flight batch. The code does not do that: `flush` gets
  the cancelled context and both stores refuse it. `ShutdownDoesNotFlush` gives the run, `CancelledExit` the
  exact outcome (a clean stop exactly when the buffer is empty), and `CancelledBatchComesBack` what saves the
  messages: they are still uncommitted, so the next process fetches them first. An attempt that was already in
  flight when the cancel came may still succeed, or fail and leave rows; `CancelDuringAttempt` says that its
  answer alone decides what this process still stores.
* A nil return of the Redpanda subscriber does not mean that no topic failed, for two reasons: the select may take
  `done` while an error is queued (`NilDespiteFailure`), and an error that wraps Canceled is dropped even when the
  context was live, as when a handler cancels a context of its own (`DroppedError`). `NilMeansCleanIff` gives the
  exact condition: no topic failed if and only if the channel is empty and no error was dropped. When the caller's
  context has not ended either, a nil return means that every consumer has ended by itself
  (`NilUnderLiveContext`).
* `WRITER_FLUSH_INTERVAL` alone does not bound the delay of an event, because the ticker is looked at only after
  a timed-out fetch: it does if and only if the batch size is 1 (`IntervalSufficesIff`). The exact bound, for
  every configuration, is (⌊FlushInterval / 250 ms⌋ + BatchSize - 1) * 250 ms, and nothing at all for batches of
  one: a bound holds if and only if it is no less (`SufficesIffLongest`). FlushInterval + (BatchSize - 1) * 250 ms
  follows (`DelayBound`) and is attained if and only if batches hold two or more and the interval is a multiple
  of 250 ms, as with the defaults of 50 and one second (`BoundIsReachedIff`).
* A REST timestamp of 18446681938112751616, which the 64-bit casts turn into the zero time, is the one timestamp that
  is refused (`RestAcceptedIff`). Over OTLP a time is never missing (`RecordIsEvent`).
* Severity numbers below the DEBUG range map to INFO, above DEBUG: `SeverityOrder` says exactly where the order
  breaks.

## Model

| member | source | states |
|---|---|---|
| Schema.NormalizeProjects | pkg/schema/event.go:106-122 | normalising a level is a projection, and the result is valid exactly for empty or valid levels |
| Schema.LevelNames | pkg/schema/event.go:106-122 | between white space a level spells one of the five names in letters of either case exactly when it normalises to that name; a blank one becomes INFO |
| Schema.ValidLevelSpells | pkg/schema/event.go:106-113 | a valid level spells DEBUG, INFO, WARN, ERROR or FATAL |
| Schema.ValidIff | pkg/schema/event.go:86-103 | an event is valid exactly when message and service each hold a character that is not white space, the level is empty or known and the time is not the zero time; which fault is reported first |
| Schema.MergeAttrs | pkg/schema/event.go:229-243 | the union without the empty key, later maps winning, nil when empty, whatever order the entries are visited in |
| Schema.CloneMap | pkg/schema/event.go:245-254 | a copy of the entries, nil when there are none |
| Schema.FirstAttr | pkg/schema/event.go:256-263 | the value of the first key that is present with a non-empty value |
| Schema.ParseUint16Attr | pkg/schema/event.go:265-275 | the number of the first key whose text scans to at most 65535, otherwise 0 |
| Schema.RestAcceptedIff | pkg/schema/event.go:125-152 | a payload is accepted exactly when message and service are not blank, the level is blank or known, and the timestamp is not the one number that casts to the zero time; which fault is reported |
| Schema.RestFields | pkg/schema/event.go:125-152 | which field of an accepted payload becomes which field of the event, with time in milliseconds, status modulo 65536 and both extras merged |
| Schema.RestFormFields | pkg/schema/event.go:155-178 | which field of any event becomes which field of its REST form, time rounded down to milliseconds modulo 2^64 |
| Schema.FromRestToRest | pkg/schema/event.go:125-178 | FromREST after ToREST gives the event back, at any time, if and only if the event is canonical |
| Schema.AcceptedIsCanonical | pkg/schema/event.go:125-152 | an accepted payload that carries a timestamp yields a canonical event |
| Schema.RestFormOf | pkg/schema/event.go:125-178 | the canonical form keeps the timestamp through the 64-bit casts, normalises the level, takes the status modulo 2^16 and merges the extras with metadata winning |
| Schema.RestCanonicalisation | pkg/schema/event.go:125-178 | mapping the canonical form again, at any later time, gives the same event and the same form |
| Schema.PublishedDecodes | pkg/schema/event.go:209-227 | an event is encodable exactly when it is valid, its float finite and its year within 0 to 9999; what was encoded decodes to the event with its level normalised, all attributes kept and an empty map replaced by nil, and that is stable |
| Schema.DecodedIsValid | pkg/schema/event.go:217-227 | whatever decodes is valid, has one of the five levels and decodes again to itself |
| Schema.DecodesIff | pkg/schema/event.go:217-227 | what decodes: message and service not blank, a level blank or known, a time; and to which event |
| Text.FormatThenScan | pkg/schema/event.go:265-275 | a printed integer scans back as itself if it is an unsigned 64-bit number and is refused otherwise |
| Text.ScanReads | pkg/schema/event.go:265-275 | scanning takes the decimal number after white space but for a newline, up to the first other character, and refuses more than 64 bits, a newline and anything that does not begin with a digit |
| Text.PrintedDecimal | pkg/schema/otlp.go:65-66 | integers are printed in decimal without leading zeros, negative ones with a minus sign |
| Text.TrimSpaceOf | pkg/schema/event.go:90-95 | trimming leaves exactly the text between the white space at its ends |
| Otlp.SeverityOrder | pkg/schema/otlp.go:81-96 | severity is monotone except that the numbers below DEBUG come out above DEBUG |
| Otlp.SeverityRanges | pkg/schema/otlp.go:81-96 | DEBUG is 5 to 8, INFO 9 to 12 and all below 5, WARN 13 to 16, ERROR 17 to 20, FATAL from 21 |
| Otlp.ValueTexts | pkg/schema/otlp.go:57-79 | strings as they are, true and false, decimal integers, nothing for no value |
| Otlp.KeyValuesToMap | pkg/schema/otlp.go:43-55 | for every non-empty key the value of the last non-nil entry, nil for an empty list only |
| Otlp.AttributePrecedence | pkg/schema/otlp.go:43-55 | the merged attributes hold, per non-empty key, the last entry in resource followed by record attributes, and are nil exactly when there is none |
| Otlp.DurationOfFirst | pkg/schema/event.go:277-287 | the duration of the first key whose text the scanner takes, 0 when there is none |
| Otlp.OtlpLikeIsEvent | pkg/schema/event.go:181-206 | what is refused (blank body or service, unknown level, never a missing time), and the event otherwise: the zero time replaced, each field under its names in order, record attributes winning |
| Otlp.RecordIsEvent | pkg/schema/otlp.go:23-36 | a whole record: the event has its time as a signed number or the time of mapping for 0, the level of its severity text or else of its number, its body, and every field under the names listed |
| Otlp.StatusAttribute | pkg/schema/event.go:265-275 | an integer status in 0 to 65535 is taken, any other falls through to the next key |
| Otlp.RecordStatus | pkg/schema/otlp.go:23-32 | the same through formatting, map building and merging of a whole record |
| Otlp.RestAndOtlpAgree | pkg/schema/event.go:181-206 | a REST payload and a record carrying its fields as attributes become the same event but for id and attributes |
| Otlp.RestSentAsOtlp | pkg/schema/event.go:181-206 | every accepted REST payload with a 16-bit status, sent as a record with its fields under the OpenTelemetry names, becomes the event REST makes of it but for id and attributes |
| Otlp.MapAllIsAllOrNothing | pkg/schema/otlp.go:14-41 | the events of all records in order if and only if every record maps, otherwise the error of the first that does not |
| Otlp.LogEventsFromOtlp | pkg/schema/otlp.go:14-41 | the three nested loops map the flattened records in resource, scope and record order, stopping at the first failure |
| Otlp.FlattenLength | pkg/schema/otlp.go:19-22 | flattening keeps every record exactly once |
| Otlp.FlattenOrder | pkg/schema/otlp.go:19-22 | record k of scope j of resource i is, with the attributes of its own resource, at the position given by the number of records before it |
| Otlp.EventsInOrder | pkg/schema/otlp.go:14-41 | the event at that position is the one the record maps to |
| Otlp.RequestAcceptedIff | pkg/schema/otlp.go:14-41 | a request maps exactly when it is not nil and no record of it has a blank body, a blank service or an unknown severity |
| Otlp.MappedRequestIsPublishable | pkg/schema/otlp.go:14-41 | as many events as records, all passing the check MarshalEvent makes |
| PartitionedLog.CommitOfWindow | cmd/writer/consumer.go:42-44 | committing the highest offsets of a window moves every partition exactly to its end |
| PartitionedLog.WindowLength | cmd/writer/consumer.go:61-62 | a window has as many messages as its ends are apart over all partitions |
| WriterSafety.StepKeepsInv | cmd/writer/consumer.go:50-90 | every step, including crash, restart and ambiguous failures, keeps the delivery and window invariant |
| WriterSafety.Delivery | cmd/writer/consumer.go:35-48 | over every run, each message below a committed offset decodes and is in the store, and every row is a decoded log record |
| WriterSafety.PendingAtLoopHead | cmd/writer/consumer.go:30-69 | at every loop head the buffers have equal length below the batch size, decode each other, and are exactly the log from committed offset to fetch position in every partition |
| WriterSafety.NothingIsLost | cmd/writer/consumer.go:35-48 | over every run rows are never removed and committed offsets never go back |
| WriterSafety.NeverPassesUndecodable | cmd/writer/consumer.go:55-60 | no committed offset passes a message that does not decode |
| WriterSafety.NoDecodeErrorExit | cmd/writer/consumer.go:55-60 | if every message entered through Publish, no run takes the decode-error exit and decodeErrors stays 0 |
| WriterCounting.CountedDelivery | cmd/writer/consumer.go:35-48 | the multiset of the events of all messages below the committed offsets is contained in the multiset of rows, over every run |
| WriterProgress.CanAlwaysCatchUp | cmd/writer/consumer.go:50-90 | from every reachable state some continuation stores and commits the whole topic, if it decodes |
| WriterProgress.SmoothRunsCatchUp | cmd/writer/consumer.go:50-90 | and without failures, cancels, crashes and new messages every continuation does that fetches what is missing, then sees a tick and then a timed-out fetch, once the writer is back in its loop |
| WriterAccounting.MetricConservation | cmd/writer/batch.go:45-57 | batches, events written, rows and commits are ordered as promised in every state of every process, with equality for tidy failures and at the loop head; a decode error is counted exactly by a process that stopped for it, and a write error likewise |
| WriterRefinement.BatchingRefinesOneAtATime | cmd/writer/consumer.go:50-90 | with failures that write nothing, the durable state at every loop head is what the one-at-a-time consumer reaches on the flushed messages in fetch order, none of them twice |
| WriterShutdown.CancelledFlush | cmd/writer/batch.go:59-71 | once an attempt has begun, or will begin, with a cancelled context, every attempt is refused, one per refusal, and nothing durable or buffered changes |
| WriterShutdown.NothingStoredAfterCancel | pkg/store/memory.go:27-30 | after a cancel that finds no attempt in flight, this process stores nothing more, whatever it still fetches and flushes |
| WriterShutdown.CancelDuringAttempt | cmd/writer/batch.go:59-71 | after a cancel during an attempt, the answer to that attempt alone decides which rows this process adds (batch, residue or none); after a failure every later attempt is refused and nothing is committed |
| WriterShutdown.CancelledExit | cmd/writer/consumer.go:79-87 | a cancelled exit is clean exactly for an empty buffer; otherwise MaxRetries refusals, no row, no commit and an error wrapping Canceled |
| WriterShutdown.CleanExitLeavesNothing | cmd/writer/consumer.go:79-87 | whenever the process has returned nil, cancelled or not, its buffer is empty and every message it fetched is committed and stored |
| WriterShutdown.CancelledBatchComesBack | cmd/writer/consumer.go:79-87 | the next process fetches precisely the pending messages first, in every partition |
| WriterShutdown.ShutdownDoesNotFlush | cmd/writer/consumer.go:85-87 | a run that shuts down with a message in the buffer and an empty store |
| WriterExits.ReaderFailure | cmd/writer/consumer.go:88 | over every run, a reader that fails for good stops the process with the fetch error; nothing is flushed, committed or counted |
| WriterExits.DecodeFailure | cmd/writer/consumer.go:55-60 | over every run, an undecodable message stops the process with the decode error, counted, with the buffered batch neither written nor committed |
| WriterExits.CommitFailure | cmd/writer/consumer.go:42-44 | over every run, a failed commit stops the process with the batch stored and still buffered and exactly the reached partitions moved to the fetch position |
| WriterExits.FailedAttempts | cmd/writer/batch.go:59-71 | on every schedule each failed attempt counts once, fewer than MaxRetries leave the process trying, that many stop it with the error of the last one, counted; only the rows they left are new |
| WriterExits.SuccessfulFlush | cmd/writer/consumer.go:35-48 | after any failed attempts a successful flush has stored their rows and the batch in order, committed every partition up to the fetch position, emptied both buffers, counted the batch, and goes on where flush was called |
| WriterExits.WayOut | cmd/writer/consumer.go:76-87 | every exit that is not an error, cancelled or not: nil at once for an empty buffer, otherwise a last flush with one of three outcomes, each stated in full |
| WriterExits.NilReturnHasReason | cmd/writer/consumer.go:79-87 | a process that has returned nil was cancelled or had its reader report Canceled |
| WriterExits.ExitHasReason | cmd/writer/consumer.go:50-90 | what a process returns is what some answer it got calls for |
| WriterExits.BatchesAreWrites | cmd/writer/batch.go:45-57 | flushed batches are counted one for each successful write, from nought in each process |
| BatchDelay.DelayBound | cmd/writer/consumer.go:50-83 | every event is flushed within FlushInterval + (BatchSize - 1) * 250 ms of fetch waiting, and within the smaller exact bound, for every arrival pattern |
| BatchDelay.SufficesIffLongest | cmd/writer/consumer.go:71-78 | for every configuration a bound holds for all arrival patterns if and only if it is at least the exact one, which some pattern attains |
| BatchDelay.IntervalSufficesIff | cmd/writer/consumer.go:71-78 | the flush interval alone bounds the delay if and only if the batch size is 1 |
| BatchDelay.BoundIsReachedIff | cmd/writer/consumer.go:71-78 | FlushInterval + (BatchSize - 1) * 250 ms is attained if and only if batches hold two or more and the interval is a multiple of 250 ms |
| BatchDelay.TurnIsARun | cmd/writer/consumer.go:50-83 | a timed turn is a run of the writer machine with the stated effect on buffer, ticker and store |
| BatchDelay.TickKeepsPhase | cmd/writer/consumer.go:32-33 | the ticker keeps its phase: the next tick is the first multiple of the interval not seen yet |
| WriterProgram.NewBatchProcessor | cmd/writer/batch.go:25-43 | out-of-range settings get their defaults, the others are kept, and the result is in range |
| WriterProgram.Consumer.WriteWithRetry | cmd/writer/batch.go:59-71 | the retry loop, with its sleeps, does what the machine does, on every schedule, including cancels during an attempt or a sleep |
| WriterProgram.Consumer.Flush | cmd/writer/consumer.go:35-48 | so does the flush closure |
| WriterProgram.Consumer.OnMessage | cmd/writer/consumer.go:55-69 | so does the handling of a fetched message |
| WriterProgram.Consumer.OnTimeout | cmd/writer/consumer.go:71-78 | so does the poll of the ticker after a timed-out fetch |
| WriterProgram.Consumer.Run | cmd/writer/consumer.go:50-90 | so does the whole loop: it ends with the machine's exit or blocked where the machine is |
| TopicConsumer.ConsumeTopic | pkg/broker/redpanda.go:149-169 | messages are handled and committed one by one; a failing turn ends the loop with its own error, stated for each kind of turn, with what is stored and committed then; the return is nil exactly for a fetch that ends with a context error while the context itself is live |
| TopicConsumer.CommittedAreHandled | pkg/broker/redpanda.go:157-168 | however the loop ends, also with a commit that fails after taking effect, everything below a committed offset was handed to the store, and a message whose handler failed is not among it |
| MemoryStore.Memory.WriteBatch | pkg/store/memory.go:27-47 | all rows or none, and exactly when the context is live and the batch is empty or valid with an open store; otherwise the error of the done context, of the first invalid event or of the closed store, in this order |
| MemoryStore.WriteThenReuse | cmd/writer/consumer.go:45-46 | appending over the truncated buffer's own array changes no row already stored |
| MemoryStore.FlushRounds | cmd/writer/consumer.go:35-47 | over any number of flushes built in one array, the store holds every batch, whole and in order, and the rows of each round stay an unchanged prefix |
| MemoryBroker.PairedExactlyOnce | pkg/broker/memory.go:40-79 | under every interleaving each registration and message of a topic are paired exactly once, in a snapshot or in a replay |
| MemoryBroker.DeliveredExactlyOnce | pkg/broker/memory.go:50-85 | no handler is called twice for a message, and once for each of them when all calls return without a failure |
| MemoryBrokerOrder.ListsInOrder | pkg/broker/memory.go:47-79 | in every reachable state a snapshot lists registrations in the order they were made, and a replay goes topic by topic down the list, each from its oldest message to its newest |
| MemoryBrokerOrder.HandedInOrder | pkg/broker/memory.go:50-85 | under every interleaving the handler calls that one Publish or one Subscribe makes are made in that order |
| MemoryBrokerOrder.ClosedForGood | pkg/broker/memory.go:40-68 | a closed broker takes on no message, registration or call, over every run |
| MemoryBrokerProgram.Memory.Publish | pkg/broker/memory.go:31-56 | with any steps of other calls before and between, one step in the state in which it has the lock: the message goes to the end of the topic, and exactly the handlers registered in that state are called, in order, until one fails; which error it returns |
| MemoryBrokerProgram.Memory.Subscribe | pkg/broker/memory.go:60-87 | likewise: it registers on every topic of its list and replays every message these hold in the state in which it has the lock, in the order of the list and from the oldest on, until a failure; the order of its refusals |
| MemoryBrokerProgram.CallIsARun | pkg/broker/memory.go:31-87 | such a call, with everything the others do, is a run of the protocol whose effects are theirs and its own step |
| FanIn.NoSendBlocks | pkg/broker/redpanda.go:100-115 | for every number of topics and every schedule no goroutine blocks on the error channel |
| FanIn.ReturnsAfterAll | pkg/broker/redpanda.go:117-134 | Subscribe returns only after all consumers have exited, and an error is the context's own or one that some consumeTopic returned |
| FanIn.SelectDecides | pkg/broker/redpanda.go:123-134 | the branch taken decides the return over every run: the error of the context, the error first in the channel at that moment, or nil |
| FanIn.SendsQueue | pkg/broker/redpanda.go:110-113 | a goroutine puts the error its own consumeTopic returned behind those already in the channel |
| FanIn.NilMeansCleanIff | pkg/broker/redpanda.go:110-134 | when the done branch can be taken, no topic failed if and only if the channel is empty and no consumer returned an error wrapping Canceled under a live context |
| FanIn.NilUnderLiveContext | pkg/broker/redpanda.go:105-134 | a nil return with an empty channel and the caller's context not ended means that every consumer ended by itself under a live context, with nil or a dropped error |
| FanIn.DroppedError | pkg/broker/redpanda.go:110-113 | a run in which the only topic fails with an error wrapping Canceled, nobody is cancelled, and the done branch is taken with an empty channel |
| FanIn.NilDespiteFailure | pkg/broker/redpanda.go:132-133 | a run that returns nil although a topic failed |
| FanIn.CancelledIffCause | pkg/broker/redpanda.go:101-134 | in every reachable state the consumers' context is cancelled if and only if the caller's context ended, Subscribe has left its select, or a topic failed and its goroutine has reported it |
| FanIn.RunsAreBounded | pkg/broker/redpanda.go:99-135 | every step decreases a measure, so no run goes on for ever |
| FanIn.NeverStuck | pkg/broker/redpanda.go:117-134 | once all consumers have returned there is a step to take until Subscribe has returned |
| GatewayProgram.Gateway.PublishEvents | cmd/gateway/publish.go:16-23 | with anything going on between and within its calls of the broker, an ordered prefix of the events gets into the topic, the whole of them exactly on success; which error stops it and why; undisturbed, the topic grows by just that prefix, and by the event whose handler failed |
| GatewayProgram.Gateway.ServeRest | cmd/gateway/rest.go:24-35 | the handler is a run of the whole system under every interleaving; 400 without publishing exactly for a blank message or service, an unknown level or the zero timestamp, 502 with its reason, or 201 with the one event in the topic; counted once |
| GatewayProgram.Gateway.ServeOtlp | cmd/gateway/otlp_http.go:46-63 | likewise; 400 without publishing exactly when some record has a blank body, a blank service or an unknown severity, 502 with its reason, or 200 with all events in the topic; records counted only then |
| EndToEnd.AcceptedIsDelivered | cmd/gateway/rest.go:24-35 | over every interleaving, each event of a request answered 201 or 200 is in the topic, decodes to itself with all its attributes and its level normalised, and is stored so once its offset is committed |
| EndToEnd.OnlyRequestedIsStored | cmd/gateway/publish.go:16-23 | every row is an event of some request, field by field, with its level normalised and an empty attribute map replaced by nil, and the writer never fails to decode |
| EndToEndDelivery.CountedEndToEnd | cmd/writer/consumer.go:35-48 | over every interleaving, the acknowledged events whose places are committed are contained in the rows as a multiset, for any choice of requests |
| EndToEndDelivery.SettledOfHas | cmd/writer/consumer.go:35-48 | and every acknowledged event whose offset is committed is among those counted |
| EndToEndDelivery.AcceptedCanBeStored | cmd/writer/consumer.go:50-90 | from every reachable state some continuation of writer steps stores every event of every accepted request, each with its own row |
| EndToEndDelivery.AcceptedWillBeStored | cmd/writer/consumer.go:50-90 | and with the writer in its loop every undisturbed continuation that fetches what is missing, then sees a tick and then a timed-out fetch, has done so when it is back in its loop |
| Conservation.GatewayConservation | cmd/gateway/otlp_http.go:52-62 | each request puts an ordered prefix of its events in places of its own; an answered request has put in all of them if and only if it was accepted; accepted events never outnumber the topic; every request is counted once |
| Conservation.CountersByKind | cmd/gateway/rest.go:24-35 | each of the five counters is the number of answered requests of its own kind and outcome, the last the number of events of accepted OTLP requests |
| Conservation.TopicIsWhatWasPlaced | pkg/broker/memory.go:40-48 | with a broker that reports what it writes, the topic length is exactly the number of events the requests have placed |

## Left out

- JSON, protobuf and HTTP text: a payload is represented by what json.Unmarshal makes of it, a request by its decoded body; invalid UTF-8 is not represented.
- Float parsing and printing (`parseFloatAttr`, double values) and the printing of arrays and key-value lists: a scanner function and the printed text are inputs.
- Upper-casing of letters outside ASCII, except the two that become ASCII letters; no accepted level depends on the others.
- The clock: every reading of time.Now is an input other than the zero time.
- Wrap-around of the 64-bit metric counters and of Kafka offsets: they are unbounded here.
- Time spent writing, committing and backing off between retries: `BatchDelay` counts the waiting in FetchMessage only.
- Consumer-group rebalancing, log retention and several writers at once: a process has the topic to itself from start to end.
- The Kafka and ClickHouse clients: they are the answers of the environment, with a failed write leaving any rows of its batch and a failed commit moving any of its partitions.
- The argument checks of `NewRedpanda`, `Redpanda.Publish`, `Redpanda.Subscribe` and `runConsumer` before their main part, and `Close` of the Redpanda broker and the ClickHouse store: one-branch facts.
- Authentication, the metrics endpoints, process start-up and shutdown, the gRPC server (its handler is the OTLP handler again), deployment files and examples.
