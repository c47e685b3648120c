# Verification models for the ROS 2 to Kafka dispatcher

Dafny models of the stateful and recursive parts of the dispatcher, with proofs about every run,
every input or every interleaving. `dafny verify dfyconfig.toml` checks all of it.

## What is modelled

* **The Kafka producer** (`Producer.dfy`): `send`, the poll thread, `start` and `stop` as atomic
  steps of one state machine, and a class whose critical sections are proved to be those steps.
  librdkafka answers each `produce` with ok, full or error. `start` and `stop` are serialised by
  their caller. `SinkAccounting.dfy` interleaves the sink's subscription callbacks with it.
* **The dispatcher controller** (`TopicPlan.dfy`, `ToolFleet.dfy`, `RemoteNodes.dfy`,
  `Controller.dfy`): handlers of a class drive two lifecycle sinks and a component container.
  What becomes of the n-th remote call is an input: it is answered, by a node in some trouble or
  none, or the service is unavailable, or it times out after having taken effect or not; so is what
  introspection reports. `Valid()` holds the theorem about phase Idle; every handler keeps it. Ghost
  fields count unanswered loads, leaked nodes and their two causes, and remember how each sink was
  last reached. The handler contracts also say when a call must succeed, namely when no remote call
  went wrong.
* **The mock Kafka server** (`Bytes.dfy`, `MockStore.dfy`, `Produce.dfy`, `ProduceRoundTrip.dfy`,
  `Fetch.dfy`, `MockServer.dfy`, `Connection.dfy`): the de-framer over a chunked stream, with any
  outcome of each send, the nested parsers with their cursor and every early exit, and the
  partitioned log. Recursive functions are the specification; the class runs the loops of the
  program and is proved equal to them. `Replies.dfy`, `ProduceReplies.dfy` and `FetchReplies.dfy`
  hold a client's own decoder of the answers, `Dispatch.dfy` what a client sees of the whole, and
  `Malformed.dfy` requests that are not well formed.
* **The data path** (`Json.dfy`, `TopicNames.dfy`, `AtomicStats.dfy`, `Percentiles.dfy`,
  `Consumers.dfy`): typed messages to JSON and back, topic names to Kafka and back, lock-free
  minimum, maximum and log throttle, percentiles over a window, and the two consuming nodes.

Findings where the code does less than one might expect, each with its exact condition or a
concrete case:

* Direct sends overtake buffered ones (`Producer.FifoKeptIff`, `Producer.OvertakingHappens`), which a
  caller can rule out beforehand (`Producer.SendSafeIff`).
* A clearing that fails half-way tears the tool table for good, since the container refuses ids it no
  longer has (`TornIsNeverIdle`); `ClearActiveTools` says exactly when it does.
* Two tools on one input topic leak the first one's node (`ToolFleet.SameInputLeaks`); `ApplySelection`
  says exactly when an apply does, and `Controller.FromStart` what holds over runs without it.
* An apply that skips `set_parameters` streams the list its sink was configured for before
  (`ApplyToKafka` says exactly when that is the applied one).
* A sink launched with a blank topic name or type cannot be configured, and the controller sets a list
  only on a configured sink, so an apply that needs it fails (`Ready` in `ApplyToKafka` and
  `ApplySelectionToSink`).
* A send that times out leaves complete frames in the buffer, to wait for more data or for good, so that
  the state depends on how the stream is split (`Connection.IndependenceIff`, `Connection.TimeoutStrands`).
* Answers announce the length of a topic name in characters, so a client reads them exactly when every
  name has as many bytes as characters (`ProduceReplies.ProduceAnswers`, `FetchReplies.FetchAnswers`).
* A fetch cut inside its last partition is answered in part or not at all, depending on how many bytes of
  it are left (`Malformed.CutFetch`); a record with a very negative size is stored empty and the rest of its
  request is lost (`Malformed.NegativeSizeKeeps`).
* A Kafka name with nothing behind `ros2.` returns the prefix unnormalised
  (`TopicNames.EmptySuffixShapeIff`), and names with dots collide (`TopicNames.CollideIff`).
* The floor percentile undershoots for some lists, decided by their length and p alone
  (`Percentiles.FloorCoversIff`).
* A bounded sequence that is not full is read past its end, since its `array_size_` is its bound, and the
  elements of a boolean sequence are read from the sequence object, so that another message may come back
  (`Json.LosslessInMemory`, `Json.LosslessIff`, `Json.BoundedMayForge`, `Json.BooleanMayForge`).

Two branches of the controller are unreachable: the busy replies (`Serve` keeps the phase from ever
being Busy between handlers, which run under one mutex) and the rebuilding of missing sink topics
(`Controller.SinkTopicsNeverMissing`).

## Model

| member | source | states |
|---|---|---|
| `Producer.Conservation` | kafka_bridge/kafka_client/src/kafka_producer.cpp:98-262 | In every interleaving of `send`, drain, reconnect, `start` and `stop`, admitted = sent + errors + dropped + pending + cleared, and the buffer never exceeds its limit |
| `Producer.EveryRun` | kafka_bridge/kafka_client/src/kafka_producer.cpp:98-262 | Every run keeps the whole invariant: each admitted record has exactly one fate, the order clauses, and the lifecycle clauses |
| `Producer.StepKeepsInv` | kafka_bridge/kafka_client/src/kafka_producer.cpp:141-262 | Every atomic step keeps the invariant |
| `Producer.RunKeepsInv` | kafka_bridge/kafka_client/src/kafka_producer.cpp:141-262 | From any good state, every run keeps the invariant |
| `Producer.StepConserves` | kafka_bridge/kafka_client/src/kafka_producer.cpp:141-262 | Every step keeps each record in exactly one place and the counters equal to the histories |
| `Producer.StepKeepsOrder` | kafka_bridge/kafka_client/src/kafka_producer.cpp:153-199 | Every step keeps buffered and direct records in their own order |
| `Producer.StepCoherent` | kafka_bridge/kafka_client/src/kafka_producer.cpp:176-262 | Every step keeps status, producer and thread consistent |
| `Producer.AtMostOnceInOrder` | kafka_bridge/kafka_client/src/kafka_producer.cpp:153-199 | No record is accepted twice; accepted direct records keep call order, accepted buffered ones keep buffering order |
| `Producer.PollThreadSafety` | kafka_bridge/kafka_client/src/kafka_producer.cpp:176-262 | The unlocked poll never dereferences null, and while the thread runs its loop the status is RUNNING exactly when a producer exists and DEGRADED otherwise |
| `Producer.DropModeDrains` | kafka_bridge/kafka_client/src/kafka_producer.cpp:188-199 | With `drop_when_full`, a pass that has a producer empties the buffer |
| `Producer.DropModeStaysEmpty` | kafka_bridge/kafka_client/src/kafka_producer.cpp:155-199 | With `drop_when_full`, a buffer once empty with a producer present stays empty for the rest of the run |
| `Producer.DrainConserves` | kafka_bridge/kafka_client/src/kafka_producer.cpp:188-199 | Draining, whatever librdkafka answers, moves each record from pending to exactly one fate |
| `Producer.DrainKeepsOrder` | kafka_bridge/kafka_client/src/kafka_producer.cpp:188-199 | Draining keeps the order clauses |
| `Producer.DrainEmpties` | kafka_bridge/kafka_client/src/kafka_producer.cpp:189-198 | In drop mode the inner loop always empties the buffer |
| `Producer.DrainIs` | kafka_bridge/kafka_client/src/kafka_producer.cpp:188-199 | What draining does by librdkafka's answers: up to the first queue-full that may not be dropped, or all, the records leave the buffer in order, each to the history and the counter its answer names; nothing else changes |
| `Producer.PassIs` | kafka_bridge/kafka_client/src/kafka_producer.cpp:179-205 | One pass does that after reconnecting; without a producer it only reports DEGRADED, and not running it only exits |
| `Producer.SendIs` | kafka_bridge/kafka_client/src/kafka_producer.cpp:141-174 | What becomes of a record that is sent and what its caller is told, in every case of running, producer, answer, drop mode and room |
| `Producer.StartStopIs` | kafka_bridge/kafka_client/src/kafka_producer.cpp:216-262 | Start and stop step by step: a failed creation ends a strict start as FAILED and leaves a tolerant one running as DEGRADED; stop throws away what is buffered |
| `Producer.FifoKeptIff` | kafka_bridge/kafka_client/src/kafka_producer.cpp:155-172 | Total FIFO order is not kept by the code: a step keeps it exactly when it is not a direct send accepted past a non-empty buffer |
| `Producer.SendSafeIff` | kafka_bridge/kafka_client/src/kafka_producer.cpp:155-172 | What a caller can tell beforehand: a send keeps total order whatever librdkafka answers exactly when not running, without a producer, or with an empty buffer |
| `Producer.OvertakingHappens` | kafka_bridge/kafka_client/src/kafka_producer.cpp:155-172 | A concrete run in which a later record overtakes a buffered one |
| `Producer.ReplyTellsFate` | kafka_bridge/kafka_client/src/kafka_producer.cpp:141-174 | What `send` answers tells exactly which fate the record got |
| `Producer.KafkaProducer.TryProduceLocked` | kafka_bridge/kafka_client/src/kafka_producer.cpp:98-139 | The method carries out the produce step and classifies its answer |
| `Producer.KafkaProducer.SendRecord` | kafka_bridge/kafka_client/src/kafka_producer.cpp:141-174 | The critical section of `send` is the send step and its reply |
| `Producer.KafkaProducer.DrainFront` | kafka_bridge/kafka_client/src/kafka_producer.cpp:190-197 | One turn of the inner loop pops the front exactly when the queue did not stay full |
| `Producer.KafkaProducer.DrainPending` | kafka_bridge/kafka_client/src/kafka_producer.cpp:188-199 | The inner loop is the drain step |
| `Producer.KafkaProducer.PollLoopPass` | kafka_bridge/kafka_client/src/kafka_producer.cpp:179-205 | One pass under the mutex, reconnecting first, is the pass step |
| `Producer.KafkaProducer.PollUnlocked` | kafka_bridge/kafka_client/src/kafka_producer.cpp:201-205 | The stretch without the mutex changes nothing and needs a producer to dereference |
| `Producer.KafkaProducer.StartExchange` | kafka_bridge/kafka_client/src/kafka_producer.cpp:216-223 | The compare-exchange of `start`: only one start gets through |
| `Producer.KafkaProducer.StopExchange` | kafka_bridge/kafka_client/src/kafka_producer.cpp:243-248 | The compare-exchange of `stop`: only one stop gets through |
| `Producer.KafkaProducer.StartLocked` | kafka_bridge/kafka_client/src/kafka_producer.cpp:224-240 | Creating the producer, with the strict and the tolerant failure |
| `Producer.KafkaProducer.StopLocked` | kafka_bridge/kafka_client/src/kafka_producer.cpp:243-262 | After the join `stop` drops the producer and clears the buffer |
| `SinkAccounting.SinkAndProducerAgree` | kafka_bridge/kafka_sink/src/kafka_sink_node.cpp:1022-1162 | In every interleaving of callbacks with the producer, each subscription accounts for all its messages, and with none in flight the producer sent (dropped) what the subscriptions count plus the buffered records sent (dropped) later |
| `SinkAccounting.SinkStepKeepsInv` | kafka_bridge/kafka_sink/src/kafka_sink_node.cpp:1041-1162 | Every step of a callback or of the producer keeps the two layers in agreement |
| `SinkAccounting.SinkRunKeepsInv` | kafka_bridge/kafka_sink/src/kafka_sink_node.cpp:1041-1162 | So does every run |
| `SinkAccounting.SendRoutes` | kafka_bridge/kafka_sink/src/kafka_sink_node.cpp:1137-1162 | A send is classified as sent (dropped) exactly when the producer took (dropped) the record in that call |
| `SinkAccounting.ForwardedSteps` | kafka_bridge/kafka_sink/src/kafka_sink_node.cpp:1116-1162 | A callback that nothing interrupts is three steps of the interleaved machine: counting the message, sending, counting the answer |
| `SinkAccounting.ForwardedIs` | kafka_bridge/kafka_sink/src/kafka_sink_node.cpp:1116-1162 | It counts its message once and the answer once, as sent, dropped or an error by what `send` said |
| `SinkAccounting.JsonFailureIs` | kafka_bridge/kafka_sink/src/kafka_sink_node.cpp:1041-1056 | A message that does not become JSON is one error of its subscription and nothing else |
| `SinkAccounting.SubscriptionRuntime.OnMessage` | kafka_bridge/kafka_sink/src/kafka_sink_node.cpp:1022-1162 | The callback counts a message once: as a JSON failure and not sent, or sent once and its answer counted once |
| `Bytes.FromToBE` | kafka_bridge/kafka_mock_server/scripts/kafka_mock_server_node.py:141-146 | Reading a big-endian field gives the number that was written |
| `Bytes.ToFromBE` | kafka_bridge/kafka_mock_server/scripts/kafka_mock_server_node.py:106-118 | Writing the number read gives the bytes back |
| `Bytes.UnpackPack` | kafka_bridge/kafka_mock_server/scripts/kafka_mock_server_node.py:268-283 | `struct.unpack` inverts `struct.pack` on signed fields |
| `Bytes.ReadFront` | kafka_bridge/kafka_mock_server/scripts/kafka_mock_server_node.py:268-283 | A field written at the cursor is read there, and the cursor then stands at what follows |
| `Bytes.FirstIsHighest` | kafka_bridge/kafka_mock_server/scripts/kafka_mock_server_node.py:141-146 | The first byte of a field is its highest digit |
| `Bytes.TwosComplement` | kafka_bridge/kafka_mock_server/scripts/kafka_mock_server_node.py:268-283 | Signed fields are in two's complement |
| `Bytes.SliceCases` | kafka_bridge/kafka_mock_server/scripts/kafka_mock_server_node.py:300-302 | Slices past the end are clamped and negative bounds count from the end |
| `MockServer.CutIsFaithful` | kafka_bridge/kafka_mock_server/scripts/kafka_mock_server_node.py:106-118 | Frames cut and leftover make up the buffer, in order, and the leftover holds no complete frame |
| `MockServer.CutInvertsJoin` | kafka_bridge/kafka_mock_server/scripts/kafka_mock_server_node.py:106-118 | Whatever frames a client writes are the frames cut |
| `MockServer.CutAppend` | kafka_bridge/kafka_mock_server/scripts/kafka_mock_server_node.py:106-118 | Cutting in two goes is cutting in one |
| `MockServer.AnyMessagesKeepLog` | kafka_bridge/kafka_mock_server/scripts/kafka_mock_server_node.py:138-172 | Over any messages, malformed ones included, the dictionaries stay consistent and logs only grow |
| `MockServer.HandleKeepsLog` | kafka_bridge/kafka_mock_server/scripts/kafka_mock_server_node.py:138-172 | One message of any kind does |
| `Connection.EveryOutcome` | kafka_bridge/kafka_mock_server/scripts/kafka_mock_server_node.py:91-132 | However the stream is split and however each send ends (through, timed out, broken), the frames handled are the first complete frames received, each once and in order; the store is the fold over them, the answers sent are those that went through, and the buffer holds the other complete frames and the rest |
| `Connection.FramesFaithful` | kafka_bridge/kafka_mock_server/scripts/kafka_mock_server_node.py:106-132 | The inner loop keeps that, whatever the outcomes, and ends at the last complete frame or at the first answer that does not go through; the connection ends exactly when that send breaks |
| `Connection.LeftoverIff` | kafka_bridge/kafka_mock_server/scripts/kafka_mock_server_node.py:106-132 | After a receive a complete frame is left in the buffer exactly when, of the frames not handled before, one other than the last has an answer that does not go through |
| `Connection.FirstStop` | kafka_bridge/kafka_mock_server/scripts/kafka_mock_server_node.py:106-132 | A receive handles the frames up to and including the first whose answer does not go through, and no more |
| `Connection.TimeoutStrands` | kafka_bridge/kafka_mock_server/scripts/kafka_mock_server_node.py:94-130 | Two requests in one receive, the answer to the first timed out: the second is not handled though it lies complete in the buffer; received one by one, both are |
| `Connection.IndependenceIff` | kafka_bridge/kafka_mock_server/scripts/kafka_mock_server_node.py:91-132 | Every split of the stream leads to the same store, frames handled, answers and end as one receive, if and only if the first answer not to go through, if any, does not time out with frames still to come |
| `Connection.ChunkingIndependence` | kafka_bridge/kafka_mock_server/scripts/kafka_mock_server_node.py:91-128 | When every answer goes through, all frames of the stream are handled, whatever the split, and only its rest is left in the buffer |
| `Connection.ReceiveTwice` | kafka_bridge/kafka_mock_server/scripts/kafka_mock_server_node.py:91-128 | From any point of a connection, if every answer of the first receive goes through, two receives do what one receive of their concatenation does |
| `Connection.ServerKeepsLog` | kafka_bridge/kafka_mock_server/scripts/kafka_mock_server_node.py:91-172 | From the empty server, whatever was received and however the sends ended, entry i of every log has offset i and every high water mark is the log length |
| `Dispatch.OtherKeys` | kafka_bridge/kafka_mock_server/scripts/kafka_mock_server_node.py:138-173 | Key 3 and key 18 are described, key 1 leaves the store alone, any other key but 0 is answered with the correlation id and no error, and fewer than eight bytes are not answered |
| `Dispatch.ProduceMessage` | kafka_bridge/kafka_mock_server/scripts/kafka_mock_server_node.py:138-165 | A message with key 0 appends to every log exactly the payloads sent to it, and its answer reads as the partitions of the request with their base offsets |
| `Dispatch.FetchMessage` | kafka_bridge/kafka_mock_server/scripts/kafka_mock_server_node.py:138-169 | A message with key 1 changes nothing, and its answer reads as the length of every queried log |
| `Dispatch.OneMessage` | kafka_bridge/kafka_mock_server/scripts/kafka_mock_server_node.py:91-132 | One message in any pieces and with any outcome of its send is handled once, and its answer sent exactly when the send goes through |
| `Dispatch.TwoMessages` | kafka_bridge/kafka_mock_server/scripts/kafka_mock_server_node.py:91-128 | Two messages in any pieces, both sends through, are handled in turn and answered in turn |
| `Dispatch.ProduceThenFetch` | kafka_bridge/kafka_mock_server/scripts/kafka_mock_server_node.py:91-539 | A client that produces and then fetches over one connection, in any pieces, reads for every queried partition the length of its log before plus the number of records it produced there |
| `Malformed.CutRequest` | kafka_bridge/kafka_mock_server/scripts/kafka_mock_server_node.py:261-403 | A produce request cut anywhere inside its last record stores everything before it and is answered as if it had ended there |
| `Malformed.CutRequestStores` | kafka_bridge/kafka_mock_server/scripts/kafka_mock_server_node.py:261-403 | So every log holds what the request sent to it before the cut |
| `Malformed.CutHeads` | kafka_bridge/kafka_mock_server/scripts/kafka_mock_server_node.py:292-357 | Where a topic, a partition or a record is cut, what is kept, and where the cursor stays |
| `Malformed.NegativeSizeKeeps` | kafka_bridge/kafka_mock_server/scripts/kafka_mock_server_node.py:343-413 | A record with a size so negative that the cursor leaves the message is stored empty; what was stored stays, and the answer is the one without topics |
| `Malformed.RoundsAre` | kafka_bridge/kafka_mock_server/scripts/kafka_mock_server_node.py:290-343 | Loop counts: none for a count that is not positive, at most 100, 100 and 1000 |
| `Malformed.CutFetch` | kafka_bridge/kafka_mock_server/scripts/kafka_mock_server_node.py:422-539 | A fetch cut inside its last partition is answered with the reports before it, unless 8 to 11 bytes of that partition are left: then not at all |
| `MockServer.MockServer.StoreRecord` | kafka_bridge/kafka_mock_server/scripts/kafka_mock_server_node.py:343-372 | One turn of the record loop, with all its early exits, is the record step |
| `MockServer.MockServer.StoreRecords` | kafka_bridge/kafka_mock_server/scripts/kafka_mock_server_node.py:343-377 | The record loop is the recursive reader |
| `MockServer.MockServer.StorePartition` | kafka_bridge/kafka_mock_server/scripts/kafka_mock_server_node.py:321-394 | One turn of the partition loop is the partition step |
| `MockServer.MockServer.AnswerPartition` | kafka_bridge/kafka_mock_server/scripts/kafka_mock_server_node.py:379-394 | The partition answer is assembled field by field, by version |
| `MockServer.MockServer.StorePartitions` | kafka_bridge/kafka_mock_server/scripts/kafka_mock_server_node.py:321-394 | The partition loop is the recursive reader |
| `MockServer.MockServer.StoreTopic` | kafka_bridge/kafka_mock_server/scripts/kafka_mock_server_node.py:290-394 | One turn of the topic loop is the topic step |
| `MockServer.MockServer.StoreTopics` | kafka_bridge/kafka_mock_server/scripts/kafka_mock_server_node.py:290-394 | The topic loop is the recursive reader |
| `MockServer.MockServer.CreateProduceResponse` | kafka_bridge/kafka_mock_server/scripts/kafka_mock_server_node.py:261-413 | The method does what the specification of a produce request says, including its fallback answers |
| `MockServer.MockServer.FetchPartition` | kafka_bridge/kafka_mock_server/scripts/kafka_mock_server_node.py:485-532 | One turn of the fetch partition loop |
| `MockServer.MockServer.FetchPartitions` | kafka_bridge/kafka_mock_server/scripts/kafka_mock_server_node.py:485-532 | The fetch partition loop is the recursive reader |
| `MockServer.MockServer.FetchTopic` | kafka_bridge/kafka_mock_server/scripts/kafka_mock_server_node.py:459-532 | One turn of the fetch topic loop |
| `MockServer.MockServer.FetchAllTopics` | kafka_bridge/kafka_mock_server/scripts/kafka_mock_server_node.py:459-532 | The fetch topic loop is the recursive reader |
| `MockServer.MockServer.CreateFetchResponse` | kafka_bridge/kafka_mock_server/scripts/kafka_mock_server_node.py:422-539 | The method answers what the specification of a fetch says and changes nothing |
| `MockServer.MockServer.HandleKafkaMessage` | kafka_bridge/kafka_mock_server/scripts/kafka_mock_server_node.py:138-173 | Dispatch by API key |
| `MockServer.MockServer.DrainBuffer` | kafka_bridge/kafka_mock_server/scripts/kafka_mock_server_node.py:106-132 | The inner loop handles the complete frames in order and stops behind one whose answer times out or breaks the connection, as the specification of a receive says |
| `MockServer.MockServer.HandleClient` | kafka_bridge/kafka_mock_server/scripts/kafka_mock_server_node.py:88-136 | A connection is its receives in turn, up to the end of the stream or a broken send, as the specification of a connection says |
| `MockStore.AppendKeeps` | kafka_bridge/kafka_mock_server/scripts/kafka_mock_server_node.py:363-372 | Appending keeps every log consistent and only lengthens one |
| `MockStore.AppendFacts` | kafka_bridge/kafka_mock_server/scripts/kafka_mock_server_node.py:363-372 | Appending adds exactly one entry, at the old length, to exactly one log |
| `MockStore.AddTopicKeeps` | kafka_bridge/kafka_mock_server/scripts/kafka_mock_server_node.py:304-307 | Adding a topic changes no log |
| `MockStore.AddPartitionKeeps` | kafka_bridge/kafka_mock_server/scripts/kafka_mock_server_node.py:328-331 | Adding a partition changes no log |
| `Produce.ProduceKeepsLog` | kafka_bridge/kafka_mock_server/scripts/kafka_mock_server_node.py:261-413 | However malformed or truncated, a produce request keeps the dictionaries consistent and logs only grow |
| `Produce.RecordsKeepLog` | kafka_bridge/kafka_mock_server/scripts/kafka_mock_server_node.py:343-372 | The record loop does, for every partition at once |
| `Produce.TopicsKeepLog` | kafka_bridge/kafka_mock_server/scripts/kafka_mock_server_node.py:290-394 | The topic loop does |
| `Produce.ProduceCapped` | kafka_bridge/kafka_mock_server/scripts/kafka_mock_server_node.py:290-343 | Whatever counts it announces, a request adds at most 100 times 100 times 1000 records |
| `ProduceRoundTrip.ProduceInverts` | kafka_bridge/kafka_mock_server/scripts/kafka_mock_server_node.py:261-403 | For any request tree within the loop caps, any transactional id and any version, the parser stores exactly the tree and assembles the answers of its partitions in turn |
| `ProduceRoundTrip.ProduceStores` | kafka_bridge/kafka_mock_server/scripts/kafka_mock_server_node.py:261-403 | So every log grows by exactly the payloads sent to it, in order |
| `ProduceRoundTrip.StoreTopicsEffect` | kafka_bridge/kafka_mock_server/scripts/kafka_mock_server_node.py:290-372 | What storing a request tree does to each log: its payloads appended in order |
| `ProduceRoundTrip.TopicsInvert` | kafka_bridge/kafka_mock_server/scripts/kafka_mock_server_node.py:290-394 | The topic loop inverts its wire format |
| `ProduceRoundTrip.PartitionsInvert` | kafka_bridge/kafka_mock_server/scripts/kafka_mock_server_node.py:321-394 | The partition loop inverts its wire format |
| `ProduceRoundTrip.RecordsInvert` | kafka_bridge/kafka_mock_server/scripts/kafka_mock_server_node.py:343-372 | The record loop inverts its wire format |
| `ProduceRoundTrip.BodyReached` | kafka_bridge/kafka_mock_server/scripts/kafka_mock_server_node.py:264-283 | The header, with or without a transactional id, leads the cursor to the topics |
| `Replies.TopicsRead` | kafka_bridge/kafka_mock_server/scripts/kafka_mock_server_node.py:286-315 | A client reads the list of topics it was sent exactly when every name has as many bytes as characters, since its length is announced in characters |
| `ProduceReplies.ProduceAnswers` | kafka_bridge/kafka_mock_server/scripts/kafka_mock_server_node.py:261-413 | A client that reads the answer to any such request finds the correlation id, and every topic and partition in order, without error and with the length of its log before its first record, exactly when every name has as many bytes as characters |
| `ProduceReplies.ReplyAt` | kafka_bridge/kafka_mock_server/scripts/kafka_mock_server_node.py:343-394 | The base offset of a partition is the length of its log before the request plus the records the request sent there earlier |
| `ProduceReplies.ShortRequests` | kafka_bridge/kafka_mock_server/scripts/kafka_mock_server_node.py:264-285 | A request too short for its topic count gets no answer, one too short for its transactional id an answer without topics; neither stores anything |
| `Fetch.FetchReports` | kafka_bridge/kafka_mock_server/scripts/kafka_mock_server_node.py:422-535 | For any fetch request within the caps the answer is the head and the reports of the queried partitions in turn |
| `Fetch.MarkIsLength` | kafka_bridge/kafka_mock_server/scripts/kafka_mock_server_node.py:508-513 | On consistent dictionaries the high water mark is the log length, 0 for an unknown partition |
| `Fetch.PartsReported` | kafka_bridge/kafka_mock_server/scripts/kafka_mock_server_node.py:485-532 | The partition loop reports each queried partition in order |
| `FetchReplies.FetchLaidOut` | kafka_bridge/kafka_mock_server/scripts/kafka_mock_server_node.py:422-462 | The fields of an encoded fetch request stand where the server reads them |
| `FetchReplies.FetchAnswers` | kafka_bridge/kafka_mock_server/scripts/kafka_mock_server_node.py:422-539 | A client that reads the answer to any fetch request within the caps finds the correlation id, and every queried partition in order with the length of its log as high water mark, exactly when every name has as many bytes as characters |
| `TopicPlan.DefaultNodeNameIsSegment` | dispatcher_controller/src/dispatcher_controller_node.cpp:20-41 | A default node name is one non-empty path segment that does not start with an underscore |
| `TopicPlan.DefaultOutputDiffers` | dispatcher_controller/src/dispatcher_controller_node.cpp:43-54 | By default a tool never publishes onto its own input |
| `TopicPlan.BuildTopicToolsPlan` | dispatcher_controller/src/dispatcher_controller_node.cpp:951-1013 | The loop builds the plan the specification says, or stops at the first bad entry |
| `TopicPlan.ResolveTool` | dispatcher_controller/src/dispatcher_controller_node.cpp:972-1006 | Names, types and parameters left out take their defaults |
| `TopicPlan.CompleteParams` | dispatcher_controller/src/dispatcher_controller_node.cpp:978-993 | `input_topic` and `output_topic` are added exactly when missing |
| `TopicPlan.PlanFailsIff` | dispatcher_controller/src/dispatcher_controller_node.cpp:957-970 | Planning fails exactly when an entry has no name or an enabled tool has no plugin |
| `TopicPlan.PlanPositions` | dispatcher_controller/src/dispatcher_controller_node.cpp:951-1013 | Sink topics stand position by position for the entries, and the tools are those of the enabled entries in order |
| `TopicPlan.ToolKnowsItsTopics` | dispatcher_controller/src/dispatcher_controller_node.cpp:972-1009 | Every tool is told its topics after the configured parameters, the sink reads its output, and it loops back only when configured to |
| `TopicPlan.ToolFields` | dispatcher_controller/src/dispatcher_controller_node.cpp:972-1009 | What a tool is loaded with, field by field: the configuration, and the defaults where it is silent; its topics as parameters exactly where none are given; and the sink reads its output under its output type |
| `TopicPlan.PlainSinkTopic` | dispatcher_controller/src/dispatcher_controller_node.cpp:962-1010 | An entry without an enabled tool reaches the sink as it is |
| `TopicPlan.DefaultOutputIs` | dispatcher_controller/src/dispatcher_controller_node.cpp:43-54 | The default output is the topic below the node name |
| `TopicPlan.DefaultNodeNameIs` | dispatcher_controller/src/dispatcher_controller_node.cpp:33-41 | The default node name is the class name behind the last colon and the topic, joined by underscores |
| `TopicPlan.NamelessTopic` | dispatcher_controller/src/dispatcher_controller_node.cpp:24-29 | A name of nothing but slashes and underscores becomes "topic" |
| `TopicPlan.FirstError` | dispatcher_controller/src/dispatcher_controller_node.cpp:957-970 | The first entry that fails decides the error |
| `TopicPlan.CompletedPlans` | dispatcher_controller/src/dispatcher_controller_node.cpp:951-970 | Filling in types does not decide whether a selection can be planned |
| `TopicPlan.InferMissingTypes` | dispatcher_controller/src/dispatcher_controller_node.cpp:1315-1398 | Types are filled in all or nothing: success exactly when none is missing or every missing name was reported, the last report counting; nothing else changes |
| `TopicPlan.TypableIff` | dispatcher_controller/src/dispatcher_controller_node.cpp:1315-1370 | Types can be filled in exactly when none is missing, or the reply's last mention of each name without a type has one |
| `TopicPlan.DiscoverAllTopics` | dispatcher_controller/src/dispatcher_controller_node.cpp:1266-1313 | Discovery keeps exactly the reported topics that pass the filters, in order, or fails above the limit |
| `TopicPlan.DiscoveredOne` | dispatcher_controller/src/dispatcher_controller_node.cpp:1287-1306 | A topic is left out exactly when it is hidden, denied, missing on a non-empty allow list, or starts with an underscore |
| `TopicPlan.DiscoveredAppend` | dispatcher_controller/src/dispatcher_controller_node.cpp:1287-1306 | Topics are filtered one by one, in order |
| `TopicPlan.TrimIsExact` | kafka_bridge/kafka_sink/src/kafka_sink_node.cpp:417-439 | Trimming removes white space at both ends and nothing else |
| `TopicPlan.SpacesTrimmed` | kafka_bridge/kafka_sink/src/kafka_sink_node.cpp:417-439 | The white space that is trimmed |
| `TopicPlan.TrimAllAt` | kafka_bridge/kafka_sink/src/kafka_sink_node.cpp:410-442 | Names and types are trimmed entry by entry |
| `TopicPlan.AcceptsIff` | kafka_bridge/kafka_sink/src/kafka_sink_node.cpp:439-442 | A list is accepted exactly when no name or type is nothing but white space |
| `TopicPlan.ParseSubscriptions` | kafka_bridge/kafka_sink/src/kafka_sink_node.cpp:381-441 | A list is taken exactly when no name or type is blank, and then trimmed entry by entry |
| `TopicPlan.TrimmedListsSurvive` | kafka_bridge/kafka_sink/src/kafka_sink_node.cpp:419-442 | A trimmed list reaches the sink unchanged |
| `RemoteNodes.SinkNode.OnParametersSet` | kafka_bridge/kafka_sink/src/kafka_sink_node.cpp:633-750 | Subscriptions are refused while active ("deactivate first") or when blank, and otherwise committed as parsed; the parameter itself is stored exactly when nothing else is refused |
| `RemoteNodes.SinkNode.ChangeState` | kafka_bridge/kafka_sink/src/kafka_sink_node.cpp:515-580 | A transition is taken from its source state only, configuring only with a list the sink accepts, and a failed one never leaves the sink active |
| `RemoteNodes.SinkNode.OnConfigure` | kafka_bridge/kafka_sink/src/kafka_sink_node.cpp:515-533 | Configuration succeeds exactly when no name or type of the stored list is blank and no other parameter is refused, and takes the list trimmed; otherwise the sink stays unconfigured |
| `RemoteNodes.SinkNode.OnActivate` | kafka_bridge/kafka_sink/src/kafka_sink_node.cpp:535-561 | Activation succeeds exactly when the producer starts and every subscription is made, and then subscribes to exactly the configured list; a subscription that throws finalizes the sink |
| `RemoteNodes.Container.LoadNode` | dispatcher_controller/src/dispatcher_controller_node.cpp:1045-1081 | A load that succeeds adds one node under a new id |
| `RemoteNodes.Container.UnloadNode` | dispatcher_controller/src/dispatcher_controller_node.cpp:1083-1106 | An unload succeeds exactly when the id is loaded |
| `ToolFleet.RecordedKeepsOk` | dispatcher_controller/src/dispatcher_controller_node.cpp:1021-1027 | Recording a load keeps every node tracked or leaked, never both |
| `ToolFleet.RecordedRuns` | dispatcher_controller/src/dispatcher_controller_node.cpp:1021-1027 | Recording the next tool of a plan runs the plan one tool further |
| `ToolFleet.LostLoadKeepsOk` | dispatcher_controller/src/dispatcher_controller_node.cpp:1062-1067 | So does a load whose answer is lost |
| `ToolFleet.UnloadedKeepsOk` | dispatcher_controller/src/dispatcher_controller_node.cpp:1032-1041 | An unload while the table stands tears the table |
| `ToolFleet.ClearedKeepsOk` | dispatcher_controller/src/dispatcher_controller_node.cpp:1041-1042 | The table may be emptied once every tracked node is gone |
| `ToolFleet.SameInputLeaks` | dispatcher_controller/src/dispatcher_controller_node.cpp:1026 | Two tools with one input topic: the first one's node is leaked |
| `ToolFleet.DistinctPlanRunsWhole` | dispatcher_controller/src/dispatcher_controller_node.cpp:1015-1030 | With distinct inputs every tool of the plan has its own entry |
| `ToolFleet.RunsMeans` | dispatcher_controller/src/dispatcher_controller_node.cpp:1015-1030 | That tools run means: for each input topic the last tool that reads it has its node in the container, and the table has no other entry |
| `ToolFleet.WholePlanIsDistinct` | dispatcher_controller/src/dispatcher_controller_node.cpp:1015-1030 | Only with distinct inputs does every tool of a plan have its own entry |
| `ToolFleet.InputsDistinctIff` | dispatcher_controller/src/dispatcher_controller_node.cpp:1003 | The tools of a selection have distinct inputs exactly when its entries with an enabled tool have distinct names |
| `ToolFleet.PlanInputs` | dispatcher_controller/src/dispatcher_controller_node.cpp:676-691 | The same of the plan of a selection with types filled in |
| `Controller.DispatcherController.ApplySelection` | dispatcher_controller/src/dispatcher_controller_node.cpp:671-751 | Success means the whole remote world is as applied; failure leaves the applied selection; without remote faults a streamable selection always succeeds and reaches both sinks, unless a sink is finalized or was launched with a list it does not accept, and with such a Kafka sink it never succeeds; a sink that could not be told streams its earlier list; and success costs a table entry exactly when two enabled tools share a name |
| `Controller.DispatcherController.StaleListMayDiffer` | dispatcher_controller/src/dispatcher_controller_node.cpp:891-896 | A concrete apply that cannot set its list and streams another one |
| `Controller.DispatcherController.PrepareApply` | dispatcher_controller/src/dispatcher_controller_node.cpp:671-694 | The checks before anything remote changes: without faults they pass exactly when there is a topic, types can be filled in where topics are validated, and the selection can be planned |
| `Controller.DispatcherController.ApplyToKafka` | dispatcher_controller/src/dispatcher_controller_node.cpp:696-731 | Deactivate, configure, reconcile, set and activate: afterwards the plan's tools run, and Kafka's sink streams the plan's list exactly when it was told or stood configured for that list before |
| `Controller.DispatcherController.ApplyRemote` | dispatcher_controller/src/dispatcher_controller_node.cpp:696-737 | Everything remote in an apply, both sinks and the tools |
| `Controller.DispatcherController.ApplySelectionToSink` | dispatcher_controller/src/dispatcher_controller_node.cpp:753-806 | The second sink streams the list exactly when told or configured for it before, unless skipped as the settings allow, and then it is untouched; without faults it always does |
| `Controller.DispatcherController.TellAndActivate` | dispatcher_controller/src/dispatcher_controller_node.cpp:793-803 | The end of an apply: set the list, activate; a sink not told streams what it was configured for |
| `Controller.DispatcherController.DeactivateSink` | dispatcher_controller/src/dispatcher_controller_node.cpp:808-829 | A reached sink ends inactive; without faults it always succeeds |
| `Controller.DispatcherController.GetSinkState` | dispatcher_controller/src/dispatcher_controller_node.cpp:831-853 | An answer is the truth, and comes exactly when the call is answered without trouble |
| `Controller.DispatcherController.Ask` | dispatcher_controller/src/dispatcher_controller_node.cpp:831-853 | Each remote call has its outcome, and counts as a fault unless it was answered without trouble |
| `Controller.DispatcherController.ChangeSinkState` | dispatcher_controller/src/dispatcher_controller_node.cpp:855-883 | Success means the transition was taken; a lost answer leaves it taken or not |
| `Controller.DispatcherController.SetSinkSubscriptions` | dispatcher_controller/src/dispatcher_controller_node.cpp:885-926 | Success means the list is configured, or the service was unavailable, that is allowed, and the configured list is as before |
| `Controller.DispatcherController.LoadAndActivateTool` | dispatcher_controller/src/dispatcher_controller_node.cpp:1045-1081 | Success, exactly when the call is answered without trouble, adds one untracked node; only a load left without an answer may leave one for good |
| `Controller.DispatcherController.LoadTool` | dispatcher_controller/src/dispatcher_controller_node.cpp:1021-1027 | A load recorded, or the books kept |
| `Controller.DispatcherController.UnloadTool` | dispatcher_controller/src/dispatcher_controller_node.cpp:1083-1106 | Success means the node was there, the call was answered, and the node is gone; a call that times out may have taken effect |
| `Controller.DispatcherController.ClearActiveTools` | dispatcher_controller/src/dispatcher_controller_node.cpp:1032-1043 | Success means every tracked node was there and is gone; a torn table is never cleared, and without faults only a torn one is not; a clearing that fails tears the table exactly when some tool is gone by then |
| `Controller.DispatcherController.ReconcileTools` | dispatcher_controller/src/dispatcher_controller_node.cpp:1015-1030 | Success means the plan's tools run, every load was answered, and as many entries were overwritten as the plan has more tools than inputs, none exactly when these are distinct |
| `Controller.DispatcherController.ApplyNow` | dispatcher_controller/src/dispatcher_controller_node.cpp:367-387 | Busy during an apply, then Idle or Error by its outcome |
| `Controller.DispatcherController.HandleApplySelection` | dispatcher_controller/src/dispatcher_controller_node.cpp:325-388 | On success cache and applied selection are the requested topics with types completed; on failure neither changed; the phase changes exactly when the request is typed and within the limit, outside Busy and in the GUI mode; without faults a streamable one within the limit succeeds |
| `Controller.DispatcherController.RefreshFile` | dispatcher_controller/src/dispatcher_controller_node.cpp:405-432 | The file is cached exactly when there is a path, it can be read, typed and planned, as it is or with missing types filled in; otherwise the cache stays |
| `Controller.DispatcherController.RefreshAll` | dispatcher_controller/src/dispatcher_controller_node.cpp:433-451 | The discovered topics are cached exactly when introspection answers and they are within the limit and can be planned; otherwise the cache stays |
| `Controller.DispatcherController.SelectionFor` | dispatcher_controller/src/dispatcher_controller_node.cpp:608-646 | What each mode applies, and exactly when there is something to apply; the other caches stay |
| `Controller.DispatcherController.RefreshAndApply` | dispatcher_controller/src/dispatcher_controller_node.cpp:405-493 | What a reload and a mode switch share: without an apply they succeed exactly when the mode's selection is available and within the limit; with one, that is when an apply runs and decides the phase, and without faults a streamable selection is applied |
| `Controller.DispatcherController.HandleReloadSelection` | dispatcher_controller/src/dispatcher_controller_node.cpp:390-497 | A reload takes the given path or the stored one; it caches what is available, succeeds without an apply exactly when that is within the limit, and with one applies it, without faults always when it can be streamed |
| `Controller.DispatcherController.HandleStopStreaming` | dispatcher_controller/src/dispatcher_controller_node.cpp:499-552 | Success leaves nothing applied and phase Idle, caches reset only on request; without faults it fails only on a torn table |
| `Controller.DispatcherController.StopRemote` | dispatcher_controller/src/dispatcher_controller_node.cpp:510-541 | Both sinks quiet and no tool left, or failure |
| `Controller.DispatcherController.RecordStop` | dispatcher_controller/src/dispatcher_controller_node.cpp:542-551 | The stop is recorded |
| `Controller.DispatcherController.SwitchMode` | dispatcher_controller/src/dispatcher_controller_node.cpp:592-669 | The mode and a given path are stored even when the apply fails; switching without an apply, or to an empty GUI cache, always succeeds; otherwise the mode's selection is applied exactly as in a reload |
| `Controller.DispatcherController.StoreMode` | dispatcher_controller/src/dispatcher_controller_node.cpp:600-605 | The mode and a path that is not empty are stored |
| `Controller.DispatcherController.HandleSetSelectionMode` | dispatcher_controller/src/dispatcher_controller_node.cpp:299-323 | "gui", "file" and "all" set their modes and any other text changes nothing; then as a switch |
| `Controller.DispatcherController.OnParamChange` | dispatcher_controller/src/dispatcher_controller_node.cpp:255-297 | A batch without a mode, or with an unknown one, changes nothing; otherwise its last mode, path and flag decide the switch, and path and flag are stored when that succeeds |
| `Controller.DispatcherController.ScanBatch` | dispatcher_controller/src/dispatcher_controller_node.cpp:265-285 | The loop finds the last mode, path and flag, and fails on an unknown mode |
| `Controller.LastsAre` | dispatcher_controller/src/dispatcher_controller_node.cpp:265-285 | A later change of the same kind wins, and without one what was there before stays |
| `Controller.DispatcherController.OnStartupTimer` | dispatcher_controller/src/dispatcher_controller_node.cpp:219-252 | The startup apply runs at most once, in file mode only, with the stored path; without faults a file that can be read, typed, planned and streamed within the limit is applied |
| `Controller.DispatcherController.HandleGetStatus` | dispatcher_controller/src/dispatcher_controller_node.cpp:554-590 | The status shows the applied sink topics, and streaming only when a named sink is active |
| `Controller.DispatcherController.Serve` | dispatcher_controller/src/dispatcher_controller_node.cpp:255-669 | Over any requests every handler keeps what Idle means, the caches coherent and within their limits, and finds the phase never Busy; a torn table stays torn, and no entry is overwritten while no selection file repeats a tool input |
| `Controller.DispatcherController.constructor` | dispatcher_controller/src/dispatcher_controller_node.cpp:122-253 | The controller starts Idle with nothing cached, applied or leaked, whatever the sinks do and the container holds, and arms its timer exactly in file mode with automatic apply and a path |
| `Controller.DispatcherController.IdleStreams` | dispatcher_controller/src/dispatcher_controller_node.cpp:671-751 | Idle with a selection applied: Kafka's sink is active, with exactly the applied list, trimmed, unless setting it was skipped; the second sink likewise unless skipped or unnamed; and for each input topic of the plan the last tool reading it runs in the container, and no other is tracked |
| `Controller.DispatcherController.StreamsPlain` | dispatcher_controller/src/dispatcher_controller_node.cpp:671-751 | After an apply of topics without tools that reached both sinks, both stream exactly these, trimmed |
| `Controller.DispatcherController.IdleStreamsExactly` | dispatcher_controller/src/dispatcher_controller_node.cpp:671-751 | With both sinks named and required and trimmed names, both are active with exactly the applied list |
| `Controller.DispatcherController.IdleIsQuiet` | dispatcher_controller/src/dispatcher_controller_node.cpp:499-552 | Idle with nothing applied: no tool tracked, and no sink active that was reached |
| `Controller.DispatcherController.TornIsNeverIdle` | dispatcher_controller/src/dispatcher_controller_node.cpp:1032-1043 | A table torn by a half-done clearing never sees Idle again |
| `Controller.DispatcherController.NoToolLeaks` | dispatcher_controller/src/dispatcher_controller_node.cpp:1015-1106 | In every phase each node the controller loaded that still runs is tracked, but for as many as loads were lost and entries overwritten; in Idle every tracked node runs |
| `Controller.FromStart` | dispatcher_controller/src/dispatcher_controller_node.cpp:255-1106 | Over any requests from the start: if every load request was answered and no selection file names two enabled tools alike, every node the controller loaded that still runs is in its table, in every phase; in Idle all of the table runs |
| `Controller.StartupApplies` | dispatcher_controller/src/dispatcher_controller_node.cpp:219-252 | Launched in file mode with a readable, typed file, usable sinks and no fault, the controller is Idle once its timer has fired, with the file's topics cached and applied and both sinks streaming exactly these |
| `Controller.PlainStreamable` | dispatcher_controller/src/dispatcher_controller_node.cpp:951-1013 | Topics without tools can be streamed as soon as there is one and no name or type is blank |
| `Controller.NoToolsRequests` | dispatcher_controller/src/dispatcher_controller_node.cpp:1015-1030 | Requests whose file has no tools repeat no tool input |
| `Controller.SinkTopicsNeverMissing` | dispatcher_controller/src/dispatcher_controller_node.cpp:463-472 | The branches that rebuild missing sink topics are never taken |
| `Json.LosslessInMemory` | kafka_bridge/kafka_sink/src/kafka_sink_node.cpp:108-221 | Whatever stray reads find, a message comes back from its JSON exactly when its floats are finite, its types supported, every read past an end finds a null pointer, and the bits read for a boolean sequence are as many as its elements and equal to them |
| `Json.LosslessIff` | kafka_bridge/kafka_sink/src/kafka_sink_node.cpp:108-221 | A message comes back from its JSON whatever stray reads find exactly when its floats are finite, its types supported, its bounded sequences full and its boolean sequences empty |
| `Json.WellReadLossless` | kafka_bridge/kafka_sink/src/kafka_sink_node.cpp:108-221 | Where every element is read where it stands, it comes back exactly when floats are finite and types supported, and otherwise decoding fails |
| `Json.StraysIff` | kafka_bridge/kafka_sink/src/kafka_sink_node.cpp:181-211 | A read goes astray exactly when some bounded sequence is not full or some boolean sequence has elements |
| `Json.Misread` | kafka_bridge/kafka_sink/src/kafka_sink_node.cpp:190-209 | A message with a stray read does not come back in some memory |
| `Json.PrefixSurvives` | kafka_bridge/kafka_sink/src/kafka_sink_node.cpp:190-209 | Whatever stands past its end, what is decoded of a sequence starts with its elements and keeps to its bound |
| `Json.NullPointersHarmless` | kafka_bridge/kafka_sink/src/kafka_sink_node.cpp:206-208 | Where the reads past the end find null pointers, nothing is lost |
| `Json.BoundedMayForge` | kafka_bridge/kafka_sink/src/kafka_sink_node.cpp:190-209 | An `int32[<=2]` holding [1] comes back as [1, 0] when a zero follows it |
| `Json.BooleanMayForge` | kafka_bridge/kafka_sink/src/kafka_sink_node.cpp:196-204 | A `bool[]` holding [true] comes back as [false] when its object starts with a zero |
| `Json.FieldsLossless` | kafka_bridge/kafka_sink/src/kafka_sink_node.cpp:108-119 | Well-read fields come back exactly when all are kept |
| `Json.FieldLossless` | kafka_bridge/kafka_sink/src/kafka_sink_node.cpp:213-221 | The same for one field, scalar or array |
| `Json.ItemsLossless` | kafka_bridge/kafka_sink/src/kafka_sink_node.cpp:181-211 | The same for the elements of an array, length and order kept |
| `Json.ItemsInOrder` | kafka_bridge/kafka_cdr_to_json/src/kafka_cdr_to_json_node.cpp:210-238 | Item i of the JSON array is built from element i |
| `Json.BuildJsonMessage` | kafka_bridge/kafka_cdr_to_json/src/kafka_cdr_to_json_node.cpp:137-148 | The loop builds one entry per member |
| `Json.BuildJsonArray` | kafka_bridge/kafka_cdr_to_json/src/kafka_cdr_to_json_node.cpp:210-238 | The loop reads as many elements as `array_size_` says, counting those read from elsewhere |
| `Json.BuildJsonScalar` | kafka_bridge/kafka_cdr_to_json/src/kafka_cdr_to_json_node.cpp:150-208 | Each field type maps as the specification says, a non-finite float to null |
| `Json.NullScalars` | kafka_bridge/kafka_cdr_to_json/src/kafka_cdr_to_json_node.cpp:150-208 | Non-finite floats and unsupported types become null |
| `Json.BuildJsonValue` | kafka_bridge/kafka_cdr_to_json/src/kafka_cdr_to_json_node.cpp:240-248 | Array or scalar by the member |
| `Json.OtherKeyIgnored` | kafka_bridge/kafka_sink/src/kafka_sink_node.cpp:314-315 | A key that is no member changes no decoding |
| `Json.EnvelopeKeepsMessage` | kafka_bridge/kafka_sink/src/kafka_sink_node.cpp:295-318 | The latency envelope changes no decoding, and fails exactly when a stamp is there and not made of numbers |
| `Json.EnvelopeIs` | kafka_bridge/kafka_sink/src/kafka_sink_node.cpp:300-316 | What stands under `_ts`: the broker time always, and the stamp in nanoseconds when the message has one made of integers that is not zero |
| `Json.StampFieldIs` | kafka_bridge/kafka_sink/src/kafka_sink_node.cpp:303-308 | The stamp is looked for at `header.stamp` |
| `Json.Int64Is` | kafka_bridge/kafka_sink/src/kafka_sink_node.cpp:309-310 | Integers are taken as signed 64-bit ones, larger ones wrapping |
| `Json.AnnotationsKeepMessage` | kafka_bridge/kafka_cdr_to_json/src/kafka_cdr_to_json_node.cpp:306-316 | Type name and Kafka timestamp change no decoding |
| `Json.AnnotationsAre` | kafka_bridge/kafka_cdr_to_json/src/kafka_cdr_to_json_node.cpp:306-316 | What stands under `__ros_type` and `__kafka_timestamp_ms`, and that no other key changes |
| `Json.StampReachesEnvelope` | kafka_bridge/kafka_sink/src/kafka_sink_node.cpp:300-315 | A non-zero stamp reaches the envelope as its nanoseconds, within 64 bits; the broker time always does |
| `TopicNames.RoundTrip` | kafka_bridge/kafka_source/src/kafka_source_node.cpp:614-661 | Through the sink's map with prefix `ros2` and back, a well-formed name comes back behind the source's cleaned prefix |
| `TopicNames.CleanPrefixIs` | kafka_bridge/kafka_source/src/kafka_source_node.cpp:614-661 | A well-formed prefix is used as it is, also without its leading slash or with a trailing one |
| `TopicNames.DerivedFromNothing` | kafka_bridge/kafka_source/src/kafka_source_node.cpp:626-640 | With nothing behind `ros2.` the prefix is the name, or the root |
| `TopicNames.MapIs` | kafka_bridge/kafka_sink/src/kafka_sink_node.cpp:935-955 | The sink's names: the fixed one, or the dotted ROS name behind the prefix and one dot |
| `TopicNames.Injective` | kafka_bridge/kafka_sink/src/kafka_sink_node.cpp:935-955 | The sink's map is injective on well-formed names, whatever the prefix |
| `TopicNames.CollideIff` | kafka_bridge/kafka_sink/src/kafka_sink_node.cpp:935-955 | Two names share a Kafka topic exactly when the mapping is fixed or they agree with slashes read as dots |
| `TopicNames.DotsCollide` | kafka_bridge/kafka_sink/src/kafka_sink_node.cpp:935-955 | Names with dots do collide |
| `TopicNames.DerivedShape` | kafka_bridge/kafka_source/src/kafka_source_node.cpp:638-661 | A non-empty suffix derives a name with a leading slash, no double slash and no trailing slash |
| `TopicNames.EmptySuffixShapeIff` | kafka_bridge/kafka_source/src/kafka_source_node.cpp:630-637 | With an empty suffix the name is well-shaped exactly when the configured prefix has no double slash, "//" itself aside |
| `TopicNames.EmptySuffixBreaksShape` | kafka_bridge/kafka_source/src/kafka_source_node.cpp:630-637 | A concrete prefix for which it is not |
| `TopicNames.CollapsePrefix` | kafka_bridge/kafka_source/src/kafka_source_node.cpp:646-658 | Collapsing slashes before a well-formed name leaves the name alone |
| `TopicNames.EscapeRoundTrip` | kafka_bridge/kafka_source/src/kafka_source_node.cpp:73-111 | Escaped text is the body of a JSON string that reads back as the text (section 7 of RFC 8259) |
| `TopicNames.EscapeInjective` | kafka_bridge/kafka_source/src/kafka_source_node.cpp:73-111 | Escaping is injective |
| `TopicNames.EscapesAre` | kafka_bridge/kafka_source/src/kafka_source_node.cpp:73-111 | Which characters are escaped, and how |
| `TopicNames.JsonEscape` | kafka_bridge/kafka_source/src/kafka_source_node.cpp:73-111 | The loop escapes character by character |
| `AtomicStats.NoUpdateLost` | kafka_bridge/kafka_sink/src/kafka_sink_node.cpp:1069-1092 | In every interleaving, with spurious failures and stale loads, the cell only improves, holds a presented value and is at least as good as every finished callback's |
| `AtomicStats.QuiescentIsExact` | kafka_bridge/kafka_sink/src/kafka_sink_node.cpp:1069-1092 | With no callback under way the cell holds exactly the maximum (minimum) of all values |
| `AtomicStats.StepKeepsOk` | kafka_bridge/kafka_sink/src/kafka_sink_node.cpp:1069-1092 | Every load and exchange keeps the cell's invariant and its past |
| `AtomicStats.AttemptIs` | kafka_bridge/kafka_sink/src/kafka_sink_node.cpp:1069-1092 | An exchange that finds the value it holds and does not fail for no reason stores a better value and finishes; one that does not goes on with what it saw; a value no better finishes without a store |
| `AtomicStats.RunKeepsOk` | kafka_bridge/kafka_sink/src/kafka_sink_node.cpp:1142-1147 | So does every run |
| `AtomicStats.RateLimited` | kafka_bridge/kafka_sink/src/kafka_sink_node.cpp:1164-1167 | Any two callbacks that win the exchange have clock readings a second apart, and the deadline rises on each win |
| `AtomicStats.StaleLoses` | kafka_bridge/kafka_sink/src/kafka_sink_node.cpp:1032-1034 | A callback with a stale deadline cannot win |
| `AtomicStats.PresentWinsIff` | kafka_bridge/kafka_sink/src/kafka_sink_node.cpp:1164-1167 | A callback that holds the present deadline wins exactly when its clock has reached it, and moves the deadline a second past its reading |
| `AtomicStats.TickKeepsOk` | kafka_bridge/kafka_sink/src/kafka_sink_node.cpp:1164-1167 | Every load and exchange keeps the throttle's invariant |
| `Percentiles.WindowIsLast` | kafka_bridge/kafka_source/src/kafka_source_node.cpp:490-494 | The window holds exactly the last samples, up to a thousand, in order |
| `Percentiles.Record` | kafka_bridge/kafka_cdr_to_json/src/kafka_cdr_to_json_node.cpp:721-725 | Push, and pop when there are too many |
| `Percentiles.CeilIndex` | kafka_bridge/kafka_source/src/kafka_source_node.cpp:113-121 | The index is the exact ceiling and within the samples |
| `Percentiles.FloorIndex` | kafka_bridge/kafka_sink/src/kafka_sink_node.cpp:56 | The index is the exact floor and within the samples |
| `Percentiles.CeilCovers` | kafka_bridge/kafka_cdr_to_json/src/kafka_cdr_to_json_node.cpp:77-87 | The ceiling form returns a sample with at least the fraction p of all samples no larger |
| `Percentiles.NotTooHigh` | kafka_bridge/kafka_cdr_to_json/src/kafka_cdr_to_json_node.cpp:77-87 | Both forms return a sample; fewer than p(n - 1) + 1 samples are smaller than the ceiling form, and at most p(n - 1) than the floor form |
| `Percentiles.CeilMonotone` | kafka_bridge/kafka_cdr_to_json/src/kafka_cdr_to_json_node.cpp:77-87 | It is monotone in p |
| `Percentiles.FloorBelowCeil` | kafka_bridge/kafka_sink/src/kafka_sink_node.cpp:50-58 | The floor form never exceeds the ceiling form, by at most one place |
| `Percentiles.FloorUndershoots` | kafka_bridge/kafka_sink/src/kafka_sink_node.cpp:50-58 | The floor form may cover less than p: a concrete case |
| `Percentiles.FloorCoversIff` | kafka_bridge/kafka_sink/src/kafka_sink_node.cpp:50-58 | The floor form covers p for every list of n samples exactly when (index + 1) / n is at least p |
| `Percentiles.FullWindowCovers` | kafka_bridge/kafka_sink/src/kafka_sink_node.cpp:1295-1298 | The 95th and 99th percentiles cover once the window of a thousand is full |
| `Percentiles.SortKeeps` | kafka_bridge/kafka_sink/src/kafka_sink_node.cpp:55 | Sorting keeps the samples and orders them |
| `Consumers.ReceivedIsFinishedOrFailed` | kafka_bridge/kafka_cdr_to_json/src/kafka_cdr_to_json_node.cpp:664-834 | In every run, per topic, received = converted (decoded) + failed + the message under way |
| `Consumers.ConsumeIs` | kafka_bridge/kafka_cdr_to_json/src/kafka_cdr_to_json_node.cpp:664-727 | Which messages are counted and under which key, with their size and latency; no other topic changes |
| `Consumers.ProcessIs` | kafka_bridge/kafka_cdr_to_json/src/kafka_cdr_to_json_node.cpp:729-834 | Exactly when a counted message is converted (forwarded), and that any other has failed |
| `Consumers.RecordSizeIs` | kafka_bridge/kafka_cdr_to_json/src/kafka_cdr_to_json_node.cpp:790-802 | The size recorded is the one of the JSON just produced |
| `Consumers.SizesMatchConversions` | kafka_bridge/kafka_cdr_to_json/src/kafka_cdr_to_json_node.cpp:790-816 | Number, total, minimum and maximum of the JSON sizes are those of the converted messages; the 0 sentinel is safe |
| `Consumers.DeltasTelescope` | kafka_bridge/kafka_cdr_to_json/src/kafka_cdr_to_json_node.cpp:940-953 | Published deltas sum to the totals last published |
| `Consumers.LatenciesMatch` | kafka_bridge/kafka_cdr_to_json/src/kafka_cdr_to_json_node.cpp:707-727 | The latency window is the last thousand, and the maximum is the largest of the latencies and one of them |
| `Consumers.ThreadHasItsEnds` | kafka_bridge/kafka_cdr_to_json/src/kafka_cdr_to_json_node.cpp:365-405 | While the poll thread lives, consumer and producer are present, so the missing-producer branch is unreachable |
| `Consumers.EveryRun` | kafka_bridge/kafka_source/src/kafka_source_node.cpp:425-535 | Every run of either node keeps the whole invariant |
| `Consumers.StepKeepsInv` | kafka_bridge/kafka_cdr_to_json/src/kafka_cdr_to_json_node.cpp:365-834 | Every step does |
| `Consumers.LifecycleKept` | kafka_bridge/kafka_cdr_to_json/src/kafka_cdr_to_json_node.cpp:365-439 | Activation, deactivation and cleanup keep the lifecycle clauses |
| `Consumers.TopicKept` | kafka_bridge/kafka_cdr_to_json/src/kafka_cdr_to_json_node.cpp:664-834 | Every step keeps each topic's books |
| `Consumers.SmallestIs` | kafka_bridge/kafka_cdr_to_json/src/kafka_cdr_to_json_node.cpp:797-800 | The minimum is one of the sizes, and 0 only when there are none |
| `Consumers.ConsumerNode.OnActivate` | kafka_bridge/kafka_cdr_to_json/src/kafka_cdr_to_json_node.cpp:365-389 | Consumer, producer, thread in this order, undone when the producer fails |
| `Consumers.ConsumerNode.AskToStop` | kafka_bridge/kafka_cdr_to_json/src/kafka_cdr_to_json_node.cpp:391-396 | The running flag is cleared first |
| `Consumers.ConsumerNode.JoinAndClose` | kafka_bridge/kafka_cdr_to_json/src/kafka_cdr_to_json_node.cpp:395-401 | Consumer and producer go after the join |
| `Consumers.ConsumerNode.TopOfLoop` | kafka_bridge/kafka_cdr_to_json/src/kafka_cdr_to_json_node.cpp:637-644 | The loop test and the consumer test |
| `Consumers.ConsumerNode.Receive` | kafka_bridge/kafka_cdr_to_json/src/kafka_cdr_to_json_node.cpp:664-727 | A message is counted under its key, or skipped |
| `Consumers.ConsumerNode.Counting` | kafka_bridge/kafka_cdr_to_json/src/kafka_cdr_to_json_node.cpp:704-727 | Received, bytes and latency figures |
| `Consumers.ConsumerNode.Convert` | kafka_bridge/kafka_cdr_to_json/src/kafka_cdr_to_json_node.cpp:729-834 | Every early return counts one failure, every hand-over one conversion |
| `Consumers.ConsumerNode.RecordJsonSize` | kafka_bridge/kafka_cdr_to_json/src/kafka_cdr_to_json_node.cpp:793-802 | Total, minimum and maximum under the mutex |
| `Consumers.ConsumerNode.PublishMetrics` | kafka_bridge/kafka_cdr_to_json/src/kafka_cdr_to_json_node.cpp:913-1004 | For every topic exactly the growth since the last time is published, and becomes the new base |
| `Consumers.ConsumerNode.PublishTopic` | kafka_bridge/kafka_cdr_to_json/src/kafka_cdr_to_json_node.cpp:940-953 | The same for one topic |

## Left out

- librdkafka, rclcpp, rmw, the ROS type support libraries, YAML and JSON text: foreign code. Their
  answers are parameters or open choices; YAML is the identity on (name, type) lists and a JSON value
  stands for its dump.
- Integer widths of counters, offsets and clocks: counters are unbounded; the wire fields of the mock
  server and the JSON integer fields have their exact ranges.
- WSTRING fields and UTF-16 conversion, and memory layout: the JSON model is over typed values. A
  float is its bits and whether it is finite. A stray read yields any JSON item, any bit, or nothing,
  as a parameter says; a stray read that ends the program is not modelled.
- Text that is not UTF-8, for which dumping a JSON value throws.
- Floating-point rates and throughputs: only percentiles are modelled, with exact fractions.
- The reconnect backoff, timeouts as durations, and the wait of the poll thread: only their outcomes.
- A lost answer to a remote call takes effect at once or never, not later.
- The restart or outside control of a sink or of the container while the controller runs. What they do
  and hold when it starts is arbitrary.
- Enabling and disabling the introspection manager, error texts and their time stamps, and snapshot
  time stamps: they decide nothing.
- Reading the selection file: what `load_file_selection` yields comes with each request.
- `on_parameters_set` of the sinks beyond `subscriptions_yaml`, and what a rejected batch commits.
- The mosquitto sink's own code: it is driven as a second sink with the same guards.
- `create_api_version_response` and `create_metadata_response` of the mock server: fixed answers, a
  parameter of the model; likewise UTF-8. The size prefix of answers, several clients at a time, and how much
  of an answer was written when its send fails.
- `latency_ns_max` of the consuming nodes is a plain store: one thread writes it.
- The introspection manager, plugin loader, GIS node, GUI, launch and benchmark code: other components.
- Producer.KafkaProducer.StartExchange: the status write STARTING is part of the exchange step, because nothing reads it in between.
- SinkAccounting.SubscriptionRuntime.OnMessage: one callback uninterrupted; interleaved callbacks are the steps of `SinkAndProducerAgree`.
- AtomicStats.NoUpdateLost: the compare-exchange loops are steps and not a method, because with spurious failures they need not end.
- ProduceRoundTrip.ProduceInverts: requires log lengths within the signed 64-bit offset field, and a decoder that yields no more characters than bytes.
- Fetch.FetchReports: requires log lengths within the signed 64-bit field.
- ProduceReplies.ProduceAnswers: requires the same as `ProduceInverts`.
- Malformed.CutRequest: speaks of cuts inside the last record; a cut before it may leave bytes that are read as something else (`CutHeads`).
- Malformed.NegativeSizeKeeps: speaks of sizes that take the cursor out of the message; less negative ones make it read bytes again.
- TopicNames.RoundTrip: the sink prefix is `ros2` or `ros2.`; other prefixes stay in the derived name.
- Consumers.ConsumerNode.PublishMetrics: publishes without interleaving; interleaved publishing, counter by counter, is in `DeltasTelescope`.
- Controller.FromStart: promises no tracking once a load request stayed unanswered or a file repeated a tool input; `NoToolLeaks` counts what is then leaked.
