/** The two consuming nodes, the CDR-to-JSON converter and the source: activation and
    deactivation around one poll thread, and the per-topic accounting of what it consumes,
    with metrics published from another thread at any moment.
 */
module Consumers {
  import opened Options
  import opened Percentiles
  import Producer

  datatype Kind = CdrToJson | Source

  /** `rosType` is empty when the header is missing; `latency` is missing when the message has
      no usable timestamp. */
  datatype Message = Message(topic: string, rosType: string, size: nat, latency: Option<nat>)

  datatype Counts = Counts(received: nat, finished: nat, failed: nat, bytes: nat)

  datatype Counter = Received | Finished | Failed | Bytes

  datatype Sizes = Sizes(total: nat, min: nat, max: nat)

  /** One topic's metrics. `reported` sums the published deltas; `history` and `latencies` are
      every JSON size and every latency so far. */
  datatype Metrics = Metrics(
    now: Counts, prev: Counts, sizes: Sizes, window: seq<nat>, latencyMax: nat,
    reported: Counts, history: seq<nat>, latencies: seq<nat>)

  const ZERO := Counts(0, 0, 0, 0)
  const NEW_TOPIC := Metrics(ZERO, ZERO, Sizes(0, 0, 0), [], 0, ZERO, [], [])

  /** Where the poll thread stands: `Counted` is inside `process_message` once the message is
      counted, `Sizing` between counting a conversion and recording its size. */
  datatype Thread = NoThread | AtTop | Consuming | Counted(message: Message) | Sizing(key: string, size: nat) | Exited

  /** Where the lifecycle callbacks stand. */
  datatype Control = Down | ConsumerUp | ProducerUp | Up | Stopping(cleanup: bool) | Joined(cleanup: bool)

  datatype State = State(
    consumer: bool, producer: bool, running: bool, thread: Thread, control: Control,
    metrics: map<string, Metrics>)

  const INITIAL := State(false, false, false, NoThread, Down, map[])

  datatype Event =
    | StartConsumer(ok: bool)
    | StartProducer(ok: bool)
    | Spawn
    | RequestStop(cleanup: bool)
    | Join
    | Close
    | Turn
    | Consume(result: Option<Message>)
    | Process(typeOk: bool, json: Option<nat>, answer: Producer.SendResult, publisherOk: bool)
    | RecordSize
    | Publish(key: string, counter: Counter)

  /** Metrics are kept per input topic by the converter, per ROS topic and type by the source. */
  function Key(k: Kind, m: Message): string {
    if k == CdrToJson then m.topic else m.topic + "|" + m.rosType
  }

  /** An object's dump has at least its two braces. */
  predicate Enabled(k: Kind, s: State, e: Event) {
    match e
    case StartConsumer(_) => s.control == Down
    case StartProducer(_) => s.control == ConsumerUp && k == CdrToJson
    case Spawn => s.control == (if k == CdrToJson then ProducerUp else ConsumerUp)
    case RequestStop(_) => s.control == Up || s.control == Down
    case Join => s.control.Stopping? && (s.thread == NoThread || s.thread == Exited)
    case Close => s.control.Joined?
    case Turn => s.thread == AtTop
    case Consume(_) => s.thread == Consuming
    case Process(_, json, _, _) => s.thread.Counted? && (json.Some? ==> json.value >= 2)
    case RecordSize => s.thread.Sizing?
    case Publish(key, _) => key in s.metrics
  }

  // ---------------------------------------------------------------- counting

  function CountMessage(t: Metrics, m: Message): Metrics {
    var counted := t.(now := t.now.(received := t.now.received + 1, bytes := t.now.bytes + m.size));
    if m.latency.None? then counted
    else counted.(latencyMax := if m.latency.value > t.latencyMax then m.latency.value else t.latencyMax,
                  window := Push(t.window, m.latency.value),
                  latencies := t.latencies + [m.latency.value])
  }

  function CountFailed(t: Metrics): Metrics {
    t.(now := t.now.(failed := t.now.failed + 1))
  }

  function CountFinished(t: Metrics): Metrics {
    t.(now := t.now.(finished := t.now.finished + 1))
  }

  function AddSize(t: Metrics, size: nat): Metrics {
    var z := t.sizes;
    t.(sizes := Sizes(z.total + size,
                      if z.min == 0 || size < z.min then size else z.min,
                      if size > z.max then size else z.max),
       history := t.history + [size])
  }

  function Get(c: Counts, counter: Counter): nat {
    match counter
    case Received => c.received
    case Finished => c.finished
    case Failed => c.failed
    case Bytes => c.bytes
  }

  function Set(c: Counts, counter: Counter, v: nat): Counts {
    match counter
    case Received => c.(received := v)
    case Finished => c.(finished := v)
    case Failed => c.(failed := v)
    case Bytes => c.(bytes := v)
  }

  /** A published counter: its growth since the last time, which becomes the new base. The
      counters are loaded one by one. */
  function PublishCounter(t: Metrics, counter: Counter): Metrics {
    var now, prev := Get(t.now, counter), Get(t.prev, counter);
    var delta := if now >= prev then now - prev else 0;
    t.(prev := Set(t.prev, counter, now),
       reported := Set(t.reported, counter, Get(t.reported, counter) + delta))
  }

  // ---------------------------------------------------------------- steps

  function Skips(k: Kind, m: Message): bool {
    m.size == 0 || (k == Source && m.rosType == [])
  }

  function TopicOf(s: State, key: string): Metrics {
    if key in s.metrics then s.metrics[key] else NEW_TOPIC
  }

  /** Whether the converter's message ended up with the producer, its buffer included. */
  predicate Taken(answer: Producer.SendResult) {
    answer.status == Producer.SENT || (answer.status == Producer.QUEUE_FULL && answer.buffered)
  }

  predicate Succeeds(k: Kind, s: State, m: Message, e: Event)
    requires e.Process?
  {
    match k
    case CdrToJson => m.rosType != [] && e.typeOk && e.json.Some? && s.producer && Taken(e.answer)
    case Source => e.typeOk && e.publisherOk
  }

  function ProcessStep(k: Kind, s: State, e: Event): State
    requires e.Process? && Enabled(k, s, e)
  {
    var m := s.thread.message;
    var key := Key(k, m);
    var t := TopicOf(s, key);
    if !Succeeds(k, s, m, e) then
      s.(metrics := s.metrics[key := CountFailed(t)], thread := AtTop)
    else
      s.(metrics := s.metrics[key := CountFinished(t)],
         thread := if k == CdrToJson then Sizing(key, e.json.value) else AtTop)
  }

  function Step(k: Kind, s: State, e: Event): State
    requires Enabled(k, s, e)
  {
    match e
    case StartConsumer(ok) => if ok then s.(consumer := true, control := ConsumerUp) else s
    case StartProducer(ok) =>
      if ok then s.(producer := true, control := ProducerUp) else s.(consumer := false, control := Down)
    case Spawn => s.(running := true, thread := AtTop, control := Up)
    case RequestStop(cleanup) => s.(running := false, control := Stopping(cleanup))
    case Join => s.(thread := NoThread, control := Joined(s.control.cleanup))
    case Close =>
      s.(consumer := false, producer := false, control := Down,
         metrics := if s.control.cleanup then map[] else s.metrics)
    case Turn => s.(thread := if !s.running then Exited else if s.consumer then Consuming else AtTop)
    case Consume(result) =>
      if result.None? || Skips(k, result.value) then s.(thread := AtTop)
      else
        var m := result.value;
        s.(metrics := s.metrics[Key(k, m) := CountMessage(TopicOf(s, Key(k, m)), m)], thread := Counted(m))
    case Process(_, _, _, _) => ProcessStep(k, s, e)
    case RecordSize =>
      var key := s.thread.key;
      s.(metrics := s.metrics[key := AddSize(TopicOf(s, key), s.thread.size)], thread := AtTop)
    case Publish(key, counter) => s.(metrics := s.metrics[key := PublishCounter(s.metrics[key], counter)])
  }

  predicate ValidRun(k: Kind, s: State, events: seq<Event>)
    decreases events
  {
    events == [] || (Enabled(k, s, events[0]) && ValidRun(k, Step(k, s, events[0]), events[1..]))
  }

  function Run(k: Kind, s: State, events: seq<Event>): State
    requires ValidRun(k, s, events)
    decreases events
  {
    if events == [] then s else Run(k, Step(k, s, events[0]), events[1..])
  }

  // ---------------------------------------------------------------- what always holds

  function Sum(xs: seq<nat>): nat {
    if xs == [] then 0 else Sum(xs[..|xs| - 1]) + xs[|xs| - 1]
  }

  function Largest(xs: seq<nat>): nat {
    if xs == [] then 0
    else
      var front := Largest(xs[..|xs| - 1]);
      if xs[|xs| - 1] > front then xs[|xs| - 1] else front
  }

  /** The smallest of the sizes, 0 when there are none. */
  function Smallest(xs: seq<nat>): nat {
    if xs == [] then 0
    else
      var front := Smallest(xs[..|xs| - 1]);
      if |xs| == 1 || xs[|xs| - 1] < front then xs[|xs| - 1] else front
  }

  predicate Positive(xs: seq<nat>) {
    forall i :: 0 <= i < |xs| ==> xs[i] > 0
  }

  predicate Leq(a: Counts, b: Counts) {
    a.received <= b.received && a.finished <= b.finished && a.failed <= b.failed && a.bytes <= b.bytes
  }

  /** `waiting` and `sizing` count the topic's messages between two steps of the thread. */
  predicate MetricsOk(k: Kind, t: Metrics, waiting: nat, sizing: nat) {
    && t.now.received == t.now.finished + t.now.failed + waiting
    && (k == CdrToJson ==> t.now.finished == |t.history| + sizing)
    && t.sizes == Sizes(Sum(t.history), Smallest(t.history), Largest(t.history)) && Positive(t.history)
    && t.window == PushAll(t.latencies) && t.latencyMax == Largest(t.latencies)
    && t.reported == t.prev && Leq(t.prev, t.now)
  }

  function Waiting(k: Kind, s: State, key: string): nat {
    if s.thread.Counted? && Key(k, s.thread.message) == key then 1 else 0
  }

  function BeingSized(s: State, key: string): nat {
    if s.thread.Sizing? && s.thread.key == key then 1 else 0
  }

  predicate TopicOk(k: Kind, s: State, key: string) {
    MetricsOk(k, TopicOf(s, key), Waiting(k, s, key), BeingSized(s, key))
  }

  /** While the thread lives, consumer and producer are there; it is started once and joined
      before anything is taken away. */
  predicate LifecycleOk(k: Kind, s: State) {
    && (s.thread != NoThread ==>
          (s.control == Up || s.control.Stopping?) && s.consumer && (k == CdrToJson ==> s.producer))
    && (s.running ==> s.control == Up)
    && (s.control == Down ==> !s.consumer && !s.producer)
    && (s.control == ConsumerUp ==> !s.producer)
    && (s.control.ConsumerUp? || s.control.ProducerUp? || s.control == Up ==> s.consumer)
    && (s.control.ProducerUp? || (s.control == Up && k == CdrToJson) ==> s.producer)
    && (s.thread.Sizing? ==> s.thread.size > 0 && k == CdrToJson)
    && (s.control == Up ==> s.thread != NoThread && (s.thread == Exited ==> !s.running) && s.running)
  }

  ghost predicate Inv(k: Kind, s: State) {
    LifecycleOk(k, s) && forall key :: TopicOk(k, s, key)
  }

  lemma LifecycleKept(k: Kind, s: State, e: Event)
    requires LifecycleOk(k, s) && Enabled(k, s, e)
    ensures LifecycleOk(k, Step(k, s, e))
  {
    hide CountMessage, CountFailed, CountFinished, AddSize, PublishCounter, TopicOf;
  }

  lemma TopicKept(k: Kind, s: State, e: Event, key: string)
    requires LifecycleOk(k, s) && Enabled(k, s, e) && TopicOk(k, s, key)
    ensures TopicOk(k, Step(k, s, e), key)
  {
    hide MetricsOk, LifecycleOk, CountMessage, CountFailed, CountFinished, AddSize, PublishCounter, ProcessStep;
    var t, w, z := TopicOf(s, key), Waiting(k, s, key), BeingSized(s, key);
    ThreadFacts(k, s);
    match e {
      case Consume(result) =>
        if result.Some? && Key(k, result.value) == key { CountKept(k, t, result.value); }
      case Process(_, _, _, _) => ProcessKept(k, s, e, key);
      case RecordSize =>
        if s.thread.key == key { SizeKept(t, s.thread.size); }
      case Publish(_, counter) => PublishKept(k, t, counter, w, z);
      case Close => NewTopicOk(k);
      case Join =>
      case _ =>
    }
  }

  lemma ProcessKept(k: Kind, s: State, e: Event, key: string)
    requires e.Process? && Enabled(k, s, e) && TopicOk(k, s, key)
    ensures TopicOk(k, ProcessStep(k, s, e), key)
  {
    hide MetricsOk, CountFailed, CountFinished, Succeeds, Key;
    if Key(k, s.thread.message) == key { FinishKept(k, TopicOf(s, key)); }
  }

  lemma ThreadFacts(k: Kind, s: State)
    requires LifecycleOk(k, s)
    ensures s.thread.Sizing? ==> s.thread.size > 0 && k == CdrToJson
    ensures s.control != Up && !s.control.Stopping? ==> s.thread == NoThread
  {
  }

  lemma NewTopicOk(k: Kind)
    ensures MetricsOk(k, NEW_TOPIC, 0, 0)
  {
  }

  lemma CountKept(k: Kind, t: Metrics, m: Message)
    requires MetricsOk(k, t, 0, 0)
    ensures MetricsOk(k, CountMessage(t, m), 1, 0)
  {
    if m.latency.Some? {
      var xs := t.latencies + [m.latency.value];
      assert xs[..|xs| - 1] == t.latencies;
    }
  }

  lemma FinishKept(k: Kind, t: Metrics)
    requires MetricsOk(k, t, 1, 0)
    ensures MetricsOk(k, CountFailed(t), 0, 0)
    ensures MetricsOk(k, CountFinished(t), 0, if k == CdrToJson then 1 else 0)
  {
  }

  lemma SizeKept(t: Metrics, size: nat)
    requires MetricsOk(CdrToJson, t, 0, 1) && size > 0
    ensures MetricsOk(CdrToJson, AddSize(t, size), 0, 0)
  {
    var xs := t.history + [size];
    assert xs[..|xs| - 1] == t.history;
    SmallestIs(t.history);
  }

  lemma PublishKept(k: Kind, t: Metrics, counter: Counter, w: nat, z: nat)
    requires MetricsOk(k, t, w, z)
    ensures MetricsOk(k, PublishCounter(t, counter), w, z)
    ensures Get(PublishCounter(t, counter).reported, counter) == Get(t.now, counter)
  {
  }

  /** The sentinel is safe: 0 stands for no size exactly because every size is positive. */
  lemma {:induction false} SmallestIs(xs: seq<nat>)
    requires Positive(xs)
    ensures Smallest(xs) == 0 <==> xs == []
    ensures xs != [] ==> Smallest(xs) in xs
    ensures forall i :: 0 <= i < |xs| ==> Smallest(xs) <= xs[i]
  {
    if |xs| > 1 {
      SmallestIs(xs[..|xs| - 1]);
      assert forall i :: 0 <= i < |xs| - 1 ==> xs[..|xs| - 1][i] == xs[i];
    }
  }

  lemma {:induction false} LargestIs(xs: seq<nat>)
    ensures xs != [] ==> Largest(xs) in xs
    ensures forall i :: 0 <= i < |xs| ==> xs[i] <= Largest(xs)
  {
    if xs != [] {
      LargestIs(xs[..|xs| - 1]);
      assert forall i :: 0 <= i < |xs| - 1 ==> xs[..|xs| - 1][i] == xs[i];
      if |xs| == 1 { assert xs[0] >= 0; }
    }
  }

  lemma StepKeepsInv(k: Kind, s: State, e: Event)
    requires Inv(k, s) && Enabled(k, s, e)
    ensures Inv(k, Step(k, s, e))
  {
    hide LifecycleOk, TopicOk, Step;
    LifecycleKept(k, s, e);
    forall key ensures TopicOk(k, Step(k, s, e), key) {
      TopicKept(k, s, e, key);
    }
  }

  lemma {:induction false} RunKeepsInv(k: Kind, s: State, events: seq<Event>)
    requires Inv(k, s) && ValidRun(k, s, events)
    ensures Inv(k, Run(k, s, events))
    decreases events
  {
    hide Inv, Step, Enabled;
    if events != [] {
      StepKeepsInv(k, s, events[0]);
      RunKeepsInv(k, Step(k, s, events[0]), events[1..]);
    }
  }

  lemma InitialOk(k: Kind)
    ensures Inv(k, INITIAL)
  {
    hide MetricsOk;
    forall key ensures TopicOk(k, INITIAL, key) { NewTopicOk(k); }
  }

  lemma EveryRun(k: Kind, events: seq<Event>)
    requires ValidRun(k, INITIAL, events)
    ensures Inv(k, Run(k, INITIAL, events))
  {
    hide Inv, Step, Enabled, Run, ValidRun;
    InitialOk(k);
    RunKeepsInv(k, INITIAL, events);
  }

  // ---------------------------------------------------------------- main results

  /** Between messages every message received on a topic was either finished or failed. */
  lemma ReceivedIsFinishedOrFailed(k: Kind, events: seq<Event>, key: string)
    requires ValidRun(k, INITIAL, events)
    ensures var s := Run(k, INITIAL, events);
            var c := TopicOf(s, key).now;
            && c.received == c.finished + c.failed + Waiting(k, s, key)
            && (!s.thread.Counted? ==> c.received == c.finished + c.failed)
  {
    hide Run, ValidRun;
    EveryRun(k, events);
    assert TopicOk(k, Run(k, INITIAL, events), key);
  }

  /** The converter's size figures are those of its converted messages: their number, total,
      smallest and largest. */
  lemma SizesMatchConversions(events: seq<Event>, key: string)
    requires ValidRun(CdrToJson, INITIAL, events)
    ensures var s := Run(CdrToJson, INITIAL, events);
            var t := TopicOf(s, key);
            && t.now.finished == |t.history| + BeingSized(s, key)
            && t.sizes.total == Sum(t.history)
            && (t.sizes.min == 0 <==> t.history == [])
            && (t.history != [] ==> t.sizes.min in t.history && t.sizes.max in t.history)
            && forall i :: 0 <= i < |t.history| ==> t.sizes.min <= t.history[i] <= t.sizes.max
  {
    hide Run, ValidRun, Smallest, Largest, Sum, PushAll;
    EveryRun(CdrToJson, events);
    var s := Run(CdrToJson, INITIAL, events);
    assert TopicOk(CdrToJson, s, key);
    SmallestIs(TopicOf(s, key).history);
    LargestIs(TopicOf(s, key).history);
  }

  /** Published deltas telescope: their sum is the total as last published, and publishing now
      brings it to the present total. */
  lemma DeltasTelescope(k: Kind, events: seq<Event>, key: string, counter: Counter)
    requires ValidRun(k, INITIAL, events)
    ensures var t := TopicOf(Run(k, INITIAL, events), key);
            && t.reported == t.prev && Leq(t.prev, t.now)
            && Get(PublishCounter(t, counter).reported, counter) == Get(t.now, counter)
  {
    hide Run, ValidRun;
    EveryRun(k, events);
    var s := Run(k, INITIAL, events);
    assert TopicOk(k, s, key);
    PublishKept(k, TopicOf(s, key), counter, Waiting(k, s, key), BeingSized(s, key));
  }

  /** The latency figures: a window of the last thousand, and the largest ever. */
  lemma LatenciesMatch(k: Kind, events: seq<Event>, key: string)
    requires ValidRun(k, INITIAL, events)
    ensures var t := TopicOf(Run(k, INITIAL, events), key);
            && t.window == Last(t.latencies, 1000)
            && (t.latencies != [] ==> t.latencyMax in t.latencies)
            && forall i :: 0 <= i < |t.latencies| ==> t.latencies[i] <= t.latencyMax
  {
    hide Run, ValidRun;
    EveryRun(k, events);
    var s := Run(k, INITIAL, events);
    assert TopicOk(k, s, key);
    WindowIsLast(TopicOf(s, key).latencies);
    LargestIs(TopicOf(s, key).latencies);
  }

  /** While the poll thread lives, its consumer and, for the converter, its producer are there:
      neither the test at the top of the loop nor the missing-producer branch is ever taken. */
  lemma ThreadHasItsEnds(k: Kind, events: seq<Event>)
    requires ValidRun(k, INITIAL, events)
    ensures var s := Run(k, INITIAL, events);
            s.thread != NoThread ==> s.consumer && (k == CdrToJson ==> s.producer)
  {
    hide Run, ValidRun;
    EveryRun(k, events);
  }

  // ---------------------------------------------------------------- what becomes of a message

  /** Which messages are counted, and how: the converter passes over empty ones, the source also
      over those without a type; any other adds itself and its size under its key, and its latency
      when it has one. No other topic changes. */
  lemma ConsumeIs(k: Kind, s: State, m: Message, key: string)
    requires s.thread == Consuming
    requires key == if k == CdrToJson then m.topic else m.topic + "|" + m.rosType
    ensures m.size == 0 || (k == Source && m.rosType == "") ==>
              Step(k, s, Consume(Some(m))) == s.(thread := AtTop)
    ensures m.size > 0 && (k == CdrToJson || m.rosType != "") ==>
              var t := Step(k, s, Consume(Some(m)));
              var before, after := TopicOf(s, key), TopicOf(t, key);
              && t.thread == Counted(m) && t.metrics.Keys == s.metrics.Keys + {key}
              && (forall other :: other in s.metrics && other != key ==> t.metrics[other] == s.metrics[other])
              && after.now == before.now.(received := before.now.received + 1, bytes := before.now.bytes + m.size)
              && after.latencies == before.latencies + (if m.latency.Some? then [m.latency.value] else [])
              && after.history == before.history && after.reported == before.reported
    ensures Step(k, s, Consume(None)) == s.(thread := AtTop)
  {
    hide CountMessage, TopicOf;
    CountIs(TopicOf(s, key), m);
    TopicUpdate(s, key, CountMessage(TopicOf(s, key), m), Counted(m));
  }

  lemma TopicUpdate(s: State, key: string, t: Metrics, thread: Thread)
    ensures TopicOf(s.(metrics := s.metrics[key := t], thread := thread), key) == t
  {
  }

  lemma CountIs(t: Metrics, m: Message)
    ensures var r := CountMessage(t, m);
            && r.now == t.now.(received := t.now.received + 1, bytes := t.now.bytes + m.size)
            && r.latencies == t.latencies + (if m.latency.Some? then [m.latency.value] else [])
            && r.history == t.history && r.reported == t.reported
  {
    hide Push;
    assert t.latencies + [] == t.latencies;
  }

  /** When a counted message is converted, or forwarded: the converter needs a type it can load,
      JSON, a producer, and an answer that took the record or buffered it; the source a type and a
      publisher. Any other message has failed. */
  lemma ProcessIs(k: Kind, s: State, typeOk: bool, json: Option<nat>, answer: Producer.SendResult, publisherOk: bool)
    requires Enabled(k, s, Process(typeOk, json, answer, publisherOk))
    ensures var m := s.thread.message;
            var key := if k == CdrToJson then m.topic else m.topic + "|" + m.rosType;
            var t := Step(k, s, Process(typeOk, json, answer, publisherOk));
            var done :=
              if k == CdrToJson then
                && m.rosType != "" && typeOk && json.Some? && s.producer
                && (answer.status == Producer.SENT || (answer.status == Producer.QUEUE_FULL && answer.buffered))
              else typeOk && publisherOk;
            var before, after := TopicOf(s, key), TopicOf(t, key);
            && (forall other :: other in s.metrics && other != key ==> t.metrics[other] == s.metrics[other])
            && (done ==> after == before.(now := before.now.(finished := before.now.finished + 1)))
            && (!done ==> after == before.(now := before.now.(failed := before.now.failed + 1)))
            && t.thread == if done && k == CdrToJson then Sizing(key, json.value) else AtTop
  {
  }

  /** The size that is recorded is the one of the JSON just produced. */
  lemma RecordSizeIs(k: Kind, s: State)
    requires s.thread.Sizing?
    ensures var t := Step(k, s, RecordSize);
            && TopicOf(t, s.thread.key).history == TopicOf(s, s.thread.key).history + [s.thread.size]
            && TopicOf(t, s.thread.key).now == TopicOf(s, s.thread.key).now && t.thread == AtTop
  {
  }

  // ---------------------------------------------------------------- the nodes as they run

  /** A whole activation: nothing else runs in between, since the thread does not exist yet. */
  function Activated(k: Kind, s: State, consumerOk: bool, producerOk: bool): State
    requires s.control == Down
  {
    var s1 := Step(k, s, StartConsumer(consumerOk));
    if !consumerOk then s1
    else if k == Source then Step(k, s1, Spawn)
    else
      var s2 := Step(k, s1, StartProducer(producerOk));
      if producerOk then Step(k, s2, Spawn) else s2
  }

  function Published(t: Metrics): Metrics {
    PublishCounter(PublishCounter(PublishCounter(PublishCounter(t, Received), Finished), Failed), Bytes)
  }

  /** The methods are the stretches of code between two points where the other thread can step
      in; each carries out one step of the machine. */
  class ConsumerNode {
    const kind: Kind
    var consumer: bool
    var producer: bool
    var running: bool
    var thread: Thread
    var control: Control
    var metrics: map<string, Metrics>

    constructor (kind: Kind)
      ensures this.kind == kind && Abs() == INITIAL
    {
      this.kind := kind;
      consumer, producer, running, thread, control, metrics := false, false, false, NoThread, Down, map[];
    }

    function Abs(): State reads this {
      State(consumer, producer, running, thread, control, metrics)
    }

    method OnActivate(consumerOk: bool, producerOk: bool) returns (ok: bool)
      requires control == Down
      modifies this
      ensures Abs() == Activated(kind, old(Abs()), consumerOk, producerOk)
      ensures ok == (consumerOk && (kind == Source || producerOk)) && (ok <==> control == Up)
      ensures ok ==> consumer && running && thread == AtTop && (kind == CdrToJson ==> producer)
      ensures !ok && old(LifecycleOk(kind, Abs())) ==> Abs() == old(Abs())
      ensures metrics == old(metrics)
    {
      if !consumerOk { return false; }
      consumer, control := true, ConsumerUp;
      if kind == CdrToJson {
        if !producerOk {
          consumer, control := false, Down;
          return false;
        }
        producer, control := true, ProducerUp;
      }
      running := true;
      thread, control := AtTop, Up;
      return true;
    }

    /** Deactivation, cleanup and shutdown first ask the thread to stop and wait for it. */
    method AskToStop(cleanup: bool)
      requires Enabled(kind, Abs(), RequestStop(cleanup))
      modifies this`running, this`control
      ensures Abs() == Step(kind, old(Abs()), RequestStop(cleanup))
    {
      running := false;
      control := Stopping(cleanup);
    }

    /** Then, the thread joined, they take consumer and producer away. */
    method JoinAndClose()
      requires Enabled(kind, Abs(), Join)
      modifies this
      ensures Abs() == Step(kind, Step(kind, old(Abs()), Join), Close)
      ensures !consumer && !producer && thread == NoThread && control == Down
      ensures metrics == if old(control.cleanup) then map[] else old(metrics)
    {
      var cleanup := control.cleanup;
      thread, control := NoThread, Joined(cleanup);
      consumer := false;
      producer := false;
      if cleanup { metrics := map[]; }
      control := Down;
    }

    method TopOfLoop()
      requires Enabled(kind, Abs(), Turn)
      modifies this`thread
      ensures Abs() == Step(kind, old(Abs()), Turn)
      ensures thread == if !running then Exited else if consumer then Consuming else AtTop
    {
      if !running {
        thread := Exited;
      } else if consumer {
        thread := Consuming;
      }
    }

    /** `process_message` up to the counting of the message. */
    method Receive(result: Option<Message>)
      requires Enabled(kind, Abs(), Consume(result))
      modifies this`thread, this`metrics
      ensures Abs() == Step(kind, old(Abs()), Consume(result))
    {
      hide CountMessage;
      thread := AtTop;
      if result.None? { return; }
      var m := result.value;
      if m.size == 0 { return; }
      if kind == Source && m.rosType == [] { return; }
      var key := Key(kind, m);
      var t := if key in metrics then metrics[key] else NEW_TOPIC;
      t := Counting(t, m);
      metrics := metrics[key := t];
      thread := Counted(m);
    }

    static method Counting(before: Metrics, m: Message) returns (t: Metrics)
      ensures t == CountMessage(before, m)
    {
      t := before.(now := before.now.(received := before.now.received + 1));
      t := t.(now := t.now.(bytes := t.now.bytes + m.size));
      if m.latency.Some? {
        var latency := m.latency.value;
        if latency > t.latencyMax { t := t.(latencyMax := latency); }
        var window := Record(t.window, latency);
        t := t.(window := window, latencies := t.latencies + [latency]);
      }
    }

    /** The rest of `process_message`, with its early returns, up to the last counter. */
    method Convert(typeOk: bool, json: Option<nat>, answer: Producer.SendResult, publisherOk: bool)
      requires Enabled(kind, Abs(), Process(typeOk, json, answer, publisherOk))
      requires Key(kind, thread.message) in metrics
      modifies this`thread, this`metrics
      ensures Abs() == Step(kind, old(Abs()), Process(typeOk, json, answer, publisherOk))
    {
      var m := thread.message;
      var key := Key(kind, m);
      thread := AtTop;
      if kind == CdrToJson && m.rosType == [] {
        Fail(key);
        return;
      }
      if !typeOk {
        Fail(key);
        return;
      }
      if kind == CdrToJson {
        if json.None? {
          Fail(key);
          return;
        }
        if !producer {
          Fail(key);
          return;
        }
        if answer.status == Producer.QUEUE_FULL && answer.buffered {
          Finish(key);
          thread := Sizing(key, json.value);
          return;
        }
        if answer.status == Producer.SENT {
          Finish(key);
          thread := Sizing(key, json.value);
          return;
        }
        Fail(key);
      } else if !publisherOk {
        Fail(key);
      } else {
        Finish(key);
      }
    }

    method Fail(key: string)
      requires key in metrics
      modifies this`metrics
      ensures metrics == old(metrics)[key := CountFailed(old(metrics[key]))]
    {
      metrics := metrics[key := metrics[key].(now := metrics[key].now.(failed := metrics[key].now.failed + 1))];
    }

    method Finish(key: string)
      requires key in metrics
      modifies this`metrics
      ensures metrics == old(metrics)[key := CountFinished(old(metrics[key]))]
    {
      metrics := metrics[key := metrics[key].(now := metrics[key].now.(finished := metrics[key].now.finished + 1))];
    }

    /** The JSON size, under the metrics mutex. */
    method RecordJsonSize()
      requires thread.Sizing? && thread.key in metrics
      modifies this`thread, this`metrics
      ensures Abs() == Step(kind, old(Abs()), RecordSize)
    {
      var key, size := thread.key, thread.size;
      var t := metrics[key];
      var z := Sizes(t.sizes.total + size, t.sizes.min, t.sizes.max);
      if z.min == 0 || size < z.min { z := z.(min := size); }
      if size > z.max { z := z.(max := size); }
      metrics := metrics[key := t.(sizes := z, history := t.history + [size])];
      thread := AtTop;
    }

    /** The metrics timer: for every topic the growth of each counter since the last time. The
        loop visits the topics in any order; nothing consumes in between. */
    method PublishMetrics() returns (deltas: map<string, Counts>)
      requires forall k :: k in metrics ==> Leq(metrics[k].prev, metrics[k].now)
      modifies this`metrics
      ensures metrics.Keys == old(metrics).Keys == deltas.Keys
      ensures forall k :: k in metrics ==> metrics[k] == Published(old(metrics)[k])
      ensures forall k :: k in metrics ==> deltas[k] == Minus(old(metrics)[k].now, old(metrics)[k].prev)
    {
      hide Published, Minus, Leq;
      deltas := map[];
      var remaining := metrics.Keys;
      while remaining != {}
        invariant metrics.Keys == old(metrics).Keys && remaining <= metrics.Keys
        invariant deltas.Keys == metrics.Keys - remaining
        invariant forall k :: k in remaining ==> metrics[k] == old(metrics)[k]
        invariant forall k :: k in deltas ==> metrics[k] == Published(old(metrics)[k])
        invariant forall k :: k in deltas ==> deltas[k] == Minus(old(metrics)[k].now, old(metrics)[k].prev)
        decreases remaining
      {
        var key :| key in remaining;
        var delta := PublishTopic(key);
        deltas := deltas[key := delta];
        remaining := remaining - {key};
      }
    }

    method PublishTopic(key: string) returns (delta: Counts)
      requires key in metrics && Leq(metrics[key].prev, metrics[key].now)
      modifies this`metrics
      ensures metrics == old(metrics)[key := Published(old(metrics[key]))]
      ensures delta == Minus(old(metrics[key].now), old(metrics[key].prev))
    {
      var t := metrics[key];
      delta := Counts(t.now.received - t.prev.received, t.now.finished - t.prev.finished,
                      t.now.failed - t.prev.failed, t.now.bytes - t.prev.bytes);
      metrics := metrics[key := t.(prev := t.now, reported := Plus(t.reported, delta))];
    }
  }

  function Plus(a: Counts, b: Counts): Counts {
    Counts(a.received + b.received, a.finished + b.finished, a.failed + b.failed, a.bytes + b.bytes)
  }

  function Minus(a: Counts, b: Counts): Counts
    requires Leq(b, a)
  {
    Counts(a.received - b.received, a.finished - b.finished, a.failed - b.failed, a.bytes - b.bytes)
  }
}
