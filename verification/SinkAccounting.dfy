/** Per-message accounting of one activation of the Kafka sink: any number of subscription
    callbacks, each of several atomic steps, interleaved with the poll thread of the producer
    that the activation created.
 */
module SinkAccounting {
  import opened Producer

  /** A callback that has counted its message: before its `send`, or after it and before the
      answer is counted. */
  datatype Callback = Waiting | Answered(result: SendResult)

  /** The counters of one subscription; `jsonFailures` counts the callbacks that left early. */
  datatype Subscription = Subscription(
    msgsTotal: nat, sentOk: nat, dropped: nat, errors: nat, jsonFailures: nat,
    inFlight: seq<Callback>)

  datatype Sink = Sink(producer: State, subs: seq<Subscription>)

  datatype Kind = SentKind | DroppedKind | ErrorKind

  /** How the callback classifies the answer of `send`: a buffered send is an error. */
  function KindOf(r: SendResult): Kind {
    if r.status == SENT then SentKind
    else if r.status == QUEUE_FULL && !r.buffered then DroppedKind
    else ErrorKind
  }

  datatype SinkEvent =
    | JsonFailure(sub: nat)
    | CountMessage(sub: nat)
    | CallSend(sub: nat, k: nat, message: Message, outcome: Outcome)
    | CountAnswer(sub: nat, k: nat)
    | ProducerStep(e: Event)

  predicate CanStep(s: Sink, e: SinkEvent) {
    match e
    case JsonFailure(i) => i < |s.subs|
    case CountMessage(i) => i < |s.subs|
    case CallSend(i, k, _, _) =>
      i < |s.subs| && k < |s.subs[i].inFlight| && s.subs[i].inFlight[k].Waiting?
    case CountAnswer(i, k) =>
      i < |s.subs| && k < |s.subs[i].inFlight| && s.subs[i].inFlight[k].Answered?
    case ProducerStep(p) => !p.SendCall? && Enabled(s.producer, p)
  }

  function Next(c: Config, s: Sink, e: SinkEvent): Sink
    requires CanStep(s, e)
  {
    match e
    case JsonFailure(i) =>
      var u := s.subs[i];
      s.(subs := s.subs[i := u.(errors := u.errors + 1, jsonFailures := u.jsonFailures + 1)])
    case CountMessage(i) =>
      var u := s.subs[i];
      s.(subs := s.subs[i := u.(msgsTotal := u.msgsTotal + 1, inFlight := u.inFlight + [Waiting])])
    case CallSend(i, k, m, o) =>
      var u := s.subs[i];
      var answer := Answered(Reply(c, s.producer, o));
      Sink(Send(c, s.producer, m, o), s.subs[i := u.(inFlight := u.inFlight[k := answer])])
    case CountAnswer(i, k) =>
      s.(subs := s.subs[i := Classify(s.subs[i], k)])
    case ProducerStep(p) => s.(producer := Step(c, s.producer, p))
  }

  function Classify(u: Subscription, k: nat): Subscription
    requires k < |u.inFlight| && u.inFlight[k].Answered?
  {
    var rest := u.inFlight[..k] + u.inFlight[k + 1..];
    match KindOf(u.inFlight[k].result)
    case SentKind => u.(sentOk := u.sentOk + 1, inFlight := rest)
    case DroppedKind => u.(dropped := u.dropped + 1, inFlight := rest)
    case ErrorKind => u.(errors := u.errors + 1, inFlight := rest)
  }

  ghost predicate SinkRun(c: Config, s: Sink, events: seq<SinkEvent>)
    decreases |events|
  {
    events == [] || (CanStep(s, events[0]) && SinkRun(c, Next(c, s, events[0]), events[1..]))
  }

  function After(c: Config, s: Sink, events: seq<SinkEvent>): Sink
    requires SinkRun(c, s, events)
    decreases |events|
  {
    if events == [] then s else After(c, Next(c, s, events[0]), events[1..])
  }

  /** What an activation starts from: a new producer and zeroed counters. */
  ghost predicate Activated(s: Sink) {
    s.producer == INITIAL &&
    forall i :: 0 <= i < |s.subs| ==> s.subs[i] == Subscription(0, 0, 0, 0, 0, [])
  }

  // ---------------------------------------------------------------- counting

  function Counter(u: Subscription, kind: Kind): nat {
    match kind
    case SentKind => u.sentOk
    case DroppedKind => u.dropped
    case ErrorKind => u.errors
  }

  function Unclassified(cs: seq<Callback>, kind: Kind): nat {
    if cs == [] then 0
    else (if cs[0].Answered? && KindOf(cs[0].result) == kind then 1 else 0)
         + Unclassified(cs[1..], kind)
  }

  function SumCounters(subs: seq<Subscription>, kind: Kind): nat {
    if subs == [] then 0 else Counter(subs[0], kind) + SumCounters(subs[1..], kind)
  }

  function SumUnclassified(subs: seq<Subscription>, kind: Kind): nat {
    if subs == [] then 0
    else Unclassified(subs[0].inFlight, kind) + SumUnclassified(subs[1..], kind)
  }

  /** How many records were handed over by `send` itself, and how many by the poll thread. */
  function CountRoute(hs: seq<Handled>, direct: bool): nat {
    if hs == [] then 0
    else CountRoute(hs[..|hs| - 1], direct) + if hs[|hs| - 1].direct == direct then 1 else 0
  }

  lemma {:induction false} UnclassifiedAt(cs: seq<Callback>, k: nat, x: Callback, kind: Kind)
    requires k < |cs|
    ensures Unclassified(cs[k := x], kind) + Unclassified([cs[k]], kind) ==
            Unclassified(cs, kind) + Unclassified([x], kind)
    ensures Unclassified(cs[..k] + cs[k + 1..], kind) + Unclassified([cs[k]], kind) ==
            Unclassified(cs, kind)
  {
    if k == 0 {
      assert cs[k := x][1..] == cs[1..] && cs[..k] + cs[k + 1..] == cs[1..];
    } else {
      assert cs[k := x][1..] == cs[1..][k - 1 := x];
      assert (cs[..k] + cs[k + 1..])[1..] == cs[1..][..k - 1] + cs[1..][k..];
      UnclassifiedAt(cs[1..], k - 1, x, kind);
    }
  }

  lemma {:induction false} UnclassifiedAppend(cs: seq<Callback>, kind: Kind)
    ensures Unclassified(cs + [Waiting], kind) == Unclassified(cs, kind)
  {
    if cs != [] {
      assert (cs + [Waiting])[1..] == cs[1..] + [Waiting];
      UnclassifiedAppend(cs[1..], kind);
    }
  }

  lemma {:induction false} SumsAt(subs: seq<Subscription>, i: nat, x: Subscription, kind: Kind)
    requires i < |subs|
    ensures SumCounters(subs[i := x], kind) + Counter(subs[i], kind) ==
            SumCounters(subs, kind) + Counter(x, kind)
    ensures SumUnclassified(subs[i := x], kind) + Unclassified(subs[i].inFlight, kind) ==
            SumUnclassified(subs, kind) + Unclassified(x.inFlight, kind)
  {
    if i == 0 {
      assert subs[i := x][1..] == subs[1..];
    } else {
      assert subs[i := x][1..] == subs[1..][i - 1 := x];
      SumsAt(subs[1..], i - 1, x, kind);
    }
  }

  lemma RouteAppend(hs: seq<Handled>, h: Handled)
    ensures forall d: bool :: CountRoute(hs + [h], d) ==
                              CountRoute(hs, d) + if h.direct == d then 1 else 0
  {
    assert (hs + [h])[..|hs|] == hs;
  }

  lemma {:induction false} RoutesCover(hs: seq<Handled>)
    ensures CountRoute(hs, true) + CountRoute(hs, false) == |hs|
  {
    if hs != [] {
      RoutesCover(hs[..|hs| - 1]);
    }
  }

  // ---------------------------------------------------------------- invariant

  /** Each message a subscription has counted is in one of its counters or still in flight. */
  predicate Accounted(u: Subscription) {
    u.msgsTotal + u.jsonFailures == u.sentOk + u.dropped + u.errors + |u.inFlight|
  }

  /** The sink's counters, with the answers not yet counted, are the producer's direct sends. */
  ghost predicate Agrees(subs: seq<Subscription>, accepted: seq<Handled>, lost: seq<Handled>) {
    && SumCounters(subs, SentKind) + SumUnclassified(subs, SentKind) == CountRoute(accepted, true)
    && SumCounters(subs, DroppedKind) + SumUnclassified(subs, DroppedKind) == CountRoute(lost, true)
  }

  ghost predicate SinkInv(c: Config, s: Sink) {
    && Inv(c, s.producer)
    && (forall i :: 0 <= i < |s.subs| ==> Accounted(s.subs[i]))
    && Agrees(s.subs, s.producer.accepted, s.producer.lost)
  }

  lemma DrainKeepsDirect(c: Config, s: State, outcomes: seq<Outcome>)
    requires |s.pending| <= |outcomes|
    ensures CountRoute(Drain(c, s, outcomes).accepted, true) == CountRoute(s.accepted, true)
    ensures CountRoute(Drain(c, s, outcomes).lost, true) == CountRoute(s.lost, true)
    decreases |s.pending|
  {
    if s.pending != [] && !(outcomes[0] == Full && !c.dropWhenFull) {
      var h := Handled(s.pending[0], false);
      RouteAppend(s.accepted, h);
      RouteAppend(s.lost, h);
      DrainKeepsDirect(c, DrainOne(s, outcomes[0]), outcomes[1..]);
    }
  }

  lemma ProducerStepAgrees(c: Config, s: Sink, p: Event)
    requires CanStep(s, ProducerStep(p)) && SinkInv(c, s)
    ensures SinkInv(c, Next(c, s, ProducerStep(p)))
  {
    StepKeepsInv(c, s.producer, p);
    match p
    case PollPass(created, outcomes) =>
      if s.producer.running && (s.producer.producer || created) {
        DrainKeepsDirect(c, Reconnect(s.producer, created), outcomes);
      }
    case _ =>
  }

  lemma SendAgrees(c: Config, s: Sink, i: nat, k: nat, m: Message, o: Outcome)
    requires CanStep(s, CallSend(i, k, m, o)) && SinkInv(c, s)
    ensures SinkInv(c, Next(c, s, CallSend(i, k, m, o)))
  {
    StepKeepsInv(c, s.producer, SendCall(m, o));
    SendRoutes(c, s.producer, m, o);
    AnswerUnclassified(s.subs, i, k, Reply(c, s.producer, o), SentKind);
    AnswerUnclassified(s.subs, i, k, Reply(c, s.producer, o), DroppedKind);
  }

  lemma SendRoutes(c: Config, p: State, m: Message, o: Outcome)
    ensures CountRoute(Send(c, p, m, o).accepted, true) ==
            CountRoute(p.accepted, true) + if KindOf(Reply(c, p, o)) == SentKind then 1 else 0
    ensures CountRoute(Send(c, p, m, o).lost, true) ==
            CountRoute(p.lost, true) + if KindOf(Reply(c, p, o)) == DroppedKind then 1 else 0
  {
    ReplyTellsFate(c, p, m, o);
    var h := Handled(Record(|p.admitted|, m), true);
    RouteAppend(p.accepted, h);
    RouteAppend(p.lost, h);
  }

  lemma AnswerUnclassified(subs: seq<Subscription>, i: nat, k: nat, r: SendResult, kind: Kind)
    requires i < |subs| && k < |subs[i].inFlight| && subs[i].inFlight[k].Waiting?
    ensures var u := subs[i].(inFlight := subs[i].inFlight[k := Answered(r)]);
            && SumCounters(subs[i := u], kind) == SumCounters(subs, kind)
            && SumUnclassified(subs[i := u], kind) ==
               SumUnclassified(subs, kind) + if KindOf(r) == kind then 1 else 0
  {
    var u := subs[i].(inFlight := subs[i].inFlight[k := Answered(r)]);
    UnclassifiedAt(subs[i].inFlight, k, Answered(r), kind);
    SumsAt(subs, i, u, kind);
  }

  lemma SinkStepKeepsInv(c: Config, s: Sink, e: SinkEvent)
    requires CanStep(s, e) && SinkInv(c, s)
    ensures SinkInv(c, Next(c, s, e))
  {
    match e
    case ProducerStep(p) => ProducerStepAgrees(c, s, p);
    case CallSend(i, k, m, o) => SendAgrees(c, s, i, k, m, o);
    case JsonFailure(i) => LocalStepAgrees(c, s, i, Next(c, s, e).subs[i]);
    case CountMessage(i) => CountMessageAgrees(c, s, i);
    case CountAnswer(i, k) => CountAnswerAgrees(c, s, i, k);
  }

  lemma CountMessageAgrees(c: Config, s: Sink, i: nat)
    requires CanStep(s, CountMessage(i)) && SinkInv(c, s)
    ensures SinkInv(c, Next(c, s, CountMessage(i)))
  {
    UnclassifiedAppend(s.subs[i].inFlight, SentKind);
    UnclassifiedAppend(s.subs[i].inFlight, DroppedKind);
    LocalStepAgrees(c, s, i, Next(c, s, CountMessage(i)).subs[i]);
  }

  lemma CountAnswerAgrees(c: Config, s: Sink, i: nat, k: nat)
    requires CanStep(s, CountAnswer(i, k)) && SinkInv(c, s)
    ensures SinkInv(c, Next(c, s, CountAnswer(i, k)))
  {
    UnclassifiedAt(s.subs[i].inFlight, k, Waiting, SentKind);
    UnclassifiedAt(s.subs[i].inFlight, k, Waiting, DroppedKind);
    LocalStepAgrees(c, s, i, Classify(s.subs[i], k));
  }

  /** A step inside one callback that keeps its subscription's books keeps the sink's. */
  lemma LocalStepAgrees(c: Config, s: Sink, i: nat, u: Subscription)
    requires i < |s.subs| && SinkInv(c, s) && Accounted(u)
    requires forall kind: Kind :: kind != ErrorKind ==>
      Counter(u, kind) + Unclassified(u.inFlight, kind) ==
      Counter(s.subs[i], kind) + Unclassified(s.subs[i].inFlight, kind)
    ensures SinkInv(c, s.(subs := s.subs[i := u]))
  {
    SumsAt(s.subs, i, u, SentKind);
    SumsAt(s.subs, i, u, DroppedKind);
  }

  lemma {:induction false} SinkRunKeepsInv(c: Config, s: Sink, events: seq<SinkEvent>)
    requires SinkRun(c, s, events) && SinkInv(c, s)
    ensures SinkInv(c, After(c, s, events))
    decreases |events|
  {
    if events != [] {
      SinkStepKeepsInv(c, s, events[0]);
      SinkRunKeepsInv(c, Next(c, s, events[0]), events[1..]);
    }
  }

  lemma {:induction false} NothingInFlight(subs: seq<Subscription>, kind: Kind)
    requires forall i :: 0 <= i < |subs| ==> subs[i].inFlight == []
    ensures SumUnclassified(subs, kind) == 0
  {
    if subs != [] {
      NothingInFlight(subs[1..], kind);
    }
  }

  lemma {:induction false} ZeroCounters(subs: seq<Subscription>, kind: Kind)
    requires forall i :: 0 <= i < |subs| ==> subs[i] == Subscription(0, 0, 0, 0, 0, [])
    ensures SumCounters(subs, kind) == 0
  {
    if subs != [] {
      ZeroCounters(subs[1..], kind);
    }
  }

  // ---------------------------------------------------------------- main result

  /** In every interleaving of callbacks, poll thread, start and stop: each subscription
      accounts for all its messages, and once no callback is in flight the producer has sent
      (dropped) exactly what the subscriptions count as sent (dropped) plus the buffered
      records the poll thread sent (dropped) later. */
  lemma SinkAndProducerAgree(c: Config, s: Sink, events: seq<SinkEvent>)
    requires Activated(s) && SinkRun(c, s, events)
    ensures var t := After(c, s, events);
            && (forall i :: 0 <= i < |t.subs| ==> Accounted(t.subs[i]))
            && t.producer.sentOk == SumCounters(t.subs, SentKind)
                 + SumUnclassified(t.subs, SentKind) + CountRoute(t.producer.accepted, false)
            && t.producer.droppedQueueFull == SumCounters(t.subs, DroppedKind)
                 + SumUnclassified(t.subs, DroppedKind) + CountRoute(t.producer.lost, false)
            && ((forall i :: 0 <= i < |t.subs| ==> t.subs[i].inFlight == []) ==>
                  && t.producer.sentOk ==
                     SumCounters(t.subs, SentKind) + CountRoute(t.producer.accepted, false)
                  && t.producer.droppedQueueFull ==
                     SumCounters(t.subs, DroppedKind) + CountRoute(t.producer.lost, false))
  {
    NothingInFlight(s.subs, SentKind);
    NothingInFlight(s.subs, DroppedKind);
    ZeroCounters(s.subs, SentKind);
    ZeroCounters(s.subs, DroppedKind);
    SinkRunKeepsInv(c, s, events);
    var t := After(c, s, events);
    RoutesCover(t.producer.accepted);
    RoutesCover(t.producer.lost);
    if forall i :: 0 <= i < |t.subs| ==> t.subs[i].inFlight == [] {
      NothingInFlight(t.subs, SentKind);
      NothingInFlight(t.subs, DroppedKind);
    }
  }

  // ---------------------------------------------------------------- the callback as it runs

  /** One callback from start to end, nothing stepping in between. */
  function Forwarded(c: Config, u: Subscription, producer: State, o: Outcome): Subscription {
    var k := |u.inFlight|;
    var counted := u.(msgsTotal := u.msgsTotal + 1, inFlight := u.inFlight + [Waiting]);
    Classify(counted.(inFlight := counted.inFlight[k := Answered(Reply(c, producer, o))]), k)
  }

  /** Such a callback counts its message, and its answer once, under what became of the record. */
  lemma ForwardedIs(c: Config, u: Subscription, producer: State, o: Outcome)
    ensures var t, r := Forwarded(c, u, producer, o), Reply(c, producer, o);
            && t.msgsTotal == u.msgsTotal + 1 && t.jsonFailures == u.jsonFailures && t.inFlight == u.inFlight
            && t.sentOk == u.sentOk + (if r.status == SENT then 1 else 0)
            && t.dropped == u.dropped + (if r == SendResult(QUEUE_FULL, false) then 1 else 0)
            && t.errors == u.errors
                 + (if r.status == SENT || r == SendResult(QUEUE_FULL, false) then 0 else 1)
  {
    hide Reply;
    var r := Reply(c, producer, o);
    assert (u.inFlight + [Waiting])[|u.inFlight| := Answered(r)][..|u.inFlight|] == u.inFlight;
    assert u.inFlight + [] == u.inFlight;
  }

  /** A message that does not become JSON is one error of its subscription and nothing else. */
  lemma JsonFailureIs(c: Config, s: Sink, i: nat)
    requires i < |s.subs|
    ensures var t, u := Next(c, s, JsonFailure(i)), s.subs[i];
            && t.producer == s.producer && |t.subs| == |s.subs|
            && t.subs[i] == u.(errors := u.errors + 1, jsonFailures := u.jsonFailures + 1)
            && forall j :: 0 <= j < |s.subs| && j != i ==> t.subs[j] == s.subs[j]
  {
  }

  /** It is three steps of the interleaved machine in a row. */
  lemma ForwardedSteps(c: Config, s: Sink, i: nat, m: Message, o: Outcome)
    requires i < |s.subs|
    ensures var k := |s.subs[i].inFlight|;
            && CanStep(s, CountMessage(i))
            && var s1 := Next(c, s, CountMessage(i));
               && CanStep(s1, CallSend(i, k, m, o))
               && var s2 := Next(c, s1, CallSend(i, k, m, o));
                  && CanStep(s2, CountAnswer(i, k))
                  && Next(c, s2, CountAnswer(i, k)) ==
                     Sink(Send(c, s.producer, m, o), s.subs[i := Forwarded(c, s.subs[i], s.producer, o)])
  {
    hide Send, Reply, Classify;
  }

  class SubscriptionRuntime {
    var msgsTotal: nat
    var sentOk: nat
    var dropped: nat
    var errors: nat
    ghost var jsonFailures: nat
    ghost var inFlight: seq<Callback>  // the other callbacks under way

    ghost function Abs(): Subscription reads this {
      Subscription(msgsTotal, sentOk, dropped, errors, jsonFailures, inFlight)
    }

    constructor ()
      ensures Abs() == Subscription(0, 0, 0, 0, 0, [])
    {
      msgsTotal, sentOk, dropped, errors, jsonFailures, inFlight := 0, 0, 0, 0, 0, [];
    }

    /** The subscription callback: a message that fails to become JSON is an error and never
        sent; any other is sent once and its answer counted once. */
    method OnMessage(active: bool, producer: KafkaProducer, jsonOk: bool, m: Message, o: Outcome)
      modifies this, producer
      ensures !active ==> Abs() == old(Abs()) && producer.Abs() == old(producer.Abs())
      ensures active && !jsonOk ==>
                && producer.Abs() == old(producer.Abs())
                && Abs() == old(Abs()).(errors := old(errors) + 1, jsonFailures := old(jsonFailures) + 1)
      ensures active && jsonOk ==>
                && producer.Abs() == Send(producer.config, old(producer.Abs()), m, o)
                && Abs() == Forwarded(producer.config, old(Abs()), old(producer.Abs()), o)
      ensures old(Accounted(Abs())) ==> Accounted(Abs())
    {
      hide Send, Reply;
      if !active { return; }
      if !jsonOk {
        errors := errors + 1;
        jsonFailures := jsonFailures + 1;
        return;
      }
      msgsTotal := msgsTotal + 1;
      var result := producer.SendRecord(m, o);
      if result.status == SENT {
        sentOk := sentOk + 1;
      } else if result.status == QUEUE_FULL && !result.buffered {
        dropped := dropped + 1;
      } else {
        errors := errors + 1;
      }
      assert (inFlight + [Waiting])[|inFlight| := Answered(result)][..|inFlight|] == inFlight;
      assert inFlight + [] == inFlight;
    }
  }
}
