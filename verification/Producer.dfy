/** The Kafka producer: `send`, the poll thread, `start` and `stop` as atomic steps
    over one mutex, and the class whose critical sections carry out those steps.

    Every record admitted past the running check gets the next number. The histories
    `accepted`, `errored`, `lost` and `cleared` say what became of it; the program itself
    keeps only the counters.
 */
module Producer {

  datatype StartupMode = STRICT | TOLERANT

  datatype Config = Config(maxQueueMessages: nat, dropWhenFull: bool, startupMode: StartupMode)

  datatype Status = STOPPED | STARTING | RUNNING | DEGRADED | FAILED

  datatype SendStatus = SENT | QUEUE_FULL | PRODUCER_UNAVAILABLE | ERROR

  datatype SendResult = SendResult(status: SendStatus, buffered: bool)

  /** What one librdkafka `produce` call answers. */
  datatype Outcome = Ok | Full | Rejected

  datatype Message = Message(
    topic: string, key: seq<bv8>, value: seq<bv8>, timestampMs: int, headers: seq<(string, string)>)

  datatype Record = Record(id: nat, message: Message)

  /** A record that left the program's hands, and whether `send` itself handed it over
      (direct) or the poll thread took it from the pending buffer. */
  datatype Handled = Handled(record: Record, direct: bool)

  /** Where the thread that serialises `start` and `stop` stands. */
  datatype ControlPc = Ready | StartEntered | StartCreated | StopEntered

  /** Where the poll thread stands. `InPoll` is between the unlocked null test and the
      unlocked dereference; a thread that has exited stays joinable until `stop` joins it. */
  datatype ThreadPc = NoThread | AtTop | BeforePoll | InPoll | BeforeWait | Exited

  datatype State = State(
    running: bool, producer: bool, pending: seq<Record>, status: Status,
    sentOk: nat, sendErrors: nat, droppedQueueFull: nat,
    control: ControlPc, thread: ThreadPc,
    admitted: seq<Message>, accepted: seq<Handled>, errored: seq<Handled>, lost: seq<Handled>,
    cleared: seq<Record>)

  const INITIAL := State(false, false, [], STOPPED, 0, 0, 0, Ready, NoThread, [], [], [], [], [])

  // ---------------------------------------------------------------- steps

  function TryProduce(s: State, h: Handled, o: Outcome): State {
    match o
    case Ok => s.(sentOk := s.sentOk + 1, accepted := s.accepted + [h])
    case Full => s
    case Rejected => s.(sendErrors := s.sendErrors + 1, errored := s.errored + [h])
  }

  function Drop(s: State, h: Handled): State {
    s.(droppedQueueFull := s.droppedQueueFull + 1, lost := s.lost + [h])
  }

  /** The critical section of `send`; `o` is what `produce` would answer. */
  function Send(c: Config, s: State, m: Message, o: Outcome): State {
    if !s.running then s
    else
      var r := Record(|s.admitted|, m);
      var h := Handled(r, true);
      var s1 := s.(admitted := s.admitted + [m]);
      if s.producer && (o != Full || c.dropWhenFull) then
        if o == Full then Drop(s1, h) else TryProduce(s1, h, o)
      else if |s.pending| >= c.maxQueueMessages then Drop(s1, h)
      else s1.(pending := s.pending + [r])
  }

  /** What `send` answers to its caller. */
  function Reply(c: Config, s: State, o: Outcome): SendResult {
    if !s.running then SendResult(PRODUCER_UNAVAILABLE, false)
    else if s.producer && o == Ok then SendResult(SENT, false)
    else if s.producer && o == Rejected then SendResult(ERROR, false)
    else if s.producer && c.dropWhenFull then SendResult(QUEUE_FULL, false)
    else SendResult(QUEUE_FULL, |s.pending| < c.maxQueueMessages)
  }

  /** The inner loop of the poll thread: produce from the front until the buffer is empty
      or the queue is full again. */
  function Drain(c: Config, s: State, outcomes: seq<Outcome>): State
    requires |s.pending| <= |outcomes|
    decreases |s.pending|
  {
    if s.pending == [] then s
    else if outcomes[0] == Full && !c.dropWhenFull then s
    else
      Drain(c, DrainOne(s, outcomes[0]), outcomes[1..])
  }

  function DrainOne(s: State, o: Outcome): State
    requires s.pending != []
  {
    var h := Handled(s.pending[0], false);
    var s1 := s.(pending := s.pending[1..]);
    if o == Full then Drop(s1, h) else TryProduce(s1, h, o)
  }

  /** The poll thread creates the missing producer, or fails to. */
  function Reconnect(s: State, created: bool): State {
    if s.producer then s
    else if created then s.(producer := true, status := RUNNING)
    else s.(status := DEGRADED)
  }

  /** One pass of the poll thread under the mutex, from the loop test to the unlock. */
  function Pass(c: Config, s: State, created: bool, outcomes: seq<Outcome>): State
    requires |s.pending| <= |outcomes|
  {
    if !s.running then s.(thread := Exited)
    else
      var s1 := Reconnect(s, created);
      (if s1.producer then Drain(c, s1, outcomes) else s1).(thread := BeforePoll)
  }

  datatype Event =
    | SendCall(message: Message, outcome: Outcome)
    | StartEnter
    | StartCreate(created: bool)
    | StartSpawn
    | StopEnter
    | StopFinish
    | PollPass(created: bool, outcomes: seq<Outcome>)
    | PollCheck
    | PollCall
    | WaitReturn

  /** The steps that can be taken in `s`: `start` and `stop` are serialised by the caller,
      `stop` waits in `join`, and the poll thread follows its own program counter. */
  predicate Enabled(s: State, e: Event) {
    match e
    case SendCall(_, _) => true
    case StartEnter => s.control == Ready
    case StartCreate(_) => s.control == StartEntered
    case StartSpawn => s.control == StartCreated
    case StopEnter => s.control == Ready
    case StopFinish => s.control == StopEntered && s.thread in {NoThread, Exited}
    case PollPass(_, outcomes) => s.thread == AtTop && |s.pending| <= |outcomes|
    case PollCheck => s.thread == BeforePoll
    case PollCall => s.thread == InPoll
    case WaitReturn => s.thread == BeforeWait
  }

  function Step(c: Config, s: State, e: Event): State
    requires Enabled(s, e)
  {
    match e
    case SendCall(m, o) => Send(c, s, m, o)
    case StartEnter =>
      if s.running then s else s.(running := true, status := STARTING, control := StartEntered)
    case StartCreate(created) =>
      if created then s.(producer := true, status := RUNNING, control := StartCreated)
      else if c.startupMode == STRICT then s.(running := false, status := FAILED, control := Ready)
      else s.(status := DEGRADED, control := StartCreated)
    case StartSpawn => s.(thread := AtTop, control := Ready)
    case StopEnter => if s.running then s.(running := false, control := StopEntered) else s
    case StopFinish =>
      s.(thread := NoThread, producer := false, cleared := s.cleared + s.pending, pending := [],
         status := STOPPED, control := Ready)
    case PollPass(created, outcomes) => Pass(c, s, created, outcomes)
    case PollCheck => s.(thread := if s.producer then InPoll else BeforeWait)
    case PollCall => s.(thread := BeforeWait)
    case WaitReturn => s.(thread := AtTop)
  }

  ghost predicate ValidRun(c: Config, s: State, events: seq<Event>)
    decreases |events|
  {
    events == [] || (Enabled(s, events[0]) && ValidRun(c, Step(c, s, events[0]), events[1..]))
  }

  function Run(c: Config, s: State, events: seq<Event>): State
    requires ValidRun(c, s, events)
    decreases |events|
  {
    if events == [] then s else Run(c, Step(c, s, events[0]), events[1..])
  }

  // ---------------------------------------------------------------- invariant

  function CountHandled(hs: seq<Handled>, id: nat): nat {
    if hs == [] then 0
    else CountHandled(hs[..|hs| - 1], id) + if hs[|hs| - 1].record.id == id then 1 else 0
  }

  function CountRecords(rs: seq<Record>, id: nat): nat {
    if rs == [] then 0 else (if rs[0].id == id then 1 else 0) + CountRecords(rs[1..], id)
  }

  /** How many fates the record numbered `id` has met. */
  function Fates(s: State, id: nat): nat {
    FatesIn(s.accepted, s.errored, s.lost, s.pending, s.cleared, id)
  }

  function FatesIn(
    accepted: seq<Handled>, errored: seq<Handled>, lost: seq<Handled>, pending: seq<Record>,
    cleared: seq<Record>, id: nat): nat
  {
    CountHandled(accepted, id) + CountHandled(errored, id) + CountHandled(lost, id)
    + CountRecords(pending, id) + CountRecords(cleared, id)
  }

  ghost predicate OneFate(
    n: nat, accepted: seq<Handled>, errored: seq<Handled>, lost: seq<Handled>, pending: seq<Record>,
    cleared: seq<Record>)
  {
    forall id: nat :: FatesIn(accepted, errored, lost, pending, cleared, id) == if id < n then 1 else 0
  }

  /** Every admitted record has exactly one fate, and the counters count the fates. */
  ghost predicate Conserved(c: Config, s: State) {
    && OneFate(|s.admitted|, s.accepted, s.errored, s.lost, s.pending, s.cleared)
    && |s.admitted| == |s.accepted| + |s.errored| + |s.lost| + |s.pending| + |s.cleared|
    && s.sentOk == |s.accepted| && s.sendErrors == |s.errored| && s.droppedQueueFull == |s.lost|
    && |s.pending| <= c.maxQueueMessages
  }

  /** What is handed over is what was sent, and each route keeps the order of sending. */
  ghost predicate Ordered(s: State) {
    OrderedParts(s.admitted, s.accepted, s.pending)
  }

  ghost predicate OrderedParts(admitted: seq<Message>, accepted: seq<Handled>, pending: seq<Record>) {
    && (forall i :: 0 <= i < |pending| ==> IsAdmitted(admitted, pending[i]))
    && (forall i :: 0 <= i < |accepted| ==> IsAdmitted(admitted, accepted[i].record))
    && (forall i, j :: 0 <= i < j < |pending| ==> pending[i].id < pending[j].id)
    && (forall i, j :: 0 <= i < |accepted| && 0 <= j < |pending| && !accepted[i].direct ==>
          accepted[i].record.id < pending[j].id)
    && (forall i, j :: 0 <= i < j < |accepted| && accepted[i].direct == accepted[j].direct ==>
          accepted[i].record.id < accepted[j].record.id)
  }

  predicate IsAdmitted(admitted: seq<Message>, r: Record) {
    r.id < |admitted| && r.message == admitted[r.id]
  }

  /** Which program counters, flags and statuses go together. */
  ghost predicate Coherent(s: State) {
    && (s.control == Ready ==>
          if s.running then s.thread !in {NoThread, Exited} else s.thread == NoThread && !s.producer)
    && (s.control in {StartEntered, StartCreated} ==> s.running && s.thread == NoThread)
    && (s.control == StartEntered ==> !s.producer)
    && (s.control == StartCreated ==> s.status == if s.producer then RUNNING else DEGRADED)
    && (s.control == StopEntered ==> !s.running && s.thread != NoThread)
    && (s.thread != NoThread ==> s.status == if s.producer then RUNNING else DEGRADED)
    && (s.thread == InPoll ==> s.producer)
    && (s.control == Ready && !s.running && s.pending != [] ==> s.status == FAILED)
  }

  ghost predicate Inv(c: Config, s: State) {
    Conserved(c, s) && Ordered(s) && Coherent(s)
  }

  lemma CountAppend(hs: seq<Handled>, h: Handled, id: nat)
    ensures CountHandled(hs + [h], id) ==
            CountHandled(hs, id) + if h.record.id == id then 1 else 0
  {
    assert (hs + [h])[..|hs|] == hs;
  }

  lemma {:induction false} CountConcat(a: seq<Record>, b: seq<Record>, id: nat)
    ensures CountRecords(a + b, id) == CountRecords(a, id) + CountRecords(b, id)
  {
    if a == [] {
      assert a + b == b;
    } else {
      assert (a + b)[1..] == a[1..] + b;
      CountConcat(a[1..], b, id);
    }
  }

  lemma {:induction false} CountPositive(hs: seq<Handled>, k: nat)
    requires k < |hs|
    ensures CountHandled(hs, hs[k].record.id) >= 1
  {
    if k < |hs| - 1 {
      CountPositive(hs[..|hs| - 1], k);
    }
  }

  /** Numbers that occur at most once stand at different places. */
  lemma {:induction false} SingleMeansDistinct(hs: seq<Handled>, i: nat, j: nat)
    requires i < j < |hs| && CountHandled(hs, hs[j].record.id) <= 1
    ensures hs[i].record.id != hs[j].record.id
  {
    var front := hs[..|hs| - 1];
    if j < |hs| - 1 {
      SingleMeansDistinct(front, i, j);
    } else {
      CountPositive(front, i);
    }
  }

  lemma SendFates(c: Config, s: State, m: Message, o: Outcome, id: nat)
    requires s.running
    ensures Fates(Send(c, s, m, o), id) ==
            Fates(s, id) + if id == |s.admitted| then 1 else 0
  {
    var r := Record(|s.admitted|, m);
    var h := Handled(r, true);
    ReplyTellsFate(c, s, m, o);
    match Reply(c, s, o).status
    case SENT => CountAppend(s.accepted, h, id);
    case ERROR => CountAppend(s.errored, h, id);
    case QUEUE_FULL =>
      if Reply(c, s, o).buffered {
        CountConcat(s.pending, [r], id);
      } else {
        CountAppend(s.lost, h, id);
      }
  }

  lemma SendConserves(c: Config, s: State, m: Message, o: Outcome)
    requires Conserved(c, s)
    ensures Conserved(c, Send(c, s, m, o))
  {
    if s.running {
      var t := Send(c, s, m, o);
      forall id: nat
        ensures FatesIn(t.accepted, t.errored, t.lost, t.pending, t.cleared, id) ==
                if id < |t.admitted| then 1 else 0
      {
        SendFates(c, s, m, o, id);
        assert Fates(s, id) == if id < |s.admitted| then 1 else 0;
      }
    }
  }

  lemma SendKeepsOrder(c: Config, s: State, m: Message, o: Outcome)
    requires Ordered(s)
    ensures Ordered(Send(c, s, m, o))
  {
    if s.running {
      ReplyTellsFate(c, s, m, o);
      AdmitKeepsOrder(s.admitted, s.accepted, s.pending, m);
      if Reply(c, s, o).buffered {
        BufferKeepsOrder(s.admitted, s.accepted, s.pending, m);
      } else if Reply(c, s, o).status == SENT {
        AcceptKeepsOrder(s.admitted, s.accepted, s.pending, m);
      }
    }
  }

  lemma AdmitKeepsOrder(ms: seq<Message>, accepted: seq<Handled>, pending: seq<Record>, m: Message)
    requires OrderedParts(ms, accepted, pending)
    ensures OrderedParts(ms + [m], accepted, pending)
  {
    assert forall r: Record :: IsAdmitted(ms, r) ==> IsAdmitted(ms + [m], r);
  }

  lemma BufferKeepsOrder(ms: seq<Message>, accepted: seq<Handled>, pending: seq<Record>, m: Message)
    requires OrderedParts(ms, accepted, pending)
    ensures OrderedParts(ms + [m], accepted, pending + [Record(|ms|, m)])
  {
    AdmitKeepsOrder(ms, accepted, pending, m);
  }

  lemma AcceptKeepsOrder(ms: seq<Message>, accepted: seq<Handled>, pending: seq<Record>, m: Message)
    requires OrderedParts(ms, accepted, pending)
    ensures OrderedParts(ms + [m], accepted + [Handled(Record(|ms|, m), true)], pending)
  {
    AdmitKeepsOrder(ms, accepted, pending, m);
  }

  lemma DrainOneFates(s: State, o: Outcome, id: nat)
    requires s.pending != []
    ensures Fates(DrainOne(s, o), id) == Fates(s, id)
  {
    var h := Handled(s.pending[0], false);
    match o
    case Ok => CountAppend(s.accepted, h, id);
    case Rejected => CountAppend(s.errored, h, id);
    case Full => CountAppend(s.lost, h, id);
  }

  lemma DrainOneConserves(c: Config, s: State, o: Outcome)
    requires Conserved(c, s) && s.pending != []
    ensures Conserved(c, DrainOne(s, o))
  {
    var t := DrainOne(s, o);
    forall id: nat
      ensures FatesIn(t.accepted, t.errored, t.lost, t.pending, t.cleared, id) ==
              if id < |t.admitted| then 1 else 0
    {
      DrainOneFates(s, o, id);
      assert Fates(s, id) == if id < |s.admitted| then 1 else 0;
    }
  }

  lemma DrainOneKeepsOrder(s: State, o: Outcome)
    requires Ordered(s) && s.pending != []
    ensures Ordered(DrainOne(s, o))
  {
    var t := DrainOne(s, o);
    assert forall i :: 0 <= i < |t.pending| ==> t.pending[i] == s.pending[i + 1];
    assert forall r: Record :: IsAdmitted(s.admitted, r) ==> IsAdmitted(t.admitted, r);
  }

  lemma {:induction false} DrainConserves(c: Config, s: State, outcomes: seq<Outcome>)
    requires |s.pending| <= |outcomes|
    requires Conserved(c, s)
    ensures Conserved(c, Drain(c, s, outcomes))
    decreases |s.pending|
  {
    if s.pending != [] && !(outcomes[0] == Full && !c.dropWhenFull) {
      DrainOneConserves(c, s, outcomes[0]);
      DrainConserves(c, DrainOne(s, outcomes[0]), outcomes[1..]);
    }
  }

  lemma {:induction false} DrainKeepsOrder(c: Config, s: State, outcomes: seq<Outcome>)
    requires |s.pending| <= |outcomes|
    requires Ordered(s)
    ensures Ordered(Drain(c, s, outcomes))
    decreases |s.pending|
  {
    if s.pending != [] && !(outcomes[0] == Full && !c.dropWhenFull) {
      DrainOneKeepsOrder(s, outcomes[0]);
      DrainKeepsOrder(c, DrainOne(s, outcomes[0]), outcomes[1..]);
    }
  }

  lemma {:induction false} DrainEmpties(c: Config, s: State, outcomes: seq<Outcome>)
    requires |s.pending| <= |outcomes|
    ensures SameControl(s, Drain(c, s, outcomes))
    ensures c.dropWhenFull ==> Drain(c, s, outcomes).pending == []
    decreases |s.pending|
  {
    if s.pending != [] && !(outcomes[0] == Full && !c.dropWhenFull) {
      DrainEmpties(c, DrainOne(s, outcomes[0]), outcomes[1..]);
    }
  }

  ghost predicate SameControl(s: State, t: State) {
    && t.running == s.running && t.producer == s.producer && t.status == s.status
    && t.control == s.control && t.thread == s.thread && t.admitted == s.admitted
  }

  lemma StepConserves(c: Config, s: State, e: Event)
    requires Conserved(c, s) && Enabled(s, e)
    ensures Conserved(c, Step(c, s, e))
  {
    match e
    case SendCall(m, o) => SendConserves(c, s, m, o);
    case StopFinish =>
      var t := Step(c, s, e);
      forall id: nat
        ensures FatesIn(t.accepted, t.errored, t.lost, t.pending, t.cleared, id) == Fates(s, id)
      {
        CountConcat(s.cleared, s.pending, id);
      }
    case PollPass(created, outcomes) =>
      if s.running && (s.producer || created) {
        DrainConserves(c, Reconnect(s, created), outcomes);
      }
    case _ =>
  }

  lemma StepKeepsOrder(c: Config, s: State, e: Event)
    requires Ordered(s) && Enabled(s, e)
    ensures Ordered(Step(c, s, e))
  {
    match e
    case SendCall(m, o) => SendKeepsOrder(c, s, m, o);
    case PollPass(created, outcomes) =>
      if s.running && (s.producer || created) {
        DrainKeepsOrder(c, Reconnect(s, created), outcomes);
      }
    case _ =>
  }

  lemma StepCoherent(c: Config, s: State, e: Event)
    requires Coherent(s) && Enabled(s, e)
    ensures Coherent(Step(c, s, e))
  {
    match e
    case PollPass(created, outcomes) =>
      if s.running && (s.producer || created) {
        DrainEmpties(c, Reconnect(s, created), outcomes);
      }
    case _ =>
  }

  lemma StepKeepsInv(c: Config, s: State, e: Event)
    requires Inv(c, s) && Enabled(s, e)
    ensures Inv(c, Step(c, s, e))
  {
    StepConserves(c, s, e);
    StepKeepsOrder(c, s, e);
    StepCoherent(c, s, e);
  }

  // ---------------------------------------------------------------- main results

  /** In every interleaving of sends, poll passes, starts and stops the invariant holds. */
  lemma {:induction false} RunKeepsInv(c: Config, s: State, events: seq<Event>)
    requires Inv(c, s) && ValidRun(c, s, events)
    ensures Inv(c, Run(c, s, events))
    decreases |events|
  {
    if events != [] {
      StepKeepsInv(c, s, events[0]);
      RunKeepsInv(c, Step(c, s, events[0]), events[1..]);
    }
  }

  lemma EveryRun(c: Config, events: seq<Event>)
    requires ValidRun(c, INITIAL, events)
    ensures Inv(c, Run(c, INITIAL, events))
  {
    RunKeepsInv(c, INITIAL, events);
  }

  /** Conservation: the counters, the buffer and what `stop` discarded account for every
      admitted record, each exactly once, and the buffer respects its bound. */
  lemma Conservation(c: Config, events: seq<Event>)
    requires ValidRun(c, INITIAL, events)
    ensures var s := Run(c, INITIAL, events);
            && |s.admitted| ==
               s.sentOk + s.sendErrors + s.droppedQueueFull + |s.pending| + |s.cleared|
            && |s.pending| <= c.maxQueueMessages
            && forall id: nat :: Fates(s, id) == if id < |s.admitted| then 1 else 0
  {
    EveryRun(c, events);
  }

  /** librdkafka never accepts a record twice, never accepts one that was not sent, and
      accepts the records of each route in the order they were sent. */
  lemma AtMostOnceInOrder(c: Config, events: seq<Event>)
    requires ValidRun(c, INITIAL, events)
    ensures var s := Run(c, INITIAL, events);
            && (forall i :: 0 <= i < |s.accepted| ==> IsAdmitted(s.admitted, s.accepted[i].record))
            && (forall i, j :: 0 <= i < j < |s.accepted| ==>
                  s.accepted[i].record.id != s.accepted[j].record.id)
            && (forall i, j :: 0 <= i < j < |s.accepted| &&
                  s.accepted[i].direct == s.accepted[j].direct
                  ==> s.accepted[i].record.id < s.accepted[j].record.id)
  {
    EveryRun(c, events);
    var s := Run(c, INITIAL, events);
    forall i, j | 0 <= i < j < |s.accepted|
      ensures s.accepted[i].record.id != s.accepted[j].record.id
    {
      assert Fates(s, s.accepted[j].record.id) <= 1;
      SingleMeansDistinct(s.accepted, i, j);
    }
  }

  /** The unlocked dereference never meets a null producer, and `start` never assigns over a
      thread that has not been joined; a living thread reports RUNNING exactly when it has a
      producer and DEGRADED otherwise. */
  lemma PollThreadSafety(c: Config, events: seq<Event>)
    requires ValidRun(c, INITIAL, events)
    ensures var s := Run(c, INITIAL, events);
            && (Enabled(s, PollCall) ==> s.producer)
            && (Enabled(s, StartSpawn) ==> s.thread == NoThread)
            && (Enabled(s, StopFinish) ==> s.thread == Exited)
            && (s.thread != NoThread ==>
                  && (s.status == RUNNING <==> s.producer)
                  && (s.status == DEGRADED <==> !s.producer))
            && (s.control == Ready && !s.running && s.pending != [] ==> s.status == FAILED)
  {
    EveryRun(c, events);
  }

  /** With drop_when_full, a pass that ends with a producer leaves the buffer empty ... */
  lemma DropModeDrains(c: Config, s: State, created: bool, outcomes: seq<Outcome>)
    requires Inv(c, s) && c.dropWhenFull && s.running
    requires |s.pending| <= |outcomes|
    ensures var t := Pass(c, s, created, outcomes);
            (t.producer <==> s.producer || created) && (t.producer ==> t.pending == [])
  {
    if s.producer || created {
      DrainEmpties(c, Reconnect(s, created), outcomes);
    }
  }

  /** ... and it stays empty through every later step up to the end of `stop`. */
  lemma {:induction false} DropModeStaysEmpty(c: Config, s: State, events: seq<Event>)
    requires Inv(c, s) && ValidRun(c, s, events) && c.dropWhenFull
    requires s.thread != NoThread && s.producer && s.pending == []
    requires forall e :: e in events ==> e != StopFinish
    ensures var t := Run(c, s, events); t.producer && t.pending == []
    decreases |events|
  {
    if events != [] {
      StepKeepsInv(c, s, events[0]);
      var t := Step(c, s, events[0]);
      assert events[0] in events;
      assert forall e :: e in events[1..] ==> e in events;
      DropModeStaysEmpty(c, t, events[1..]);
    }
  }

  /** Nothing accepted or still waiting is out of the order of sending. */
  ghost predicate Fifo(s: State) {
    FifoParts(s.accepted, s.pending)
  }

  ghost predicate FifoParts(accepted: seq<Handled>, pending: seq<Record>) {
    && (forall i, j :: 0 <= i < j < |accepted| ==> accepted[i].record.id < accepted[j].record.id)
    && (forall i, j :: 0 <= i < |accepted| && 0 <= j < |pending| ==>
          accepted[i].record.id < pending[j].id)
  }

  /** Whether a send overtakes: librdkafka takes it while older records wait. */
  predicate Overtakes(s: State, e: Event) {
    e.SendCall? && s.running && s.producer && e.outcome == Ok && s.pending != []
  }

  /** Total FIFO order is not promised: a step keeps it exactly when it is not an
      overtaking send. */
  lemma FifoKeptIff(c: Config, s: State, e: Event)
    requires Inv(c, s) && Enabled(s, e) && Fifo(s)
    ensures Fifo(Step(c, s, e)) <==> !Overtakes(s, e)
  {
    match e
    case SendCall(m, o) => SendFifo(c, s, m, o);
    case PollPass(created, outcomes) =>
      if s.running && (s.producer || created) {
        DrainKeepsFifo(c, Reconnect(s, created), outcomes);
      }
    case _ =>
  }

  lemma SendFifo(c: Config, s: State, m: Message, o: Outcome)
    requires Ordered(s) && Fifo(s)
    ensures Fifo(Send(c, s, m, o)) <==> !Overtakes(s, SendCall(m, o))
  {
    var t := Send(c, s, m, o);
    ReplyTellsFate(c, s, m, o);
    if Overtakes(s, SendCall(m, o)) {
      assert t.accepted[|s.accepted|].record.id == |s.admitted| && t.pending[0] == s.pending[0];
    } else if t.admitted != s.admitted {
      assert forall i :: 0 <= i < |s.accepted| ==> s.accepted[i].record.id < |s.admitted|;
    }
  }

  /** What a caller can tell before the call: a send keeps the order whatever librdkafka answers
      exactly when the producer is not both there and behind on its buffer. */
  lemma SendSafeIff(c: Config, s: State, m: Message)
    requires Inv(c, s) && Fifo(s)
    ensures (forall o :: Fifo(Send(c, s, m, o))) <==> !(s.running && s.producer && s.pending != [])
  {
    hide Fifo, Send, Inv;
    InvOrdered(c, s);
    forall o ensures Fifo(Send(c, s, m, o)) <==> !Overtakes(s, SendCall(m, o)) {
      SendFifo(c, s, m, o);
    }
    assert Overtakes(s, SendCall(m, Ok)) <==> s.running && s.producer && s.pending != [];
    assert Fifo(Send(c, s, m, Ok)) <==> !Overtakes(s, SendCall(m, Ok));
  }

  lemma InvOrdered(c: Config, s: State)
    requires Inv(c, s)
    ensures Ordered(s)
  {
  }

  lemma {:induction false} DrainKeepsFifo(c: Config, s: State, outcomes: seq<Outcome>)
    requires |s.pending| <= |outcomes|
    requires Ordered(s) && Fifo(s)
    ensures Fifo(Drain(c, s, outcomes))
    decreases |s.pending|
  {
    if s.pending != [] && !(outcomes[0] == Full && !c.dropWhenFull) {
      DrainOneKeepsOrder(s, outcomes[0]);
      DrainOneKeepsFifo(s, outcomes[0]);
      DrainKeepsFifo(c, DrainOne(s, outcomes[0]), outcomes[1..]);
    }
  }

  lemma DrainOneKeepsFifo(s: State, o: Outcome)
    requires s.pending != [] && Ordered(s) && Fifo(s)
    ensures Fifo(DrainOne(s, o))
  {
    var t := DrainOne(s, o);
    assert forall i :: 0 <= i < |t.pending| ==> t.pending[i] == s.pending[i + 1];
  }

  /** A run in which a later record reaches librdkafka before an earlier one. */
  lemma OvertakingHappens(c: Config, first: Message, second: Message)
    returns (events: seq<Event>)
    requires c.maxQueueMessages > 0 && !c.dropWhenFull
    ensures ValidRun(c, INITIAL, events)
    ensures var s := Run(c, INITIAL, events);
            |s.accepted| == 2 && s.accepted[0].record == Record(1, second) &&
            s.accepted[1].record == Record(0, first)
  {
    var s3 := State(true, true, [], RUNNING, 0, 0, 0, Ready, AtTop, [], [], [], [], []);
    assert s3 == Step(c, Step(c, Step(c, INITIAL, StartEnter), StartCreate(true)), StartSpawn);
    events := OvertakingFrom(c, s3, first, second);
    RunOne(c, Step(c, Step(c, INITIAL, StartEnter), StartCreate(true)), StartSpawn, events);
    events := [StartSpawn] + events;
    RunOne(c, Step(c, INITIAL, StartEnter), StartCreate(true), events);
    events := [StartCreate(true)] + events;
    RunOne(c, INITIAL, StartEnter, events);
    events := [StartEnter] + events;
  }

  lemma OvertakingFrom(c: Config, s3: State, first: Message, second: Message)
    returns (events: seq<Event>)
    requires c.maxQueueMessages > 0 && !c.dropWhenFull
    requires s3 == State(true, true, [], RUNNING, 0, 0, 0, Ready, AtTop, [], [], [], [], [])
    ensures ValidRun(c, s3, events)
    ensures var s := Run(c, s3, events);
            |s.accepted| == 2 && s.accepted[0].record == Record(1, second) &&
            s.accepted[1].record == Record(0, first)
  {
    var s4 := Step(c, s3, SendCall(first, Full));
    assert s4 == s3.(admitted := [first], pending := [Record(0, first)]);
    var s5 := Step(c, s4, SendCall(second, Ok));
    assert s5.accepted == [Handled(Record(1, second), true)] && s5.pending == s4.pending;
    var d := DrainOne(s5, Ok);
    assert d.pending == [] && Drain(c, s5, [Ok]) == d;
    RunOne(c, s5, PollPass(false, [Ok]), []);
    events := [PollPass(false, [Ok])] + [];
    RunOne(c, s4, SendCall(second, Ok), events);
    events := [SendCall(second, Ok)] + events;
    RunOne(c, s3, SendCall(first, Full), events);
    events := [SendCall(first, Full)] + events;
  }

  lemma RunOne(c: Config, s: State, e: Event, rest: seq<Event>)
    requires Enabled(s, e) && ValidRun(c, Step(c, s, e), rest)
    ensures ValidRun(c, s, [e] + rest)
    ensures Run(c, s, [e] + rest) == Run(c, Step(c, s, e), rest)
  {
    assert ([e] + rest)[1..] == rest;
  }

  /** The reply of `send` tells the caller which of the histories grew. */
  lemma ReplyTellsFate(c: Config, s: State, m: Message, o: Outcome)
    ensures var t := Send(c, s, m, o);
            var r := Reply(c, s, o);
            var h := Handled(Record(|s.admitted|, m), true);
            && (r.status == PRODUCER_UNAVAILABLE <==> t.admitted == s.admitted)
            && (t.accepted == if r.status == SENT then s.accepted + [h] else s.accepted)
            && (t.errored == if r.status == ERROR then s.errored + [h] else s.errored)
            && (t.lost == if r == SendResult(QUEUE_FULL, false) then s.lost + [h] else s.lost)
            && (t.pending == if r.buffered then s.pending + [h.record] else s.pending)
            && (r.buffered ==> r.status == QUEUE_FULL)
  {
    assert s.running ==> |s.admitted + [m]| == |s.admitted| + 1;
  }

  // ---------------------------------------------------------------- what each step does

  /** The records answered with `o`, in order, as the poll thread hands them over. */
  function Answered(rs: seq<Record>, outcomes: seq<Outcome>, o: Outcome): seq<Handled>
    requires |rs| == |outcomes|
  {
    if rs == [] then []
    else (if outcomes[0] == o then [Handled(rs[0], false)] else []) + Answered(rs[1..], outcomes[1..], o)
  }

  /** Where the poll thread stops: at the first record that finds the queue full and may not be
      dropped, or behind the last. */
  predicate StopsAt(c: Config, outcomes: seq<Outcome>, n: nat, k: nat)
    requires n <= |outcomes|
  {
    && k <= n && (forall i :: 0 <= i < k ==> outcomes[i] != Full || c.dropWhenFull)
    && (k < n ==> outcomes[k] == Full && !c.dropWhenFull)
  }

  /** What draining does by librdkafka's answers: the first `k` records leave the buffer, each to
      the history and the counter its answer names, and nothing else changes. */
  predicate DrainedBy(s: State, t: State, outcomes: seq<Outcome>, k: nat)
    requires k <= |s.pending| <= |outcomes|
  {
    var sent, rejected, full :=
      Answered(s.pending[..k], outcomes[..k], Ok), Answered(s.pending[..k], outcomes[..k], Rejected),
      Answered(s.pending[..k], outcomes[..k], Full);
    t == s.(pending := s.pending[k..],
            accepted := s.accepted + sent, sentOk := s.sentOk + |sent|,
            errored := s.errored + rejected, sendErrors := s.sendErrors + |rejected|,
            lost := s.lost + full, droppedQueueFull := s.droppedQueueFull + |full|)
  }

  lemma {:induction false} DrainIs(c: Config, s: State, outcomes: seq<Outcome>, k: nat)
    requires |s.pending| <= |outcomes| && StopsAt(c, outcomes, |s.pending|, k)
    ensures DrainedBy(s, Drain(c, s, outcomes), outcomes, k)
    decreases k
  {
    if k == 0 {
      assert s.pending[..0] == [] && outcomes[..0] == [];
      assert s.accepted + [] == s.accepted && s.errored + [] == s.errored && s.lost + [] == s.lost;
    } else {
      var s1 := DrainOne(s, outcomes[0]);
      DrainIs(c, s1, outcomes[1..], k - 1);
      DrainedMore(s, s1, Drain(c, s, outcomes), outcomes, k);
    }
  }

  lemma DrainedMore(s: State, s1: State, t: State, outcomes: seq<Outcome>, k: nat)
    requires 0 < k <= |s.pending| <= |outcomes|
    requires s1 == DrainOne(s, outcomes[0]) && DrainedBy(s1, t, outcomes[1..], k - 1)
    ensures DrainedBy(s, t, outcomes, k)
  {
    var h := Handled(s.pending[0], false);
    assert s.pending[..k][1..] == s1.pending[..k - 1] && outcomes[..k][1..] == outcomes[1..][..k - 1];
    assert s.pending[1..][k - 1..] == s.pending[k..];
    forall o: Outcome
      ensures Answered(s.pending[..k], outcomes[..k], o) ==
              (if outcomes[0] == o then [h] else []) + Answered(s1.pending[..k - 1], outcomes[1..][..k - 1], o)
    {
    }
    AppendsTo(s.accepted, h, Answered(s1.pending[..k - 1], outcomes[1..][..k - 1], Ok));
    AppendsTo(s.errored, h, Answered(s1.pending[..k - 1], outcomes[1..][..k - 1], Rejected));
    AppendsTo(s.lost, h, Answered(s1.pending[..k - 1], outcomes[1..][..k - 1], Full));
  }

  lemma AppendsTo(a: seq<Handled>, h: Handled, b: seq<Handled>)
    ensures (a + [h]) + b == a + ([h] + b) && [] + b == b
  {
  }

  /** One pass of the poll thread, by what creating the producer and librdkafka answer. */
  lemma PassIs(c: Config, s: State, created: bool, outcomes: seq<Outcome>, k: nat)
    requires |s.pending| <= |outcomes| && StopsAt(c, outcomes, |s.pending|, k)
    ensures !s.running ==> Pass(c, s, created, outcomes) == s.(thread := Exited)
    ensures s.running && !s.producer && !created ==>
              Pass(c, s, created, outcomes) == s.(status := DEGRADED, thread := BeforePoll)
    ensures s.running && (s.producer || created) ==>
              DrainedBy(s.(producer := true, status := if s.producer then s.status else RUNNING, thread := BeforePoll),
                        Pass(c, s, created, outcomes), outcomes, k)
  {
    if s.running && (s.producer || created) { DrainIs(c, Reconnect(s, created), outcomes, k); }
  }

  /** What becomes of a record that is sent, and what its caller is told. */
  lemma SendIs(c: Config, s: State, m: Message, o: Outcome)
    ensures !s.running ==> Send(c, s, m, o) == s && Reply(c, s, o) == SendResult(PRODUCER_UNAVAILABLE, false)
    ensures s.running ==>
              var r := Record(|s.admitted|, m);
              var h, s1 := Handled(r, true), s.(admitted := s.admitted + [m]);
              var t, reply := Send(c, s, m, o), Reply(c, s, o);
              if s.producer && o == Ok then
                t == s1.(accepted := s.accepted + [h], sentOk := s.sentOk + 1) && reply == SendResult(SENT, false)
              else if s.producer && o == Rejected then
                t == s1.(errored := s.errored + [h], sendErrors := s.sendErrors + 1)
                && reply == SendResult(ERROR, false)
              else if (s.producer && c.dropWhenFull) || |s.pending| >= c.maxQueueMessages then
                t == s1.(lost := s.lost + [h], droppedQueueFull := s.droppedQueueFull + 1)
                && reply == SendResult(QUEUE_FULL, false)
              else t == s1.(pending := s.pending + [r]) && reply == SendResult(QUEUE_FULL, true)
  {
  }

  /** Starting and stopping: a start that finds the producer running changes nothing; one that
      cannot create it fails in the strict mode and goes on without it in the tolerant one; a stop
      throws away what is still buffered. */
  lemma StartStopIs(c: Config, s: State)
    ensures s.control == Ready && s.running ==>
              Step(c, s, StartEnter) == s && Step(c, s, StopEnter) == s.(running := false, control := StopEntered)
    ensures s.control == Ready && !s.running ==>
              Step(c, s, StartEnter) == s.(running := true, status := STARTING, control := StartEntered)
              && Step(c, s, StopEnter) == s
    ensures s.control == StartEntered ==>
              && Step(c, s, StartCreate(true)) == s.(producer := true, status := RUNNING, control := StartCreated)
              && (c.startupMode == STRICT ==>
                    Step(c, s, StartCreate(false)) == s.(running := false, status := FAILED, control := Ready))
              && (c.startupMode == TOLERANT ==>
                    Step(c, s, StartCreate(false)) == s.(status := DEGRADED, control := StartCreated))
    ensures s.control == StopEntered && s.thread == Exited ==>
              Step(c, s, StopFinish) ==
              s.(producer := false, pending := [], cleared := s.cleared + s.pending, status := STOPPED,
                 thread := NoThread, control := Ready)
  {
  }

  // ---------------------------------------------------------------- the class

  /** The producer object. Each method below is one critical section, or one atomic access
      outside the mutex; its `ensures` is the step of the machine above. Ghost fields hold the
      program counters and the histories. */
  class KafkaProducer {
    const config: Config
    var running: bool
    var producer: bool
    var pendingRecords: seq<Record>
    var status: Status
    var sentOk: nat
    var sendErrors: nat
    var droppedQueueFull: nat
    var admitted: seq<Message>  // a record's number is its place here
    ghost var control: ControlPc
    ghost var thread: ThreadPc
    ghost var accepted: seq<Handled>
    ghost var errored: seq<Handled>
    ghost var lost: seq<Handled>
    ghost var cleared: seq<Record>

    ghost function Abs(): State
      reads this
    {
      State(running, producer, pendingRecords, status, sentOk, sendErrors, droppedQueueFull,
            control, thread, admitted, accepted, errored, lost, cleared)
    }

    constructor (config: Config)
      ensures this.config == config && Abs() == INITIAL
    {
      this.config := config;
      running, producer, pendingRecords, status := false, false, [], STOPPED;
      sentOk, sendErrors, droppedQueueFull := 0, 0, 0;
      control, thread := Ready, NoThread;
      admitted, accepted, errored, lost, cleared := [], [], [], [], [];
    }

    method TryProduceLocked(h: Handled, o: Outcome) returns (r: SendStatus)
      modifies this
      ensures old(producer) ==> Abs() == TryProduce(old(Abs()), h, o)
      ensures !old(producer) ==> Abs() == old(Abs()) && r == PRODUCER_UNAVAILABLE
      ensures old(producer) ==>
        r == match o case Ok => SENT case Full => QUEUE_FULL case Rejected => ERROR
    {
      if !producer {
        return PRODUCER_UNAVAILABLE;
      }
      if o == Ok {
        sentOk := sentOk + 1;
        accepted := accepted + [h];
        return SENT;
      }
      if o == Full {
        return QUEUE_FULL;
      }
      sendErrors := sendErrors + 1;
      errored := errored + [h];
      return ERROR;
    }

    method SendRecord(m: Message, o: Outcome) returns (r: SendResult)
      modifies this
      ensures Abs() == Send(config, old(Abs()), m, o)
      ensures r == Reply(config, old(Abs()), o)
    {
      if !running {
        return SendResult(PRODUCER_UNAVAILABLE, false);
      }
      var record := Record(|admitted|, m);
      ghost var h := Handled(record, true);
      admitted := admitted + [m];
      if producer {
        var result := TryProduceLocked(Handled(record, true), o);
        if result != QUEUE_FULL || config.dropWhenFull {
          if result == QUEUE_FULL && config.dropWhenFull {
            droppedQueueFull := droppedQueueFull + 1;
            lost := lost + [h];
          }
          return SendResult(result, false);
        }
      }
      if |pendingRecords| >= config.maxQueueMessages {
        droppedQueueFull := droppedQueueFull + 1;
        lost := lost + [h];
        return SendResult(QUEUE_FULL, false);
      }
      pendingRecords := pendingRecords + [record];
      return SendResult(QUEUE_FULL, true);
    }

    /** One turn of the inner loop: `popped` is false when the queue is full again. */
    method DrainFront(o: Outcome) returns (popped: bool)
      requires producer && pendingRecords != []
      modifies this
      ensures popped == (o != Full || config.dropWhenFull)
      ensures Abs() == if popped then DrainOne(old(Abs()), o) else old(Abs())
    {
      var h := Handled(pendingRecords[0], false);
      var result := TryProduceLocked(h, o);
      if result == QUEUE_FULL && !config.dropWhenFull {
        return false;
      } else if result == QUEUE_FULL && config.dropWhenFull {
        droppedQueueFull := droppedQueueFull + 1;
        lost := lost + [h];
      }
      pendingRecords := pendingRecords[1..];
      return true;
    }

    method DrainPending(outcomes: seq<Outcome>)
      requires producer && |pendingRecords| <= |outcomes|
      modifies this
      ensures Abs() == Drain(config, old(Abs()), outcomes)
    {
      var k := 0;
      while pendingRecords != []
        invariant k + |pendingRecords| <= |outcomes|
        invariant producer
        invariant Drain(config, Abs(), outcomes[k..]) == Drain(config, old(Abs()), outcomes)
        decreases |pendingRecords|
      {
        var popped := DrainFront(outcomes[k]);
        if !popped {
          return;
        }
        assert outcomes[k..][1..] == outcomes[k + 1..];
        k := k + 1;
      }
    }

    /** The body of the poll loop from the test of `running` to the unlock. */
    method PollLoopPass(created: bool, outcomes: seq<Outcome>)
      requires |pendingRecords| <= |outcomes|
      modifies this
      ensures Abs() == Pass(config, old(Abs()), created, outcomes)
    {
      if !running {
        thread := Exited;
        return;
      }
      if !producer {
        if created {
          producer, status := true, RUNNING;
        } else {
          status := DEGRADED;
        }
      }
      if producer {
        DrainPending(outcomes);
      }
      thread := BeforePoll;
    }

    /** The unlocked test of the producer handle, and the unlocked call through it. */
    method PollUnlocked() returns (polled: bool)
      requires Enabled(Abs(), PollCheck) && Coherent(Abs())
      modifies this
      ensures polled == old(producer)
      ensures var s1 := Step(config, old(Abs()), PollCheck);
              Abs() == if polled then Step(config, s1, PollCall) else s1
    {
      polled := producer;
      thread := BeforeWait;
    }

    method StartExchange() returns (alreadyRunning: bool)
      requires Enabled(Abs(), StartEnter)
      modifies this
      ensures alreadyRunning == old(running)
      ensures Abs() == Step(config, old(Abs()), StartEnter)
    {
      if running {
        return true;
      }
      running, status, control := true, STARTING, StartEntered;
      return false;
    }

    method StopExchange() returns (wasRunning: bool)
      requires Enabled(Abs(), StopEnter)
      modifies this
      ensures wasRunning == old(running)
      ensures Abs() == Step(config, old(Abs()), StopEnter)
    {
      if !running {
        return false;
      }
      running, control := false, StopEntered;
      return true;
    }

    method StartLocked(created: bool) returns (ok: bool)
      requires Enabled(Abs(), StartCreate(created))
      modifies this
      ensures ok == (created || config.startupMode == TOLERANT)
      ensures Abs() == Step(config, old(Abs()), StartCreate(created))
    {
      if created {
        producer, status := true, RUNNING;
      } else {
        if config.startupMode == STRICT {
          running, status, control := false, FAILED, Ready;
          return false;
        }
        status := DEGRADED;
      }
      control := StartCreated;
      return true;
    }

    method StopLocked()
      requires Enabled(Abs(), StopFinish)
      modifies this
      ensures Abs() == Step(config, old(Abs()), StopFinish)
    {
      thread := NoThread;
      producer := false;
      cleared := cleared + pendingRecords;
      pendingRecords := [];
      status, control := STOPPED, Ready;
    }
  }
}
