/** The sink's lock-free statistics: callbacks on any threads step through a load and a
    compare-exchange. A load, and a failing exchange, may see any value the cell has held;
    an exchange that succeeds acts on the value it holds now, and may fail for no reason.
 */
module AtomicStats {
  import opened Options

  // ---------------------------------------------------------------- minimum and maximum

  datatype Sense = Max | Min

  predicate Better(s: Sense, a: int, b: int) {
    match s
    case Max => a > b
    case Min => a < b
  }

  /** Where a callback stands: before its load, holding what it last saw, or past the loop. */
  datatype Pc = Start | Holding(prev: int) | Finished

  datatype Callback = Callback(value: int, pc: Pc)

  /** Every value the cell has held, the present one last, and the callbacks so far. */
  datatype Cell = Cell(history: seq<int>, callbacks: seq<Callback>)

  datatype Event =
    | Arrive(value: int)
    | Load(i: nat, seen: nat)
    | Attempt(i: nat, spurious: bool, seen: nat)

  function Fresh(initial: int): Cell {
    Cell([initial], [])
  }

  predicate Enabled(c: Cell, e: Event) {
    match e
    case Arrive(_) => true
    case Load(i, seen) => i < |c.callbacks| && c.callbacks[i].pc.Start? && seen < |c.history|
    case Attempt(i, _, seen) => i < |c.callbacks| && c.callbacks[i].pc.Holding? && seen < |c.history|
  }

  function Stored(c: Cell): int
    requires c.history != []
  {
    c.history[|c.history| - 1]
  }

  /** One turn of `while (value > prev && !compare_exchange_weak(prev, value))`. */
  function Step(s: Sense, c: Cell, e: Event): (r: Cell)
    requires c.history != [] && Enabled(c, e)
    ensures r.history != []
  {
    match e
    case Arrive(value) => c.(callbacks := c.callbacks + [Callback(value, Start)])
    case Load(i, seen) => Move(c, i, Holding(c.history[seen]))
    case Attempt(i, spurious, seen) =>
      var cb := c.callbacks[i];
      if !Better(s, cb.value, cb.pc.prev) then Move(c, i, Finished)
      else if cb.pc.prev == Stored(c) && !spurious then
        Move(c.(history := c.history + [cb.value]), i, Finished)
      else Move(c, i, Holding(c.history[seen]))
  }

  function Move(c: Cell, i: nat, pc: Pc): Cell
    requires i < |c.callbacks|
  {
    c.(callbacks := c.callbacks[i := c.callbacks[i].(pc := pc)])
  }

  /** What an exchange does: a value no better than the one held finishes without a store; a better
      one is stored, and its callback finished, when the one held is still there and the exchange
      does not fail for no reason; and otherwise the callback holds what it now saw. */
  lemma AttemptIs(s: Sense, c: Cell, i: nat, spurious: bool, seen: nat)
    requires c.history != [] && Enabled(c, Attempt(i, spurious, seen))
    ensures var r, cb := Step(s, c, Attempt(i, spurious, seen)), c.callbacks[i];
            var better := if s == Max then cb.value > cb.pc.prev else cb.value < cb.pc.prev;
            && |r.callbacks| == |c.callbacks|
            && (forall j :: 0 <= j < |c.callbacks| && j != i ==> r.callbacks[j] == c.callbacks[j])
            && (!better ==> r.history == c.history && r.callbacks[i] == Callback(cb.value, Finished))
            && (better && cb.pc.prev == Stored(c) && !spurious ==>
                  r.history == c.history + [cb.value] && r.callbacks[i] == Callback(cb.value, Finished))
            && (better && (cb.pc.prev != Stored(c) || spurious) ==>
                  r.history == c.history && r.callbacks[i] == Callback(cb.value, Holding(c.history[seen])))
  {
  }

  predicate ValidRun(s: Sense, c: Cell, events: seq<Event>)
    requires c.history != []
    decreases events
  {
    events == [] || (Enabled(c, events[0]) && ValidRun(s, Step(s, c, events[0]), events[1..]))
  }

  function Run(s: Sense, c: Cell, events: seq<Event>): (r: Cell)
    requires c.history != [] && ValidRun(s, c, events)
    ensures r.history != []
    decreases events
  {
    if events == [] then c else Run(s, Step(s, c, events[0]), events[1..])
  }

  /** Values only ever improve; each was the initial one or presented by a callback; and what a
      callback holds was once stored, and a finished one's value is no better than the cell's. */
  ghost predicate CellOk(s: Sense, initial: int, c: Cell) {
    && c.history != [] && c.history[0] == initial
    && (forall i, j :: 0 <= i < j < |c.history| ==> Better(s, c.history[j], c.history[i]))
    && (forall h :: 0 < h < |c.history| ==> Presented(c, c.history[h]))
    && (forall i :: 0 <= i < |c.callbacks| ==> CallbackOk(s, c.history, c.callbacks[i]))
  }

  predicate Presented(c: Cell, v: int) {
    exists i :: 0 <= i < |c.callbacks| && c.callbacks[i].value == v
  }

  predicate CallbackOk(s: Sense, history: seq<int>, cb: Callback)
    requires history != []
  {
    match cb.pc
    case Start => true
    case Holding(prev) => prev in history
    case Finished => !Better(s, cb.value, history[|history| - 1])
  }

  lemma StepKeepsOk(s: Sense, initial: int, c: Cell, e: Event)
    requires CellOk(s, initial, c) && Enabled(c, e)
    ensures CellOk(s, initial, Step(s, c, e)) && c.history <= Step(s, c, e).history
  {
    hide Presented;
    var r := Step(s, c, e);
    ValuesKept(s, c, e);
    forall h | 0 < h < |c.history| ensures Presented(r, c.history[h]) {
      assert Presented(c, c.history[h]);
    }
    if |r.history| > |c.history| {
      PresentedBy(r, e.i);
      forall i | 0 <= i < |r.callbacks| ensures CallbackOk(s, r.history, r.callbacks[i]) {
        assert CallbackOk(s, c.history, c.callbacks[i]);
      }
    } else if e.Attempt? && !Better(s, c.callbacks[e.i].value, c.callbacks[e.i].pc.prev) {
      assert CallbackOk(s, c.history, c.callbacks[e.i]);
    }
  }

  lemma PresentedBy(c: Cell, i: nat)
    requires i < |c.callbacks|
    ensures Presented(c, c.callbacks[i].value)
  {
  }

  lemma ValuesKept(s: Sense, c: Cell, e: Event)
    requires c.history != [] && Enabled(c, e)
    ensures forall v :: Presented(c, v) ==> Presented(Step(s, c, e), v)
  {
    var r := Step(s, c, e);
    forall v | Presented(c, v) ensures Presented(r, v) {
      var i :| 0 <= i < |c.callbacks| && c.callbacks[i].value == v;
      assert r.callbacks[i].value == v;
    }
  }

  lemma {:induction false} RunKeepsOk(s: Sense, initial: int, c: Cell, events: seq<Event>)
    requires CellOk(s, initial, c) && ValidRun(s, c, events)
    ensures CellOk(s, initial, Run(s, c, events)) && c.history <= Run(s, c, events).history
    decreases events
  {
    hide CellOk;
    NotEmpty(s, initial, c);
    if events != [] {
      StepKeepsOk(s, initial, c, events[0]);
      RunKeepsOk(s, initial, Step(s, c, events[0]), events[1..]);
    }
  }

  lemma NotEmpty(s: Sense, initial: int, c: Cell)
    requires CellOk(s, initial, c)
    ensures c.history != []
  {
  }

  /** No update is lost: in every run the cell never gets worse, holds the initial value or one
      some callback presented, and is at least as good as every finished callback's value. */
  lemma NoUpdateLost(s: Sense, initial: int, events: seq<Event>)
    requires ValidRun(s, Fresh(initial), events)
    ensures var c := Run(s, Fresh(initial), events);
            && (Stored(c) == initial || Presented(c, Stored(c)))
            && !Better(s, initial, Stored(c))
            && (forall i, j :: 0 <= i < j < |c.history| ==> Better(s, c.history[j], c.history[i]))
            && forall i :: 0 <= i < |c.callbacks| && c.callbacks[i].pc.Finished? ==>
                 !Better(s, c.callbacks[i].value, Stored(c))
  {
    RunKeepsOk(s, initial, Fresh(initial), events);
    var c := Run(s, Fresh(initial), events);
    forall i | 0 <= i < |c.callbacks| && c.callbacks[i].pc.Finished?
      ensures !Better(s, c.callbacks[i].value, Stored(c))
    {
      assert CallbackOk(s, c.history, c.callbacks[i]);
    }
  }

  /** The best of an initial value and a list of values. */
  function Best(s: Sense, initial: int, values: seq<int>): int {
    if values == [] then initial
    else
      var front, v := Best(s, initial, values[..|values| - 1]), values[|values| - 1];
      if Better(s, v, front) then v else front
  }

  function Values(cbs: seq<Callback>): (r: seq<int>)
    ensures |r| == |cbs| && forall i :: 0 <= i < |cbs| ==> r[i] == cbs[i].value
  {
    if cbs == [] then [] else Values(cbs[..|cbs| - 1]) + [cbs[|cbs| - 1].value]
  }

  lemma {:induction false} BestIs(s: Sense, initial: int, values: seq<int>, x: int)
    requires x == initial || x in values
    requires !Better(s, initial, x) && forall i :: 0 <= i < |values| ==> !Better(s, values[i], x)
    ensures Best(s, initial, values) == x
  {
    BestBounds(s, initial, values);
  }

  lemma {:induction false} BestBounds(s: Sense, initial: int, values: seq<int>)
    ensures var b := Best(s, initial, values);
            && (b == initial || b in values) && !Better(s, initial, b)
            && forall i :: 0 <= i < |values| ==> !Better(s, values[i], b)
  {
    if values != [] {
      BestBounds(s, initial, values[..|values| - 1]);
      assert forall i :: 0 <= i < |values| - 1 ==> values[..|values| - 1][i] == values[i];
    }
  }

  /** Once no callback is under way, the cell holds exactly the maximum, or the minimum, of all
      the values presented. */
  lemma QuiescentIsExact(s: Sense, initial: int, events: seq<Event>)
    requires ValidRun(s, Fresh(initial), events)
    requires var c := Run(s, Fresh(initial), events);
             forall i :: 0 <= i < |c.callbacks| ==> c.callbacks[i].pc.Finished?
    ensures var c := Run(s, Fresh(initial), events);
            && Stored(c) == Best(s, initial, Values(c.callbacks))
            && (Stored(c) == initial || Presented(c, Stored(c)))
            && (s == Max ==> initial <= Stored(c) && forall i :: 0 <= i < |c.callbacks| ==>
                                                     c.callbacks[i].value <= Stored(c))
            && (s == Min ==> initial >= Stored(c) && forall i :: 0 <= i < |c.callbacks| ==>
                                                     c.callbacks[i].value >= Stored(c))
  {
    NoUpdateLost(s, initial, events);
    var c := Run(s, Fresh(initial), events);
    var values := Values(c.callbacks);
    if Presented(c, Stored(c)) {
      var i :| 0 <= i < |c.callbacks| && c.callbacks[i].value == Stored(c);
      assert values[i] == Stored(c);
    }
    BestIs(s, initial, values, Stored(c));
  }

  // ---------------------------------------------------------------- the log throttle

  const INTERVAL := 1_000_000_000

  /** A callback's clock reading and the deadline it loaded. Clocks may differ and run back. */
  datatype Reader = Reader(now: int, deadline: int)

  /** Every deadline the cell has held, the callbacks between load and exchange, and the clock
      readings of those that won, in order. */
  datatype Throttle = Throttle(deadlines: seq<int>, readers: map<nat, Reader>, wins: seq<int>)

  datatype Tick = Read(id: nat, now: int, seen: nat) | Exchange(id: nat)

  predicate TickEnabled(t: Throttle, e: Tick) {
    match e
    case Read(id, _, seen) => id !in t.readers && seen < |t.deadlines|
    case Exchange(id) => id in t.readers
  }

  /** Log when the deadline has passed and the exchange still finds it; the strong exchange
      does not fail spuriously. */
  function TickStep(t: Throttle, e: Tick): (r: Throttle)
    requires t.deadlines != [] && TickEnabled(t, e)
    ensures r.deadlines != []
  {
    match e
    case Read(id, now, seen) => t.(readers := t.readers[id := Reader(now, t.deadlines[seen])])
    case Exchange(id) =>
      var rd := t.readers[id];
      var left := t.(readers := t.readers - {id});
      if rd.now >= rd.deadline && rd.deadline == t.deadlines[|t.deadlines| - 1] then
        left.(deadlines := t.deadlines + [rd.now + INTERVAL], wins := t.wins + [rd.now])
      else left
  }

  predicate ValidTicks(t: Throttle, ticks: seq<Tick>)
    requires t.deadlines != []
    decreases ticks
  {
    ticks == [] || (TickEnabled(t, ticks[0]) && ValidTicks(TickStep(t, ticks[0]), ticks[1..]))
  }

  function RunTicks(t: Throttle, ticks: seq<Tick>): (r: Throttle)
    requires t.deadlines != [] && ValidTicks(t, ticks)
    ensures r.deadlines != []
    decreases ticks
  {
    if ticks == [] then t else RunTicks(TickStep(t, ticks[0]), ticks[1..])
  }

  predicate Rising(xs: seq<int>) {
    forall i, j :: 0 <= i < j < |xs| ==> xs[i] < xs[j]
  }

  predicate Apart(xs: seq<int>, gap: int) {
    forall i, j :: 0 <= i < j < |xs| ==> xs[j] - xs[i] >= gap
  }

  /** Win number `i` met its deadline and set the next one. */
  predicate WinOk(deadlines: seq<int>, wins: seq<int>, i: int)
    requires 0 <= i < |wins| && |deadlines| == |wins| + 1
  {
    wins[i] >= deadlines[i] && deadlines[i + 1] == wins[i] + INTERVAL
  }

  predicate ThrottleOk(t: Throttle) {
    && |t.deadlines| == |t.wins| + 1
    && (forall i :: 0 <= i < |t.wins| ==> WinOk(t.deadlines, t.wins, i))
    && Rising(t.deadlines)
  }

  lemma TickKeepsOk(t: Throttle, e: Tick)
    requires ThrottleOk(t) && TickEnabled(t, e)
    ensures ThrottleOk(TickStep(t, e))
  {
    var r := TickStep(t, e);
    if |r.wins| > |t.wins| {
      Extend(t.deadlines, t.wins, r.wins[|t.wins|]);
    }
  }

  lemma Extend(deadlines: seq<int>, wins: seq<int>, now: int)
    requires |deadlines| == |wins| + 1 && now >= deadlines[|wins|] && Rising(deadlines)
    requires forall i :: 0 <= i < |wins| ==> WinOk(deadlines, wins, i)
    ensures var ds, ws := deadlines + [now + INTERVAL], wins + [now];
            Rising(ds) && forall i :: 0 <= i < |ws| ==> WinOk(ds, ws, i)
  {
    var ds, ws := deadlines + [now + INTERVAL], wins + [now];
    forall i | 0 <= i < |ws| ensures WinOk(ds, ws, i) {
      if i < |wins| { assert WinOk(deadlines, wins, i); }
    }
  }

  lemma WinsApart(deadlines: seq<int>, wins: seq<int>)
    requires |deadlines| == |wins| + 1 && Rising(deadlines)
    requires forall i :: 0 <= i < |wins| ==> WinOk(deadlines, wins, i)
    ensures Apart(wins, INTERVAL)
  {
    forall i, j | 0 <= i < j < |wins| ensures wins[j] - wins[i] >= INTERVAL {
      assert WinOk(deadlines, wins, i) && WinOk(deadlines, wins, j);
      assert deadlines[i + 1] <= deadlines[j];
    }
  }

  lemma {:induction false} TicksKeepOk(t: Throttle, ticks: seq<Tick>)
    requires t.deadlines != [] && ThrottleOk(t) && ValidTicks(t, ticks)
    ensures ThrottleOk(RunTicks(t, ticks))
    decreases ticks
  {
    hide ThrottleOk;
    if ticks != [] {
      TickKeepsOk(t, ticks[0]);
      TicksKeepOk(TickStep(t, ticks[0]), ticks[1..]);
    }
  }

  /** A correct rate limiter, in every interleaving and whatever the clocks read: any two
      winners read times at least a second apart, and the deadline rises with every win. */
  lemma RateLimited(ticks: seq<Tick>)
    requires ValidTicks(Throttle([0], map[], []), ticks)
    ensures var t := RunTicks(Throttle([0], map[], []), ticks);
            Apart(t.wins, 1_000_000_000) && Rising(t.deadlines)
  {
    hide WinOk, Rising, Apart;
    var t0 := Throttle([0], map[], []);
    RisingOne(0);
    TicksKeepOk(t0, ticks);
    var t := RunTicks(t0, ticks);
    WinsApart(t.deadlines, t.wins);
  }

  lemma RisingOne(x: int)
    ensures Rising([x])
  {
  }

  /** A callback that holds the present deadline wins exactly when its clock has reached it, and
      then moves it a second past its own reading. */
  lemma PresentWinsIff(t: Throttle, id: nat)
    requires t.deadlines != [] && id in t.readers
    requires t.readers[id].deadline == t.deadlines[|t.deadlines| - 1]
    ensures var r, rd := TickStep(t, Exchange(id)), t.readers[id];
            && id !in r.readers
            && (rd.now >= rd.deadline ==>
                  r.wins == t.wins + [rd.now] && r.deadlines == t.deadlines + [rd.now + 1_000_000_000])
            && (rd.now < rd.deadline ==> r.wins == t.wins && r.deadlines == t.deadlines)
  {
  }

  /** A callback that loaded any but the present deadline loses. */
  lemma StaleLoses(t: Throttle, id: nat, seen: nat)
    requires ThrottleOk(t) && id in t.readers && seen < |t.deadlines| - 1
    requires t.readers[id].deadline == t.deadlines[seen]
    ensures TickStep(t, Exchange(id)).wins == t.wins
    ensures TickStep(t, Exchange(id)).deadlines == t.deadlines
  {
  }
}
