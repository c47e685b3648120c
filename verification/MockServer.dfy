/** The mock broker: the de-framer over a chunked byte stream, the dispatch of one message, the
    steps of a connection, and the class that keeps the logs.
 */
module MockServer {
  import opened Bytes
  import opened Options
  import opened MockStore
  import opened Produce
  import opened Fetch
  import opened Sequences

  /** What the server does not decide itself: UTF-8, and the answers to ApiVersions and Metadata
      requests as a function of key, version and correlation id. */
  datatype Config = Config(codec: Codec, describe: (nat, nat, nat) -> bytes)

  const PRODUCE := 0
  const FETCH := 1
  const METADATA := 3
  const API_VERSIONS := 18

  /** One message; None is no answer. */
  function Handle(c: Config, st: Store, m: bytes): (Store, Option<bytes>) {
    if |m| < 8 then (st, None)
    else
      var key, version, correlationId := FromBE(m[..2]), FromBE(m[2..4]), FromBE(m[4..8]);
      if key == API_VERSIONS || key == METADATA then
        (st, Some(c.describe(key, version, correlationId)))
      else if key == PRODUCE then ProduceRequest(c.codec, version, correlationId, m, st)
      else if key == FETCH then (st, FetchRequest(c.codec, version, correlationId, m, st))
      else (st, Some(ToBE(4, correlationId) + [0, 0]))
  }

  /** The messages in turn, and the non-empty answers sent. */
  function HandleAll(c: Config, st: Store, ms: seq<bytes>): (Store, seq<bytes>)
    decreases ms
  {
    if ms == [] then (st, [])
    else
      var r := Handle(c, st, ms[0]);
      var rest := HandleAll(c, r.0, ms[1..]);
      (rest.0, Answer(r.1) + rest.1)
  }

  function Answer(a: Option<bytes>): seq<bytes> {
    if a.Some? && a.value != [] then [a.value] else []
  }

  // ---------------------------------------------------------------- framing

  /** Whether a complete frame stands at the front. */
  predicate HasFrame(b: bytes) {
    |b| >= 4 && |b| >= 4 + FromBE(b[..4])
  }

  /** The complete frames of a buffer, and what is left over. */
  function Cut(b: bytes): (r: (seq<bytes>, bytes))
    ensures |r.1| <= |b|
    decreases |b|
  {
    if !HasFrame(b) then ([], b)
    else
      var size := FromBE(b[..4]);
      var r := Cut(b[4 + size..]);
      ([b[4..4 + size]] + r.0, r.1)
  }

  /** Frames as a client writes them. */
  function Join(ms: seq<bytes>): bytes
    requires FramesFit(ms)
  {
    if ms == [] then [] else ToBE(4, |ms[0]|) + ms[0] + Join(ms[1..])
  }

  predicate FramesFit(ms: seq<bytes>) {
    ms == [] || (|ms[0]| < Pow256(4) && FramesFit(ms[1..]))
  }

  /** The leftover holds no complete frame, and nothing was lost or reordered. */
  lemma {:induction false} CutIsFaithful(b: bytes)
    ensures FramesFit(Cut(b).0) && !HasFrame(Cut(b).1) && b == Join(Cut(b).0) + Cut(b).1
    decreases |b|
  {
    hide FromBE, ToBE, Pow256;
    if !HasFrame(b) {
      assert [] + b == b;
    } else {
      var size := FromBE(b[..4]);
      CutIsFaithful(b[4 + size..]);
      ToFromBE(b[..4]);
      var r := Cut(b[4 + size..]);
      assert b == b[..4] + b[4..4 + size] + b[4 + size..];
      Assoc(b[..4] + b[4..4 + size], Join(r.0), r.1);
      assert ([b[4..4 + size]] + r.0)[1..] == r.0;
    }
  }

  /** Whatever frames a client writes are the frames the server cuts. */
  lemma {:induction false} CutInvertsJoin(ms: seq<bytes>, rest: bytes)
    requires FramesFit(ms) && !HasFrame(rest)
    ensures Cut(Join(ms) + rest) == (ms, rest)
    decreases ms
  {
    hide ToBE, FromBE, Pow256;
    if ms == [] {
      assert Join(ms) + rest == rest;
    } else {
      var tail := Join(ms[1..]) + rest;
      FrameCut(ms[0], tail);
      assert Join(ms) + rest == ToBE(4, |ms[0]|) + ms[0] + tail;
      CutInvertsJoin(ms[1..], rest);
      assert [ms[0]] + ms[1..] == ms;
    }
  }

  lemma FrameCut(frame: bytes, tail: bytes)
    requires |frame| < Pow256(4)
    ensures var b := ToBE(4, |frame|) + frame + tail;
            HasFrame(b) && Cut(b) == ([frame] + Cut(tail).0, Cut(tail).1)
  {
    hide ToBE, FromBE, Pow256;
    var size := |frame|;
    var b := ToBE(4, size) + frame + tail;
    FromToBE(4, size);
    assert b[..4] == ToBE(4, size);
    assert b[4..4 + size] == frame && b[4 + size..] == tail;
  }

  /** Cutting in two goes is cutting in one. */
  lemma {:induction false} CutAppend(a: bytes, b: bytes)
    ensures var first := Cut(a);
            var second := Cut(first.1 + b);
            Cut(a + b) == (first.0 + second.0, second.1)
    decreases |a|
  {
    hide FromBE;
    if !HasFrame(a) {
      assert [] + Cut(a + b).0 == Cut(a + b).0;
    } else {
      var size := FromBE(a[..4]);
      assert (a + b)[..4] == a[..4];
      assert (a + b)[4 + size..] == a[4 + size..] + b;
      assert (a + b)[4..4 + size] == a[4..4 + size];
      CutAppend(a[4 + size..], b);
      Assoc([a[4..4 + size]], Cut(a[4 + size..]).0, Cut(Cut(a).1 + b).0);
    }
  }

  // ---------------------------------------------------------------- the connection

  /** How sending an answer ends: it goes through, it takes longer than the socket's timeout, or
      the connection breaks. */
  datatype SendOutcome = Done | TimedOut | Broken

  /** The outcome for the answer to each frame handled on a connection, by the frame's number. */
  type Net = nat -> SendOutcome

  /** What a connection has done: the store, the bytes received, those still in the buffer, how
      many frames were handled, the answers that went through, and whether it goes on. */
  datatype Session = Session(
    st: Store, received: bytes, buffer: bytes, handled: nat, sent: seq<bytes>, open: bool)

  function Opened(st: Store): Session {
    Session(st, [], [], 0, [], true)
  }

  /** The inner loop. A send that times out leaves it in the middle, the frame already cut and
      handled; the connection goes on. A broken one ends the connection. */
  function Frames(c: Config, net: Net, s: Session): (r: Session)
    ensures r.received == s.received
    decreases |s.buffer|
  {
    if !HasFrame(s.buffer) then s
    else
      var size := FromBE(s.buffer[..4]);
      var r := Handle(c, s.st, s.buffer[4..4 + size]);
      var s1 := s.(st := r.0, buffer := s.buffer[4 + size..], handled := s.handled + 1);
      if Answer(r.1) == [] then Frames(c, net, s1)
      else
        match net(s.handled)
        case Done => Frames(c, net, s1.(sent := s.sent + Answer(r.1)))
        case TimedOut => s1
        case Broken => s1.(open := false)
  }

  function Receive(c: Config, net: Net, s: Session, chunk: bytes): (r: Session)
    ensures r.received == s.received + chunk
  {
    Frames(c, net, s.(received := s.received + chunk, buffer := s.buffer + chunk))
  }

  /** Receives in turn, while the connection is open; an empty one is the end of the stream. */
  function Serve(c: Config, net: Net, s: Session, chunks: seq<bytes>): Session
    decreases chunks
  {
    if chunks == [] || chunks[0] == [] || !s.open then s
    else Serve(c, net, Receive(c, net, s, chunks[0]), chunks[1..])
  }

  function Flatten(chunks: seq<bytes>): bytes {
    if chunks == [] then [] else chunks[0] + Flatten(chunks[1..])
  }

  lemma {:induction false} HandleAllAppend(c: Config, st: Store, a: seq<bytes>, b: seq<bytes>)
    ensures var first := HandleAll(c, st, a);
            var second := HandleAll(c, first.0, b);
            HandleAll(c, st, a + b) == (second.0, first.1 + second.1)
    decreases a
  {
    hide Handle;
    if a == [] {
      assert a + b == b;
      assert [] + HandleAll(c, st, b).1 == HandleAll(c, st, b).1;
    } else {
      var r := Handle(c, st, a[0]);
      assert (a + b)[1..] == a[1..] + b;
      HandleAllAppend(c, r.0, a[1..], b);
      var first := HandleAll(c, r.0, a[1..]);
      Assoc(Answer(r.1), first.1, HandleAll(c, first.0, b).1);
    }
  }

  lemma NothingHandled(c: Config, st: Store)
    ensures HandleAll(c, st, []) == (st, [])
  {
  }

  // ---------------------------------------------------------------- the log over any requests

  /** Over any sequence of arbitrary messages the dictionaries stay consistent, offsets count
      the entries, and every log only grows by appending. */
  lemma {:induction false} AnyMessagesKeepLog(c: Config, st: Store, ms: seq<bytes>)
    requires LogInv(st)
    ensures var r := HandleAll(c, st, ms); LogInv(r.0) && Grows(st, r.0)
    decreases ms
  {
    hide LogInv, Grows;
    if ms == [] {
      GrowsRefl(st);
    } else {
      HandleKeepsLog(c, st, ms[0]);
      var st1 := Handle(c, st, ms[0]).0;
      AnyMessagesKeepLog(c, st1, ms[1..]);
      GrowsTrans(st, st1, HandleAll(c, st1, ms[1..]).0);
    }
  }

  lemma HandleKeepsLog(c: Config, st: Store, m: bytes)
    requires LogInv(st)
    ensures LogInv(Handle(c, st, m).0) && Grows(st, Handle(c, st, m).0)
  {
    hide LogInv, Grows, ProduceRequest, FetchRequest;
    GrowsRefl(st);
    if |m| >= 8 {
      ProduceKeepsLog(c.codec, FromBE(m[2..4]), FromBE(m[4..8]), m, st);
    }
  }

  // ---------------------------------------------------------------- the server as it runs

  class MockServer {
    var messages: map<string, map<int, Log>>
    var offsets: map<string, map<int, int>>
    const config: Config

    constructor (config: Config)
      ensures St() == Store(map[], map[]) && this.config == config
    {
      messages, offsets := map[], map[];
      this.config := config;
    }

    function St(): Store reads this {
      Store(messages, offsets)
    }

    /** One turn of the innermost loop: one record. */
    method StoreRecord(m: bytes, start: int, t: string, p: int, before: seq<int>)
      returns (off: int, batchOffsets: seq<int>, exit: Exit)
      requires HasPartition(St(), t, p)
      modifies this
      ensures RecordLoop(St(), off, batchOffsets, exit) == RecordStep(m, start, old(St()), t, p, before)
      ensures HasPartition(St(), t, p)
    {
      hide ReadSigned, Slice;
      off, batchOffsets := start, before;
      if off + 8 > |m| { return off, batchOffsets, Break; }
      var batchOffset := ReadSigned(8, m, off);
      if batchOffset.None? { return off, batchOffsets, Raise; }
      off := off + 8;
      if off + 4 > |m| { return off, batchOffsets, Break; }
      var size := ReadSigned(4, m, off);
      if size.None? { return off, batchOffsets, Raise; }
      off := off + 4;
      if off + size.value > |m| { return off, batchOffsets, Break; }
      var payload := Slice(m, off, off + size.value);
      off := off + size.value;
      var current := offsets[t][p];
      var entry := Entry(current, batchOffset.value, payload, -1);
      messages := messages[t := messages[t][p := messages[t][p] + [entry]]];
      batchOffsets := batchOffsets + [current];
      offsets := offsets[t := offsets[t][p := offsets[t][p] + 1]];
      exit := Continue;
    }

    /** The innermost loop: up to `n` records into one partition. */
    method StoreRecords(m: bytes, start: int, n: nat, t: string, p: int)
      returns (off: int, batchOffsets: seq<int>, exit: Exit)
      requires HasPartition(St(), t, p)
      modifies this
      ensures RecordLoop(St(), off, batchOffsets, exit) == Records(m, start, n, old(St()), t, p, [])
    {
      hide RecordStep;
      off, batchOffsets, exit := start, [], Break;
      var i := 0;
      while i < n
        invariant 0 <= i <= n && HasPartition(St(), t, p) && exit == Break
        invariant Records(m, off, n - i, St(), t, p, batchOffsets) ==
                  Records(m, start, n, old(St()), t, p, [])
      {
        off, batchOffsets, exit := StoreRecord(m, off, t, p, batchOffsets);
        if exit != Continue { return; }
        i, exit := i + 1, Break;
      }
    }

    /** One turn of the middle loop: one partition of a topic, its answer appended to `head`. */
    method StorePartition(version: nat, m: bytes, start: int, t: string, head: bytes)
      returns (off: int, response: bytes, exit: Exit)
      requires HasTopic(St(), t)
      modifies this
      ensures Loop(St(), off, response, exit) == PartitionStep(version, m, start, old(St()), t, head)
      ensures HasTopic(St(), t)
    {
      hide ReadSigned, Slice, Records, PackSigned, PartitionAnswer;
      off, response := start, head;
      if off + 4 > |m| { return off, response, Break; }
      var p := ReadSigned(4, m, off);
      if p.None? { return off, response, Raise; }
      off := off + 4;
      if p.value !in messages[t] {
        messages := messages[t := messages[t][p.value := []]];
        offsets := offsets[t := offsets[t][p.value := 0]];
      }
      if off + 4 > |m| { return off, response, Break; }
      var count := ReadSigned(4, m, off);
      if count.None? { return off, response, Raise; }
      off := off + 4;
      if p.value !in offsets[t] { return off, response, Raise; }
      var batchOffsets, recordExit;
      off, batchOffsets, recordExit := StoreRecords(m, off, Rounds(count.value, MAX_RECORDS), t, p.value);
      var base := Base(batchOffsets);
      if recordExit == Raise || !Fits(8, base) { return off, response, Raise; }
      var answer := AnswerPartition(version, p.value, base);
      response, exit := response + answer, Continue;
    }

    static method AnswerPartition(version: nat, p: int, base: int) returns (answer: bytes)
      requires Fits(4, p) && Fits(8, base)
      ensures answer == PartitionAnswer(version, p, base)
    {
      hide PackSigned;
      Widths();
      answer := PackSigned(4, p) + PackSigned(2, 0) + PackSigned(8, base);
      assert answer + [] == answer;
      if version >= 2 { answer := answer + PackSigned(8, -1); }
      assert answer + [] == answer;
      if version >= 5 { answer := answer + PackSigned(8, 0); }
    }

    /** The middle loop: up to `n` partitions of one topic. */
    method StorePartitions(version: nat, m: bytes, start: int, n: nat, t: string, head: bytes)
      returns (off: int, response: bytes, exit: Exit)
      requires HasTopic(St(), t)
      modifies this
      ensures Loop(St(), off, response, exit) == Partitions(version, m, start, n, old(St()), t, head)
    {
      hide PartitionStep;
      off, response, exit := start, head, Break;
      var i := 0;
      while i < n
        invariant 0 <= i <= n && HasTopic(St(), t) && exit == Break
        invariant Partitions(version, m, off, n - i, St(), t, response) ==
                  Partitions(version, m, start, n, old(St()), t, head)
      {
        off, response, exit := StorePartition(version, m, off, t, response);
        if exit != Continue { return; }
        i, exit := i + 1, Break;
      }
    }

    /** One turn of the outer loop: one topic. */
    method StoreTopic(version: nat, m: bytes, start: int, head: bytes)
      returns (off: int, response: bytes, exit: Exit)
      modifies this
      ensures Loop(St(), off, response, exit) ==
              TopicStep(config.codec, version, m, start, old(St()), head)
    {
      hide ReadSigned, Slice, Partitions, TopicAnswer;
      off, response := start, head;
      if off + 2 > |m| { return off, response, Break; }
      var size := ReadSigned(2, m, off);
      if size.None? { return off, response, Raise; }
      off := off + 2;
      if off + size.value > |m| { return off, response, Break; }
      var t := config.codec.decode(Slice(m, off, off + size.value));
      off := off + size.value;
      if t !in messages {
        messages := messages[t := map[]];
        offsets := offsets[t := map[]];
      }
      if off + 4 > |m| { return off, response, Break; }
      var count := ReadSigned(4, m, off);
      if count.None? { return off, response, Raise; }
      off := off + 4;
      if !Fits(2, |t|) || t !in offsets { return off, response, Raise; }
      response := response + TopicAnswer(config.codec, t, count.value);
      off, response, exit :=
        StorePartitions(version, m, off, Rounds(count.value, MAX_PARTITIONS), t, response);
      if exit != Raise { exit := Continue; }
    }

    /** The outer loop: up to `n` topics. */
    method StoreTopics(version: nat, m: bytes, start: int, n: nat, head: bytes)
      returns (off: int, response: bytes, exit: Exit)
      modifies this
      ensures Loop(St(), off, response, exit) ==
              Topics(config.codec, version, m, start, n, old(St()), head)
    {
      hide TopicStep;
      off, response, exit := start, head, Break;
      var i := 0;
      while i < n
        invariant 0 <= i <= n && exit == Break
        invariant Topics(config.codec, version, m, off, n - i, St(), response) ==
                  Topics(config.codec, version, m, start, n, old(St()), head)
      {
        off, response, exit := StoreTopic(version, m, off, response);
        if exit != Continue { return; }
        i, exit := i + 1, Break;
      }
    }

    method CreateProduceResponse(version: nat, correlationId: nat, m: bytes) returns (r: Option<bytes>)
      requires correlationId < Pow256(4)
      modifies this
      ensures (St(), r) == ProduceRequest(config.codec, version, correlationId, m, old(St()))
    {
      var off := 8;
      if version >= 1 {
        var size := ReadSigned(2, m, off);
        if size.None? { return Some(Fallback(version, correlationId)); }
        off := off + 2;
        if size.value > 0 { off := off + size.value; }
      }
      off := off + 2;
      off := off + 4;
      if off + 4 > |m| { return None; }
      var count := ReadSigned(4, m, off);
      if count.None? { return Some(Fallback(version, correlationId)); }
      off := off + 4;
      var response := ToBE(4, correlationId) + PackSigned(4, count.value);
      var exit;
      off, response, exit := StoreTopics(version, m, off, Rounds(count.value, MAX_TOPICS), response);
      if exit == Raise { return Some(Fallback(version, correlationId)); }
      assert response + [] == response;
      if version >= 1 { response := response + ToBE(4, 0); }
      return Some(response);
    }

    /** One partition of a fetch: it only reads the dictionaries. */
    method FetchPartition(version: nat, m: bytes, start: int, t: string, head: bytes)
      returns (off: int, response: bytes, exit: Exit)
      ensures FetchLoop(off, response, exit) == FetchPartStep(version, m, start, St(), t, head)
    {
      hide ReadSigned, MarkAnswer;
      off, response := start, head;
      if off + 8 > |m| { return off, response, Break; }
      var p := ReadSigned(4, m, off);
      var fetchOffset := ReadSigned(8, m, off + 4);
      if p.None? || fetchOffset.None? { return off, response, Raise; }
      off := off + 12;
      if off + 4 > |m| { return off, response, Break; }
      var maxBytes := ReadSigned(4, m, off);
      if maxBytes.None? { return off, response, Raise; }
      var mark := 0;
      if t in messages && p.value in messages[t] {
        if t !in offsets || p.value !in offsets[t] { return off, response, Raise; }
        mark := offsets[t][p.value];
      }
      off := off + 4;
      if !Fits(8, mark) { return off, response, Raise; }
      response, exit := response + MarkAnswer(version, p.value, mark), Continue;
    }

    method FetchPartitions(version: nat, m: bytes, start: int, n: nat, t: string, head: bytes)
      returns (off: int, response: bytes, exit: Exit)
      ensures FetchLoop(off, response, exit) == FetchParts(version, m, start, n, St(), t, head)
    {
      hide FetchPartStep;
      off, response, exit := start, head, Break;
      var i := 0;
      while i < n
        invariant 0 <= i <= n && exit == Break
        invariant FetchParts(version, m, off, n - i, St(), t, response) ==
                  FetchParts(version, m, start, n, St(), t, head)
      {
        off, response, exit := FetchPartition(version, m, off, t, response);
        if exit != Continue { return; }
        i, exit := i + 1, Break;
      }
    }

    method FetchTopic(version: nat, m: bytes, start: int, head: bytes)
      returns (off: int, response: bytes, exit: Exit)
      ensures FetchLoop(off, response, exit) ==
              FetchTopicStep(config.codec, version, m, start, St(), head)
    {
      hide ReadSigned, Slice, FetchParts, TopicAnswer;
      off, response := start, head;
      if off + 2 > |m| { return off, response, Break; }
      var size := ReadSigned(2, m, off);
      if size.None? { return off, response, Raise; }
      off := off + 2;
      if off + size.value > |m| { return off, response, Break; }
      var t := config.codec.decode(Slice(m, off, off + size.value));
      off := off + size.value;
      if off + 4 > |m| { return off, response, Break; }
      var count := ReadSigned(4, m, off);
      if count.None? { return off, response, Raise; }
      off := off + 4;
      if !Fits(2, |t|) { return off, response, Raise; }
      response := response + TopicAnswer(config.codec, t, count.value);
      off, response, exit :=
        FetchPartitions(version, m, off, Rounds(count.value, MAX_PARTITIONS), t, response);
      if exit != Raise { exit := Continue; }
    }

    method FetchAllTopics(version: nat, m: bytes, start: int, n: nat, head: bytes)
      returns (off: int, response: bytes, exit: Exit)
      ensures FetchLoop(off, response, exit) ==
              FetchTopics(config.codec, version, m, start, n, St(), head)
    {
      hide FetchTopicStep;
      off, response, exit := start, head, Break;
      var i := 0;
      while i < n
        invariant 0 <= i <= n && exit == Break
        invariant FetchTopics(config.codec, version, m, off, n - i, St(), response) ==
                  FetchTopics(config.codec, version, m, start, n, St(), head)
      {
        off, response, exit := FetchTopic(version, m, off, response);
        if exit != Continue { return; }
        i, exit := i + 1, Break;
      }
    }

    method CreateFetchResponse(version: nat, correlationId: nat, m: bytes) returns (r: Option<bytes>)
      requires correlationId < Pow256(4)
      ensures r == FetchRequest(config.codec, version, correlationId, m, St())
    {
      var off := 8;
      if off + 4 > |m| { return None; }
      off := off + 4;
      if off + 4 > |m| { return None; }
      off := off + 4;
      if off + 4 > |m| { return None; }
      off := off + 4;
      if off + 4 > |m| { return None; }
      var count := ReadSigned(4, m, off);
      if count.None? { return None; }
      off := off + 4;
      var response := FetchHead(version, correlationId, count.value);
      var exit;
      off, response, exit := FetchAllTopics(version, m, off, Rounds(count.value, MAX_TOPICS), response);
      if exit == Raise { return None; }
      return Some(response);
    }

    method HandleKafkaMessage(m: bytes) returns (r: Option<bytes>)
      modifies this
      ensures (St(), r) == Handle(config, old(St()), m)
    {
      if |m| < 8 { return None; }
      var key, version, correlationId := FromBE(m[..2]), FromBE(m[2..4]), FromBE(m[4..8]);
      if key == API_VERSIONS {
        r := Some(config.describe(key, version, correlationId));
      } else if key == METADATA {
        r := Some(config.describe(key, version, correlationId));
      } else if key == PRODUCE {
        r := CreateProduceResponse(version, correlationId, m);
      } else if key == FETCH {
        r := CreateFetchResponse(version, correlationId, m);
      } else {
        r := Some(ToBE(4, correlationId) + [0, 0]);
      }
    }

    /** Frames are cut and handled while the buffer holds one and every answer goes through. */
    method DrainBuffer(net: Net, ghost received: bytes, buffer: bytes, handled: nat, sent: seq<bytes>)
      returns (rest: bytes, count: nat, answers: seq<bytes>, open: bool)
      modifies this
      ensures Session(St(), received, rest, count, answers, open) ==
              Frames(config, net, Session(old(St()), received, buffer, handled, sent, true))
    {
      hide Handle;
      rest, count, answers, open := buffer, handled, sent, true;
      while |rest| >= 4
        invariant open
        invariant Frames(config, net, Session(St(), received, rest, count, answers, true)) ==
                  Frames(config, net, Session(old(St()), received, buffer, handled, sent, true))
        decreases |rest|
      {
        var size := FromBE(rest[..4]);
        if |rest| < 4 + size { break; }
        var message := rest[4..4 + size];
        rest := rest[4 + size..];
        var response := HandleKafkaMessage(message);
        count := count + 1;
        if response.Some? && response.value != [] {
          match net(count - 1) {
            case Done => answers := answers + [response.value];
            case TimedOut => return;
            case Broken => return rest, count, answers, false;
          }
        }
      }
    }

    /** A connection: receives until an empty one or a broken send. */
    method HandleClient(net: Net, chunks: seq<bytes>)
      returns (ghost received: bytes, buffer: bytes, handled: nat, sent: seq<bytes>, open: bool)
      modifies this
      ensures Session(St(), received, buffer, handled, sent, open) ==
              Serve(config, net, Opened(old(St())), chunks)
    {
      hide Frames;
      received, buffer, handled, sent, open := [], [], 0, [], true;
      var i := 0;
      while i < |chunks| && open
        invariant 0 <= i <= |chunks|
        invariant Serve(config, net, Session(St(), received, buffer, handled, sent, open), chunks[i..]) ==
                  Serve(config, net, Opened(old(St())), chunks)
        decreases |chunks| - i
      {
        var data := chunks[i];
        if data == [] { break; }
        received := received + data;
        buffer, handled, sent, open := DrainBuffer(net, received, buffer + data, handled, sent);
        assert chunks[i..][1..] == chunks[i + 1..];
        i := i + 1;
      }
    }
  }

  lemma OneMore(c: Config, st: Store, ms: seq<bytes>, m: bytes)
    ensures var first := HandleAll(c, st, ms);
            var r := Handle(c, first.0, m);
            HandleAll(c, st, ms + [m]) == (r.0, first.1 + Answer(r.1))
  {
    hide Handle;
    var first := HandleAll(c, st, ms);
    HandleAllAppend(c, st, ms, [m]);
    var r := Handle(c, first.0, m);
    NothingHandled(c, r.0);
    assert [m][1..] == [] && Answer(r.1) + [] == Answer(r.1);
  }
}
