/** The wire format of a produce request, and the proof that the server's parser inverts it:
    the logs receive exactly the payloads sent, and the answer names the offsets.
 */
module ProduceRoundTrip {
  import opened Bytes
  import opened Options
  import opened MockStore
  import opened Produce
  import opened Sequences

  datatype Rec = Rec(batchOffset: int, payload: bytes)

  datatype Part = Part(id: int, records: seq<Rec>)

  datatype Topic = Topic(name: bytes, parts: seq<Part>)

  /** A null transactional id is None. */
  datatype Request = Request(transactionalId: Option<bytes>, acks: int, timeout: int, topics: seq<Topic>)

  // ---------------------------------------------------------------- well-formed requests

  predicate RecOk(r: Rec) {
    Fits(8, r.batchOffset) && Fits(4, |r.payload|)
  }

  predicate RecsOk(rs: seq<Rec>) {
    rs == [] || (RecOk(rs[0]) && RecsOk(rs[1..]))
  }

  predicate PartOk(p: Part) {
    Fits(4, p.id) && |p.records| <= 1000 && RecsOk(p.records)
  }

  predicate PartsOk(ps: seq<Part>) {
    ps == [] || (PartOk(ps[0]) && PartsOk(ps[1..]))
  }

  predicate TopicOk(t: Topic) {
    Fits(2, |t.name|) && |t.parts| <= 100 && PartsOk(t.parts)
  }

  predicate TopicsOk(ts: seq<Topic>) {
    ts == [] || (TopicOk(ts[0]) && TopicsOk(ts[1..]))
  }

  predicate RequestOk(q: Request) {
    && (q.transactionalId.Some? ==> Fits(2, |q.transactionalId.value|))
    && Fits(2, q.acks) && Fits(4, q.timeout) && |q.topics| <= 100 && TopicsOk(q.topics)
  }

  // ---------------------------------------------------------------- the wire format

  function RecSize(r: Rec): nat {
    12 + |r.payload|
  }

  function RecsSize(rs: seq<Rec>): nat {
    if rs == [] then 0 else RecSize(rs[0]) + RecsSize(rs[1..])
  }

  function PartSize(p: Part): nat {
    8 + RecsSize(p.records)
  }

  function PartsSize(ps: seq<Part>): nat {
    if ps == [] then 0 else PartSize(ps[0]) + PartsSize(ps[1..])
  }

  function TopicSize(t: Topic): nat {
    6 + |t.name| + PartsSize(t.parts)
  }

  function TopicsSize(ts: seq<Topic>): nat {
    if ts == [] then 0 else TopicSize(ts[0]) + TopicsSize(ts[1..])
  }

  function EncRec(r: Rec): (b: bytes)
    requires RecOk(r)
    ensures |b| == RecSize(r)
  {
    PackSigned(8, r.batchOffset) + (PackSigned(4, |r.payload|) + r.payload)
  }

  function EncRecs(rs: seq<Rec>): (b: bytes)
    requires RecsOk(rs)
    ensures |b| == RecsSize(rs)
  {
    if rs == [] then [] else EncRec(rs[0]) + EncRecs(rs[1..])
  }

  function EncPart(p: Part): (b: bytes)
    requires PartOk(p)
    ensures |b| == PartSize(p)
  {
    Widths();
    PackSigned(4, p.id) + (PackSigned(4, |p.records|) + EncRecs(p.records))
  }

  function EncParts(ps: seq<Part>): (b: bytes)
    requires PartsOk(ps)
    ensures |b| == PartsSize(ps)
  {
    if ps == [] then [] else EncPart(ps[0]) + EncParts(ps[1..])
  }

  function EncTopic(t: Topic): (b: bytes)
    requires TopicOk(t)
    ensures |b| == TopicSize(t)
  {
    Widths();
    PackSigned(2, |t.name|) + (t.name + (PackSigned(4, |t.parts|) + EncParts(t.parts)))
  }

  function EncTopics(ts: seq<Topic>): (b: bytes)
    requires TopicsOk(ts)
    ensures |b| == TopicsSize(ts)
  {
    if ts == [] then [] else EncTopic(ts[0]) + EncTopics(ts[1..])
  }

  function EncTransactionalId(id: Option<bytes>): bytes
    requires id.Some? ==> Fits(2, |id.value|)
  {
    Widths();
    match id
    case None => PackSigned(2, -1)
    case Some(b) => PackSigned(2, |b|) + b
  }

  /** The whole message, its 8-byte header first. */
  function EncRequest(header: bytes, version: nat, q: Request): bytes
    requires |header| == 8 && RequestOk(q)
  {
    Widths();
    header + ((if version >= 1 then EncTransactionalId(q.transactionalId) else [])
    + ((PackSigned(2, q.acks) + PackSigned(4, q.timeout))
    + (PackSigned(4, |q.topics|) + EncTopics(q.topics))))
  }

  // ---------------------------------------------------------------- what it should do

  function StoreRecs(st: Store, t: string, p: int, rs: seq<Rec>): (r: Store)
    requires HasPartition(st, t, p)
    ensures HasPartition(r, t, p)
    decreases rs
  {
    if rs == [] then st
    else StoreRecs(Append(st, t, p, rs[0].batchOffset, rs[0].payload), t, p, rs[1..])
  }

  function StorePart(st: Store, t: string, p: Part): (r: Store)
    requires HasTopic(st, t)
    ensures HasTopic(r, t)
  {
    var st1 := AddPartition(st, t, p.id);
    if HasPartition(st1, t, p.id) then StoreRecs(st1, t, p.id, p.records) else st1
  }

  function StoreParts(st: Store, t: string, ps: seq<Part>): Store
    requires HasTopic(st, t)
    decreases ps
  {
    if ps == [] then st else StoreParts(StorePart(st, t, ps[0]), t, ps[1..])
  }

  function StoreTopic(codec: Codec, st: Store, t: Topic): Store {
    var st1 := AddTopic(st, codec.decode(t.name));
    if HasTopic(st1, codec.decode(t.name)) then StoreParts(st1, codec.decode(t.name), t.parts) else st1
  }

  function StoreTopics(codec: Codec, st: Store, ts: seq<Topic>): Store
    decreases ts
  {
    if ts == [] then st else StoreTopics(codec, StoreTopic(codec, st, ts[0]), ts[1..])
  }

  function Payloads(log: Log): (r: seq<bytes>)
    ensures |r| == |log|
  {
    if log == [] then [] else [log[0].payload] + Payloads(log[1..])
  }

  function RecPayloads(rs: seq<Rec>): (r: seq<bytes>)
    ensures |r| == |rs|
  {
    if rs == [] then [] else [rs[0].payload] + RecPayloads(rs[1..])
  }

  /** The payloads a request addresses to one partition, in the order it lists them. */
  function PartsPayloads(ps: seq<Part>, p: int): seq<bytes> {
    if ps == [] then []
    else (if ps[0].id == p then RecPayloads(ps[0].records) else []) + PartsPayloads(ps[1..], p)
  }

  function TopicsPayloads(codec: Codec, ts: seq<Topic>, t: string, p: int): seq<bytes> {
    if ts == [] then []
    else (if codec.decode(ts[0].name) == t then PartsPayloads(ts[0].parts, p) else [])
         + TopicsPayloads(codec, ts[1..], t, p)
  }

  lemma AddTopicOk(st: Store, t: string)
    requires LogInv(st)
    ensures var r := AddTopic(st, t);
            LogInv(r) && HasTopic(r, t) && forall u, q :: LogOf(r, u, q) == LogOf(st, u, q)
  {
    var r := AddTopic(st, t);
    assert LogInvAt(st, t, 0);
    forall u, q ensures LogInvAt(r, u, q) && LogOf(r, u, q) == LogOf(st, u, q) {
      assert LogInvAt(st, u, q);
    }
  }

  lemma AddPartitionOk(st: Store, t: string, p: int)
    requires LogInv(st) && HasTopic(st, t)
    ensures var r := AddPartition(st, t, p);
            LogInv(r) && HasPartition(r, t, p) && forall u, q :: LogOf(r, u, q) == LogOf(st, u, q)
  {
    var r := AddPartition(st, t, p);
    assert LogInvAt(st, t, p);
    forall u, q ensures LogInvAt(r, u, q) && LogOf(r, u, q) == LogOf(st, u, q) {
      assert LogInvAt(st, u, q);
    }
  }

  lemma PayloadsConcat(a: Log, b: Log)
    ensures Payloads(a + b) == Payloads(a) + Payloads(b)
  {
    if a == [] {
      assert a + b == b;
    } else {
      assert (a + b)[1..] == a[1..] + b;
    }
  }

  lemma {:induction false} StoreRecsEffect(st: Store, t: string, p: int, rs: seq<Rec>)
    requires LogInv(st) && HasPartition(st, t, p)
    ensures var r := StoreRecs(st, t, p, rs);
            && LogInv(r)
            && forall u, q :: Payloads(LogOf(r, u, q)) ==
                 Payloads(LogOf(st, u, q)) + if u == t && q == p then RecPayloads(rs) else []
    decreases rs
  {
    hide Append, LogOf, LogInv;
    if rs != [] {
      AppendEffect(st, t, p, rs[0]);
      StoreRecsEffect(Append(st, t, p, rs[0].batchOffset, rs[0].payload), t, p, rs[1..]);
    }
  }

  lemma AppendEffect(st: Store, t: string, p: int, r: Rec)
    requires LogInv(st) && HasPartition(st, t, p)
    ensures var st1 := Append(st, t, p, r.batchOffset, r.payload);
            && LogInv(st1) && HasPartition(st1, t, p)
            && forall u, q :: Payloads(LogOf(st1, u, q)) ==
                 Payloads(LogOf(st, u, q)) + if u == t && q == p then [r.payload] else []
  {
    var st1 := Append(st, t, p, r.batchOffset, r.payload);
    forall u, q
      ensures LogInvAt(st1, u, q)
      ensures Payloads(LogOf(st1, u, q)) ==
              Payloads(LogOf(st, u, q)) + if u == t && q == p then [r.payload] else []
    {
      assert LogInvAt(st, u, q);
      AppendFacts(st, t, p, r.batchOffset, r.payload, u, q);
      PayloadsConcat(LogOf(st, u, q), [Entry(|LogOf(st, t, p)|, r.batchOffset, r.payload, -1)]);
    }
  }

  lemma StorePartEffect(st: Store, t: string, p: Part)
    requires LogInv(st) && HasTopic(st, t)
    ensures LogInv(StorePart(st, t, p))
    ensures forall u, q :: Payloads(LogOf(StorePart(st, t, p), u, q)) ==
              Payloads(LogOf(st, u, q)) + if u == t && q == p.id then RecPayloads(p.records) else []
  {
    AddPartitionOk(st, t, p.id);
    StoreRecsEffect(AddPartition(st, t, p.id), t, p.id, p.records);
  }

  lemma {:induction false} StorePartsEffect(st: Store, t: string, ps: seq<Part>, u: string, q: int)
    requires LogInv(st) && HasTopic(st, t)
    ensures LogInv(StoreParts(st, t, ps))
    ensures Payloads(LogOf(StoreParts(st, t, ps), u, q)) ==
            Payloads(LogOf(st, u, q)) + if u == t then PartsPayloads(ps, q) else []
    decreases ps
  {
    if ps != [] {
      StorePartEffect(st, t, ps[0]);
      StorePartsEffect(StorePart(st, t, ps[0]), t, ps[1..], u, q);
      if u == t {
        Assoc(Payloads(LogOf(st, u, q)), if ps[0].id == q then RecPayloads(ps[0].records) else [],
              PartsPayloads(ps[1..], q));
      }
    }
  }

  lemma StoreTopicEffect(codec: Codec, st: Store, t: Topic, u: string, q: int)
    requires LogInv(st)
    ensures LogInv(StoreTopic(codec, st, t))
    ensures Payloads(LogOf(StoreTopic(codec, st, t), u, q)) ==
            Payloads(LogOf(st, u, q)) +
            if codec.decode(t.name) == u then PartsPayloads(t.parts, q) else []
  {
    AddTopicOk(st, codec.decode(t.name));
    StorePartsEffect(AddTopic(st, codec.decode(t.name)), codec.decode(t.name), t.parts, u, q);
  }

  /** Storing a request appends, to every log, exactly the payloads addressed to it. */
  lemma {:induction false} StoreTopicsEffect(codec: Codec, st: Store, ts: seq<Topic>, u: string, q: int)
    requires LogInv(st)
    ensures Payloads(LogOf(StoreTopics(codec, st, ts), u, q)) ==
            Payloads(LogOf(st, u, q)) + TopicsPayloads(codec, ts, u, q)
    decreases ts
  {
    if ts != [] {
      StoreTopicEffect(codec, st, ts[0], u, q);
      StoreTopicsEffect(codec, StoreTopic(codec, st, ts[0]), ts[1..], u, q);
      Assoc(Payloads(LogOf(st, u, q)),
            if codec.decode(ts[0].name) == u then PartsPayloads(ts[0].parts, q) else [],
            TopicsPayloads(codec, ts[1..], u, q));
    }
  }

  // ---------------------------------------------------------------- what it should answer

  function CountParts(ps: seq<Part>): nat {
    if ps == [] then 0 else |ps[0].records| + CountParts(ps[1..])
  }

  function CountTopics(ts: seq<Topic>): nat {
    if ts == [] then 0 else CountParts(ts[0].parts) + CountTopics(ts[1..])
  }

  /** The first offset that an 8-byte field of the answer cannot carry. */
  const OFFSET_LIMIT := 0x8000_0000_0000_0000

  /** With `n` more records every log stays below that limit. */
  ghost predicate RoomFor(st: Store, n: nat) {
    forall t, p :: |LogOf(st, t, p)| + n < OFFSET_LIMIT
  }

  /** A partition that receives records answers with the length of its log before them. */
  function AnswerPart(version: nat, st: Store, t: string, p: Part): bytes {
    var base := if p.records == [] then 0 else |LogOf(st, t, p.id)|;
    if Fits(4, p.id) && Fits(8, base) then PartitionAnswer(version, p.id, base) else []
  }

  /** The answers for a topic's partitions, appended one after the other to `response`. */
  function AnswerParts(version: nat, st: Store, t: string, ps: seq<Part>, response: bytes): bytes
    requires HasTopic(st, t)
    decreases ps
  {
    if ps == [] then response
    else
      AnswerParts(version, StorePart(st, t, ps[0]), t, ps[1..],
                  response + AnswerPart(version, st, t, ps[0]))
  }

  /** The answer for one topic, its partitions included. */
  function AnswerTopic(codec: Codec, version: nat, st: Store, t: Topic, response: bytes): bytes {
    var name := codec.decode(t.name);
    var st1 := AddTopic(st, name);
    if Fits(2, |name|) && Fits(4, |t.parts|) && HasTopic(st1, name) then
      AnswerParts(version, st1, name, t.parts, response + TopicAnswer(codec, name, |t.parts|))
    else response
  }

  function AnswerTopics(codec: Codec, version: nat, st: Store, ts: seq<Topic>, response: bytes): bytes
    decreases ts
  {
    if ts == [] then response
    else
      AnswerTopics(codec, version, StoreTopic(codec, st, ts[0]), ts[1..],
                   AnswerTopic(codec, version, st, ts[0], response))
  }

  lemma RoomAfterPart(st: Store, t: string, p: Part, n: nat)
    requires LogInv(st) && HasTopic(st, t) && RoomFor(st, |p.records| + n)
    ensures LogInv(StorePart(st, t, p)) && RoomFor(StorePart(st, t, p), n)
    ensures |LogOf(st, t, p.id)| < OFFSET_LIMIT
  {
    StorePartEffect(st, t, p);
    var r := StorePart(st, t, p);
    forall u, q ensures |LogOf(r, u, q)| + n < OFFSET_LIMIT {
      assert |Payloads(LogOf(r, u, q))| <= |LogOf(st, u, q)| + |p.records|;
    }
  }

  lemma {:induction false} RoomAfterParts(st: Store, t: string, ps: seq<Part>, n: nat)
    requires LogInv(st) && HasTopic(st, t) && RoomFor(st, CountParts(ps) + n)
    ensures LogInv(StoreParts(st, t, ps)) && RoomFor(StoreParts(st, t, ps), n)
    decreases ps
  {
    if ps != [] {
      RoomAfterPart(st, t, ps[0], CountParts(ps[1..]) + n);
      RoomAfterParts(StorePart(st, t, ps[0]), t, ps[1..], n);
    }
  }

  lemma RoomAfterTopic(codec: Codec, st: Store, t: Topic, n: nat)
    requires LogInv(st) && RoomFor(st, CountParts(t.parts) + n)
    ensures RoomFor(AddTopic(st, codec.decode(t.name)), CountParts(t.parts))
    ensures LogInv(StoreTopic(codec, st, t)) && RoomFor(StoreTopic(codec, st, t), n)
  {
    var u := codec.decode(t.name);
    AddTopicOk(st, u);
    var st1 := AddTopic(st, u);
    RoomAfterParts(st1, u, t.parts, n);
  }

  // ---------------------------------------------------------------- where the fields stand

  /** Reading at `off` finds the fields of `r`; likewise below for lists, partitions, topics. */
  predicate RecAt(m: bytes, off: int, r: Rec) {
    && off + RecSize(r) <= |m|
    && ReadSigned(8, m, off) == Some(r.batchOffset)
    && ReadSigned(4, m, off + 8) == Some(|r.payload|)
    && Slice(m, off + 12, off + 12 + |r.payload|) == r.payload
  }

  predicate RecsAt(m: bytes, off: int, rs: seq<Rec>)
    decreases rs
  {
    rs == [] || (RecAt(m, off, rs[0]) && RecsAt(m, off + RecSize(rs[0]), rs[1..]))
  }

  predicate PartAt(m: bytes, off: int, p: Part) {
    && off + 8 <= |m|
    && ReadSigned(4, m, off) == Some(p.id)
    && ReadSigned(4, m, off + 4) == Some(|p.records|)
    && RecsAt(m, off + 8, p.records)
  }

  predicate PartsAt(m: bytes, off: int, ps: seq<Part>)
    decreases ps
  {
    ps == [] || (PartAt(m, off, ps[0]) && PartsAt(m, off + PartSize(ps[0]), ps[1..]))
  }

  predicate TopicAt(m: bytes, off: int, t: Topic) {
    && off + 6 + |t.name| <= |m|
    && ReadSigned(2, m, off) == Some(|t.name|)
    && Slice(m, off + 2, off + 2 + |t.name|) == t.name
    && ReadSigned(4, m, off + 2 + |t.name|) == Some(|t.parts|)
    && PartsAt(m, off + 2 + |t.name| + 4, t.parts)
  }

  predicate TopicsAt(m: bytes, off: int, ts: seq<Topic>)
    decreases ts
  {
    ts == [] || (TopicAt(m, off, ts[0]) && TopicsAt(m, off + TopicSize(ts[0]), ts[1..]))
  }

  lemma SliceAt(m: bytes, off: int, e: bytes)
    requires At(m, off, e)
    ensures Slice(m, off, off + |e|) == e
  {
  }

  lemma RecLaidOut(m: bytes, off: int, r: Rec)
    requires RecOk(r) && At(m, off, EncRec(r))
    ensures RecAt(m, off, r)
  {
    ReadFront(8, r.batchOffset, m, off, PackSigned(4, |r.payload|) + r.payload);
    ReadFront(4, |r.payload|, m, off + 8, r.payload);
    SliceAt(m, off + 12, r.payload);
  }

  lemma {:induction false} RecsLaidOut(m: bytes, off: int, rs: seq<Rec>)
    requires RecsOk(rs) && At(m, off, EncRecs(rs))
    ensures RecsAt(m, off, rs)
    decreases rs
  {
    hide At, RecAt, EncRec, RecOk, RecSize;
    if rs != [] {
      AtSplit(m, off, EncRec(rs[0]), EncRecs(rs[1..]));
      RecLaidOut(m, off, rs[0]);
      RecsLaidOut(m, off + RecSize(rs[0]), rs[1..]);
    }
  }

  lemma PartLaidOut(m: bytes, off: int, p: Part)
    requires PartOk(p) && At(m, off, EncPart(p))
    ensures PartAt(m, off, p)
  {
    Widths();
    ReadFront(4, p.id, m, off, PackSigned(4, |p.records|) + EncRecs(p.records));
    ReadFront(4, |p.records|, m, off + 4, EncRecs(p.records));
    RecsLaidOut(m, off + 8, p.records);
  }

  lemma {:induction false} PartsLaidOut(m: bytes, off: int, ps: seq<Part>)
    requires PartsOk(ps) && At(m, off, EncParts(ps))
    ensures PartsAt(m, off, ps)
    decreases ps
  {
    hide At, PartAt, EncPart, PartOk, PartSize;
    if ps != [] {
      AtSplit(m, off, EncPart(ps[0]), EncParts(ps[1..]));
      PartLaidOut(m, off, ps[0]);
      PartsLaidOut(m, off + PartSize(ps[0]), ps[1..]);
    }
  }

  lemma TopicLaidOut(m: bytes, off: int, t: Topic)
    requires TopicOk(t) && At(m, off, EncTopic(t))
    ensures TopicAt(m, off, t)
  {
    Widths();
    hide ReadSigned, Slice, PackSigned;
    var tail := PackSigned(4, |t.parts|) + EncParts(t.parts);
    ReadFront(2, |t.name|, m, off, t.name + tail);
    AtSplit(m, off + 2, t.name, tail);
    SliceAt(m, off + 2, t.name);
    TopicBodyLaidOut(m, off + 2 + |t.name|, t.parts);
  }

  lemma TopicBodyLaidOut(m: bytes, off: int, ps: seq<Part>)
    requires PartsOk(ps) && Fits(4, |ps|) && At(m, off, PackSigned(4, |ps|) + EncParts(ps))
    ensures ReadSigned(4, m, off) == Some(|ps|) && PartsAt(m, off + 4, ps) && off + 4 <= |m|
  {
    ReadFront(4, |ps|, m, off, EncParts(ps));
    PartsLaidOut(m, off + 4, ps);
  }

  lemma {:induction false} TopicsLaidOut(m: bytes, off: int, ts: seq<Topic>)
    requires TopicsOk(ts) && At(m, off, EncTopics(ts))
    ensures TopicsAt(m, off, ts)
    decreases ts
  {
    hide At, TopicAt, EncTopic, TopicOk, TopicSize;
    if ts != [] {
      AtSplit(m, off, EncTopic(ts[0]), EncTopics(ts[1..]));
      TopicLaidOut(m, off, ts[0]);
      TopicsLaidOut(m, off + TopicSize(ts[0]), ts[1..]);
    }
  }

  // ---------------------------------------------------------------- the parser inverts the format

  lemma RecordInverts(m: bytes, off: int, st: Store, t: string, p: int, offsets: seq<int>, r: Rec)
    requires RecAt(m, off, r) && HasPartition(st, t, p)
    ensures RecordStep(m, off, st, t, p, offsets) ==
            RecordLoop(Append(st, t, p, r.batchOffset, r.payload), off + RecSize(r),
                       offsets + [st.offsets[t][p]], Continue)
  {
    hide ReadSigned, Slice, Append;
  }

  lemma {:induction false} RecordsInvert(
    m: bytes, off: int, st: Store, t: string, p: int, offsets: seq<int>, rs: seq<Rec>)
    requires RecsAt(m, off, rs) && HasPartition(st, t, p)
    ensures var r := Records(m, off, |rs|, st, t, p, offsets);
            && r.st == StoreRecs(st, t, p, rs) && r.off == off + RecsSize(rs) && r.exit == Break
            && Base(r.offsets) == Base(if rs == [] then offsets else offsets + [st.offsets[t][p]])
    decreases rs
  {
    hide RecAt, RecordStep, RecSize, Append, HasPartition;
    if rs != [] {
      RecordInverts(m, off, st, t, p, offsets, rs[0]);
      var r := RecordStep(m, off, st, t, p, offsets);
      RecordsInvert(m, r.off, r.st, t, p, r.offsets, rs[1..]);
    }
  }

  lemma PartitionInverts(
    version: nat, m: bytes, off: int, st: Store, t: string, response: bytes, p: Part)
    requires PartOk(p) && PartAt(m, off, p) && LogInv(st) && HasTopic(st, t)
    requires |LogOf(st, t, p.id)| < OFFSET_LIMIT
    ensures PartitionStep(version, m, off, st, t, response) ==
            Loop(StorePart(st, t, p), off + PartSize(p), response + AnswerPart(version, st, t, p),
                 Continue)
  {
    Widths();
    AddPartitionOk(st, t, p.id);
    RecordsInvert(m, off + 8, AddPartition(st, t, p.id), t, p.id, [], p.records);
    assert LogInvAt(AddPartition(st, t, p.id), t, p.id);
  }

  lemma {:induction false} PartitionsInvert(
    version: nat, m: bytes, off: int, st: Store, t: string, response: bytes, ps: seq<Part>)
    requires PartsOk(ps) && PartsAt(m, off, ps) && LogInv(st) && HasTopic(st, t)
    requires RoomFor(st, CountParts(ps))
    ensures Partitions(version, m, off, |ps|, st, t, response) ==
            Loop(StoreParts(st, t, ps), off + PartsSize(ps),
                 AnswerParts(version, st, t, ps, response), Break)
    decreases ps
  {
    hide PartAt, PartOk, PartitionStep, PartSize;
    if ps != [] {
      RoomAfterPart(st, t, ps[0], CountParts(ps[1..]));
      PartitionInverts(version, m, off, st, t, response, ps[0]);
      PartitionsInvert(version, m, off + PartSize(ps[0]), StorePart(st, t, ps[0]), t,
                       response + AnswerPart(version, st, t, ps[0]), ps[1..]);
    }
  }

  lemma TopicInverts(
    codec: Codec, version: nat, m: bytes, off: int, st: Store, response: bytes, t: Topic)
    requires TopicOk(t) && TopicAt(m, off, t) && LogInv(st) && CodecOk(codec)
    requires RoomFor(AddTopic(st, codec.decode(t.name)), CountParts(t.parts))
    ensures TopicStep(codec, version, m, off, st, response) ==
            Loop(StoreTopic(codec, st, t), off + TopicSize(t),
                 AnswerTopic(codec, version, st, t, response), Continue)
  {
    hide ReadSigned, Slice, PackSigned, AnswerParts, StoreParts, Partitions, PartsAt, PartsOk, RoomFor;
    var name := codec.decode(t.name);
    AddTopicOk(st, name);
    PartitionsInvert(version, m, off + 2 + |t.name| + 4, AddTopic(st, name), name,
                     response + TopicAnswer(codec, name, |t.parts|), t.parts);
  }

  /** One turn of the topic loop, and what the next turn needs. */
  lemma TopicsFront(
    codec: Codec, version: nat, m: bytes, off: int, st: Store, response: bytes, ts: seq<Topic>,
    off1: int, st1: Store, response1: bytes)
    requires ts != [] && TopicsOk(ts) && TopicsAt(m, off, ts) && LogInv(st) && CodecOk(codec)
    requires RoomFor(st, CountTopics(ts))
    requires off1 == off + TopicSize(ts[0]) && st1 == StoreTopic(codec, st, ts[0])
    requires response1 == AnswerTopic(codec, version, st, ts[0], response)
    ensures TopicsOk(ts[1..]) && TopicsAt(m, off1, ts[1..])
    ensures LogInv(st1) && RoomFor(st1, CountTopics(ts[1..]))
    ensures Topics(codec, version, m, off, |ts|, st, response) ==
            Topics(codec, version, m, off1, |ts| - 1, st1, response1)
  {
    hide ReadSigned, Slice, TopicAt, TopicStep, TopicOk, TopicSize;
    RoomAfterTopic(codec, st, ts[0], CountTopics(ts[1..]));
    TopicInverts(codec, version, m, off, st, response, ts[0]);
  }

  lemma {:induction false} TopicsInvert(
    codec: Codec, version: nat, m: bytes, off: int, st: Store, response: bytes, ts: seq<Topic>)
    requires TopicsOk(ts) && TopicsAt(m, off, ts) && LogInv(st) && CodecOk(codec)
    requires RoomFor(st, CountTopics(ts))
    ensures Topics(codec, version, m, off, |ts|, st, response) ==
            Loop(StoreTopics(codec, st, ts), off + TopicsSize(ts),
                 AnswerTopics(codec, version, st, ts, response), Break)
    decreases ts
  {
    hide TopicAt, TopicOk, TopicStep, StoreTopic, AnswerTopic, TopicSize;
    if ts != [] {
      var off1, st1 := off + TopicSize(ts[0]), StoreTopic(codec, st, ts[0]);
      var response1 := AnswerTopic(codec, version, st, ts[0], response);
      TopicsFront(codec, version, m, off, st, response, ts, off1, st1, response1);
      TopicsInvert(codec, version, m, off1, st1, response1, ts[1..]);
    }
  }

  /** The cursor reaches the topic array whatever the transactional id. */
  lemma BodyReached(header: bytes, version: nat, q: Request)
    requires |header| == 8 && RequestOk(q)
    ensures Fits(4, |q.topics|)
    ensures var m := EncRequest(header, version, q);
            var off := BodyOffset(version, m);
            off.Some? && At(m, off.value, PackSigned(4, |q.topics|) + EncTopics(q.topics))
  {
    Widths();
    hide ReadSigned, Slice, PackSigned, At, EncTopics;
    var m := EncRequest(header, version, q);
    AtWhole(m);
    var tail := PackSigned(4, |q.topics|) + EncTopics(q.topics);
    var fixed := PackSigned(2, q.acks) + PackSigned(4, q.timeout);
    var tid := if version >= 1 then EncTransactionalId(q.transactionalId) else [];
    AtSplit(m, 0, header, tid + (fixed + tail));
    AtSplit(m, 8, tid, fixed + tail);
    AtSplit(m, 8 + |tid|, fixed, tail);
    if version >= 1 {
      match q.transactionalId
      case None => ReadAt(2, -1, m, 8);
      case Some(b) => ReadFront(2, |b|, m, 8, b);
    }
  }

  /** There it finds the topic count and the topics. */
  lemma TopicsFound(header: bytes, version: nat, q: Request)
    requires |header| == 8 && RequestOk(q)
    ensures Fits(4, |q.topics|)
    ensures var m := EncRequest(header, version, q);
            var off := BodyOffset(version, m);
            && off.Some? && off.value + 4 <= |m|
            && ReadSigned(4, m, off.value) == Some(|q.topics|)
            && TopicsAt(m, off.value + 4, q.topics)
  {
    hide ReadSigned, Slice, PackSigned, BodyOffset, At, EncTopics, EncRequest, TopicsAt;
    BodyReached(header, version, q);
    var m := EncRequest(header, version, q);
    var off := BodyOffset(version, m).value;
    ReadFront(4, |q.topics|, m, off, EncTopics(q.topics));
    TopicsLaidOut(m, off + 4, q.topics);
  }

  /** For every request within the loop caps, with any transactional id: parsing its encoding
      stores its records and answers for each partition in turn. */
  lemma ProduceInverts(
    codec: Codec, header: bytes, version: nat, correlationId: nat, st: Store, q: Request)
    requires |header| == 8 && RequestOk(q) && correlationId < Pow256(4)
    requires CodecOk(codec) && LogInv(st) && RoomFor(st, CountTopics(q.topics))
    ensures Fits(4, |q.topics|)
    ensures ProduceRequest(codec, version, correlationId, EncRequest(header, version, q), st) ==
            (StoreTopics(codec, st, q.topics),
             Some(AnswerTopics(codec, version, st, q.topics,
                               ToBE(4, correlationId) + PackSigned(4, |q.topics|))
                  + if version >= 1 then ToBE(4, 0) else []))
  {
    hide ReadSigned, BodyOffset, EncRequest, RoomFor, CodecOk, LogInv, Topics, StoreTopics, AnswerTopics, TopicsAt,
         TopicsOk;
    var m := EncRequest(header, version, q);
    TopicsFound(header, version, q);
    var off := BodyOffset(version, m).value;
    TopicsInvert(codec, version, m, off + 4, st, ToBE(4, correlationId) + PackSigned(4, |q.topics|),
                 q.topics);
  }

  /** Every log receives exactly the payloads the request addresses to it, in order. */
  lemma ProduceStores(
    codec: Codec, header: bytes, version: nat, correlationId: nat, st: Store, q: Request,
    t: string, p: int)
    requires |header| == 8 && RequestOk(q) && correlationId < Pow256(4)
    requires CodecOk(codec) && LogInv(st) && RoomFor(st, CountTopics(q.topics))
    ensures var r := ProduceRequest(codec, version, correlationId, EncRequest(header, version, q), st);
            && Payloads(LogOf(r.0, t, p)) ==
               Payloads(LogOf(st, t, p)) + TopicsPayloads(codec, q.topics, t, p)
            && LogOf(st, t, p) <= LogOf(r.0, t, p)
            && forall i :: 0 <= i < |LogOf(r.0, t, p)| ==> LogOf(r.0, t, p)[i].offset == i
  {
    ProduceInverts(codec, header, version, correlationId, st, q);
    StoreTopicsEffect(codec, st, q.topics, t, p);
    var m := EncRequest(header, version, q);
    ProduceKeepsLog(codec, version, correlationId, m, st);
    assert LogInvAt(ProduceRequest(codec, version, correlationId, m, st).0, t, p);
  }
}
