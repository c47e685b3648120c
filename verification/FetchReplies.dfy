/** The wire format of a fetch request, and the answer read by a client: for any request tree it
    reports every partition with the length of its log.
 */
module FetchReplies {
  import opened Bytes
  import opened Fetch
  import opened MockStore
  import opened Options
  import opened Produce
  import opened ProduceRoundTrip
  import opened Replies
  import opened Sequences

  // ---------------------------------------------------------------- the request

  predicate QueriesOk(qs: seq<Query>) {
    qs == [] ||
    (Fits(4, qs[0].id) && Fits(8, qs[0].fetchOffset) && Fits(4, qs[0].maxBytes) && QueriesOk(qs[1..]))
  }

  predicate TopicQueriesOk(ts: seq<TopicQuery>) {
    ts == [] ||
    (Fits(2, |ts[0].name|) && |ts[0].parts| <= 100 && QueriesOk(ts[0].parts) && TopicQueriesOk(ts[1..]))
  }

  function EncQueries(qs: seq<Query>): (b: bytes)
    requires QueriesOk(qs)
    ensures |b| == 16 * |qs|
  {
    if qs == [] then []
    else
      (PackSigned(4, qs[0].id) + (PackSigned(8, qs[0].fetchOffset) + PackSigned(4, qs[0].maxBytes)))
      + EncQueries(qs[1..])
  }

  function EncTopicQuery(t: TopicQuery): (b: bytes)
    requires Fits(2, |t.name|) && |t.parts| <= 100 && QueriesOk(t.parts)
    ensures |b| == QueriesSize(t)
  {
    Widths();
    PackSigned(2, |t.name|) + (t.name + (PackSigned(4, |t.parts|) + EncQueries(t.parts)))
  }

  function EncTopicQueries(ts: seq<TopicQuery>): bytes
    requires TopicQueriesOk(ts)
  {
    if ts == [] then [] else EncTopicQuery(ts[0]) + EncTopicQueries(ts[1..])
  }

  datatype FetchQuery = FetchQuery(replica: int, maxWait: int, minBytes: int, topics: seq<TopicQuery>)

  predicate FetchOk(q: FetchQuery) {
    && Fits(4, q.replica) && Fits(4, q.maxWait) && Fits(4, q.minBytes)
    && |q.topics| <= 100 && TopicQueriesOk(q.topics)
  }

  /** The whole message, its 8-byte header first. */
  function EncFetch(header: bytes, q: FetchQuery): bytes
    requires |header| == 8 && FetchOk(q)
  {
    Widths();
    header + ((PackSigned(4, q.replica) + (PackSigned(4, q.maxWait) + PackSigned(4, q.minBytes)))
              + (PackSigned(4, |q.topics|) + EncTopicQueries(q.topics)))
  }

  lemma {:induction false} QueriesLaidOut(m: bytes, off: int, qs: seq<Query>)
    requires QueriesOk(qs) && At(m, off, EncQueries(qs))
    ensures QueriesAt(m, off, qs)
    decreases qs
  {
    hide At, PackSigned, ReadSigned;
    if qs != [] {
      var id, pos, max := PackSigned(4, qs[0].id), PackSigned(8, qs[0].fetchOffset), PackSigned(4, qs[0].maxBytes);
      var rest := EncQueries(qs[1..]);
      assert EncQueries(qs) == id + (pos + (max + rest));
      ReadFront(4, qs[0].id, m, off, pos + (max + rest));
      ReadFront(8, qs[0].fetchOffset, m, off + 4, max + rest);
      ReadFront(4, qs[0].maxBytes, m, off + 12, rest);
      QueriesLaidOut(m, off + 16, qs[1..]);
    }
  }

  lemma TopicQueryLaidOut(m: bytes, off: int, t: TopicQuery)
    requires Fits(2, |t.name|) && |t.parts| <= 100 && QueriesOk(t.parts) && At(m, off, EncTopicQuery(t))
    ensures TopicQueryAt(m, off, t)
  {
    hide PackSigned, ReadSigned, Slice, QueriesAt;
    Widths();
    var tail := PackSigned(4, |t.parts|) + EncQueries(t.parts);
    ReadFront(2, |t.name|, m, off, t.name + tail);
    AtSplit(m, off + 2, t.name, tail);
    SliceAt(m, off + 2, t.name);
    ReadFront(4, |t.parts|, m, off + 2 + |t.name|, EncQueries(t.parts));
    QueriesLaidOut(m, off + 6 + |t.name|, t.parts);
  }

  lemma {:induction false} TopicQueriesLaidOut(m: bytes, off: int, ts: seq<TopicQuery>)
    requires TopicQueriesOk(ts) && At(m, off, EncTopicQueries(ts))
    ensures TopicQueriesAt(m, off, ts)
    decreases ts
  {
    hide At, TopicQueryAt, EncTopicQuery, QueriesOk, QueriesSize;
    if ts != [] {
      AtSplit(m, off, EncTopicQuery(ts[0]), EncTopicQueries(ts[1..]));
      TopicQueryLaidOut(m, off, ts[0]);
      TopicQueriesLaidOut(m, off + QueriesSize(ts[0]), ts[1..]);
    }
  }

  lemma FetchLaidOut(header: bytes, q: FetchQuery)
    requires |header| == 8 && FetchOk(q)
    ensures var m := EncFetch(header, q);
            |m| >= 24 && ReadSigned(4, m, 20) == Some(|q.topics|) && TopicQueriesAt(m, 24, q.topics)
  {
    hide PackSigned, ReadSigned, At, EncTopicQueries, TopicQueriesAt, TopicQueriesOk;
    Widths();
    var m := EncFetch(header, q);
    var fixed := PackSigned(4, q.replica) + (PackSigned(4, q.maxWait) + PackSigned(4, q.minBytes));
    var tail := PackSigned(4, |q.topics|) + EncTopicQueries(q.topics);
    AtWhole(m);
    AtSplit(m, 0, header, fixed + tail);
    AtSplit(m, 8, fixed, tail);
    ReadFront(4, |q.topics|, m, 20, EncTopicQueries(q.topics));
    TopicQueriesLaidOut(m, 24, q.topics);
  }

  // ---------------------------------------------------------------- the client's decoder

  /** What a fetch answer says of a partition. */
  datatype PartReport = PartReport(
    id: int, error: int, mark: int, lastStable: Option<int>, logStart: Option<int>, aborted: Option<int>,
    batches: int)

  function ReadReport(version: nat, b: bytes, off: int): Got<PartReport> {
    match (ReadSigned(4, b, off), ReadSigned(2, b, off + 4), ReadSigned(8, b, off + 6))
    case (Some(id), Some(error), Some(mark)) =>
      (match ReadOptional(version >= 4, 8, b, off + 14)
       case None => None
       case Some((lastStable, off1)) =>
         match ReadOptional(version >= 5, 8, b, off1)
         case None => None
         case Some((logStart, off2)) =>
           match ReadOptional(version >= 4, 4, b, off2)
           case None => None
           case Some((aborted, off3)) =>
             match ReadSigned(4, b, off3)
             case None => None
             case Some(batches) =>
               Some((PartReport(id, error, mark, lastStable, logStart, aborted, batches), off3 + 4)))
    case _ => None
  }

  function ReportReader(version: nat): Reader<PartReport> {
    (b, off) => ReadReport(version, b, off)
  }

  datatype FetchReply = FetchReply(correlationId: nat, throttle: Option<int>, topics: seq<TopicReply<PartReport>>)

  function ReadFetchReply(version: nat, b: bytes): Option<FetchReply> {
    if |b| < 4 then None
    else
      match ReadOptional(version >= 1, 4, b, 4)
      case None => None
      case Some((throttle, off)) =>
        match ReadTopics(ReportReader(version), b, off)
        case None => None
        case Some((topics, end)) =>
          if end == |b| then Some(FetchReply(FromBE(b[..4]), throttle, topics)) else None
  }

  // ---------------------------------------------------------------- what it finds

  function ReportOf(version: nat, id: int, length: nat): PartReport {
    PartReport(id, 0, length, if version >= 4 then Some(length) else None, if version >= 5 then Some(0) else None,
               if version >= 4 then Some(0) else None, 0)
  }

  lemma MarkRead(version: nat, p: int, mark: nat, b: bytes, off: int)
    requires Fits(4, p) && Fits(8, mark) && At(b, off, MarkAnswer(version, p, mark))
    ensures ReadReport(version, b, off) == Some((ReportOf(version, p, mark), off + |MarkAnswer(version, p, mark)|))
  {
    hide PackSigned, ReadSigned, At, ReadOptional;
    Widths();
    var stable := if version >= 4 then PackSigned(8, mark) else [];
    var start := if version >= 5 then PackSigned(8, 0) else [];
    var aborted := if version >= 4 then PackSigned(4, 0) else [];
    var batches := PackSigned(4, 0);
    var tail := stable + (start + (aborted + (batches + [])));
    assert MarkAnswer(version, p, mark) == PackSigned(4, p) + (PackSigned(2, 0) + (PackSigned(8, mark) + tail));
    ReadFront(4, p, b, off, PackSigned(2, 0) + (PackSigned(8, mark) + tail));
    ReadFront(2, 0, b, off + 4, PackSigned(8, mark) + tail);
    ReadFront(8, mark, b, off + 6, tail);
    OptionalRead(version >= 4, 8, mark, b, off + 14, start + (aborted + (batches + [])));
    var off1 := off + 14 + if version >= 4 then 8 else 0;
    OptionalRead(version >= 5, 8, 0, b, off1, aborted + (batches + []));
    var off2 := off1 + if version >= 5 then 8 else 0;
    OptionalRead(version >= 4, 4, 0, b, off2, batches + []);
    ReadFront(4, 0, b, off2 + if version >= 4 then 4 else 0, []);
  }

  lemma MarkReads(version: nat, p: int, mark: nat)
    requires Fits(4, p) && Fits(8, mark)
    ensures Reads(ReportReader(version), MarkAnswer(version, p, mark), ReportOf(version, p, mark))
  {
    hide At, ReadReport, MarkAnswer;
    var chunk := MarkAnswer(version, p, mark);
    forall b, off | At(b, off, chunk)
      ensures ReportReader(version)(b, off) == Some((ReportOf(version, p, mark), off + |chunk|))
    {
      MarkRead(version, p, mark, b, off);
    }
  }

  function ReportChunks(version: nat, st: Store, t: string, qs: seq<Query>): (r: seq<bytes>)
    ensures |r| == |qs| && forall i :: 0 <= i < |qs| ==> r[i] == Report(version, st, t, qs[i])
  {
    if qs == [] then [] else [Report(version, st, t, qs[0])] + ReportChunks(version, st, t, qs[1..])
  }

  function PartReports(version: nat, st: Store, t: string, qs: seq<Query>): (r: seq<PartReport>)
    ensures |r| == |qs|
    ensures forall i :: 0 <= i < |qs| ==> r[i] == ReportOf(version, qs[i].id, |LogOf(st, t, qs[i].id)|)
  {
    if qs == [] then []
    else [ReportOf(version, qs[0].id, |LogOf(st, t, qs[0].id)|)] + PartReports(version, st, t, qs[1..])
  }

  function FetchChunk(codec: Codec, version: nat, st: Store, t: TopicQuery): TopicChunk<PartReport> {
    var name := codec.decode(t.name);
    TopicChunk(name, ReportChunks(version, st, name, t.parts), PartReports(version, st, name, t.parts))
  }

  function FetchChunks(codec: Codec, version: nat, st: Store, ts: seq<TopicQuery>): (r: seq<TopicChunk<PartReport>>)
    ensures |r| == |ts| && forall i :: 0 <= i < |ts| ==> r[i] == FetchChunk(codec, version, st, ts[i])
  {
    if ts == [] then [] else [FetchChunk(codec, version, st, ts[0])] + FetchChunks(codec, version, st, ts[1..])
  }

  lemma {:induction false} QueriesFit(qs: seq<Query>, i: nat)
    requires QueriesOk(qs) && i < |qs|
    ensures Fits(4, qs[i].id)
    decreases qs
  {
    if i > 0 { QueriesFit(qs[1..], i - 1); }
  }

  lemma {:induction false} FetchChunksOk(codec: Codec, version: nat, st: Store, ts: seq<TopicQuery>)
    requires TopicQueriesOk(ts) && CodecOk(codec) && MarksFit(st)
    ensures ChunksOk(ReportReader(version), FetchChunks(codec, version, st, ts))
    decreases ts
  {
    hide ReportReader, Reads, MarkAnswer, ReportOf, LogOf, QueriesOk;
    if ts != [] {
      Widths();
      var name, qs := codec.decode(ts[0].name), ts[0].parts;
      forall i | 0 <= i < |qs|
        ensures Reads(ReportReader(version), ReportChunks(version, st, name, qs)[i],
                      PartReports(version, st, name, qs)[i])
      {
        QueriesFit(qs, i);
        MarkReads(version, qs[i].id, |LogOf(st, name, qs[i].id)|);
      }
      FetchChunksOk(codec, version, st, ts[1..]);
    }
  }

  lemma {:induction false} ReportsAppend(version: nat, st: Store, t: string, qs: seq<Query>, response: bytes)
    ensures Reports(version, st, t, qs, response) == response + Concat(ReportChunks(version, st, t, qs))
    decreases qs
  {
    hide Report;
    if qs == [] {
      assert response + [] == response;
    } else {
      var first := Report(version, st, t, qs[0]);
      ReportsAppend(version, st, t, qs[1..], response + first);
      Assoc(response, first, Concat(ReportChunks(version, st, t, qs[1..])));
    }
  }

  lemma {:induction false} TopicReportsAppend(
    codec: Codec, version: nat, st: Store, ts: seq<TopicQuery>, response: bytes)
    requires TopicQueriesOk(ts) && CodecOk(codec)
    ensures TopicReports(codec, version, st, ts, response) ==
            response + TopicsBytes(codec, FetchChunks(codec, version, st, ts))
    decreases ts
  {
    hide Report, TopicAnswer, QueriesOk;
    if ts == [] {
      assert response + [] == response;
    } else {
      Widths();
      var name := codec.decode(ts[0].name);
      var head, chunks := TopicAnswer(codec, name, |ts[0].parts|), ReportChunks(version, st, name, ts[0].parts);
      ReportsAppend(version, st, name, ts[0].parts, response + head);
      Assoc(response, head, Concat(chunks));
      TopicReportsAppend(codec, version, st, ts[1..], response + (head + Concat(chunks)));
      Assoc(response, head + Concat(chunks), TopicsBytes(codec, FetchChunks(codec, version, st, ts[1..])));
    }
  }

  lemma FetchRead(codec: Codec, version: nat, correlationId: nat, ts: seq<TopicChunk<PartReport>>)
    requires ChunksOk(ReportReader(version), ts) && correlationId < Pow256(4) && Fits(4, |ts|)
    ensures var b := FetchHead(version, correlationId, |ts|) + TopicsBytes(codec, ts);
            var reply := ReadFetchReply(version, b);
            if NamesFit(codec, ts) then
              reply == Some(FetchReply(correlationId, if version >= 1 then Some(0) else None, Replied(codec, ts)))
            else reply.Some? ==> reply.value.topics != Replied(codec, ts)
  {
    hide PackSigned, ReadSigned, At, ToBE, FromBE, TopicsBytes, NamesFit, ChunksOk, ReadMany, ReportReader,
         TopicReader;
    Widths();
    ZeroPacked();
    var id, n, topics := ToBE(4, correlationId), PackSigned(4, |ts|), TopicsBytes(codec, ts);
    var throttle := if version >= 1 then PackSigned(4, 0) else [];
    var b := FetchHead(version, correlationId, |ts|) + topics;
    assert b == id + (throttle + (n + (topics + [])));
    AtWhole(b);
    FromToBE(4, correlationId);
    assert b[..4] == id;
    AtSplit(b, 0, id, throttle + (n + (topics + [])));
    OptionalRead(version >= 1, 4, 0, b, 4, n + (topics + []));
    var off := 4 + if version >= 1 then 4 else 0;
    ReadFront(4, |ts|, b, off, topics + []);
    TopicsRead(codec, ReportReader(version), b, off + 4, ts, []);
  }

  lemma {:induction false} QueriedNamesFit(codec: Codec, version: nat, st: Store, ts: seq<TopicQuery>)
    ensures NamesFit(codec, FetchChunks(codec, version, st, ts)) <==>
            forall i :: 0 <= i < |ts| ==> NameFits(codec, codec.decode(ts[i].name))
    decreases ts
  {
    hide NameFits, ReportChunks, PartReports;
    if ts != [] {
      QueriedNamesFit(codec, version, st, ts[1..]);
      assert FetchChunks(codec, version, st, ts)[1..] == FetchChunks(codec, version, st, ts[1..]);
      assert forall i :: 1 <= i < |ts| ==> ts[i] == ts[1..][i - 1];
      assert forall i :: 0 <= i < |ts| - 1 ==> ts[1..][i] == ts[i + 1];
    }
  }

  // ---------------------------------------------------------------- main result

  /** The reply lists the queried topics and partitions in order, each without error and with the
      length of its log as its high water mark. */
  predicate ReportsOn(codec: Codec, version: nat, st: Store, ts: seq<TopicQuery>, reply: seq<TopicReply<PartReport>>) {
    && |reply| == |ts|
    && forall i :: 0 <= i < |ts| ==>
         && reply[i].name == codec.encode(codec.decode(ts[i].name))
         && |reply[i].parts| == |ts[i].parts|
         && forall j :: 0 <= j < |ts[i].parts| ==>
              var length := |LogOf(st, codec.decode(ts[i].name), ts[i].parts[j].id)|;
              reply[i].parts[j] == PartReport(
                ts[i].parts[j].id, 0, length, if version >= 4 then Some(length) else None,
                if version >= 5 then Some(0) else None, if version >= 4 then Some(0) else None, 0)
  }

  lemma ReportedIs(codec: Codec, version: nat, st: Store, ts: seq<TopicQuery>, reply: seq<TopicReply<PartReport>>)
    ensures ReportsOn(codec, version, st, ts, reply) <==> reply == Replied(codec, FetchChunks(codec, version, st, ts))
  {
    hide LogOf;
    var meant := Replied(codec, FetchChunks(codec, version, st, ts));
    if ReportsOn(codec, version, st, ts, reply) {
      forall i | 0 <= i < |ts| ensures reply[i] == meant[i] {
        assert reply[i].parts == meant[i].parts;
      }
      assert reply == meant;
    }
  }

  /** For every fetch request within the loop caps: a client that reads the answer finds its
      correlation id, and every queried topic and partition in order with the length of its log,
      exactly when every topic name has as many bytes as characters. */
  lemma FetchAnswers(codec: Codec, header: bytes, version: nat, correlationId: nat, st: Store, q: FetchQuery)
    requires |header| == 8 && FetchOk(q) && correlationId < Pow256(4)
    requires CodecOk(codec) && LogInv(st) && MarksFit(st)
    ensures var r := FetchRequest(codec, version, correlationId, EncFetch(header, q), st);
            && r.Some? && r.value != []
            && var reply := ReadFetchReply(version, r.value);
               (&& reply.Some? && reply.value.correlationId == correlationId
                && reply.value.throttle == (if version >= 1 then Some(0) else None)
                && ReportsOn(codec, version, st, q.topics, reply.value.topics)) <==>
               forall i :: 0 <= i < |q.topics| ==> NameFits(codec, codec.decode(q.topics[i].name))
  {
    hide LogInv, CodecOk, MarksFit, FetchRequest, EncFetch, ReadFetchReply, ReportsOn, FetchChunks, NameFits,
         TopicsBytes, NamesFit, ChunksOk, ReportReader, TopicReports, PackSigned, ToBE, TopicQueriesOk, ReadSigned,
         TopicQueriesAt;
    Widths();
    var chunks := FetchChunks(codec, version, st, q.topics);
    FetchLaidOut(header, q);
    FetchReports(codec, version, correlationId, EncFetch(header, q), st, q.topics);
    TopicReportsAppend(codec, version, st, q.topics, FetchHead(version, correlationId, |q.topics|));
    FetchChunksOk(codec, version, st, q.topics);
    FetchRead(codec, version, correlationId, chunks);
    QueriedNamesFit(codec, version, st, q.topics);
    ReportedIs(codec, version, st, q.topics, Replied(codec, chunks));
    var r := FetchRequest(codec, version, correlationId, EncFetch(header, q), st);
    var reply := ReadFetchReply(version, r.value);
    if reply.Some? { ReportedIs(codec, version, st, q.topics, reply.value.topics); }
  }
}
