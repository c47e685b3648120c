/** The answer to a produce request, read by a client: for any request tree it names every
    partition with the length of its log before the partition's first record.
 */
module ProduceReplies {
  import opened Bytes
  import opened MockStore
  import opened Options
  import opened Produce
  import opened ProduceRoundTrip
  import opened Replies
  import opened Sequences

  // ---------------------------------------------------------------- the client's decoder

  /** What a produce answer says of a partition. */
  datatype PartReply = PartReply(id: int, error: int, base: int, appendTime: Option<int>, logStart: Option<int>)

  function ReadPart(version: nat, b: bytes, off: int): Got<PartReply> {
    match (ReadSigned(4, b, off), ReadSigned(2, b, off + 4), ReadSigned(8, b, off + 6))
    case (Some(id), Some(error), Some(base)) =>
      (match ReadOptional(version >= 2, 8, b, off + 14)
       case None => None
       case Some((appendTime, off1)) =>
         match ReadOptional(version >= 5, 8, b, off1)
         case None => None
         case Some((logStart, off2)) => Some((PartReply(id, error, base, appendTime, logStart), off2)))
    case _ => None
  }

  function PartReader(version: nat): Reader<PartReply> {
    (b, off) => ReadPart(version, b, off)
  }

  datatype ProduceReply = ProduceReply(correlationId: nat, topics: seq<TopicReply<PartReply>>, throttle: Option<int>)

  /** The whole answer; nothing may be left over. */
  function ReadProduceReply(version: nat, b: bytes): Option<ProduceReply> {
    if |b| < 4 then None
    else
      match ReadTopics(PartReader(version), b, 4)
      case None => None
      case Some((topics, off)) =>
        match ReadOptional(version >= 1, 4, b, off)
        case None => None
        case Some((throttle, end)) =>
          if end == |b| then Some(ProduceReply(FromBE(b[..4]), topics, throttle)) else None
  }

  // ---------------------------------------------------------------- what it finds

  lemma PartitionReads(version: nat, p: int, base: int)
    requires Fits(4, p) && Fits(8, base)
    ensures Reads(PartReader(version), PartitionAnswer(version, p, base),
                  PartReply(p, 0, base, if version >= 2 then Some(-1) else None,
                            if version >= 5 then Some(0) else None))
  {
    Widths();
    var chunk := PartitionAnswer(version, p, base);
    forall b, off | At(b, off, chunk)
      ensures PartReader(version)(b, off) ==
              Some((PartReply(p, 0, base, if version >= 2 then Some(-1) else None,
                              if version >= 5 then Some(0) else None), off + |chunk|))
    {
      PartitionRead(version, p, base, b, off);
    }
  }

  lemma PartitionRead(version: nat, p: int, base: int, b: bytes, off: int)
    requires Fits(4, p) && Fits(8, base) && At(b, off, PartitionAnswer(version, p, base))
    ensures ReadPart(version, b, off) ==
            Some((PartReply(p, 0, base, if version >= 2 then Some(-1) else None,
                            if version >= 5 then Some(0) else None),
                  off + |PartitionAnswer(version, p, base)|))
  {
    hide PackSigned, ReadSigned, At, ReadOptional;
    Widths();
    var time := if version >= 2 then PackSigned(8, -1) else [];
    var start := if version >= 5 then PackSigned(8, 0) else [];
    assert PartitionAnswer(version, p, base) ==
           PackSigned(4, p) + (PackSigned(2, 0) + (PackSigned(8, base) + (time + (start + []))));
    ReadFront(4, p, b, off, PackSigned(2, 0) + (PackSigned(8, base) + (time + (start + []))));
    ReadFront(2, 0, b, off + 4, PackSigned(8, base) + (time + (start + [])));
    ReadFront(8, base, b, off + 6, time + (start + []));
    OptionalRead(version >= 2, 8, -1, b, off + 14, start + []);
    OptionalRead(version >= 5, 8, 0, b, off + 14 + if version >= 2 then 8 else 0, []);
  }

  /** The answer's partitions, as written and as they should read. */
  function PartChunks(version: nat, st: Store, t: string, ps: seq<Part>): (r: seq<bytes>)
    requires HasTopic(st, t)
    ensures |r| == |ps|
    decreases ps
  {
    if ps == [] then []
    else [AnswerPart(version, st, t, ps[0])] + PartChunks(version, StorePart(st, t, ps[0]), t, ps[1..])
  }

  function PartReplies(version: nat, st: Store, t: string, ps: seq<Part>): (r: seq<PartReply>)
    requires HasTopic(st, t)
    ensures |r| == |ps|
    decreases ps
  {
    if ps == [] then []
    else
      [ReplyTo(version, ps[0], |LogOf(st, t, ps[0].id)|)]
      + PartReplies(version, StorePart(st, t, ps[0]), t, ps[1..])
  }

  function ReplyTo(version: nat, p: Part, length: nat): PartReply {
    PartReply(p.id, 0, if p.records == [] then 0 else length,
              if version >= 2 then Some(-1) else None, if version >= 5 then Some(0) else None)
  }

  lemma {:induction false} AnswerPartsAppends(version: nat, st: Store, t: string, ps: seq<Part>, response: bytes)
    requires HasTopic(st, t)
    ensures AnswerParts(version, st, t, ps, response) == response + Concat(PartChunks(version, st, t, ps))
    decreases ps
  {
    hide AnswerPart, StorePart;
    if ps == [] {
      assert response + [] == response;
    } else {
      var first, st1 := AnswerPart(version, st, t, ps[0]), StorePart(st, t, ps[0]);
      AnswerPartsAppends(version, st1, t, ps[1..], response + first);
      Assoc(response, first, Concat(PartChunks(version, st1, t, ps[1..])));
    }
  }

  lemma {:induction false} PartsRead(version: nat, st: Store, t: string, ps: seq<Part>, i: nat)
    requires PartsOk(ps) && LogInv(st) && HasTopic(st, t) && RoomFor(st, CountParts(ps)) && i < |ps|
    ensures Reads(PartReader(version), PartChunks(version, st, t, ps)[i], PartReplies(version, st, t, ps)[i])
    decreases ps
  {
    hide Reads, LogInv, StorePart, PartReader, LogOf, PartitionAnswer;
    RoomAfterPart(st, t, ps[0], CountParts(ps[1..]));
    if i == 0 {
      Widths();
      PartitionReads(version, ps[0].id, if ps[0].records == [] then 0 else |LogOf(st, t, ps[0].id)|);
    } else {
      PartsRead(version, StorePart(st, t, ps[0]), t, ps[1..], i - 1);
    }
  }

  function ProduceChunks(codec: Codec, version: nat, st: Store, ts: seq<Topic>): (r: seq<TopicChunk<PartReply>>)
    ensures |r| == |ts|
    ensures forall i :: 0 <= i < |ts| ==> r[i].name == codec.decode(ts[i].name)
    decreases ts
  {
    if ts == [] then []
    else
      var t := codec.decode(ts[0].name);
      var st1 := AddTopic(st, t);
      [if HasTopic(st1, t) then
         TopicChunk(t, PartChunks(version, st1, t, ts[0].parts), PartReplies(version, st1, t, ts[0].parts))
       else TopicChunk(t, [], [])]
      + ProduceChunks(codec, version, StoreTopic(codec, st, ts[0]), ts[1..])
  }

  lemma {:induction false} ChunksAreOk(codec: Codec, version: nat, st: Store, ts: seq<Topic>)
    requires TopicsOk(ts) && CodecOk(codec) && LogInv(st) && RoomFor(st, CountTopics(ts))
    ensures ChunksOk(PartReader(version), ProduceChunks(codec, version, st, ts))
    decreases ts
  {
    hide LogInv, StoreTopic, PartReader, Reads, RoomFor, PartChunks, PartReplies, HasTopic;
    if ts != [] {
      var t := codec.decode(ts[0].name);
      var st1 := AddTopic(st, t);
      AddTopicOk(st, t);
      RoomAfterTopic(codec, st, ts[0], CountTopics(ts[1..]));
      Widths();
      forall i | 0 <= i < |ts[0].parts|
        ensures Reads(PartReader(version), PartChunks(version, st1, t, ts[0].parts)[i],
                      PartReplies(version, st1, t, ts[0].parts)[i])
      {
        PartsRead(version, st1, t, ts[0].parts, i);
      }
      ChunksAreOk(codec, version, StoreTopic(codec, st, ts[0]), ts[1..]);
    }
  }

  lemma {:induction false} AnswerTopicsAppends(
    codec: Codec, version: nat, st: Store, ts: seq<Topic>, response: bytes)
    requires TopicsOk(ts) && CodecOk(codec) && LogInv(st) && RoomFor(st, CountTopics(ts))
    ensures AnswerTopics(codec, version, st, ts, response) ==
            response + TopicsBytes(codec, ProduceChunks(codec, version, st, ts))
    decreases ts
  {
    hide LogInv, StoreTopic, RoomFor, PartChunks, PartReplies, HasTopic, TopicAnswer;
    if ts == [] {
      assert response + [] == response;
    } else {
      var t := codec.decode(ts[0].name);
      AddTopicOk(st, t);
      RoomAfterTopic(codec, st, ts[0], CountTopics(ts[1..]));
      Widths();
      var st1, st2 := AddTopic(st, t), StoreTopic(codec, st, ts[0]);
      var head := TopicAnswer(codec, t, |ts[0].parts|);
      var chunks := PartChunks(version, st1, t, ts[0].parts);
      AnswerPartsAppends(version, st1, t, ts[0].parts, response + head);
      Assoc(response, head, Concat(chunks));
      AnswerTopicsAppends(codec, version, st2, ts[1..], response + (head + Concat(chunks)));
      Assoc(response, head + Concat(chunks), TopicsBytes(codec, ProduceChunks(codec, version, st2, ts[1..])));
    }
  }

  // ---------------------------------------------------------------- the bases, named by the logs

  lemma {:induction false} PartReplyAt(version: nat, st: Store, t: string, ps: seq<Part>, j: nat)
    requires LogInv(st) && HasTopic(st, t) && j < |ps|
    ensures PartReplies(version, st, t, ps)[j] ==
            ReplyTo(version, ps[j], |LogOf(st, t, ps[j].id)| + |PartsPayloads(ps[..j], ps[j].id)|)
    decreases ps
  {
    hide LogInv, LogOf, StorePart, HasTopic;
    if j > 0 {
      StorePartEffect(st, t, ps[0]);
      PartReplyAt(version, StorePart(st, t, ps[0]), t, ps[1..], j - 1);
      assert ps[..j][1..] == ps[1..][..j - 1];
    }
  }

  /** How many records a request sends to one partition before part `j` of topic `i`. */
  function SentBefore(codec: Codec, ts: seq<Topic>, i: nat, j: nat): nat
    requires i < |ts| && j < |ts[i].parts|
  {
    var t, p := codec.decode(ts[i].name), ts[i].parts[j].id;
    |TopicsPayloads(codec, ts[..i], t, p)| + |PartsPayloads(ts[i].parts[..j], p)|
  }

  lemma SentShift(codec: Codec, ts: seq<Topic>, i: nat, j: nat)
    requires i < |ts| && j < |ts[i].parts|
    ensures var t, p := codec.decode(ts[i].name), ts[i].parts[j].id;
            SentBefore(codec, ts, i, j) ==
            if i == 0 then |PartsPayloads(ts[0].parts[..j], p)|
            else (if codec.decode(ts[0].name) == t then |PartsPayloads(ts[0].parts, p)| else 0)
                 + SentBefore(codec, ts[1..], i - 1, j)
  {
    hide PartsPayloads;
    if i > 0 { assert ts[..i][1..] == ts[1..][..i - 1]; }
  }

  lemma {:induction false} ReplyAt(codec: Codec, version: nat, st: Store, ts: seq<Topic>, i: nat, j: nat)
    requires LogInv(st) && i < |ts| && j < |ts[i].parts|
    ensures |ProduceChunks(codec, version, st, ts)[i].parts| == |ts[i].parts|
    ensures ProduceChunks(codec, version, st, ts)[i].parts[j] ==
            ReplyTo(version, ts[i].parts[j],
                    |LogOf(st, codec.decode(ts[i].name), ts[i].parts[j].id)| + SentBefore(codec, ts, i, j))
    decreases ts
  {
    hide LogInv, LogOf, StoreTopic, HasTopic, PartReplies, PartChunks, AddTopic, PartsPayloads, SentBefore;
    var t, p := codec.decode(ts[i].name), ts[i].parts[j].id;
    SentShift(codec, ts, i, j);
    if i == 0 {
      AddTopicOk(st, t);
      PartReplyAt(version, AddTopic(st, t), t, ts[0].parts, j);
    } else {
      StoreTopicEffect(codec, st, ts[0], t, p);
      ReplyAt(codec, version, StoreTopic(codec, st, ts[0]), ts[1..], i - 1, j);
    }
  }

  /** The reply lists the request's topics and partitions in order, each without error and with
      the length of its log before its first record, 0 where it has none. */
  predicate RepliesTo(
    codec: Codec, version: nat, st: Store, ts: seq<Topic>, reply: seq<TopicReply<PartReply>>)
  {
    && |reply| == |ts|
    && forall i :: 0 <= i < |ts| ==>
         && reply[i].name == codec.encode(codec.decode(ts[i].name))
         && |reply[i].parts| == |ts[i].parts|
         && forall j :: 0 <= j < |ts[i].parts| ==>
              reply[i].parts[j] == PartReply(
                ts[i].parts[j].id, 0,
                if ts[i].parts[j].records == [] then 0
                else |LogOf(st, codec.decode(ts[i].name), ts[i].parts[j].id)| + SentBefore(codec, ts, i, j),
                if version >= 2 then Some(-1) else None, if version >= 5 then Some(0) else None)
  }

  lemma RepliedIs(codec: Codec, version: nat, st: Store, ts: seq<Topic>, reply: seq<TopicReply<PartReply>>)
    requires LogInv(st)
    requires forall i :: 0 <= i < |ts| ==> |ProduceChunks(codec, version, st, ts)[i].parts| == |ts[i].parts|
    ensures RepliesTo(codec, version, st, ts, reply) <==>
            reply == Replied(codec, ProduceChunks(codec, version, st, ts))
  {
    hide LogInv, LogOf, ProduceChunks, SentBefore;
    var chunks := ProduceChunks(codec, version, st, ts);
    forall i, j | 0 <= i < |ts| && 0 <= j < |ts[i].parts|
      ensures chunks[i].parts[j] ==
              ReplyTo(version, ts[i].parts[j],
                      |LogOf(st, codec.decode(ts[i].name), ts[i].parts[j].id)| + SentBefore(codec, ts, i, j))
    {
      ReplyAt(codec, version, st, ts, i, j);
    }
    var meant := Replied(codec, chunks);
    if RepliesTo(codec, version, st, ts, reply) {
      forall i | 0 <= i < |ts| ensures reply[i] == meant[i] {
        assert reply[i].parts == meant[i].parts;
      }
      assert reply == meant;
    }
  }

  lemma {:induction false} NamesFitIff(codec: Codec, version: nat, st: Store, ts: seq<Topic>)
    ensures NamesFit(codec, ProduceChunks(codec, version, st, ts)) <==>
            forall i :: 0 <= i < |ts| ==> NameFits(codec, codec.decode(ts[i].name))
    decreases ts
  {
    hide NameFits, StoreTopic, PartReplies, PartChunks, AddTopic, HasTopic;
    if ts != [] {
      NamesFitIff(codec, version, StoreTopic(codec, st, ts[0]), ts[1..]);
      assert ProduceChunks(codec, version, st, ts)[1..] ==
             ProduceChunks(codec, version, StoreTopic(codec, st, ts[0]), ts[1..]);
      assert forall i :: 1 <= i < |ts| ==> ts[i] == ts[1..][i - 1];
      assert forall i :: 0 <= i < |ts| - 1 ==> ts[1..][i] == ts[i + 1];
    }
  }

  lemma {:induction false} PartsCount(codec: Codec, version: nat, st: Store, ts: seq<Topic>)
    requires LogInv(st)
    ensures forall i :: 0 <= i < |ts| ==> |ProduceChunks(codec, version, st, ts)[i].parts| == |ts[i].parts|
    decreases ts
  {
    hide LogInv, StoreTopic, PartReplies, PartChunks, AddTopic;
    if ts != [] {
      AddTopicOk(st, codec.decode(ts[0].name));
      StoreTopicEffect(codec, st, ts[0], [], 0);
      PartsCount(codec, version, StoreTopic(codec, st, ts[0]), ts[1..]);
    }
  }

  lemma ReplyRead(codec: Codec, version: nat, correlationId: nat, ts: seq<TopicChunk<PartReply>>)
    requires ChunksOk(PartReader(version), ts) && correlationId < Pow256(4) && Fits(4, |ts|)
    ensures Fits(4, 0)
    ensures var b := ToBE(4, correlationId) + PackSigned(4, |ts|) + TopicsBytes(codec, ts)
                     + if version >= 1 then ToBE(4, 0) else [];
            var reply := ReadProduceReply(version, b);
            if NamesFit(codec, ts) then
              reply == Some(ProduceReply(correlationId, Replied(codec, ts), if version >= 1 then Some(0) else None))
            else reply.Some? ==> reply.value.topics != Replied(codec, ts)
  {
    hide PackSigned, ReadSigned, At, ToBE, FromBE, TopicsBytes, NamesFit, ChunksOk, ReadMany, PartReader, TopicReader;
    Widths();
    ZeroPacked();
    var last := if version >= 1 then PackSigned(4, 0) else [];
    var id, n, topics := ToBE(4, correlationId), PackSigned(4, |ts|), TopicsBytes(codec, ts);
    var b := id + n + topics + last;
    assert b == id + (n + (topics + (last + [])));
    AtWhole(b);
    FromToBE(4, correlationId);
    assert b[..4] == id;
    AtSplit(b, 0, id, n + (topics + (last + [])));
    ReadFront(4, |ts|, b, 4, topics + (last + []));
    TopicsRead(codec, PartReader(version), b, 8, ts, last + []);
    if NamesFit(codec, ts) {
      OptionalRead(version >= 1, 4, 0, b, 8 + |topics|, []);
    }
  }

  // ---------------------------------------------------------------- main result

  /** For every request within the loop caps: a client that reads the answer finds its
      correlation id, and every topic and partition of the request in order, each with the
      length of its log before its first record, exactly when every topic name has as many
      bytes as characters. */
  lemma ProduceAnswers(
    codec: Codec, header: bytes, version: nat, correlationId: nat, st: Store, q: Request)
    requires |header| == 8 && RequestOk(q) && correlationId < Pow256(4)
    requires CodecOk(codec) && LogInv(st) && RoomFor(st, CountTopics(q.topics))
    ensures var r := ProduceRequest(codec, version, correlationId, EncRequest(header, version, q), st).1;
            && r.Some? && r.value != []
            && var reply := ReadProduceReply(version, r.value);
               (&& reply.Some? && reply.value.correlationId == correlationId
                && reply.value.throttle == (if version >= 1 then Some(0) else None)
                && RepliesTo(codec, version, st, q.topics, reply.value.topics)) <==>
               forall i :: 0 <= i < |q.topics| ==> NameFits(codec, codec.decode(q.topics[i].name))
  {
    hide LogInv, RoomFor, CodecOk, ProduceRequest, EncRequest, ReadProduceReply, RepliesTo, ProduceChunks, NameFits,
         TopicsBytes, NamesFit, ChunksOk, PartReader, StoreTopics, AnswerTopics, PackSigned, ToBE, TopicsOk;
    var chunks := ProduceChunks(codec, version, st, q.topics);
    ProduceInverts(codec, header, version, correlationId, st, q);
    AnswerTopicsAppends(codec, version, st, q.topics, ToBE(4, correlationId) + PackSigned(4, |q.topics|));
    ChunksAreOk(codec, version, st, q.topics);
    ReplyRead(codec, version, correlationId, chunks);
    NamesFitIff(codec, version, st, q.topics);
    PartsCount(codec, version, st, q.topics);
    RepliedIs(codec, version, st, q.topics, Replied(codec, chunks));
    var r := ProduceRequest(codec, version, correlationId, EncRequest(header, version, q), st).1;
    var reply := ReadProduceReply(version, r.value);
    if reply.Some? { RepliedIs(codec, version, st, q.topics, reply.value.topics); }
  }

  /** A request too short for its topic count gets no answer, and one too short for its
      transactional id an answer without topics; neither stores anything. */
  lemma ShortRequests(codec: Codec, version: nat, correlationId: nat, m: bytes, st: Store)
    requires correlationId < Pow256(4)
    ensures version == 0 && |m| < 18 ==> ProduceRequest(codec, version, correlationId, m, st) == (st, None)
    ensures version >= 1 && 10 <= |m| < 20 ==> ProduceRequest(codec, version, correlationId, m, st) == (st, None)
    ensures version >= 1 && |m| < 10 ==>
              var r := ProduceRequest(codec, version, correlationId, m, st);
              && r.0 == st && r.1.Some?
              && ReadProduceReply(version, r.1.value) == Some(ProduceReply(correlationId, [], Some(0)))
  {
    hide PackSigned, ReadSigned, At, ToBE, FromBE, Topics;
    Widths();
    ZeroPacked();
    ShortField(m, 8);
    if version >= 1 && |m| < 10 {
      var b := Fallback(version, correlationId);
      var none: seq<TopicChunk<PartReply>> := [];
      ReplyRead(codec, version, correlationId, none);
      assert ToBE(4, correlationId) + PackSigned(4, 0) + TopicsBytes(codec, none) + PackSigned(4, 0) == b;
    }
  }

  lemma ShortField(m: bytes, off: nat)
    ensures |m| < off + 2 ==> ReadSigned(2, m, off).None?
    ensures |m| >= off + 2 ==> ReadSigned(2, m, off).Some?
  {
  }
}
