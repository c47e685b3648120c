/** What the server makes of a message by its API key, and what a client that produces and then
    fetches over one connection reads back.
 */
module Dispatch {
  import opened Bytes
  import opened Connection
  import opened Fetch
  import opened FetchReplies
  import opened MockServer
  import opened MockStore
  import opened Options
  import opened Produce
  import opened ProduceReplies
  import opened ProduceRoundTrip
  import opened Replies

  /** What is not a produce request leaves the store alone; a key the server does not know is
      answered with the correlation id and no error. */
  lemma OtherKeys(c: Config, st: Store, m: bytes)
    ensures |m| < 8 ==> Handle(c, st, m) == (st, None)
    ensures |m| >= 8 && m[..2] == [0, 1] ==> Handle(c, st, m).0 == st
    ensures |m| >= 8 && m[..2] == [0, 3] ==>
              Handle(c, st, m) == (st, Some(c.describe(3, FromBE(m[2..4]), FromBE(m[4..8]))))
    ensures |m| >= 8 && m[..2] == [0, 18] ==>
              Handle(c, st, m) == (st, Some(c.describe(18, FromBE(m[2..4]), FromBE(m[4..8]))))
    ensures |m| >= 8 && !(m[0] == 0 && (m[1] == 0 || m[1] == 1 || m[1] == 3 || m[1] == 18)) ==>
              Handle(c, st, m) == (st, Some(m[4..8] + [0, 0]))
  {
    hide FromBE, ToBE, ProduceRequest, FetchRequest;
    if |m| >= 8 {
      assert m[..2] == [m[0], m[1]];
      TwoBytes(m[0], m[1]);
      ToFromBE(m[4..8]);
    }
  }

  /** Key 0 reaches the produce request, with the version and correlation id of its header. */
  lemma ProduceKey(c: Config, st: Store, m: bytes)
    requires |m| >= 8 && m[..2] == [0, 0]
    ensures Handle(c, st, m) == ProduceRequest(c.codec, FromBE(m[2..4]), FromBE(m[4..8]), m, st)
  {
    hide FromBE, ProduceRequest, FetchRequest;
    TwoBytes(0, 0);
  }

  /** Key 1 reaches the fetch request. */
  lemma FetchKey(c: Config, st: Store, m: bytes)
    requires |m| >= 8 && m[..2] == [0, 1]
    ensures Handle(c, st, m) == (st, FetchRequest(c.codec, FromBE(m[2..4]), FromBE(m[4..8]), m, st))
  {
    hide FromBE, ProduceRequest, FetchRequest;
    TwoBytes(0, 1);
  }

  /** A produce message: every log grows by exactly the payloads sent to it, and the answer reads
      as the request's partitions with their base offsets. */
  lemma ProduceMessage(c: Config, st: Store, header: bytes, q: Request, t: string, p: int)
    requires |header| == 8 && header[..2] == [0, 0] && RequestOk(q)
    requires CodecOk(c.codec) && LogInv(st) && RoomFor(st, CountTopics(q.topics))
    ensures var version := FromBE(header[2..4]);
            var (after, answer) := Handle(c, st, EncRequest(header, version, q));
            && LogInv(after)
            && Payloads(LogOf(after, t, p)) == Payloads(LogOf(st, t, p)) + TopicsPayloads(c.codec, q.topics, t, p)
            && LogOf(st, t, p) <= LogOf(after, t, p)
            && answer.Some? && answer.value != []
            && (Named(c.codec, q.topics) ==>
                  var reply := ReadProduceReply(version, answer.value);
                  && reply.Some? && reply.value.correlationId == FromBE(header[4..8])
                  && RepliesTo(c.codec, version, st, q.topics, reply.value.topics))
  {
    hide LogInv, RoomFor, CodecOk, ProduceRequest, RequestOk, ReadProduceReply, RepliesTo, FromBE, NameFits;
    var version, correlationId := FromBE(header[2..4]), FromBE(header[4..8]);
    var m := EncRequest(header, version, q);
    assert m[..2] == header[..2] && m[2..4] == header[2..4] && m[4..8] == header[4..8];
    ProduceKey(c, st, m);
    ProduceStores(c.codec, header, version, correlationId, st, q, t, p);
    ProduceKeepsLog(c.codec, version, correlationId, m, st);
    ProduceAnswers(c.codec, header, version, correlationId, st, q);
  }

  /** Every topic name has as many bytes as characters. */
  predicate Named(codec: Codec, ts: seq<Topic>) {
    forall i :: 0 <= i < |ts| ==> NameFits(codec, codec.decode(ts[i].name))
  }

  predicate QueriesNamed(codec: Codec, ts: seq<TopicQuery>) {
    forall i :: 0 <= i < |ts| ==> NameFits(codec, codec.decode(ts[i].name))
  }

  /** A fetch message changes nothing, and its answer reads as the length of every queried log. */
  lemma FetchMessage(c: Config, st: Store, header: bytes, q: FetchQuery)
    requires |header| == 8 && header[..2] == [0, 1] && FetchOk(q)
    requires CodecOk(c.codec) && LogInv(st) && MarksFit(st) && QueriesNamed(c.codec, q.topics)
    ensures var version := FromBE(header[2..4]);
            var (after, answer) := Handle(c, st, EncFetch(header, q));
            && after == st && answer.Some? && answer.value != []
            && var reply := ReadFetchReply(version, answer.value);
               && reply.Some? && reply.value.correlationId == FromBE(header[4..8])
               && ReportsOn(c.codec, version, st, q.topics, reply.value.topics)
  {
    hide LogInv, MarksFit, CodecOk, FetchRequest, FetchOk, ReadFetchReply, ReportsOn, FromBE, NameFits;
    var version, correlationId := FromBE(header[2..4]), FromBE(header[4..8]);
    var m := EncFetch(header, q);
    assert m[..2] == header[..2] && m[2..4] == header[2..4] && m[4..8] == header[4..8];
    FetchKey(c, st, m);
    FetchAnswers(c.codec, header, version, correlationId, st, q);
  }

  // ---------------------------------------------------------------- through a connection

  /** One message in any pieces, and any outcome of its send: it is handled once, and its answer
      is sent exactly when it has one and the send goes through. */
  lemma OneMessage(c: Config, net: Net, st: Store, m: bytes, chunks: seq<bytes>)
    requires FramesFit([m]) && Splits(chunks, Join([m]))
    ensures var t, r := Serve(c, net, Opened(st), chunks), Handle(c, st, m);
            && t.st == r.0 && t.handled == 1 && t.sent == (if net(0) == Done then Answer(r.1) else [])
            && (t.open <==> Answer(r.1) == [] || net(0) != Broken)
  {
    hide Handle, Serve, Cut, HandleAll, Delivered, Frames, HasFrame, ToBE, Faithful, Join;
    var fs, stream := [m], Join([m]);
    assert stream + [] == stream;
    NoFrameInNothing();
    CutInvertsJoin(fs, []);
    SameOutcome(c, net, st, stream, chunks);
    OpenedFaithful(c, net, st);
    assert [] + stream == stream;
    ExtendedFaithful(c, net, st, Opened(st), stream);
    FramesFaithful(c, net, st, Extended(Opened(st), stream));
    HandledOne(c, net, st, m);
    OneHandled(c, net, st, Receive(c, net, Opened(st), stream), m);
  }

  lemma HandledOne(c: Config, net: Net, st: Store, m: bytes)
    ensures AnswerTo(c, st, [m], 0) == Answer(Handle(c, st, m).1)
    ensures HandleAll(c, st, [m]).0 == Handle(c, st, m).0
    ensures Delivered(c, net, st, [m]) == if net(0) == Done then Answer(Handle(c, st, m).1) else []
  {
    hide Handle;
    assert [m][..0] == [] && [m][1..] == [];
    NothingHandled(c, st);
    NothingHandled(c, Handle(c, st, m).0);
  }

  lemma OneHandled(c: Config, net: Net, st: Store, t: Session, m: bytes)
    requires Faithful(c, net, st, t) && Cut(t.received) == ([m], []) && t.handled == 1
    ensures t.st == HandleAll(c, st, [m]).0 && t.sent == Delivered(c, net, st, [m])
  {
    hide Cut, HandleAll, Delivered;
    assert [m][..1] == [m];
  }

  /** Two messages in any pieces, both answered and both sends through. */
  lemma TwoMessages(c: Config, net: Net, st: Store, m: bytes, n: bytes, chunks: seq<bytes>)
    requires FramesFit([m, n]) && Splits(chunks, Join([m, n])) && net(0) == Done && net(1) == Done
    ensures var t, r := Serve(c, net, Opened(st), chunks), Handle(c, st, m);
            var u := Handle(c, r.0, n);
            t.st == u.0 && t.handled == 2 && t.sent == Answer(r.1) + Answer(u.1) && t.open
  {
    hide Handle, Serve, Cut, HandleAll, Delivered, HasFrame, ToBE, Join, AnswerTo;
    var fs, stream := [m, n], Join([m, n]);
    assert stream + [] == stream;
    NoFrameInNothing();
    CutInvertsJoin(fs, []);
    forall k | 0 <= k < 2 ensures !Stops(c, net, st, fs, k) {
    }
    ChunkingIndependence(c, net, st, chunks);
    assert fs[..1] == [m] && fs[..1] + [n] == fs;
    HandledOne(c, net, st, m);
    OneMore(c, st, [m], n);
    DeliveredTwo(c, net, st, m, n);
  }

  lemma DeliveredTwo(c: Config, net: Net, st: Store, m: bytes, n: bytes)
    requires net(0) == Done && net(1) == Done
    ensures Delivered(c, net, st, [m, n]) ==
            Answer(Handle(c, st, m).1) + Answer(Handle(c, Handle(c, st, m).0, n).1)
  {
    hide Handle, HandleAll;
    assert [m, n][..1] == [m];
    HandledOne(c, net, st, m);
  }

  lemma ProducedFits(c: Config, st: Store, header: bytes, q: Request)
    requires |header| == 8 && header[..2] == [0, 0] && RequestOk(q)
    requires CodecOk(c.codec) && LogInv(st) && RoomFor(st, CountTopics(q.topics))
    ensures MarksFit(Handle(c, st, EncRequest(header, FromBE(header[2..4]), q)).0)
  {
    hide LogInv, RoomFor, CodecOk, ProduceRequest, FromBE, StoreTopics, AnswerTopics;
    var version, correlationId := FromBE(header[2..4]), FromBE(header[4..8]);
    var m := EncRequest(header, version, q);
    assert m[..2] == header[..2] && m[2..4] == header[2..4] && m[4..8] == header[4..8];
    ProduceKey(c, st, m);
    ProduceInverts(c.codec, header, version, correlationId, st, q);
    RoomAfterTopics(c.codec, st, q.topics);
    RoomFits(StoreTopics(c.codec, st, q.topics));
  }

  lemma RoomFits(st: Store)
    requires RoomFor(st, 0)
    ensures MarksFit(st)
  {
    Widths();
    forall t, p ensures Fits(8, |LogOf(st, t, p)|) {
      assert |LogOf(st, t, p)| + 0 < OFFSET_LIMIT;
    }
  }

  lemma {:induction false} RoomAfterTopics(codec: Codec, st: Store, ts: seq<Topic>)
    requires LogInv(st) && RoomFor(st, CountTopics(ts))
    ensures RoomFor(StoreTopics(codec, st, ts), 0)
    decreases ts
  {
    hide LogInv, RoomFor, StoreTopic;
    if ts != [] {
      RoomAfterTopic(codec, st, ts[0], CountTopics(ts[1..]));
      RoomAfterTopics(codec, StoreTopic(codec, st, ts[0]), ts[1..]);
    }
  }

  /** A client that produces and then fetches over one connection, in any pieces, with every send
      through, reads in the second answer the length of every queried log before it produced, and
      what it produced there. */
  lemma ProduceThenFetch(
    c: Config, net: Net, st: Store, header: bytes, q: Request, header2: bytes, f: FetchQuery, chunks: seq<bytes>)
    requires |header| == 8 && header[..2] == [0, 0] && RequestOk(q)
    requires |header2| == 8 && header2[..2] == [0, 1] && FetchOk(f) && QueriesNamed(c.codec, f.topics)
    requires CodecOk(c.codec) && LogInv(st) && RoomFor(st, CountTopics(q.topics)) && net(0) == Done && net(1) == Done
    requires var m, n := EncRequest(header, FromBE(header[2..4]), q), EncFetch(header2, f);
             FramesFit([m, n]) && Splits(chunks, Join([m, n]))
    ensures var t := Serve(c, net, Opened(st), chunks);
            && |t.sent| == 2
            && var reply := ReadFetchReply(FromBE(header2[2..4]), t.sent[1]);
               && reply.Some? && |reply.value.topics| == |f.topics|
               && forall i :: 0 <= i < |f.topics| ==>
                    && |reply.value.topics[i].parts| == |f.topics[i].parts|
                    && forall j :: 0 <= j < |f.topics[i].parts| ==>
                         var name, id := c.codec.decode(f.topics[i].name), f.topics[i].parts[j].id;
                         && reply.value.topics[i].parts[j].id == id
                         && reply.value.topics[i].parts[j].mark ==
                            |LogOf(st, name, id)| + |TopicsPayloads(c.codec, q.topics, name, id)|
  {
    hide Handle, Serve, LogInv, RoomFor, CodecOk, RequestOk, FetchOk, EncRequest, EncFetch, FromBE, ReadFetchReply,
         LogOf, FramesFit, Join, QueriesNamed, Splits, TopicsPayloads, MarksFit;
    var m, n := EncRequest(header, FromBE(header[2..4]), q), EncFetch(header2, f);
    var r := Handle(c, st, m);
    TwoMessages(c, net, st, m, n, chunks);
    ProducedFits(c, st, header, q);
    ProduceMessage(c, st, header, q, [], 0);
    FetchMessage(c, r.0, header2, f);
    forall i, j | 0 <= i < |f.topics| && 0 <= j < |f.topics[i].parts|
      ensures var name, id := c.codec.decode(f.topics[i].name), f.topics[i].parts[j].id;
              |LogOf(r.0, name, id)| == |LogOf(st, name, id)| + |TopicsPayloads(c.codec, q.topics, name, id)|
    {
      ProduceMessage(c, st, header, q, c.codec.decode(f.topics[i].name), f.topics[i].parts[j].id);
    }
  }
}
