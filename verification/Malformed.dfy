/** Requests that are not well formed: a produce request cut short inside its last record, or with
    a negative size, and a fetch request cut short inside its last partition.
 */
module Malformed {
  import opened Bytes
  import opened Fetch
  import opened MockStore
  import opened Options
  import opened Produce
  import opened ProduceRoundTrip

  // ---------------------------------------------------------------- cut short

  /** At `off` there is no whole record: its offset, its size or its payload is cut. */
  predicate CutRecord(m: bytes, off: int) {
    || |m| < off + 12
    || var size := ReadSigned(4, m, off + 8); size.Some? && |m| < off + 12 + size.value
  }

  lemma FieldThere(n: nat, m: bytes, off: int)
    requires 0 <= off && off + n <= |m|
    ensures ReadSigned(n, m, off).Some?
  {
  }

  lemma CutStep(m: bytes, off: int, st: Store, t: string, p: int, offsets: seq<int>)
    requires 0 <= off && CutRecord(m, off) && HasPartition(st, t, p)
    ensures var r := RecordStep(m, off, st, t, p, offsets);
            r.st == st && r.offsets == offsets && r.exit == Break
  {
    hide ReadSigned;
    if off + 8 <= |m| { FieldThere(8, m, off); }
    if off + 12 <= |m| { FieldThere(4, m, off + 8); }
  }

  lemma {:induction false} RecordsCut(
    m: bytes, off: int, n: nat, st: Store, t: string, p: int, offsets: seq<int>, rs: seq<Rec>)
    requires 0 <= off && RecsAt(m, off, rs) && CutRecord(m, off + RecsSize(rs)) && HasPartition(st, t, p)
    requires |rs| < n
    ensures var r := Records(m, off, n, st, t, p, offsets);
            && r.st == StoreRecs(st, t, p, rs) && r.exit == Break
            && Base(r.offsets) == Base(if rs == [] then offsets else offsets + [st.offsets[t][p]])
    decreases rs
  {
    hide RecAt, RecordStep, CutRecord, Append, HasPartition, RecSize;
    if rs == [] {
      CutStep(m, off, st, t, p, offsets);
    } else {
      RecordInverts(m, off, st, t, p, offsets, rs[0]);
      var r := RecordStep(m, off, st, t, p, offsets);
      RecordsCut(m, r.off, n - 1, r.st, t, p, r.offsets, rs[1..]);
    }
  }

  /** At `off` a partition announces more than the records `p.records`, and the next one is cut. */
  predicate CutPart(m: bytes, off: int, p: Part) {
    && 0 <= off && off + 8 <= |m|
    && ReadSigned(4, m, off) == Some(p.id)
    && (var count := ReadSigned(4, m, off + 4); count.Some? && |p.records| < count.value <= 1000)
    && RecsAt(m, off + 8, p.records) && CutRecord(m, off + 8 + RecsSize(p.records))
  }

  lemma PartitionCut(version: nat, m: bytes, off: int, st: Store, t: string, response: bytes, p: Part)
    requires CutPart(m, off, p) && LogInv(st) && HasTopic(st, t) && |LogOf(st, t, p.id)| < OFFSET_LIMIT
    ensures var r := PartitionStep(version, m, off, st, t, response);
            && r.st == StorePart(st, t, p) && r.response == response + AnswerPart(version, st, t, p)
            && r.exit == Continue
  {
    hide ReadSigned, CutRecord, PartitionAnswer, Records;
    Widths();
    AddPartitionOk(st, t, p.id);
    var st1, count := AddPartition(st, t, p.id), ReadSigned(4, m, off + 4).value;
    RecordsCut(m, off + 8, count, st1, t, p.id, [], p.records);
    assert LogInvAt(st1, t, p.id);
    ReadFits(m, off);
  }

  lemma ReadFits(m: bytes, off: int)
    ensures ReadSigned(4, m, off).Some? ==> Fits(4, ReadSigned(4, m, off).value)
  {
  }

  lemma {:induction false} PartitionsCut(
    version: nat, m: bytes, off: int, st: Store, t: string, response: bytes, ps: seq<Part>, p: Part)
    requires PartsOk(ps) && PartsAt(m, off, ps) && CutPart(m, off + PartsSize(ps), p)
    requires LogInv(st) && HasTopic(st, t) && RoomFor(st, CountParts(ps) + |p.records|)
    ensures var r := Partitions(version, m, off, |ps| + 1, st, t, response);
            && r.st == StoreParts(st, t, ps + [p]) && r.exit == Break
            && r.response == AnswerParts(version, st, t, ps + [p], response)
    decreases ps
  {
    hide PartAt, PartOk, PartitionStep, PartSize, CutPart, LogInv, LogOf, HasTopic, StorePart, AnswerPart;
    if ps == [] {
      assert ps + [p] == [p] && [p][1..] == [];
      RoomHere(st, t, p);
      PartitionCut(version, m, off, st, t, response, p);
      LastPartition(version, m, off, st, t, response);
    } else {
      assert (ps + [p])[1..] == ps[1..] + [p];
      RoomAfterPart(st, t, ps[0], CountParts(ps[1..]) + |p.records|);
      PartitionInverts(version, m, off, st, t, response, ps[0]);
      PartitionsCut(version, m, off + PartSize(ps[0]), StorePart(st, t, ps[0]), t,
                    response + AnswerPart(version, st, t, ps[0]), ps[1..], p);
    }
  }

  lemma RoomHere(st: Store, t: string, p: Part)
    requires RoomFor(st, |p.records|)
    ensures |LogOf(st, t, p.id)| < OFFSET_LIMIT
  {
  }

  lemma LastPartition(version: nat, m: bytes, off: int, st: Store, t: string, response: bytes)
    requires HasTopic(st, t) && PartitionStep(version, m, off, st, t, response).exit == Continue
    ensures var r := PartitionStep(version, m, off, st, t, response);
            Partitions(version, m, off, 1, st, t, response) == r.(exit := Break)
  {
    hide PartitionStep;
  }

  /** At `off` the topic `t` with one more partition `p`, whose next record is cut. */
  predicate CutTopic(m: bytes, off: int, t: Topic, p: Part) {
    && 0 <= off && off + 6 + |t.name| <= |m| && |t.parts| < 100 && PartsOk(t.parts)
    && ReadSigned(2, m, off) == Some(|t.name|)
    && Slice(m, off + 2, off + 2 + |t.name|) == t.name
    && ReadSigned(4, m, off + 2 + |t.name|) == Some(|t.parts| + 1)
    && PartsAt(m, off + 6 + |t.name|, t.parts)
    && CutPart(m, off + 6 + |t.name| + PartsSize(t.parts), p)
  }

  lemma TopicCut(codec: Codec, version: nat, m: bytes, off: int, st: Store, response: bytes, t: Topic, p: Part)
    requires CutTopic(m, off, t, p) && Fits(2, |t.name|) && CodecOk(codec) && LogInv(st)
    requires RoomFor(st, CountParts(t.parts) + |p.records|)
    ensures var r, whole := TopicStep(codec, version, m, off, st, response), t.(parts := t.parts + [p]);
            && r.st == StoreTopic(codec, st, whole) && r.exit == Continue
            && r.response == AnswerTopic(codec, version, st, whole, response)
  {
    hide ReadSigned, Slice, PackSigned, AnswerParts, StoreParts, Partitions, PartsAt, PartsOk, CutPart;
    Widths();
    var name := codec.decode(t.name);
    AddTopicOk(st, name);
    PartitionsCut(version, m, off + 6 + |t.name|, AddTopic(st, name), name,
                  response + TopicAnswer(codec, name, |t.parts| + 1), t.parts, p);
  }

  lemma {:induction false} TopicsCut(
    codec: Codec, version: nat, m: bytes, off: int, st: Store, response: bytes, ts: seq<Topic>, t: Topic, p: Part)
    requires TopicsOk(ts) && TopicsAt(m, off, ts) && CutTopic(m, off + TopicsSize(ts), t, p)
    requires Fits(2, |t.name|) && CodecOk(codec) && LogInv(st)
    requires RoomFor(st, CountTopics(ts) + CountParts(t.parts) + |p.records|)
    ensures var r, whole := Topics(codec, version, m, off, |ts| + 1, st, response), t.(parts := t.parts + [p]);
            && r.st == StoreTopics(codec, st, ts + [whole]) && r.exit == Break
            && r.response == AnswerTopics(codec, version, st, ts + [whole], response)
    decreases ts
  {
    hide ReadSigned, Slice, TopicAt, TopicStep, TopicOk, TopicSize, CutTopic, StoreTopic, AnswerTopic, LogInv, RoomFor;
    var whole := t.(parts := t.parts + [p]);
    if ts == [] {
      assert ts + [whole] == [whole] && [whole][1..] == [];
      TopicCut(codec, version, m, off, st, response, t, p);
      LastTopic(codec, version, m, off, st, response);
    } else {
      assert (ts + [whole])[1..] == ts[1..] + [whole];
      RoomLess(st, CountTopics(ts) + CountParts(t.parts) + |p.records|, CountParts(ts[0].parts));
      AddTopicOk(st, codec.decode(ts[0].name));
      RoomAfterTopic(codec, st, ts[0], CountTopics(ts[1..]) + CountParts(t.parts) + |p.records|);
      TopicInverts(codec, version, m, off, st, response, ts[0]);
      TopicsCut(codec, version, m, off + TopicSize(ts[0]), StoreTopic(codec, st, ts[0]),
                AnswerTopic(codec, version, st, ts[0], response), ts[1..], t, p);
    }
  }

  lemma RoomLess(st: Store, n: nat, k: nat)
    requires RoomFor(st, n) && k <= n
    ensures RoomFor(st, k)
  {
  }

  lemma LastTopic(codec: Codec, version: nat, m: bytes, off: int, st: Store, response: bytes)
    requires TopicStep(codec, version, m, off, st, response).exit == Continue
    ensures var r := TopicStep(codec, version, m, off, st, response);
            Topics(codec, version, m, off, 1, st, response) == r.(exit := Break)
  {
    hide TopicStep;
  }

  /** A request cut anywhere inside the last of its records, whatever comes before: everything
      before that record is stored, and the request is answered as if it had ended there. */
  lemma CutRequest(
    codec: Codec, version: nat, correlationId: nat, m: bytes, st: Store, off: int, ts: seq<Topic>, t: Topic, p: Part)
    requires correlationId < Pow256(4) && CodecOk(codec) && LogInv(st)
    requires BodyOffset(version, m) == Some(off) && off + 4 <= |m| && ReadSigned(4, m, off) == Some(|ts| + 1)
    requires |ts| < 100 && TopicsOk(ts) && TopicsAt(m, off + 4, ts)
    requires CutTopic(m, off + 4 + TopicsSize(ts), t, p) && Fits(2, |t.name|)
    requires RoomFor(st, CountTopics(ts) + CountParts(t.parts) + |p.records|)
    ensures Fits(4, |ts| + 1)
    ensures var all := ts + [t.(parts := t.parts + [p])];
            ProduceRequest(codec, version, correlationId, m, st) ==
            (StoreTopics(codec, st, all),
             Some(AnswerTopics(codec, version, st, all, Head(correlationId, |ts| + 1))
                  + if version >= 1 then [0, 0, 0, 0] else []))
  {
    hide ReadSigned, BodyOffset, RoomFor, CodecOk, LogInv, Topics, StoreTopics, AnswerTopics, TopicsAt, TopicsOk,
         CutTopic, Head, ProduceRequest, TopicsSize, ToBE;
    ReadFits(m, off);
    TopicsCut(codec, version, m, off + 4, st, Head(correlationId, |ts| + 1), ts, t, p);
    BrokenAnswer(codec, version, correlationId, m, st, off, |ts| + 1);
  }

  /** So every log holds what the request sent to it before the cut. */
  lemma CutRequestStores(
    codec: Codec, version: nat, correlationId: nat, m: bytes, st: Store, off: int, ts: seq<Topic>, t: Topic, p: Part,
    u: string, q: int)
    requires correlationId < Pow256(4) && CodecOk(codec) && LogInv(st)
    requires BodyOffset(version, m) == Some(off) && off + 4 <= |m| && ReadSigned(4, m, off) == Some(|ts| + 1)
    requires |ts| < 100 && TopicsOk(ts) && TopicsAt(m, off + 4, ts)
    requires CutTopic(m, off + 4 + TopicsSize(ts), t, p) && Fits(2, |t.name|)
    requires RoomFor(st, CountTopics(ts) + CountParts(t.parts) + |p.records|)
    ensures Payloads(LogOf(ProduceRequest(codec, version, correlationId, m, st).0, u, q)) ==
            Payloads(LogOf(st, u, q)) + TopicsPayloads(codec, ts + [t.(parts := t.parts + [p])], u, q)
  {
    hide ReadSigned, BodyOffset, RoomFor, CodecOk, LogInv, StoreTopics, AnswerTopics, TopicsAt, TopicsOk, CutTopic,
         Head, ProduceRequest, TopicsSize, LogOf, Payloads, TopicsPayloads;
    CutRequest(codec, version, correlationId, m, st, off, ts, t, p);
    StoreTopicsEffect(codec, st, ts + [t.(parts := t.parts + [p])], u, q);
  }

  function Head(correlationId: nat, count: int): bytes
    requires correlationId < Pow256(4) && Fits(4, count)
  {
    ToBE(4, correlationId) + PackSigned(4, count)
  }

  lemma BrokenAnswer(codec: Codec, version: nat, correlationId: nat, m: bytes, st: Store, off: int, count: int)
    requires correlationId < Pow256(4) && Fits(4, count) && 0 <= count <= 100
    requires BodyOffset(version, m) == Some(off) && off + 4 <= |m| && ReadSigned(4, m, off) == Some(count)
    requires Topics(codec, version, m, off + 4, count, st, Head(correlationId, count)).exit != Raise
    ensures var r := Topics(codec, version, m, off + 4, count, st, Head(correlationId, count));
            ProduceRequest(codec, version, correlationId, m, st) ==
            (r.st, Some(r.response + if version >= 1 then [0, 0, 0, 0] else []))
  {
    hide ReadSigned, BodyOffset, Topics, PackSigned, ToBE;
    Zeros();
  }

  /** Where else a request may be cut: a topic without its whole name ends the loop as if it were not
      there, one without its partition count is kept empty, and so is a partition without its record
      count; a cut size leaves the cursor behind the offset, a cut payload before the payload. */
  lemma CutHeads(
    codec: Codec, version: nat, m: bytes, off: int, st: Store, response: bytes, t: string, p: int, offsets: seq<int>)
    requires 0 <= off <= |m|
    ensures |m| < off + 2 ==> TopicStep(codec, version, m, off, st, response) == Loop(st, off, response, Break)
    ensures forall size :: ReadSigned(2, m, off) == Some(size) && |m| < off + 2 + size ==>
              TopicStep(codec, version, m, off, st, response) == Loop(st, off + 2, response, Break)
    ensures |m| < off + 4 ==> TopicBody(codec, version, m, off, st, t, response) == Loop(st, off, response, Break)
    ensures HasTopic(st, t) && |m| < off + 4 ==>
              PartitionStep(version, m, off, st, t, response) == Loop(st, off, response, Break)
    ensures HasTopic(st, t) && off + 4 <= |m| < off + 8 && ReadSigned(4, m, off) == Some(p) ==>
              PartitionStep(version, m, off, st, t, response) == Loop(AddPartition(st, t, p), off + 4, response, Break)
    ensures HasPartition(st, t, p) && |m| < off + 8 ==>
              RecordStep(m, off, st, t, p, offsets) == RecordLoop(st, off, offsets, Break)
    ensures HasPartition(st, t, p) && off + 8 <= |m| < off + 12 ==>
              RecordStep(m, off, st, t, p, offsets) == RecordLoop(st, off + 8, offsets, Break)
    ensures HasPartition(st, t, p) && off + 12 <= |m| && CutRecord(m, off) ==>
              RecordStep(m, off, st, t, p, offsets) == RecordLoop(st, off + 12, offsets, Break)
  {
    if off + 2 <= |m| { FieldThere(2, m, off); }
    if off + 4 <= |m| { FieldThere(4, m, off); }
    if off + 8 <= |m| { FieldThere(8, m, off); }
    if off + 12 <= |m| { FieldThere(4, m, off + 8); }
    hide ReadSigned, Slice, Records, Partitions, PartitionAnswer, TopicAnswer, AddPartition, Append;
  }

  // ---------------------------------------------------------------- negative sizes

  /** A record whose size is so negative that the cursor leaves the message at its front is stored
      without payload, and the next record raises. */
  lemma NegativeRecords(m: bytes, off: int, n: nat, st: Store, t: string, p: int, size: int)
    requires 0 <= off && off + 12 <= |m| && HasPartition(st, t, p) && n >= 2
    requires ReadSigned(4, m, off + 8) == Some(size) && size < -2 * |m| - 20
    ensures ReadSigned(8, m, off).Some?
    ensures var r := Records(m, off, n, st, t, p, []);
            r.st == Append(st, t, p, ReadSigned(8, m, off).value, []) && r.exit == Raise
  {
    FieldThere(8, m, off);
    hide Append;
    var r := RecordStep(m, off, st, t, p, []);
    assert ReadSigned(8, m, r.off).None?;
  }

  /** At `off` a topic with a first partition whose first of several records has such a size. */
  predicate NegativeTopic(m: bytes, off: int, name: bytes, id: int, batchOffset: int) {
    && 0 <= off && off + 26 + |name| <= |m| && Fits(2, |name|)
    && ReadSigned(2, m, off) == Some(|name|) && Slice(m, off + 2, off + 2 + |name|) == name
    && var part := off + 6 + |name|;
       && (var parts := ReadSigned(4, m, part - 4); parts.Some? && parts.value >= 1)
       && ReadSigned(4, m, part) == Some(id)
       && (var records := ReadSigned(4, m, part + 4); records.Some? && records.value >= 2)
       && ReadSigned(8, m, part + 8) == Some(batchOffset)
       && var size := ReadSigned(4, m, part + 16); size.Some? && size.value < -2 * |m| - 20
  }

  lemma NegativePartition(version: nat, m: bytes, off: int, st: Store, t: string, response: bytes, id: int, bo: int)
    requires 0 <= off && off + 20 <= |m| && LogInv(st) && HasTopic(st, t)
    requires ReadSigned(4, m, off) == Some(id) && ReadSigned(8, m, off + 8) == Some(bo)
    requires var records := ReadSigned(4, m, off + 4); records.Some? && records.value >= 2
    requires var size := ReadSigned(4, m, off + 16); size.Some? && size.value < -2 * |m| - 20
    ensures HasPartition(AddPartition(st, t, id), t, id)
    ensures var r := PartitionStep(version, m, off, st, t, response);
            r.st == Append(AddPartition(st, t, id), t, id, bo, []) && r.exit == Raise
  {
    AddPartitionOk(st, t, id);
    var count := ReadSigned(4, m, off + 4).value;
    NegativeRecords(m, off + 8, Rounds(count, MAX_RECORDS), AddPartition(st, t, id), t, id,
                    ReadSigned(4, m, off + 16).value);
    hide ReadSigned, Records, Append, PartitionAnswer;
  }

  lemma DecodedFits(codec: Codec, name: bytes)
    requires CodecOk(codec) && Fits(2, |name|)
    ensures Fits(2, |codec.decode(name)|)
  {
  }

  lemma NegativeTopicRaises(
    codec: Codec, version: nat, m: bytes, off: int, st: Store, response: bytes, name: bytes, id: int, bo: int)
    requires NegativeTopic(m, off, name, id, bo) && CodecOk(codec) && LogInv(st)
    ensures var t := codec.decode(name);
            && HasTopic(AddTopic(st, t), t) && HasPartition(AddPartition(AddTopic(st, t), t, id), t, id)
            && var r := TopicStep(codec, version, m, off, st, response);
               r.st == Append(AddPartition(AddTopic(st, t), t, id), t, id, bo, []) && r.exit == Raise
  {
    hide ReadSigned, Slice, PackSigned, PartitionStep, Append, AddPartition, TopicAnswer, LogInv, CodecOk,
         Fits;
    var t := codec.decode(name);
    AddTopicOk(st, t);
    var count := ReadSigned(4, m, off + 2 + |name|).value;
    DecodedFits(codec, name);
    NegativePartition(version, m, off + 6 + |name|, AddTopic(st, t), t, response + TopicAnswer(codec, t, count),
                      id, bo);
  }

  lemma {:induction false} TopicsRaise(
    codec: Codec, version: nat, m: bytes, off: int, n: nat, st: Store, response: bytes, ts: seq<Topic>,
    name: bytes, id: int, bo: int)
    requires TopicsOk(ts) && TopicsAt(m, off, ts) && NegativeTopic(m, off + TopicsSize(ts), name, id, bo)
    requires CodecOk(codec) && LogInv(st) && RoomFor(st, CountTopics(ts)) && n > |ts|
    ensures var t, st1 := codec.decode(name), StoreTopics(codec, st, ts);
            && HasTopic(AddTopic(st1, t), t) && HasPartition(AddPartition(AddTopic(st1, t), t, id), t, id)
            && var r := Topics(codec, version, m, off, n, st, response);
               r.st == Append(AddPartition(AddTopic(st1, t), t, id), t, id, bo, []) && r.exit == Raise
    decreases ts
  {
    hide ReadSigned, Slice, TopicAt, TopicStep, TopicOk, TopicSize, NegativeTopic, StoreTopic, LogInv, RoomFor, Append,
         AddPartition, AddTopic;
    if ts == [] {
      NegativeTopicRaises(codec, version, m, off, st, response, name, id, bo);
    } else {
      RoomLess(st, CountTopics(ts), CountParts(ts[0].parts));
      AddTopicRoom(st, codec.decode(ts[0].name), CountParts(ts[0].parts));
      RoomAfterTopic(codec, st, ts[0], CountTopics(ts[1..]));
      TopicInverts(codec, version, m, off, st, response, ts[0]);
      TopicsRaise(codec, version, m, off + TopicSize(ts[0]), n - 1, StoreTopic(codec, st, ts[0]),
                  AnswerTopic(codec, version, st, ts[0], response), ts[1..], name, id, bo);
    }
  }

  lemma AddTopicRoom(st: Store, t: string, n: nat)
    requires LogInv(st) && RoomFor(st, n)
    ensures RoomFor(AddTopic(st, t), n)
  {
    AddTopicOk(st, t);
  }

  /** An exception keeps what was stored: the topics before, and the record with the negative size,
      empty; the answer is the one without topics. */
  lemma NegativeSizeKeeps(
    codec: Codec, version: nat, correlationId: nat, m: bytes, st: Store, off: int, count: int, ts: seq<Topic>,
    name: bytes, id: int, bo: int)
    requires correlationId < Pow256(4) && CodecOk(codec) && LogInv(st) && RoomFor(st, CountTopics(ts))
    requires BodyOffset(version, m) == Some(off) && off + 4 <= |m| && ReadSigned(4, m, off) == Some(count)
    requires |ts| < count && |ts| < 100 && TopicsOk(ts) && TopicsAt(m, off + 4, ts)
    requires NegativeTopic(m, off + 4 + TopicsSize(ts), name, id, bo)
    ensures var t, st1 := codec.decode(name), StoreTopics(codec, st, ts);
            && HasTopic(AddTopic(st1, t), t) && HasPartition(AddPartition(AddTopic(st1, t), t, id), t, id)
            && ProduceRequest(codec, version, correlationId, m, st) ==
               (Append(AddPartition(AddTopic(st1, t), t, id), t, id, bo, []),
                Some(ToBE(4, correlationId) + [0, 0, 0, 0] + if version >= 1 then [0, 0, 0, 0] else []))
  {
    hide ReadSigned, BodyOffset, RoomFor, CodecOk, LogInv, Topics, StoreTopics, TopicsAt, TopicsOk, NegativeTopic,
         Append, AddPartition, AddTopic, ProduceRequest, HasTopic, HasPartition, Head, ToBE, Rounds, TopicsSize;
    ReadFits(m, off);
    RoundsAre(count);
    var head := Head(correlationId, count);
    TopicsRaise(codec, version, m, off + 4, Rounds(count, MAX_TOPICS), st, head, ts, name, id, bo);
    RaisedAnswer(codec, version, correlationId, m, st, off, count);
  }

  lemma RaisedAnswer(codec: Codec, version: nat, correlationId: nat, m: bytes, st: Store, off: int, count: int)
    requires correlationId < Pow256(4) && Fits(4, count)
    requires BodyOffset(version, m) == Some(off) && off + 4 <= |m| && ReadSigned(4, m, off) == Some(count)
    requires Topics(codec, version, m, off + 4, Rounds(count, MAX_TOPICS), st, Head(correlationId, count)).exit == Raise
    ensures ProduceRequest(codec, version, correlationId, m, st) ==
            (Topics(codec, version, m, off + 4, Rounds(count, MAX_TOPICS), st, Head(correlationId, count)).st,
             Some(ToBE(4, correlationId) + [0, 0, 0, 0] + if version >= 1 then [0, 0, 0, 0] else []))
  {
    hide ReadSigned, BodyOffset, Topics, PackSigned, ToBE;
    Zeros();
  }

  lemma Zeros()
    ensures ToBE(4, 0) == [0, 0, 0, 0]
  {
    var one: bytes := [0];
    assert ToBE(1, 0) == one;
    assert ToBE(2, 0) == [0, 0];
    assert ToBE(3, 0) == [0, 0, 0];
  }

  /** A count that is not positive stands for nothing, and one above the cap for the cap. */
  lemma RoundsAre(count: int)
    ensures Rounds(count, MAX_TOPICS) == Rounds(count, MAX_PARTITIONS)
    ensures count <= 0 ==> Rounds(count, MAX_TOPICS) == Rounds(count, MAX_RECORDS) == 0
    ensures 0 <= count <= 100 ==> Rounds(count, MAX_TOPICS) == count
    ensures count > 100 ==> Rounds(count, MAX_TOPICS) == 100
    ensures 0 <= count <= 1000 ==> Rounds(count, MAX_RECORDS) == count
    ensures count > 1000 ==> Rounds(count, MAX_RECORDS) == 1000
  {
  }

  // ---------------------------------------------------------------- a fetch cut short

  /** A cut query ends its loop, except that the fetch offset is read without looking whether all
      of it is there. */
  predicate Unreadable(left: int) {
    8 <= left < 12
  }

  lemma QueryCut(version: nat, m: bytes, off: int, st: Store, t: string, response: bytes)
    requires 0 <= off <= |m| < off + 16
    ensures var r := FetchPartStep(version, m, off, st, t, response);
            if Unreadable(|m| - off) then r.exit == Raise else r.exit == Break && r.response == response
  {
    if off + 8 <= |m| { FieldThere(4, m, off); }
    if off + 12 <= |m| { FieldThere(8, m, off + 4); }
  }

  lemma {:induction false} QueriesCut(
    version: nat, m: bytes, off: int, n: nat, st: Store, t: string, qs: seq<Query>, response: bytes)
    requires LogInv(st) && MarksFit(st) && QueriesAt(m, off, qs) && |qs| < n
    requires 0 <= off && off + 16 * |qs| <= |m| < off + 16 * |qs| + 16
    ensures var r := FetchParts(version, m, off, n, st, t, response);
            if Unreadable(|m| - off - 16 * |qs|) then r.exit == Raise
            else r.exit == Break && r.response == Reports(version, st, t, qs, response)
    decreases qs
  {
    hide ReadSigned, HighWaterMark, LogOf, MarkAnswer, LogInv, MarksFit;
    if qs == [] {
      QueryCut(version, m, off, st, t, response);
    } else {
      MarkIsLength(st, t, qs[0].id);
      FitsHere(st, t, qs[0].id);
      QueriesCut(version, m, off + 16, n - 1, st, t, qs[1..], response + Report(version, st, t, qs[0]));
    }
  }

  lemma FitsHere(st: Store, t: string, p: int)
    requires MarksFit(st)
    ensures Fits(8, |LogOf(st, t, p)|)
  {
  }

  /** At `off` a topic that announces `count` partitions, of which `t.parts` are there and the next
      one is cut by the end of the message. */
  predicate CutQueries(m: bytes, off: int, t: TopicQuery, count: int) {
    && 0 <= off && Fits(2, |t.name|) && |t.parts| < count && |t.parts| < 100
    && ReadSigned(2, m, off) == Some(|t.name|)
    && Slice(m, off + 2, off + 2 + |t.name|) == t.name
    && ReadSigned(4, m, off + 2 + |t.name|) == Some(count)
    && QueriesAt(m, off + 6 + |t.name|, t.parts)
    && off + QueriesSize(t) <= |m| < off + QueriesSize(t) + 16
  }

  lemma TopicQueryCut(
    codec: Codec, version: nat, m: bytes, off: int, st: Store, response: bytes, t: TopicQuery, count: int)
    requires CutQueries(m, off, t, count) && CodecOk(codec) && LogInv(st) && MarksFit(st)
    ensures Fits(2, |codec.decode(t.name)|) && Fits(4, count)
    ensures var name := codec.decode(t.name);
            var r := FetchTopicStep(codec, version, m, off, st, response);
            if Unreadable(|m| - off - QueriesSize(t)) then r.exit == Raise
            else r.exit == Continue
                 && r.response == Reports(version, st, name, t.parts, response + TopicAnswer(codec, name, count))
  {
    hide ReadSigned, Slice, QueriesAt, Reports, FetchParts, LogInv, MarksFit, TopicAnswer;
    var name := codec.decode(t.name);
    ReadFits(m, off + 2 + |t.name|);
    QueriesCut(version, m, off + 6 + |t.name|, Rounds(count, MAX_PARTITIONS), st, name, t.parts,
               response + TopicAnswer(codec, name, count));
  }

  lemma {:induction false} TopicQueriesCut(
    codec: Codec, version: nat, m: bytes, off: int, st: Store, ts: seq<TopicQuery>, response: bytes,
    t: TopicQuery, count: int)
    requires CodecOk(codec) && LogInv(st) && MarksFit(st) && TopicQueriesAt(m, off, ts)
    requires CutQueries(m, off + TopicQueriesSize(ts), t, count)
    ensures Fits(2, |codec.decode(t.name)|) && Fits(4, count)
    ensures var name := codec.decode(t.name);
            var r := FetchTopics(codec, version, m, off, |ts| + 1, st, response);
            if Unreadable(|m| - off - TopicQueriesSize(ts) - QueriesSize(t)) then r.exit == Raise
            else r.exit == Break
                 && r.response == Reports(version, st, name, t.parts,
                                          TopicReports(codec, version, st, ts, response)
                                          + TopicAnswer(codec, name, count))
    decreases ts
  {
    hide FetchTopicStep, TopicQueryAt, TopicReport, QueriesSize, LogInv, MarksFit, CodecOk, CutQueries, Reports, Fits,
         TopicAnswer;
    if ts == [] {
      TopicQueryCut(codec, version, m, off, st, response, t, count);
      LastQuery(codec, version, m, off, st, response);
    } else {
      TopicReported(codec, version, m, off, st, ts[0], response);
      TopicQueriesCut(codec, version, m, off + QueriesSize(ts[0]), st, ts[1..],
                      TopicReport(codec, version, st, ts[0], response), t, count);
    }
  }

  function TopicQueriesSize(ts: seq<TopicQuery>): nat {
    if ts == [] then 0 else QueriesSize(ts[0]) + TopicQueriesSize(ts[1..])
  }

  lemma LastQuery(codec: Codec, version: nat, m: bytes, off: int, st: Store, response: bytes)
    ensures var r := FetchTopicStep(codec, version, m, off, st, response);
            FetchTopics(codec, version, m, off, 1, st, response) ==
            if r.exit == Continue then r.(exit := Break) else r
  {
    hide FetchTopicStep;
  }

  /** A fetch cut inside its last partition is answered with the reports on those before it, under
      the counts the request announced, unless 8 to 11 bytes of the cut one are left: then it gets
      no answer. */
  lemma CutFetch(
    codec: Codec, version: nat, correlationId: nat, m: bytes, st: Store, ts: seq<TopicQuery>, t: TopicQuery, count: int)
    requires correlationId < Pow256(4) && CodecOk(codec) && LogInv(st) && MarksFit(st)
    requires |m| >= 24 && ReadSigned(4, m, 20) == Some(|ts| + 1) && |ts| < 100
    requires TopicQueriesAt(m, 24, ts) && CutQueries(m, 24 + TopicQueriesSize(ts), t, count)
    ensures Fits(2, |codec.decode(t.name)|) && Fits(4, count) && Fits(4, |ts| + 1)
    ensures var left := |m| - 24 - TopicQueriesSize(ts) - QueriesSize(t);
            var name := codec.decode(t.name);
            FetchRequest(codec, version, correlationId, m, st) ==
            if 8 <= left < 12 then None
            else Some(Reports(version, st, name, t.parts,
                              TopicReports(codec, version, st, ts, FetchHead(version, correlationId, |ts| + 1))
                              + TopicAnswer(codec, name, count)))
  {
    hide ReadSigned, FetchTopics, TopicReports, TopicQueriesAt, LogInv, MarksFit, CodecOk, FetchHead, CutQueries,
         Reports, TopicAnswer, QueriesSize, TopicQueriesSize;
    ReadFits(m, 20);
    TopicQueriesCut(codec, version, m, 24, st, ts, FetchHead(version, correlationId, |ts| + 1), t, count);
  }
}
