/** The produce request: the nested parser with its cursor, as recursive functions that follow
    the three loops, and the proof that whatever the request, the log is kept.

    A loop that ends early (`break`) keeps what it stored and where the cursor stands; an
    exception keeps what was stored and falls back to a short answer.
 */
module Produce {
  import opened Bytes
  import opened Options
  import opened MockStore

  /** UTF-8 decoding with replacement and encoding, as the program calls them. */
  datatype Codec = Codec(decode: bytes -> string, encode: string -> bytes)

  /** Decoding never yields more characters than there were bytes. */
  ghost predicate CodecOk(codec: Codec) {
    forall b: bytes :: |codec.decode(b)| <= |b|
  }

  const MAX_TOPICS := 100
  const MAX_PARTITIONS := 100
  const MAX_RECORDS := 1000

  /** `range(min(count, cap))`. */
  function Rounds(count: int, cap: nat): nat {
    if count < 0 then 0 else if count > cap then cap else count
  }

  // ---------------------------------------------------------------- the loops

  /** How one turn of a loop ends. */
  datatype Exit = Continue | Break | Raise

  datatype RecordLoop = RecordLoop(st: Store, off: int, offsets: seq<int>, exit: Exit)

  function RecordStep(m: bytes, off: int, st: Store, t: string, p: int, offsets: seq<int>)
    : (r: RecordLoop)
    requires HasPartition(st, t, p)
    ensures HasPartition(r.st, t, p)
  {
    if off + 8 > |m| then RecordLoop(st, off, offsets, Break)
    else
      match ReadSigned(8, m, off)
      case None => RecordLoop(st, off, offsets, Raise)
      case Some(batchOffset) =>
        if off + 12 > |m| then RecordLoop(st, off + 8, offsets, Break)
        else
          match ReadSigned(4, m, off + 8)
          case None => RecordLoop(st, off + 8, offsets, Raise)
          case Some(size) =>
            if off + 12 + size > |m| then RecordLoop(st, off + 12, offsets, Break)
            else
              var payload := Slice(m, off + 12, off + 12 + size);
              RecordLoop(Append(st, t, p, batchOffset, payload), off + 12 + size,
                         offsets + [st.offsets[t][p]], Continue)
  }

  function Records(m: bytes, off: int, n: nat, st: Store, t: string, p: int, offsets: seq<int>)
    : (r: RecordLoop)
    requires HasPartition(st, t, p)
    ensures HasPartition(r.st, t, p)
    decreases n
  {
    if n == 0 then RecordLoop(st, off, offsets, Break)
    else
      var r := RecordStep(m, off, st, t, p, offsets);
      if r.exit == Continue then Records(m, r.off, n - 1, r.st, t, p, r.offsets) else r
  }

  datatype Loop = Loop(st: Store, off: int, response: bytes, exit: Exit)

  /** The answer for one partition. */
  function PartitionAnswer(version: nat, p: int, base: int): bytes
    requires Fits(4, p) && Fits(8, base)
  {
    Widths();
    PackSigned(4, p) + PackSigned(2, 0) + PackSigned(8, base)
    + (if version >= 2 then PackSigned(8, -1) else [])
    + (if version >= 5 then PackSigned(8, 0) else [])
  }

  function Base(offsets: seq<int>): int {
    if offsets == [] then 0 else offsets[0]
  }

  function PartitionStep(version: nat, m: bytes, off: int, st: Store, t: string, response: bytes)
    : (r: Loop)
    requires HasTopic(st, t)
    ensures HasTopic(r.st, t)
  {
    if off + 4 > |m| then Loop(st, off, response, Break)
    else
      match ReadSigned(4, m, off)
      case None => Loop(st, off, response, Raise)
      case Some(p) =>
        var st1 := AddPartition(st, t, p);
        if off + 8 > |m| then Loop(st1, off + 4, response, Break)
        else
          match ReadSigned(4, m, off + 4)
          case None => Loop(st1, off + 4, response, Raise)
          case Some(count) =>
            if !HasPartition(st1, t, p) then Loop(st1, off + 8, response, Raise)
            else
              var r := Records(m, off + 8, Rounds(count, MAX_RECORDS), st1, t, p, []);
              if r.exit == Raise || !Fits(8, Base(r.offsets)) then Loop(r.st, r.off, response, Raise)
              else
                Loop(r.st, r.off, response + PartitionAnswer(version, p, Base(r.offsets)), Continue)
  }

  function Partitions(version: nat, m: bytes, off: int, n: nat, st: Store, t: string, response: bytes)
    : (r: Loop)
    requires HasTopic(st, t)
    ensures HasTopic(r.st, t)
    decreases n
  {
    if n == 0 then Loop(st, off, response, Break)
    else
      var r := PartitionStep(version, m, off, st, t, response);
      if r.exit == Continue then Partitions(version, m, r.off, n - 1, r.st, t, r.response) else r
  }

  function TopicAnswer(codec: Codec, t: string, count: int): bytes
    requires Fits(2, |t|) && Fits(4, count)
  {
    PackSigned(2, |t|) + codec.encode(t) + PackSigned(4, count)
  }

  /** The rest of a topic once its name is read. */
  function TopicBody(
    codec: Codec, version: nat, m: bytes, off: int, st: Store, t: string, response: bytes): Loop
  {
    if off + 4 > |m| then Loop(st, off, response, Break)
    else
      match ReadSigned(4, m, off)
      case None => Loop(st, off, response, Raise)
      case Some(count) =>
        if !Fits(2, |t|) || !HasTopic(st, t) then Loop(st, off + 4, response, Raise)
        else
          var response1 := response + TopicAnswer(codec, t, count);
          var r := Partitions(version, m, off + 4, Rounds(count, MAX_PARTITIONS), st, t, response1);
          if r.exit == Raise then r else r.(exit := Continue)
  }

  function TopicStep(codec: Codec, version: nat, m: bytes, off: int, st: Store, response: bytes): Loop {
    if off + 2 > |m| then Loop(st, off, response, Break)
    else
      match ReadSigned(2, m, off)
      case None => Loop(st, off, response, Raise)
      case Some(size) =>
        if off + 2 + size > |m| then Loop(st, off + 2, response, Break)
        else
          var t := codec.decode(Slice(m, off + 2, off + 2 + size));
          TopicBody(codec, version, m, off + 2 + size, AddTopic(st, t), t, response)
  }

  function Topics(codec: Codec, version: nat, m: bytes, off: int, n: nat, st: Store, response: bytes)
    : Loop
    decreases n
  {
    if n == 0 then Loop(st, off, response, Break)
    else
      var r := TopicStep(codec, version, m, off, st, response);
      if r.exit == Continue then Topics(codec, version, m, r.off, n - 1, r.st, r.response) else r
  }

  /** Where the request body starts: past the transactional id (from version 1 on), the
      acknowledgement count and the timeout. */
  function BodyOffset(version: nat, m: bytes): Option<int> {
    if version >= 1 then
      match ReadSigned(2, m, 8)
      case None => None
      case Some(size) => Some(16 + if size > 0 then size else 0)
    else Some(14)
  }

  function Fallback(version: nat, correlationId: nat): bytes
    requires correlationId < Pow256(4)
  {
    ToBE(4, correlationId) + ToBE(4, 0) + (if version >= 1 then ToBE(4, 0) else [])
  }

  function ProduceRequest(codec: Codec, version: nat, correlationId: nat, m: bytes, st: Store)
    : (r: (Store, Option<bytes>))
    requires correlationId < Pow256(4)
  {
    match BodyOffset(version, m)
    case None => (st, Some(Fallback(version, correlationId)))
    case Some(off) =>
      if off + 4 > |m| then (st, None)
      else
        match ReadSigned(4, m, off)
        case None => (st, Some(Fallback(version, correlationId)))
        case Some(count) =>
          var head := ToBE(4, correlationId) + PackSigned(4, count);
          var r := Topics(codec, version, m, off + 4, Rounds(count, MAX_TOPICS), st, head);
          if r.exit == Raise then (r.st, Some(Fallback(version, correlationId)))
          else (r.st, Some(r.response + if version >= 1 then ToBE(4, 0) else []))
  }

  // ---------------------------------------------------------------- any request keeps the log

  lemma {:induction false} RecordsKeepLog(
    m: bytes, off: int, n: nat, st: Store, t: string, p: int, offsets: seq<int>, u: string, q: int)
    requires HasPartition(st, t, p)
    ensures KeptAt(st, Records(m, off, n, st, t, p, offsets).st, u, q)
    decreases n
  {
    if n > 0 {
      var r := RecordStep(m, off, st, t, p, offsets);
      RecordStepKeepsLog(m, off, st, t, p, offsets, u, q);
      if r.exit == Continue {
        RecordsKeepLog(m, r.off, n - 1, r.st, t, p, r.offsets, u, q);
        KeptTrans(st, r.st, Records(m, off, n, st, t, p, offsets).st, u, q);
      }
    }
  }

  lemma RecordStepKeepsLog(
    m: bytes, off: int, st: Store, t: string, p: int, offsets: seq<int>, u: string, q: int)
    requires HasPartition(st, t, p)
    ensures KeptAt(st, RecordStep(m, off, st, t, p, offsets).st, u, q)
  {
    var bo, size := ReadSigned(8, m, off), ReadSigned(4, m, off + 8);
    if bo.Some? && size.Some? {
      AppendKeeps(st, t, p, bo.value, Slice(m, off + 12, off + 12 + size.value), u, q);
    }
  }

  lemma PartitionStepKeepsLog(
    version: nat, m: bytes, off: int, st: Store, t: string, response: bytes, u: string, q: int)
    requires HasTopic(st, t)
    ensures KeptAt(st, PartitionStep(version, m, off, st, t, response).st, u, q)
  {
    var p, count := ReadSigned(4, m, off), ReadSigned(4, m, off + 4);
    if p.Some? {
      var st1 := AddPartition(st, t, p.value);
      AddPartitionKeeps(st, t, p.value, u, q);
      if count.Some? && HasPartition(st1, t, p.value) {
        var rounds := Rounds(count.value, MAX_RECORDS);
        RecordsKeepLog(m, off + 8, rounds, st1, t, p.value, [], u, q);
        KeptTrans(st, st1, Records(m, off + 8, rounds, st1, t, p.value, []).st, u, q);
      }
    }
  }

  lemma {:induction false} PartitionsKeepLog(
    version: nat, m: bytes, off: int, n: nat, st: Store, t: string, response: bytes, u: string, q: int)
    requires HasTopic(st, t)
    ensures KeptAt(st, Partitions(version, m, off, n, st, t, response).st, u, q)
    decreases n
  {
    if n > 0 {
      var r := PartitionStep(version, m, off, st, t, response);
      PartitionStepKeepsLog(version, m, off, st, t, response, u, q);
      if r.exit == Continue {
        PartitionsKeepLog(version, m, r.off, n - 1, r.st, t, r.response, u, q);
        KeptTrans(st, r.st, Partitions(version, m, off, n, st, t, response).st, u, q);
      }
    }
  }

  lemma TopicBodyKeepsLog(
    codec: Codec, version: nat, m: bytes, off: int, st: Store, t: string, response: bytes,
    u: string, q: int)
    ensures KeptAt(st, TopicBody(codec, version, m, off, st, t, response).st, u, q)
  {
    var count := ReadSigned(4, m, off);
    if HasTopic(st, t) && count.Some? && Fits(2, |t|) {
      PartitionsKeepLog(version, m, off + 4, Rounds(count.value, MAX_PARTITIONS), st, t,
                        response + TopicAnswer(codec, t, count.value), u, q);
    }
  }

  lemma TopicStepKeepsLog(
    codec: Codec, version: nat, m: bytes, off: int, st: Store, response: bytes, u: string, q: int)
    ensures KeptAt(st, TopicStep(codec, version, m, off, st, response).st, u, q)
  {
    var size := ReadSigned(2, m, off);
    if size.Some? {
      var t := codec.decode(Slice(m, off + 2, off + 2 + size.value));
      var st1 := AddTopic(st, t);
      AddTopicKeeps(st, t, u, q);
      TopicBodyKeepsLog(codec, version, m, off + 2 + size.value, st1, t, response, u, q);
      KeptTrans(st, st1, TopicBody(codec, version, m, off + 2 + size.value, st1, t, response).st, u, q);
    }
  }

  lemma {:induction false} TopicsKeepLog(
    codec: Codec, version: nat, m: bytes, off: int, n: nat, st: Store, response: bytes,
    u: string, q: int)
    ensures KeptAt(st, Topics(codec, version, m, off, n, st, response).st, u, q)
    decreases n
  {
    if n > 0 {
      var r := TopicStep(codec, version, m, off, st, response);
      TopicStepKeepsLog(codec, version, m, off, st, response, u, q);
      if r.exit == Continue {
        TopicsKeepLog(codec, version, m, r.off, n - 1, r.st, r.response, u, q);
        KeptTrans(st, r.st, Topics(codec, version, m, off, n, st, response).st, u, q);
      }
    }
  }

  lemma RequestKeepsAt(
    codec: Codec, version: nat, correlationId: nat, m: bytes, st: Store, u: string, q: int)
    requires correlationId < Pow256(4)
    ensures KeptAt(st, ProduceRequest(codec, version, correlationId, m, st).0, u, q)
  {
    var off := BodyOffset(version, m);
    if off.Some? && off.value + 4 <= |m| {
      var count := ReadSigned(4, m, off.value);
      if count.Some? {
        TopicsKeepLog(codec, version, m, off.value + 4, Rounds(count.value, MAX_TOPICS), st,
                      ToBE(4, correlationId) + PackSigned(4, count.value), u, q);
      }
    }
  }

  /** However malformed or truncated the request, the log stays consistent and only grows. */
  lemma ProduceKeepsLog(codec: Codec, version: nat, correlationId: nat, m: bytes, st: Store)
    requires correlationId < Pow256(4) && LogInv(st)
    ensures var r := ProduceRequest(codec, version, correlationId, m, st);
            LogInv(r.0) && Grows(st, r.0)
  {
    var r := ProduceRequest(codec, version, correlationId, m, st);
    forall u, q ensures LogInvAt(r.0, u, q) && LogOf(st, u, q) <= LogOf(r.0, u, q) {
      RequestKeepsAt(codec, version, correlationId, m, st, u, q);
      assert LogInvAt(st, u, q);
    }
  }

  // ---------------------------------------------------------------- the loop caps

  function Length(st: Store, t: string, p: int): nat {
    |LogOf(st, t, p)|
  }

  lemma {:induction false} RecordsCapped(
    m: bytes, off: int, n: nat, st: Store, t: string, p: int, offsets: seq<int>, u: string, q: int)
    requires HasPartition(st, t, p)
    ensures Length(Records(m, off, n, st, t, p, offsets).st, u, q) <= Length(st, u, q) + n
    decreases n
  {
    hide RecordStep, Length;
    if n > 0 {
      var r := RecordStep(m, off, st, t, p, offsets);
      RecordStepCapped(m, off, st, t, p, offsets, u, q);
      if r.exit == Continue { RecordsCapped(m, r.off, n - 1, r.st, t, p, r.offsets, u, q); }
    }
  }

  lemma RecordStepCapped(
    m: bytes, off: int, st: Store, t: string, p: int, offsets: seq<int>, u: string, q: int)
    requires HasPartition(st, t, p)
    ensures Length(RecordStep(m, off, st, t, p, offsets).st, u, q) <= Length(st, u, q) + 1
  {
    hide ReadSigned, Slice;
  }

  lemma PartitionStepCapped(
    version: nat, m: bytes, off: int, st: Store, t: string, response: bytes, u: string, q: int)
    requires HasTopic(st, t)
    ensures Length(PartitionStep(version, m, off, st, t, response).st, u, q) <= Length(st, u, q) + 1000
  {
    hide ReadSigned, Records, PartitionAnswer;
    var p, count := ReadSigned(4, m, off), ReadSigned(4, m, off + 4);
    if p.Some? {
      var st1 := AddPartition(st, t, p.value);
      if count.Some? && HasPartition(st1, t, p.value) {
        RecordsCapped(m, off + 8, Rounds(count.value, MAX_RECORDS), st1, t, p.value, [], u, q);
      }
    }
  }

  lemma {:induction false} PartitionsCapped(
    version: nat, m: bytes, off: int, n: nat, st: Store, t: string, response: bytes, u: string, q: int)
    requires HasTopic(st, t)
    ensures Length(Partitions(version, m, off, n, st, t, response).st, u, q) <= Length(st, u, q) + 1000 * n
    decreases n
  {
    hide PartitionStep, Length;
    if n > 0 {
      var r := PartitionStep(version, m, off, st, t, response);
      PartitionStepCapped(version, m, off, st, t, response, u, q);
      if r.exit == Continue { PartitionsCapped(version, m, r.off, n - 1, r.st, t, r.response, u, q); }
    }
  }

  lemma TopicStepCapped(
    codec: Codec, version: nat, m: bytes, off: int, st: Store, response: bytes, u: string, q: int)
    ensures Length(TopicStep(codec, version, m, off, st, response).st, u, q) <= Length(st, u, q) + 100_000
  {
    hide ReadSigned, Slice, Partitions, TopicAnswer;
    var size := ReadSigned(2, m, off);
    if size.Some? && off + 2 + size.value <= |m| {
      var t, off1 := codec.decode(Slice(m, off + 2, off + 2 + size.value)), off + 2 + size.value;
      var st1, count := AddTopic(st, t), ReadSigned(4, m, off1);
      assert Length(st1, u, q) == Length(st, u, q);
      if count.Some? && HasTopic(st1, t) && Fits(2, |t|) {
        PartitionsCapped(version, m, off1 + 4, Rounds(count.value, MAX_PARTITIONS), st1, t,
                         response + TopicAnswer(codec, t, count.value), u, q);
      }
    }
  }

  lemma {:induction false} TopicsCapped(
    codec: Codec, version: nat, m: bytes, off: int, n: nat, st: Store, response: bytes, u: string, q: int)
    ensures Length(Topics(codec, version, m, off, n, st, response).st, u, q) <= Length(st, u, q) + 100_000 * n
    decreases n
  {
    hide TopicStep, Length;
    if n > 0 {
      var r := TopicStep(codec, version, m, off, st, response);
      TopicStepCapped(codec, version, m, off, st, response, u, q);
      if r.exit == Continue { TopicsCapped(codec, version, m, r.off, n - 1, r.st, r.response, u, q); }
    }
  }

  /** Whatever counts it announces, a request adds at most a hundred times a hundred times a
      thousand records. */
  lemma ProduceCapped(codec: Codec, version: nat, correlationId: nat, m: bytes, st: Store, u: string, q: int)
    requires correlationId < Pow256(4)
    ensures Length(ProduceRequest(codec, version, correlationId, m, st).0, u, q) <= Length(st, u, q) + 10_000_000
  {
    hide ReadSigned, Length, Topics, PackSigned, ToBE, Fallback;
    var off := BodyOffset(version, m);
    if off.Some? && off.value + 4 <= |m| {
      var count := ReadSigned(4, m, off.value);
      if count.Some? {
        TopicsCapped(codec, version, m, off.value + 4, Rounds(count.value, MAX_TOPICS), st,
                     ToBE(4, correlationId) + PackSigned(4, count.value), u, q);
      }
    }
  }
}
