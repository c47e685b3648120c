/** The fetch request: the parser, and the proof that it reports every log's length.
    An exception anywhere makes the whole answer None.
 */
module Fetch {
  import opened Bytes
  import opened Options
  import opened MockStore
  import opened Produce

  datatype FetchLoop = FetchLoop(off: int, response: bytes, exit: Exit)

  /** The answer for one partition whose log has `mark` entries. */
  function MarkAnswer(version: nat, p: int, mark: int): bytes
    requires Fits(4, p) && Fits(8, mark)
  {
    Widths();
    PackSigned(4, p) + PackSigned(2, 0) + PackSigned(8, mark)
    + (if version >= 4 then PackSigned(8, mark) else [])
    + (if version >= 5 then PackSigned(8, 0) else [])
    + (if version >= 4 then PackSigned(4, 0) else [])
    + PackSigned(4, 0)
  }

  /** What the server looks up; None is a missing key. */
  function HighWaterMark(st: Store, t: string, p: int): Option<int> {
    if t in st.messages && p in st.messages[t] then
      if t in st.offsets && p in st.offsets[t] then Some(st.offsets[t][p]) else None
    else Some(0)
  }

  function FetchPartStep(version: nat, m: bytes, off: int, st: Store, t: string, response: bytes)
    : FetchLoop
  {
    if off + 8 > |m| then FetchLoop(off, response, Break)
    else
      match (ReadSigned(4, m, off), ReadSigned(8, m, off + 4))
      case (Some(p), Some(fetchOffset)) =>
        if off + 16 > |m| then FetchLoop(off + 12, response, Break)
        else
          (match (ReadSigned(4, m, off + 12), HighWaterMark(st, t, p))
           case (Some(maxBytes), Some(mark)) =>
             if Fits(8, mark) then
               FetchLoop(off + 16, response + MarkAnswer(version, p, mark), Continue)
             else FetchLoop(off + 16, response, Raise)
           case _ => FetchLoop(off + 12, response, Raise))
      case _ => FetchLoop(off, response, Raise)
  }

  function FetchParts(version: nat, m: bytes, off: int, n: nat, st: Store, t: string, response: bytes)
    : FetchLoop
    decreases n
  {
    if n == 0 then FetchLoop(off, response, Break)
    else
      var r := FetchPartStep(version, m, off, st, t, response);
      if r.exit == Continue then FetchParts(version, m, r.off, n - 1, st, t, r.response) else r
  }

  function FetchTopicBody(
    codec: Codec, version: nat, m: bytes, off: int, st: Store, t: string, response: bytes): FetchLoop
  {
    if off + 4 > |m| then FetchLoop(off, response, Break)
    else
      match ReadSigned(4, m, off)
      case None => FetchLoop(off, response, Raise)
      case Some(count) =>
        if !Fits(2, |t|) then FetchLoop(off + 4, response, Raise)
        else
          var response1 := response + TopicAnswer(codec, t, count);
          var r := FetchParts(version, m, off + 4, Rounds(count, MAX_PARTITIONS), st, t, response1);
          if r.exit == Raise then r else r.(exit := Continue)
  }

  function FetchTopicStep(
    codec: Codec, version: nat, m: bytes, off: int, st: Store, response: bytes): FetchLoop
  {
    if off + 2 > |m| then FetchLoop(off, response, Break)
    else
      match ReadSigned(2, m, off)
      case None => FetchLoop(off, response, Raise)
      case Some(size) =>
        if off + 2 + size > |m| then FetchLoop(off + 2, response, Break)
        else
          var t := codec.decode(Slice(m, off + 2, off + 2 + size));
          FetchTopicBody(codec, version, m, off + 2 + size, st, t, response)
  }

  function FetchTopics(
    codec: Codec, version: nat, m: bytes, off: int, n: nat, st: Store, response: bytes): FetchLoop
    decreases n
  {
    if n == 0 then FetchLoop(off, response, Break)
    else
      var r := FetchTopicStep(codec, version, m, off, st, response);
      if r.exit == Continue then FetchTopics(codec, version, m, r.off, n - 1, st, r.response) else r
  }

  function FetchHead(version: nat, correlationId: nat, count: int): bytes
    requires correlationId < Pow256(4) && Fits(4, count)
  {
    ToBE(4, correlationId) + (if version >= 1 then ToBE(4, 0) else []) + PackSigned(4, count)
  }

  /** Replica id, wait time and minimum size fill bytes 8 to 19; the topic count follows. */
  function FetchRequest(codec: Codec, version: nat, correlationId: nat, m: bytes, st: Store)
    : Option<bytes>
    requires correlationId < Pow256(4)
  {
    if 24 > |m| then None
    else
      match ReadSigned(4, m, 20)
      case None => None
      case Some(count) =>
        var r := FetchTopics(codec, version, m, 24, Rounds(count, MAX_TOPICS), st,
                             FetchHead(version, correlationId, count));
        if r.exit == Raise then None else Some(r.response)
  }

  // ---------------------------------------------------------------- what it reports

  datatype Query = Query(id: int, fetchOffset: int, maxBytes: int)

  datatype TopicQuery = TopicQuery(name: bytes, parts: seq<Query>)

  function QueriesSize(ts: TopicQuery): nat {
    6 + |ts.name| + 16 * |ts.parts|
  }

  /** The fields of the queries stand in `m` from `off` on. */
  predicate QueriesAt(m: bytes, off: int, qs: seq<Query>)
    decreases qs
  {
    qs == [] ||
    (&& off + 16 <= |m|
     && ReadSigned(4, m, off) == Some(qs[0].id)
     && ReadSigned(8, m, off + 4) == Some(qs[0].fetchOffset)
     && ReadSigned(4, m, off + 12) == Some(qs[0].maxBytes)
     && QueriesAt(m, off + 16, qs[1..]))
  }

  predicate TopicQueryAt(m: bytes, off: int, t: TopicQuery) {
    && off + 6 + |t.name| <= |m| && Fits(2, |t.name|) && |t.parts| <= 100
    && ReadSigned(2, m, off) == Some(|t.name|)
    && Slice(m, off + 2, off + 2 + |t.name|) == t.name
    && ReadSigned(4, m, off + 2 + |t.name|) == Some(|t.parts|)
    && QueriesAt(m, off + 6 + |t.name|, t.parts)
  }

  predicate TopicQueriesAt(m: bytes, off: int, ts: seq<TopicQuery>)
    decreases ts
  {
    ts == [] || (TopicQueryAt(m, off, ts[0]) && TopicQueriesAt(m, off + QueriesSize(ts[0]), ts[1..]))
  }

  /** The report of a partition is the length of its log, 0 when there is none. */
  function Report(version: nat, st: Store, t: string, q: Query): bytes {
    var mark := |LogOf(st, t, q.id)|;
    if Fits(4, q.id) && Fits(8, mark) then MarkAnswer(version, q.id, mark) else []
  }

  function Reports(version: nat, st: Store, t: string, qs: seq<Query>, response: bytes): bytes
    decreases qs
  {
    if qs == [] then response
    else Reports(version, st, t, qs[1..], response + Report(version, st, t, qs[0]))
  }

  function TopicReport(codec: Codec, version: nat, st: Store, t: TopicQuery, response: bytes): bytes {
    var name := codec.decode(t.name);
    if Fits(2, |name|) && Fits(4, |t.parts|) then
      Reports(version, st, name, t.parts, response + TopicAnswer(codec, name, |t.parts|))
    else response
  }

  function TopicReports(
    codec: Codec, version: nat, st: Store, ts: seq<TopicQuery>, response: bytes): bytes
    decreases ts
  {
    if ts == [] then response
    else TopicReports(codec, version, st, ts[1..], TopicReport(codec, version, st, ts[0], response))
  }

  ghost predicate MarksFit(st: Store) {
    forall t, p :: Fits(8, |LogOf(st, t, p)|)
  }

  /** On consistent dictionaries the mark is the log's length. */
  lemma MarkIsLength(st: Store, t: string, p: int)
    requires LogInv(st)
    ensures HighWaterMark(st, t, p) == Some(|LogOf(st, t, p)|)
  {
    assert LogInvAt(st, t, p);
  }

  lemma {:induction false} PartsReported(
    version: nat, m: bytes, off: int, st: Store, t: string, qs: seq<Query>, response: bytes)
    requires LogInv(st) && MarksFit(st) && QueriesAt(m, off, qs)
    ensures FetchParts(version, m, off, |qs|, st, t, response) ==
            FetchLoop(off + 16 * |qs|, Reports(version, st, t, qs, response), Break)
    decreases qs
  {
    hide ReadSigned, HighWaterMark, LogOf, MarkAnswer;
    if qs != [] {
      MarkIsLength(st, t, qs[0].id);
      PartsReported(version, m, off + 16, st, t, qs[1..], response + Report(version, st, t, qs[0]));
    }
  }

  lemma TopicReported(
    codec: Codec, version: nat, m: bytes, off: int, st: Store, t: TopicQuery, response: bytes)
    requires LogInv(st) && MarksFit(st) && CodecOk(codec) && TopicQueryAt(m, off, t)
    ensures FetchTopicStep(codec, version, m, off, st, response) ==
            FetchLoop(off + QueriesSize(t), TopicReport(codec, version, st, t, response), Continue)
  {
    hide ReadSigned, Slice, QueriesAt, Reports, FetchParts, LogInv, MarksFit;
    var name := codec.decode(t.name);
    PartsReported(version, m, off + 6 + |t.name|, st, name, t.parts,
                  response + TopicAnswer(codec, name, |t.parts|));
  }

  lemma {:induction false} TopicsReported(
    codec: Codec, version: nat, m: bytes, off: int, st: Store, ts: seq<TopicQuery>, response: bytes)
    requires LogInv(st) && MarksFit(st) && CodecOk(codec) && TopicQueriesAt(m, off, ts)
    ensures FetchTopics(codec, version, m, off, |ts|, st, response).response ==
            TopicReports(codec, version, st, ts, response)
    ensures FetchTopics(codec, version, m, off, |ts|, st, response).exit == Break
    decreases ts
  {
    hide FetchTopicStep, TopicQueryAt, TopicReport, QueriesSize, LogInv, MarksFit, CodecOk;
    if ts != [] {
      TopicReported(codec, version, m, off, st, ts[0], response);
      TopicsReported(codec, version, m, off + QueriesSize(ts[0]), st, ts[1..],
                     TopicReport(codec, version, st, ts[0], response));
    }
  }

  /** For every request whose fields stand where the server reads them, within the loop caps,
      the answer lists for each partition exactly the length of its log. */
  lemma FetchReports(
    codec: Codec, version: nat, correlationId: nat, m: bytes, st: Store, ts: seq<TopicQuery>)
    requires correlationId < Pow256(4) && CodecOk(codec) && LogInv(st) && MarksFit(st)
    requires |m| >= 24 && |ts| <= 100 && ReadSigned(4, m, 20) == Some(|ts|)
    requires TopicQueriesAt(m, 24, ts)
    ensures FetchRequest(codec, version, correlationId, m, st) ==
            Some(TopicReports(codec, version, st, ts, FetchHead(version, correlationId, |ts|)))
  {
    hide ReadSigned, FetchTopics, TopicReports, TopicQueriesAt, LogInv, MarksFit, CodecOk, FetchHead;
    TopicsReported(codec, version, m, 24, st, ts, FetchHead(version, correlationId, |ts|));
  }
}
