/** The server's answers as a client reads them: a decoder for lists of topics, and the proof
    that it finds what was written exactly when names have as many bytes as characters.
 */
module Replies {
  import opened Bytes
  import opened Options
  import opened Produce
  import opened Sequences

  // ---------------------------------------------------------------- the client's decoder

  /** A value and where the cursor then stands; None when the bytes do not hold one. */
  type Got<T> = Option<(T, int)>

  type Reader<!T> = (bytes, int) -> Got<T>

  datatype TopicReply<P> = TopicReply(name: bytes, parts: seq<P>)

  /** A field that only some versions have. */
  function ReadOptional(present: bool, n: nat, b: bytes, off: int): Got<Option<int>> {
    if !present then Some((None, off))
    else
      match ReadSigned(n, b, off)
      case None => None
      case Some(v) => Some((Some(v), off + n))
  }

  function ReadMany<T>(read: Reader<T>, b: bytes, off: int, n: nat): Got<seq<T>>
    decreases n
  {
    if n == 0 then Some(([], off))
    else
      match read(b, off)
      case None => None
      case Some((first, off1)) =>
        match ReadMany(read, b, off1, n - 1)
        case None => None
        case Some((rest, off2)) => Some(([first] + rest, off2))
  }

  function ReadTopic<P>(read: Reader<P>, b: bytes, off: int): Got<TopicReply<P>> {
    match ReadSigned(2, b, off)
    case None => None
    case Some(size) =>
      if size < 0 || off < 0 || off + 2 + size > |b| then None
      else
        match ReadSigned(4, b, off + 2 + size)
        case None => None
        case Some(count) =>
          match ReadMany(read, b, off + 6 + size, if count < 0 then 0 else count)
          case None => None
          case Some((parts, off1)) => Some((TopicReply(b[off + 2..off + 2 + size], parts), off1))
  }

  function TopicReader<P>(read: Reader<P>): Reader<TopicReply<P>> {
    (b, off) => ReadTopic(read, b, off)
  }

  function ReadTopics<P>(read: Reader<P>, b: bytes, off: int): Got<seq<TopicReply<P>>> {
    match ReadSigned(4, b, off)
    case None => None
    case Some(count) => ReadMany(TopicReader(read), b, off + 4, if count < 0 then 0 else count)
  }

  // ---------------------------------------------------------------- reading what was written

  /** Wherever `chunk` stands, `read` finds `value` there and moves behind it. */
  ghost predicate Reads<T>(read: Reader<T>, chunk: bytes, value: T) {
    forall b, off :: At(b, off, chunk) ==> read(b, off) == Some((value, off + |chunk|))
  }

  function Concat(chunks: seq<bytes>): bytes {
    if chunks == [] then [] else chunks[0] + Concat(chunks[1..])
  }

  lemma ReadsAt<T>(read: Reader<T>, b: bytes, off: int, chunk: bytes, value: T)
    requires Reads(read, chunk, value) && At(b, off, chunk)
    ensures read(b, off) == Some((value, off + |chunk|))
  {
  }

  lemma {:induction false} ManyRead<T>(read: Reader<T>, b: bytes, off: int, chunks: seq<bytes>, values: seq<T>)
    requires |chunks| == |values| && At(b, off, Concat(chunks))
    requires forall i :: 0 <= i < |chunks| ==> Reads(read, chunks[i], values[i])
    ensures ReadMany(read, b, off, |values|) == Some((values, off + |Concat(chunks)|))
    decreases chunks
  {
    hide At, Reads;
    if chunks != [] {
      AtSplit(b, off, chunks[0], Concat(chunks[1..]));
      assert Reads(read, chunks[0], values[0]);
      ReadsAt(read, b, off, chunks[0], values[0]);
      assert [values[0]] + values[1..] == values;
      ManyRead(read, b, off + |chunks[0]|, chunks[1..], values[1..]);
    }
  }

  lemma OptionalRead(present: bool, n: nat, v: int, b: bytes, off: int, rest: bytes)
    requires Fits(n, v) && At(b, off, (if present then PackSigned(n, v) else []) + rest)
    ensures ReadOptional(present, n, b, off) ==
            Some((if present then Some(v) else None, off + if present then n else 0))
    ensures At(b, off + if present then n else 0, rest)
  {
    if present { ReadFront(n, v, b, off, rest); } else { assert [] + rest == rest; }
  }

  /** A topic of an answer: its name, and its partitions as they are written and as they read. */
  datatype TopicChunk<P> = TopicChunk(name: string, chunks: seq<bytes>, parts: seq<P>)

  ghost predicate ChunkOk<P>(read: Reader<P>, t: TopicChunk<P>) {
    && |t.chunks| == |t.parts| && Fits(2, |t.name|) && Fits(4, |t.parts|)
    && forall i :: 0 <= i < |t.chunks| ==> Reads(read, t.chunks[i], t.parts[i])
  }

  function TopicBytes<P>(codec: Codec, t: TopicChunk<P>): bytes {
    (if Fits(2, |t.name|) && Fits(4, |t.parts|) then TopicAnswer(codec, t.name, |t.parts|) else [])
    + Concat(t.chunks)
  }

  function TopicsBytes<P>(codec: Codec, ts: seq<TopicChunk<P>>): bytes {
    if ts == [] then [] else TopicBytes(codec, ts[0]) + TopicsBytes(codec, ts[1..])
  }

  /** The name's length is announced in characters, and its bytes follow. */
  predicate NameFits(codec: Codec, name: string) {
    |codec.encode(name)| == |name|
  }

  function Replied<P>(codec: Codec, ts: seq<TopicChunk<P>>): (r: seq<TopicReply<P>>)
    ensures |r| == |ts|
    ensures forall i :: 0 <= i < |ts| ==> r[i] == TopicReply(codec.encode(ts[i].name), ts[i].parts)
  {
    if ts == [] then []
    else [TopicReply(codec.encode(ts[0].name), ts[0].parts)] + Replied(codec, ts[1..])
  }

  lemma TopicRead<P>(codec: Codec, read: Reader<P>, b: bytes, off: int, t: TopicChunk<P>, rest: bytes)
    requires ChunkOk(read, t) && At(b, off, TopicBytes(codec, t) + rest)
    ensures At(b, off + |TopicBytes(codec, t)|, rest)
    ensures NameFits(codec, t.name) ==>
              ReadTopic(read, b, off) ==
              Some((TopicReply(codec.encode(t.name), t.parts), off + |TopicBytes(codec, t)|))
    ensures !NameFits(codec, t.name) ==>
              (ReadTopic(read, b, off).Some? ==> ReadTopic(read, b, off).value.0.name != codec.encode(t.name))
  {
    hide ReadSigned, Slice, PackSigned, ReadMany, Concat, Reads;
    Widths();
    AtSplit(b, off, TopicBytes(codec, t), rest);
    var name, parts := codec.encode(t.name), Concat(t.chunks);
    var size := PackSigned(2, |t.name|);
    var tail := PackSigned(4, |t.parts|) + parts;
    Assoc(size + name, PackSigned(4, |t.parts|), parts);
    Assoc(size, name, tail);
    ReadFront(2, |t.name|, b, off, name + tail);
    AtSplit(b, off + 2, name, tail);
    if NameFits(codec, t.name) {
      ReadFront(4, |t.parts|, b, off + 2 + |name|, parts);
      ManyRead(read, b, off + 6 + |name|, t.chunks, t.parts);
    }
  }

  predicate NamesFit<P>(codec: Codec, ts: seq<TopicChunk<P>>) {
    ts == [] || (NameFits(codec, ts[0].name) && NamesFit(codec, ts[1..]))
  }

  ghost predicate ChunksOk<P>(read: Reader<P>, ts: seq<TopicChunk<P>>) {
    ts == [] || (ChunkOk(read, ts[0]) && ChunksOk(read, ts[1..]))
  }

  /** A list of topics reads as what was meant exactly when every name has as many bytes as
      characters. */
  lemma {:induction false} TopicsRead<P>(
    codec: Codec, read: Reader<P>, b: bytes, off: int, ts: seq<TopicChunk<P>>, rest: bytes)
    requires ChunksOk(read, ts) && At(b, off, TopicsBytes(codec, ts) + rest)
    ensures NamesFit(codec, ts) ==>
              && ReadMany(TopicReader(read), b, off, |ts|) ==
                 Some((Replied(codec, ts), off + |TopicsBytes(codec, ts)|))
              && At(b, off + |TopicsBytes(codec, ts)|, rest)
    ensures !NamesFit(codec, ts) ==>
              var r := ReadMany(TopicReader(read), b, off, |ts|); r.Some? ==> r.value.0 != Replied(codec, ts)
    decreases ts
  {
    hide ReadTopic, TopicBytes, NameFits, ChunkOk, At, TopicReader, ReadMany;
    NoneRead(TopicReader(read), b, off);
    if ts == [] {
      assert TopicsBytes(codec, ts) + rest == rest;
    } else {
      var t, more := ts[0], TopicsBytes(codec, ts[1..]);
      Assoc(TopicBytes(codec, t), more, rest);
      TopicRead(codec, read, b, off, t, more + rest);
      OneMoreRead(TopicReader(read), b, off, |ts| - 1);
      ReaderOf(read, b, off);
      if NameFits(codec, t.name) { TopicsRead(codec, read, b, off + |TopicBytes(codec, t)|, ts[1..], rest); }
    }
  }

  lemma ReaderOf<P>(read: Reader<P>, b: bytes, off: int)
    ensures TopicReader(read)(b, off) == ReadTopic(read, b, off)
  {
  }

  lemma NoneRead<T>(read: Reader<T>, b: bytes, off: int)
    ensures ReadMany(read, b, off, 0) == Some(([], off))
  {
  }

  lemma OneMoreRead<T>(read: Reader<T>, b: bytes, off: int, n: nat)
    ensures read(b, off).None? ==> ReadMany(read, b, off, n + 1).None?
    ensures read(b, off).Some? ==>
              var (first, off1) := read(b, off).value;
              var more := ReadMany(read, b, off1, n);
              ReadMany(read, b, off, n + 1) ==
              if more.Some? then Some(([first] + more.value.0, more.value.1)) else None
  {
  }
}
