/** A connection of the mock broker, over every chunking of its stream and every outcome of its
    sends: what is always handled, when complete frames are left behind, and exactly when the
    chunking does not matter.
 */
module Connection {
  import opened Bytes
  import opened Fetch
  import opened MockServer
  import opened MockStore
  import opened Options
  import opened Sequences

  // ---------------------------------------------------------------- what a session amounts to

  /** The answer to frame `k`, handled after those before it. */
  function AnswerTo(c: Config, st: Store, fs: seq<bytes>, k: nat): seq<bytes>
    requires k < |fs|
  {
    Answer(Handle(c, HandleAll(c, st, fs[..k]).0, fs[k]).1)
  }

  /** The answers that went through. */
  function Delivered(c: Config, net: Net, st: Store, fs: seq<bytes>): seq<bytes> {
    if fs == [] then []
    else
      var n := |fs| - 1;
      Delivered(c, net, st, fs[..n]) + if net(n) == Done then AnswerTo(c, st, fs, n) else []
  }

  /** Frame `k` has an answer, and sending it does not go through. */
  predicate Stops(c: Config, net: Net, st: Store, fs: seq<bytes>, k: int) {
    0 <= k < |fs| && AnswerTo(c, st, fs, k) != [] && net(k) != Done
  }

  /** From the store `st`: the frames handled, followed by those in the buffer, are the complete
      frames received, in order; what else is in the buffer is the rest of the stream; and the
      store and the answers are those of the frames handled. */
  ghost predicate Faithful(c: Config, net: Net, st: Store, s: Session) {
    var cut := Cut(s.received);
    && s.handled <= |cut.0|
    && Cut(s.buffer) == (cut.0[s.handled..], cut.1)
    && s.st == HandleAll(c, st, cut.0[..s.handled]).0
    && s.sent == Delivered(c, net, st, cut.0[..s.handled])
  }

  lemma OpenedFaithful(c: Config, net: Net, st: Store)
    ensures Faithful(c, net, st, Opened(st))
  {
  }

  /** From frame `from` on, every answer goes through. */
  ghost predicate NoStop(c: Config, net: Net, st: Store, fs: seq<bytes>, from: nat) {
    forall k :: from <= k < |fs| ==> !Stops(c, net, st, fs, k)
  }

  lemma PrefixStops(c: Config, net: Net, st: Store, fs: seq<bytes>, gs: seq<bytes>, k: int)
    requires fs <= gs && k < |fs|
    ensures Stops(c, net, st, fs, k) <==> Stops(c, net, st, gs, k)
  {
    if k >= 0 { assert fs[..k] == gs[..k]; }
  }

  // ---------------------------------------------------------------- one frame, one receive

  /** The session once the frame at the front is handled, before the fate of its answer counts. */
  function Handled(c: Config, net: Net, s: Session): Session
    requires HasFrame(s.buffer)
  {
    var size := FromBE(s.buffer[..4]);
    var r := Handle(c, s.st, s.buffer[4..4 + size]);
    s.(st := r.0, buffer := s.buffer[4 + size..], handled := s.handled + 1,
       sent := s.sent + if net(s.handled) == Done then Answer(r.1) else [])
  }

  lemma FrontFrame(c: Config, net: Net, st: Store, s: Session)
    requires Faithful(c, net, st, s) && HasFrame(s.buffer)
    ensures var fs, size := Cut(s.received).0, FromBE(s.buffer[..4]);
            && s.handled < |fs| && s.buffer[4..4 + size] == fs[s.handled]
            && Cut(s.buffer[4 + size..]) == (fs[s.handled + 1..], Cut(s.received).1)
  {
    hide FromBE, HandleAll, Delivered;
    var fs, size := Cut(s.received).0, FromBE(s.buffer[..4]);
    var rest := Cut(s.buffer[4 + size..]);
    assert Cut(s.buffer).0 == [s.buffer[4..4 + size]] + rest.0;
    assert fs[s.handled..][0] == fs[s.handled] && fs[s.handled..][1..] == fs[s.handled + 1..];
    assert ([s.buffer[4..4 + size]] + rest.0)[1..] == rest.0;
  }

  lemma HandledFaithful(c: Config, net: Net, st: Store, s: Session)
    requires Faithful(c, net, st, s) && HasFrame(s.buffer)
    ensures Faithful(c, net, st, Handled(c, net, s))
    ensures var fs, size := Cut(s.received).0, FromBE(s.buffer[..4]);
            s.handled < |fs| && Answer(Handle(c, s.st, s.buffer[4..4 + size]).1) == AnswerTo(c, st, fs, s.handled)
  {
    hide FromBE, Cut, Handle, HandleAll, HasFrame;
    FrontFrame(c, net, st, s);
    var fs, h := Cut(s.received).0, s.handled;
    OneMore(c, st, fs[..h], fs[h]);
    assert fs[..h + 1] == fs[..h] + [fs[h]];
    assert fs[..h + 1][..h] == fs[..h];
  }

  /** What the inner loop does from any faithful session, whatever the outcomes: it goes on to
      the end of the frames or to the first stop, and stays open unless that was a broken send. */
  lemma {:induction false} FramesFaithful(c: Config, net: Net, st: Store, s: Session)
    requires Faithful(c, net, st, s) && s.open
    ensures var t, fs := Frames(c, net, s), Cut(s.received).0;
            && Faithful(c, net, st, t) && s.handled <= t.handled
            && (forall k :: s.handled <= k < t.handled - 1 ==> !Stops(c, net, st, fs, k))
            && (t.handled == |fs| || (t.handled > s.handled && Stops(c, net, st, fs, t.handled - 1)))
            && (t.open <==> !(t.handled > s.handled && Stops(c, net, st, fs, t.handled - 1)
                              && net(t.handled - 1) == Broken))
    decreases |s.buffer|
  {
    hide FromBE, Handle, HandleAll, Faithful, AnswerTo;
    if !HasFrame(s.buffer) {
      NothingLeft(c, net, st, s);
    } else {
      HandledFaithful(c, net, st, s);
      var fs, h := Cut(s.received).0, s.handled;
      var s1 := Handled(c, net, s);
      if !Stops(c, net, st, fs, h) {
        GoesOn(c, net, s);
        FramesFaithful(c, net, st, s1);
      } else {
        assert s.sent + [] == s.sent;
        OpenAside(c, net, st, s1);
      }
    }
  }

  lemma NothingLeft(c: Config, net: Net, st: Store, s: Session)
    requires Faithful(c, net, st, s)
    ensures HasFrame(s.buffer) <==> s.handled < |Cut(s.received).0|
    ensures !HasFrame(s.buffer) ==> s.buffer == Cut(s.received).1
    ensures s.handled <= |Cut(s.received).0|
  {
    hide FromBE, HandleAll, Delivered;
    if HasFrame(s.buffer) {
      assert |Cut(s.buffer).0| > 0;
    } else {
      assert |Cut(s.received).0[s.handled..]| == 0;
    }
  }

  lemma OpenAside(c: Config, net: Net, st: Store, s: Session)
    requires Faithful(c, net, st, s)
    ensures Faithful(c, net, st, s.(open := false)) && Faithful(c, net, st, s.(open := true))
  {
  }

  function Extended(s: Session, chunk: bytes): Session {
    s.(received := s.received + chunk, buffer := s.buffer + chunk)
  }

  lemma ExtendedFaithful(c: Config, net: Net, st: Store, s: Session, chunk: bytes)
    requires Faithful(c, net, st, s)
    ensures Faithful(c, net, st, Extended(s, chunk))
    ensures Cut(s.received).0 <= Cut(s.received + chunk).0
  {
    hide Cut, HandleAll, Delivered;
    var fs, h := Cut(s.received).0, s.handled;
    var more := Cut(Cut(s.received).1 + chunk);
    CutAppend(s.received, chunk);
    CutAppend(s.buffer, chunk);
    assert (fs + more.0)[h..] == fs[h..] + more.0;
    assert (fs + more.0)[..h] == fs[..h];
  }

  // ---------------------------------------------------------------- main results

  /** Whatever the outcomes and however the stream is split: the frames handled are the first
      frames of what was received, each once and in order, the store is the fold over them, and
      the buffer holds the rest. All of the stream was received unless a send broke. */
  lemma {:induction false} EveryOutcome(c: Config, net: Net, st: Store, s: Session, chunks: seq<bytes>)
    requires Faithful(c, net, st, s) && forall i :: 0 <= i < |chunks| ==> chunks[i] != []
    ensures var t := Serve(c, net, s, chunks);
            && Faithful(c, net, st, t) && s.handled <= t.handled
            && t.received <= s.received + Flatten(chunks)
            && (t.open ==> t.received == s.received + Flatten(chunks))
    decreases chunks
  {
    hide Faithful, Frames;
    if chunks == [] || !s.open {
      assert s.received + [] == s.received;
    } else {
      ExtendedFaithful(c, net, st, s, chunks[0]);
      FramesFaithful(c, net, st, Extended(s, chunks[0]));
      EveryOutcome(c, net, st, Receive(c, net, s, chunks[0]), chunks[1..]);
      Assoc(s.received, chunks[0], Flatten(chunks[1..]));
    }
  }

  /** After a receive a complete frame is left in the buffer exactly when the answer to one of
      the frames it handled, other than the last of all, did not go through. */
  lemma LeftoverIff(c: Config, net: Net, st: Store, s: Session, chunk: bytes)
    requires Faithful(c, net, st, s) && s.open
    ensures var t, fs := Receive(c, net, s, chunk), Cut(s.received + chunk).0;
            HasFrame(t.buffer) <==> exists k :: s.handled <= k < |fs| - 1 && Stops(c, net, st, fs, k)
  {
    hide Faithful, Cut, Frames, HasFrame, Stops;
    ExtendedFaithful(c, net, st, s, chunk);
    FramesFaithful(c, net, st, Extended(s, chunk));
    NothingLeft(c, net, st, Receive(c, net, s, chunk));
  }

  /** A complete frame can be left for good: two requests in one receive, the first one's answer
      timed out, and the second is never handled; in two receives it is. */
  lemma TimeoutStrands(c: Config, net: Net, st: Store, a: bytes, b: bytes)
    requires FramesFit([a, b]) && Answer(Handle(c, st, a).1) != [] && net(0) == TimedOut
    ensures FramesFit([a]) && FramesFit([b])
    ensures var t := Serve(c, net, Opened(st), [Join([a, b])]);
            t.handled == 1 && t.open && HasFrame(t.buffer) && t.st == Handle(c, st, a).0
    ensures Serve(c, net, Opened(st), [Join([a]), Join([b])]).handled == 2
  {
    hide Handle, Cut, HandleAll, HasFrame, Frames, Faithful, ToBE, Stops, Join;
    TwoFrames(a, b);
    StopsFirst(c, net, st, a, [b]);
    StopsFirst(c, net, st, a, []);
    OpenedFaithful(c, net, st);
    assert [a] + [b] == [a, b] && [a] + [] == [a] && [a, b][..1] == [a] && [a][..1] == [a];
    var both, first, second := Join([a, b]), Join([a]), Join([b]);
    assert [] + both == both && [] + first == first;
    FirstStop(c, net, st, Opened(st), both, 0);
    ServeOne(c, net, Opened(st), both);
    NothingLeft(c, net, st, Receive(c, net, Opened(st), both));
    FirstStop(c, net, st, Opened(st), first, 0);
    var t1 := Receive(c, net, Opened(st), first);
    ExtendedFaithful(c, net, st, t1, second);
    FramesFaithful(c, net, st, Extended(t1, second));
    Bounded(c, net, st, Receive(c, net, t1, second));
    ServeTwo(c, net, Opened(st), first, second);
  }

  lemma Bounded(c: Config, net: Net, st: Store, s: Session)
    requires Faithful(c, net, st, s)
    ensures s.handled <= |Cut(s.received).0|
  {
  }

  lemma ServeOne(c: Config, net: Net, s: Session, a: bytes)
    requires s.open && a != []
    ensures Serve(c, net, s, [a]) == Receive(c, net, s, a)
  {
    hide Receive;
    assert [a][1..] == [];
  }

  lemma ServeTwo(c: Config, net: Net, s: Session, a: bytes, b: bytes)
    requires s.open && a != [] && b != []
    ensures var t := Receive(c, net, s, a);
            Serve(c, net, s, [a, b]) == if t.open then Receive(c, net, t, b) else t
  {
    hide Receive;
    assert [a, b][1..] == [b];
    var t := Receive(c, net, s, a);
    if t.open { ServeOne(c, net, t, b); }
  }

  /** A receive goes exactly as far as the first stop. */
  lemma FirstStop(c: Config, net: Net, st: Store, s: Session, chunk: bytes, k: nat)
    requires Faithful(c, net, st, s) && s.open && s.handled <= k
    requires var fs := Cut(s.received + chunk).0;
             Stops(c, net, st, fs, k) && forall j :: s.handled <= j < k ==> !Stops(c, net, st, fs, j)
    ensures var t, fs := Receive(c, net, s, chunk), Cut(s.received + chunk).0;
            && Faithful(c, net, st, t) && t.handled == k + 1 && (t.open <==> net(k) != Broken)
            && t.st == HandleAll(c, st, fs[..k + 1]).0
  {
    hide Cut, Frames, HandleAll, Delivered, AnswerTo;
    ExtendedFaithful(c, net, st, s, chunk);
    FramesFaithful(c, net, st, Extended(s, chunk));
  }

  lemma TwoFrames(a: bytes, b: bytes)
    requires FramesFit([a, b])
    ensures FramesFit([a]) && FramesFit([b]) && Join([a]) != [] && Join([b]) != [] && Join([a, b]) != []
    ensures Join([a, b]) == Join([a]) + Join([b])
    ensures Cut(Join([a])) == ([a], []) && Cut(Join([a, b])) == ([a, b], [])
  {
    hide Cut, ToBE;
    assert [a, b][1..] == [b] && [b][1..] == [] && [a][1..] == [];
    assert Join([a]) + [] == Join([a]) && Join([a, b]) + [] == Join([a, b]);
    CutInvertsJoin([a], []);
    CutInvertsJoin([a, b], []);
  }

  lemma StopsFirst(c: Config, net: Net, st: Store, a: bytes, rest: seq<bytes>)
    requires Answer(Handle(c, st, a).1) != [] && net(0) == TimedOut
    ensures Stops(c, net, st, [a] + rest, 0)
    ensures HandleAll(c, st, [a]).0 == Handle(c, st, a).0
  {
    hide Handle;
    var fs := [a] + rest;
    assert fs[..0] == [] && [a][1..] == [];
    NothingHandled(c, st);
  }

  // ---------------------------------------------------------------- when the chunking matters

  /** The frames handled end with the first stop, or with the last frame. */
  ghost predicate AtLimit(c: Config, net: Net, st: Store, fs: seq<bytes>, h: nat) {
    && h <= |fs|
    && (forall j :: 0 <= j < h - 1 ==> !Stops(c, net, st, fs, j))
    && (h == |fs| || Stops(c, net, st, fs, h - 1))
  }

  lemma LimitUnique(c: Config, net: Net, st: Store, fs: seq<bytes>, h: nat, i: nat)
    requires AtLimit(c, net, st, fs, h) && AtLimit(c, net, st, fs, i)
    ensures h == i
  {
    hide Stops;
    if h < i {
      assert h - 1 < 0 || !Stops(c, net, st, fs, h - 1);
      NoStopBefore(c, net, st, fs);
    } else if i < h {
      assert i - 1 < 0 || !Stops(c, net, st, fs, i - 1);
      NoStopBefore(c, net, st, fs);
    }
  }

  lemma NoStopBefore(c: Config, net: Net, st: Store, fs: seq<bytes>)
    ensures !Stops(c, net, st, fs, -1)
  {
  }

  predicate EndsBroken(c: Config, net: Net, st: Store, fs: seq<bytes>, h: nat) {
    Stops(c, net, st, fs, h - 1) && net(h - 1) == Broken
  }

  /** The first answer not to go through is one that timed out, of a frame that is not the last. */
  ghost predicate Strands(c: Config, net: Net, st: Store, fs: seq<bytes>) {
    exists k :: 0 <= k < |fs| - 1 && FirstTimeout(c, net, st, fs, k)
  }

  ghost predicate FirstTimeout(c: Config, net: Net, st: Store, fs: seq<bytes>, k: int) {
    Stops(c, net, st, fs, k) && net(k) == TimedOut && forall j :: 0 <= j < k ==> !Stops(c, net, st, fs, j)
  }

  /** A session at the limit of what it received, open unless it ends with a broken send. */
  ghost predicate Settled(c: Config, net: Net, st: Store, s: Session, fs: seq<bytes>) {
    && Faithful(c, net, st, s)
    && AtLimit(c, net, st, fs, s.handled) && (s.open <==> !EndsBroken(c, net, st, fs, s.handled))
  }

  lemma ReceiveSettled(c: Config, net: Net, st: Store, s: Session, chunk: bytes, gs: seq<bytes>)
    requires s.open && Settled(c, net, st, s, Cut(s.received).0)
    requires Cut(s.received + chunk).0 <= gs && !Strands(c, net, st, gs)
    ensures Settled(c, net, st, Receive(c, net, s, chunk), Cut(s.received + chunk).0)
  {
    hide Cut, Frames, Faithful, Stops, Strands;
    ExtendedFaithful(c, net, st, s, chunk);
    FramesFaithful(c, net, st, Extended(s, chunk));
    var fs, gs1, t := Cut(s.received).0, Cut(s.received + chunk).0, Receive(c, net, s, chunk);
    Bounded(c, net, st, t);
    forall j | 0 <= j < s.handled ensures Stops(c, net, st, fs, j) <==> Stops(c, net, st, gs1, j) {
      Bounded(c, net, st, s);
      PrefixStops(c, net, st, fs, gs1, j);
    }
    NoStopBefore(c, net, st, fs);
    NoStopBefore(c, net, st, gs1);
    if t.handled > s.handled > 0 && Stops(c, net, st, gs1, s.handled - 1) {
      StrandedHere(c, net, st, gs1, gs, s.handled - 1);
    }
  }

  lemma StrandedHere(c: Config, net: Net, st: Store, fs: seq<bytes>, gs: seq<bytes>, k: nat)
    requires fs <= gs && k < |fs| - 1 && Stops(c, net, st, fs, k) && net(k) != Broken
    requires forall j :: 0 <= j < k ==> !Stops(c, net, st, fs, j)
    ensures Strands(c, net, st, gs)
  {
    hide AnswerTo;
    forall j | 0 <= j <= k ensures Stops(c, net, st, fs, j) <==> Stops(c, net, st, gs, j) {
      PrefixStops(c, net, st, fs, gs, j);
    }
    assert FirstTimeout(c, net, st, gs, k);
  }

  lemma {:induction false} ServeSettled(c: Config, net: Net, st: Store, s: Session, chunks: seq<bytes>)
    requires Settled(c, net, st, s, Cut(s.received).0) && forall i :: 0 <= i < |chunks| ==> chunks[i] != []
    requires !Strands(c, net, st, Cut(s.received + Flatten(chunks)).0)
    ensures var t, gs := Serve(c, net, s, chunks), Cut(s.received + Flatten(chunks)).0;
            && Settled(c, net, st, t, gs) && Cut(t.received).0 <= gs
            && (t.open ==> t.received == s.received + Flatten(chunks))
    decreases chunks
  {
    hide Settled, Frames, Cut, Strands;
    var gs := Cut(s.received + Flatten(chunks)).0;
    if chunks == [] {
      assert s.received + [] == s.received;
    } else if !s.open {
      CutAppend(s.received, Flatten(chunks));
      ClosedSettled(c, net, st, s, gs);
    } else {
      var more := Flatten(chunks[1..]);
      Assoc(s.received, chunks[0], more);
      CutAppend(s.received + chunks[0], more);
      ReceiveSettled(c, net, st, s, chunks[0], gs);
      ServeSettled(c, net, st, Receive(c, net, s, chunks[0]), chunks[1..]);
    }
  }

  lemma ClosedSettled(c: Config, net: Net, st: Store, s: Session, gs: seq<bytes>)
    requires Settled(c, net, st, s, Cut(s.received).0) && !s.open && Cut(s.received).0 <= gs
    ensures Settled(c, net, st, s, gs)
  {
    hide Cut, HandleAll, Delivered, AnswerTo;
    var fs := Cut(s.received).0;
    forall j | 0 <= j < s.handled ensures Stops(c, net, st, fs, j) <==> Stops(c, net, st, gs, j) {
      PrefixStops(c, net, st, fs, gs, j);
    }
  }

  /** What a client and the store see of a session. */
  function Outcome(s: Session): (Store, nat, seq<bytes>, bool) {
    (s.st, s.handled, s.sent, s.open)
  }

  lemma SettledOutcome(c: Config, net: Net, st: Store, s: Session, t: Session, fs: seq<bytes>)
    requires Settled(c, net, st, s, fs) && Settled(c, net, st, t, fs)
    requires Cut(s.received).0 <= fs && Cut(t.received).0 <= fs
    ensures Outcome(s) == Outcome(t)
  {
    hide Cut, HandleAll, Delivered, AtLimit, EndsBroken;
    LimitUnique(c, net, st, fs, s.handled, t.handled);
    assert Cut(s.received).0[..s.handled] == fs[..s.handled] == Cut(t.received).0[..t.handled];
  }

  lemma OpenedSettled(c: Config, net: Net, st: Store)
    ensures Settled(c, net, st, Opened(st), Cut([]).0) && Cut([]) == ([], [])
  {
    OpenedFaithful(c, net, st);
  }

  ghost predicate Splits(chunks: seq<bytes>, stream: bytes) {
    Flatten(chunks) == stream && forall i :: 0 <= i < |chunks| ==> chunks[i] != []
  }

  /** Exactly when the chunking does not matter: every way to split a stream into receives leads
      to the same store, the same frames handled, the same answers and the same end as receiving
      it at once if and only if the first answer not to go through, should there be one, did not
      time out with frames still to come. */
  lemma IndependenceIff(c: Config, net: Net, st: Store, stream: bytes)
    ensures (forall chunks :: Splits(chunks, stream) ==>
               Outcome(Serve(c, net, Opened(st), chunks)) == Outcome(Receive(c, net, Opened(st), stream))) <==>
            !Strands(c, net, st, Cut(stream).0)
  {
    hide Serve, Receive, Cut, Strands, Outcome;
    var fs := Cut(stream).0;
    if Strands(c, net, st, fs) {
      var k := Stranded(c, net, st, fs);
      var chunks := SplitDiffers(c, net, st, stream, k);
      assert Outcome(Serve(c, net, Opened(st), chunks)) != Outcome(Receive(c, net, Opened(st), stream));
    } else {
      forall chunks | Splits(chunks, stream)
        ensures Outcome(Serve(c, net, Opened(st), chunks)) == Outcome(Receive(c, net, Opened(st), stream))
      {
        SameOutcome(c, net, st, stream, chunks);
      }
    }
  }

  lemma Stranded(c: Config, net: Net, st: Store, fs: seq<bytes>) returns (k: nat)
    requires Strands(c, net, st, fs)
    ensures k < |fs| - 1 && FirstTimeout(c, net, st, fs, k)
  {
    k :| 0 <= k < |fs| - 1 && FirstTimeout(c, net, st, fs, k);
  }

  lemma SameOutcome(c: Config, net: Net, st: Store, stream: bytes, chunks: seq<bytes>)
    requires Splits(chunks, stream) && !Strands(c, net, st, Cut(stream).0)
    ensures Outcome(Serve(c, net, Opened(st), chunks)) == Outcome(Receive(c, net, Opened(st), stream))
  {
    hide Serve, Cut, Strands, Outcome, Settled, Frames;
    OpenedSettled(c, net, st);
    assert [] + stream == stream;
    ServeSettled(c, net, st, Opened(st), chunks);
    ReceiveSettled(c, net, st, Opened(st), stream, Cut(stream).0);
    var t, u := Serve(c, net, Opened(st), chunks), Receive(c, net, Opened(st), stream);
    SettledOutcome(c, net, st, t, u, Cut(stream).0);
  }

  lemma SplitDiffers(c: Config, net: Net, st: Store, stream: bytes, k: nat) returns (chunks: seq<bytes>)
    requires k < |Cut(stream).0| - 1 && FirstTimeout(c, net, st, Cut(stream).0, k)
    ensures Splits(chunks, stream)
    ensures Outcome(Serve(c, net, Opened(st), chunks)) != Outcome(Receive(c, net, Opened(st), stream))
  {
    hide Cut, Frames, Faithful, Stops, HasFrame, Flatten;
    var fs := Cut(stream).0;
    var front := fs[..k + 1];
    var a, b := CutBehind(stream, k + 1);
    chunks := [a, b];
    FlattenTwo(a, b);
    OpenedFaithful(c, net, st);
    assert [] + stream == stream && [] + a == a;
    FirstStop(c, net, st, Opened(st), stream, k);
    forall j | 0 <= j <= k ensures Stops(c, net, st, front, j) <==> Stops(c, net, st, fs, j) {
      PrefixStops(c, net, st, front, fs, j);
    }
    assert Cut(Opened(st).received + a).0 == front;
    FirstStop(c, net, st, Opened(st), a, k);
    SecondHandled(c, net, st, a, b);
  }

  lemma FlattenTwo(a: bytes, b: bytes)
    ensures Flatten([a, b]) == a + b
  {
    var both, rest: seq<bytes> := [a, b], [b];
    assert both[1..] == rest && rest[1..] == [] && b + [] == b;
    assert Flatten(rest) == b;
  }

  /** With frames still to come, a second receive handles at least one more. */
  lemma SecondHandled(c: Config, net: Net, st: Store, a: bytes, b: bytes)
    requires a != [] && b != []
    requires var t := Receive(c, net, Opened(st), a);
             t.open && Faithful(c, net, st, t) && t.handled < |Cut(a + b).0|
    ensures Serve(c, net, Opened(st), [a, b]).handled > Receive(c, net, Opened(st), a).handled
  {
    hide Cut, Frames, Faithful, Stops;
    var t := Receive(c, net, Opened(st), a);
    assert [] + a == a;
    ServeTwo(c, net, Opened(st), a, b);
    ExtendedFaithful(c, net, st, t, b);
    FramesFaithful(c, net, st, Extended(t, b));
  }

  /** Split a stream behind its first `n` frames. */
  lemma CutBehind(stream: bytes, n: nat) returns (a: bytes, b: bytes)
    requires 0 < n < |Cut(stream).0|
    ensures a != [] && b != [] && a + b == stream && Cut(a) == (Cut(stream).0[..n], [])
  {
    hide Cut, ToBE, HasFrame;
    var fs, tail := Cut(stream).0, Cut(stream).1;
    CutIsFaithful(stream);
    assert fs == fs[..n] + fs[n..];
    JoinAppend(fs[..n], fs[n..]);
    a, b := Join(fs[..n]), Join(fs[n..]) + tail;
    Assoc(Join(fs[..n]), Join(fs[n..]), tail);
    NoFrameInNothing();
    CutInvertsJoin(fs[..n], []);
    assert a + [] == a;
  }

  lemma NoFrameInNothing()
    ensures !HasFrame([])
  {
  }

  lemma {:induction false} JoinAppend(xs: seq<bytes>, ys: seq<bytes>)
    requires FramesFit(xs + ys)
    ensures FramesFit(xs) && FramesFit(ys) && Join(xs + ys) == Join(xs) + Join(ys)
    ensures (xs != [] ==> Join(xs) != []) && (ys != [] ==> Join(ys) != [])
    decreases xs
  {
    hide ToBE;
    if xs == [] {
      assert xs + ys == ys && [] + Join(ys) == Join(ys);
    } else {
      assert (xs + ys)[1..] == xs[1..] + ys;
      JoinAppend(xs[1..], ys);
      Assoc(ToBE(4, |xs[0]|) + xs[0], Join(xs[1..]), Join(ys));
    }
  }

  /** When every answer goes through, the split changes nothing at all: every frame of the stream
      is handled, in order, and only the rest of the stream is left in the buffer. */
  lemma ChunkingIndependence(c: Config, net: Net, st: Store, chunks: seq<bytes>)
    requires forall i :: 0 <= i < |chunks| ==> chunks[i] != []
    requires NoStop(c, net, st, Cut(Flatten(chunks)).0, 0)
    ensures var t, cut := Serve(c, net, Opened(st), chunks), Cut(Flatten(chunks));
            && t == Session(HandleAll(c, st, cut.0).0, Flatten(chunks), cut.1, |cut.0|,
                            Delivered(c, net, st, cut.0), true)
            && t == Receive(c, net, Opened(st), Flatten(chunks)) && !HasFrame(t.buffer)
  {
    hide Serve, Cut, Stops, Frames, HasFrame, HandleAll, Delivered;
    var stream := Flatten(chunks);
    OpenedSettled(c, net, st);
    assert [] + stream == stream;
    NeverStrands(c, net, st, Cut(stream).0);
    ServeSettled(c, net, st, Opened(st), chunks);
    ReceiveSettled(c, net, st, Opened(st), stream, Cut(stream).0);
    AllHandled(c, net, st, Serve(c, net, Opened(st), chunks), stream);
    AllHandled(c, net, st, Receive(c, net, Opened(st), stream), stream);
  }

  lemma NeverStrands(c: Config, net: Net, st: Store, fs: seq<bytes>)
    requires NoStop(c, net, st, fs, 0)
    ensures !Strands(c, net, st, fs)
  {
  }

  lemma AllHandled(c: Config, net: Net, st: Store, s: Session, stream: bytes)
    requires Settled(c, net, st, s, Cut(stream).0) && (s.open ==> s.received == stream)
    requires NoStop(c, net, st, Cut(stream).0, 0)
    ensures var cut := Cut(stream);
            s == Session(HandleAll(c, st, cut.0).0, stream, cut.1, |cut.0|, Delivered(c, net, st, cut.0), true)
    ensures !HasFrame(s.buffer)
  {
    hide Cut, HandleAll, Delivered, HasFrame, AnswerTo;
    NothingLeft(c, net, st, s);
    assert Cut(stream).0[..|Cut(stream).0|] == Cut(stream).0;
  }

  /** Two receives do what one receive of their concatenation does, unless the first one stops. */
  lemma ReceiveTwice(c: Config, net: Net, st: Store, s: Session, a: bytes, b: bytes)
    requires Faithful(c, net, st, s) && s.open
    requires NoStop(c, net, st, Cut(s.received + a).0, s.handled)
    ensures Receive(c, net, Receive(c, net, s, a), b) == Receive(c, net, s, a + b)
  {
    hide Cut, Frames, Faithful, Stops;
    Assoc(s.received, a, b);
    Assoc(s.buffer, a, b);
    ExtendedFaithful(c, net, st, s, a);
    FramesAppend(c, net, st, Extended(s, a), b);
    assert Extended(Extended(s, a), b) == Extended(s, a + b);
  }

  lemma {:induction false} FramesAppend(c: Config, net: Net, st: Store, s: Session, b: bytes)
    requires Faithful(c, net, st, s) && s.open
    requires NoStop(c, net, st, Cut(s.received).0, s.handled)
    ensures Frames(c, net, Extended(s, b)) == Frames(c, net, Extended(Frames(c, net, s), b))
    decreases |s.buffer|
  {
    hide Cut, FromBE, Handle, HandleAll, Faithful, AnswerTo;
    if HasFrame(s.buffer) {
      HandledFaithful(c, net, st, s);
      assert !Stops(c, net, st, Cut(s.received).0, s.handled);
      GoesOn(c, net, s);
      HandledExtended(c, net, s, b);
      GoesOn(c, net, Extended(s, b));
      FramesAppend(c, net, st, Handled(c, net, s), b);
    }
  }

  lemma GoesOn(c: Config, net: Net, s: Session)
    requires HasFrame(s.buffer)
    requires Answer(Handle(c, s.st, s.buffer[4..4 + FromBE(s.buffer[..4])]).1) == [] || net(s.handled) == Done
    ensures Frames(c, net, s) == Frames(c, net, Handled(c, net, s))
  {
    hide FromBE, Handle;
    assert s.sent + [] == s.sent;
  }

  lemma HandledExtended(c: Config, net: Net, s: Session, b: bytes)
    requires HasFrame(s.buffer)
    ensures HasFrame(s.buffer + b) && Handled(c, net, Extended(s, b)) == Extended(Handled(c, net, s), b)
    ensures var size := FromBE(s.buffer[..4]);
            FromBE((s.buffer + b)[..4]) == size && (s.buffer + b)[4..4 + size] == s.buffer[4..4 + size]
  {
    hide FromBE, Handle;
    var size := FromBE(s.buffer[..4]);
    assert (s.buffer + b)[..4] == s.buffer[..4];
    assert (s.buffer + b)[4..4 + size] == s.buffer[4..4 + size];
    assert (s.buffer + b)[4 + size..] == s.buffer[4 + size..] + b;
  }

  // ---------------------------------------------------------------- the log

  /** From the empty server, whatever was received and however the sends ended. */
  lemma ServerKeepsLog(c: Config, net: Net, chunks: seq<bytes>)
    requires forall i :: 0 <= i < |chunks| ==> chunks[i] != []
    ensures var s := Serve(c, net, Opened(Store(map[], map[])), chunks);
            && LogInv(s.st)
            && (forall t, p :: HighWaterMark(s.st, t, p) == Some(|LogOf(s.st, t, p)|))
            && forall t, p, i :: 0 <= i < |LogOf(s.st, t, p)| ==> LogOf(s.st, t, p)[i].offset == i
  {
    hide Cut, HandleAll, Serve;
    var empty := Store(map[], map[]);
    OpenedFaithful(c, net, empty);
    EveryOutcome(c, net, empty, Opened(empty), chunks);
    var s := Serve(c, net, Opened(empty), chunks);
    AnyMessagesKeepLog(c, empty, Cut(s.received).0[..s.handled]);
    forall t, p
      ensures HighWaterMark(s.st, t, p) == Some(|LogOf(s.st, t, p)|)
      ensures forall i :: 0 <= i < |LogOf(s.st, t, p)| ==> LogOf(s.st, t, p)[i].offset == i
    {
      MarkIsLength(s.st, t, p);
      assert LogInvAt(s.st, t, p);
    }
  }
}
