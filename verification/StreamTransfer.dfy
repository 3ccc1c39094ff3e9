/**
 A whole stream, from the writes of one worker to the reads of another
 (src/agent/cpp/peer_rpc_server.cpp): the writer's frames as bytes on the connection, cut into
 network reads, split into frames again, fed to the stream and read.
 */
module StreamTransfer {
  import opened Common
  import opened PeerStream
  import Framing

  type Frame = Framing.Frame

  /** The body of an END frame, written and read by the message protocol. */
  datatype EndCode = EndCode(encode: Totals -> Bytes, parse: Bytes -> Option<Totals>)

  // ---------------------------------------------------------------------------
  // Frames of a stream
  // ---------------------------------------------------------------------------

  ghost function DataFrames(raws: seq<Bytes>, offset: nat): (fs: seq<Frame>)
    ensures |fs| == |raws| && forall i :: 0 <= i < |fs| ==> fs[i].Data? && fs[i].raw == raws[i]
  {
    if raws == [] then [] else [Framing.Data(offset, 0, raws[0])] + DataFrames(raws[1..], offset + |raws[0]|)
  }

  ghost function EndFrames(code: EndCode, end: Option<Totals>): seq<Frame> {
    if end.Some? then [Framing.End(code.encode(end.value))] else []
  }

  /** START, the data frames and, if the writer gets that far, END. */
  ghost function WholeStream(code: EndCode, start: Bytes, raws: seq<Bytes>, end: Option<Totals>): seq<Frame> {
    [Framing.Start(start)] + DataFrames(raws, 0) + EndFrames(code, end)
  }

  // ---------------------------------------------------------------------------
  // What the network thread makes of them
  // ---------------------------------------------------------------------------

  ghost function EventsOf(code: EndCode, f: Frame): seq<Event> {
    match f
    case Data(_, _, raw) => [Arrive(raw)]
    case End(body) => if code.parse(body).Some? then [ArriveEnd(code.parse(body).value)] else []
    case _ => []
  }

  ghost function StreamEvents(code: EndCode, fs: seq<Frame>): seq<Event> {
    if fs == [] then [] else EventsOf(code, fs[0]) + StreamEvents(code, fs[1..])
  }

  lemma {:induction false} StreamEventsAppend(code: EndCode, a: seq<Frame>, b: seq<Frame>)
    ensures StreamEvents(code, a + b) == StreamEvents(code, a) + StreamEvents(code, b)
    decreases |a|
  {
    hide EventsOf;
    if a == [] {
      assert a + b == b;
    } else {
      assert (a + b)[1..] == a[1..] + b;
      StreamEventsAppend(code, a[1..], b);
    }
  }

  /** The frames among the steps of a run. */
  ghost function Arrivals(es: seq<Event>): seq<Event> {
    if es == [] then []
    else if es[0].Arrive? || es[0].ArriveEnd? then [es[0]] + Arrivals(es[1..])
    else Arrivals(es[1..])
  }

  // ---------------------------------------------------------------------------
  // They come from the writer
  // ---------------------------------------------------------------------------

  /** After the given bytes, these frames carry the next bytes of the writer and its totals. */
  ghost predicate Honest(codec: Codec, blocks: seq<Bytes>, received: Bytes, todo: seq<Event>)
    decreases |todo|
  {
    todo == [] ||
    match todo[0]
    case Arrive(raw) => received + raw <= Wire(codec, blocks) && Honest(codec, blocks, received + raw, todo[1..])
    case ArriveEnd(end) => end == TotalsOf(codec, blocks) && Honest(codec, blocks, received, todo[1..])
    case _ => false
  }

  lemma {:induction false} HonestPrefix(codec: Codec, blocks: seq<Bytes>, received: Bytes, todo: seq<Event>, n: nat)
    requires Honest(codec, blocks, received, todo) && n <= |todo|
    ensures Honest(codec, blocks, received, todo[..n])
    decreases |todo|
  {
    hide Wire, TotalsOf;
    if n > 0 {
      assert todo[..n][0] == todo[0] && todo[..n][1..] == todo[1..][..n - 1];
      match todo[0]
      case Arrive(raw) => HonestPrefix(codec, blocks, received + raw, todo[1..], n - 1);
      case ArriveEnd(_) => HonestPrefix(codec, blocks, received, todo[1..], n - 1);
    }
  }

  ghost function ArrivalsOf(raws: seq<Bytes>): seq<Event> {
    if raws == [] then [] else [Arrive(raws[0])] + ArrivalsOf(raws[1..])
  }

  lemma {:induction false} DataEvents(code: EndCode, raws: seq<Bytes>, offset: nat)
    ensures StreamEvents(code, DataFrames(raws, offset)) == ArrivalsOf(raws)
    decreases |raws|
  {
    if raws != [] {
      DataEvents(code, raws[1..], offset + |raws[0]|);
      assert DataFrames(raws, offset)[1..] == DataFrames(raws[1..], offset + |raws[0]|);
    }
  }

  lemma {:induction false} HonestFirst(codec: Codec, blocks: seq<Bytes>, received: Bytes, raw: Bytes, rest: seq<Event>)
    requires received + raw <= Wire(codec, blocks) && Honest(codec, blocks, received + raw, rest)
    ensures Honest(codec, blocks, received, [Arrive(raw)] + rest)
  {
  }

  lemma {:induction false} HonestData(codec: Codec, blocks: seq<Bytes>, received: Bytes, raws: seq<Bytes>,
                                      last: seq<Event>)
    requires received + Concat(raws) <= Wire(codec, blocks) && Honest(codec, blocks, received + Concat(raws), last)
    ensures Honest(codec, blocks, received, ArrivalsOf(raws) + last)
    decreases |raws|
  {
    hide Wire, TotalsOf, Honest;
    if raws == [] {
      assert received + [] == received && [] + last == last;
    } else {
      assert received + Concat(raws) == received + raws[0] + Concat(raws[1..]);
      HonestData(codec, blocks, received + raws[0], raws[1..], last);
      HonestFirst(codec, blocks, received, raws[0], ArrivalsOf(raws[1..]) + last);
      assert ArrivalsOf(raws) + last == [Arrive(raws[0])] + (ArrivalsOf(raws[1..]) + last);
    }
  }

  lemma {:induction false} HonestEnd(code: EndCode, codec: Codec, blocks: seq<Bytes>, received: Bytes,
                                     end: Option<Totals>)
    requires end.Some? ==> end.value == TotalsOf(codec, blocks) && code.parse(code.encode(end.value)) == Some(end.value)
    ensures Honest(codec, blocks, received, StreamEvents(code, EndFrames(code, end)))
  {
  }

  lemma {:induction false} HonestStream(code: EndCode, codec: Codec, plain: Bytes, start: Bytes, raws: seq<Bytes>,
                                        end: Option<Totals>)
    requires SentBy(codec, plain, raws, end) && (end.Some? ==> code.parse(code.encode(end.value)) == Some(end.value))
    ensures Honest(codec, Blocks(plain), [], StreamEvents(code, WholeStream(code, start, raws, end)))
  {
    var s, d, e := [Framing.Start(start)], DataFrames(raws, 0), EndFrames(code, end);
    assert StreamEvents(code, s) == [] by { assert s[1..] == []; }
    assert WholeStream(code, start, raws, end) == s + d + e;
    hide Wire, TotalsOf, Blocks, StreamEvents, DataFrames, EndFrames, Concat, WholeStream, Honest;
    StreamEventsAppend(code, s + d, e);
    StreamEventsAppend(code, s, d);
    DataEvents(code, raws, 0);
    assert [] + Concat(raws) == Concat(raws);
    HonestEnd(code, codec, Blocks(plain), Concat(raws), end);
    HonestData(codec, Blocks(plain), [], raws, StreamEvents(code, e));
    assert [] + ArrivalsOf(raws) == ArrivalsOf(raws);
  }

  /** However the network cuts the bytes, the frames delivered so far are the first frames, so what
      the stream is fed is honest. */
  lemma {:induction false} DeliveredIsHonest(code: EndCode, codec: Codec, plain: Bytes, start: Bytes, raws: seq<Bytes>,
                                             end: Option<Totals>, chunks: seq<Bytes>)
    requires SentBy(codec, plain, raws, end) && (end.Some? ==> code.parse(code.encode(end.value)) == Some(end.value))
    requires var fs := WholeStream(code, start, raws, end);
             Framing.Legal(fs, false) && Concat(chunks) <= Framing.EncodeAll(fs)
    ensures var got := Framing.Receive(Framing.Connection([], false, false), chunks).0;
            && got <= WholeStream(code, start, raws, end)
            && Honest(codec, Blocks(plain), [], StreamEvents(code, got))
  {
    hide *;
    HonestStream(code, codec, plain, start, raws, end);
    var fs := WholeStream(code, start, raws, end);
    assert [] + Concat(chunks) == Concat(chunks);
    NothingLeft(fs);
    var n := Framing.ReceiveWhatWasSent(fs, [], chunks, false);
    var (got, c) := Framing.Receive(Framing.Connection([], false, false), chunks);
    WhatArrived(fs, [] + Concat(chunks), n, got, c);
    assert fs == fs[..n] + fs[n..];
    StreamEventsAppend(code, fs[..n], fs[n..]);
    var all, first := StreamEvents(code, fs), StreamEvents(code, fs[..n]);
    HonestPrefix(codec, Blocks(plain), [], all, |first|);
    assert all[..|first|] == first;
  }

  lemma {:induction false} NothingLeft(fs: seq<Frame>)
    ensures fs != [] ==> [] < Framing.Encode(fs[0])
  {
  }

  lemma {:induction false} WhatArrived(fs: seq<Frame>, p: Bytes, n: nat, got: seq<Frame>, c: Framing.Connection)
    requires Framing.Arrived(fs, false, p, n, got, c)
    ensures n <= |fs| && got == fs[..n]
  {
  }

  lemma {:induction false} StepReceives(codec: Codec, limit: nat, s: Sys, e: Event)
    requires Sound(limit, s) && Enabled(limit, s, e)
    ensures Step(codec, limit, s, e).received == if e.Arrive? then s.received + e.raw else s.received
  {
  }

  /** A run whose frames are honest is a run of an honest sender. */
  lemma {:induction false} RunIsFromWriter(codec: Codec, limit: nat, blocks: seq<Bytes>, s: Sys, es: seq<Event>,
                                           todo: seq<Event>)
    requires Sound(limit, s) && IsAnyRun(codec, limit, s, es)
    requires Arrivals(es) <= todo && Honest(codec, blocks, s.received, todo)
    ensures IsRun(codec, limit, blocks, s, es)
    ensures After(codec, limit, blocks, s, es) == AfterAny(codec, limit, s, es)
    decreases |es|
  {
    if es != [] {
      var e := es[0];
      var s' := Step(codec, limit, s, e);
      StepReceives(codec, limit, s, e);
      StepIsSound(codec, limit, s, e);
      hide Sound, Enabled, Step, Wire, TotalsOf;
      if e.Arrive? || e.ArriveEnd? {
        assert Arrivals(es)[0] == e == todo[0] && Arrivals(es)[1..] == Arrivals(es[1..]);
        assert Arrivals(es[1..]) <= todo[1..];
        RunIsFromWriter(codec, limit, blocks, s', es[1..], todo[1..]);
      } else {
        RunIsFromWriter(codec, limit, blocks, s', es[1..], todo);
      }
    }
  }

  // ---------------------------------------------------------------------------
  // End to end
  // ---------------------------------------------------------------------------

  /** For every cut of the plaintext into writes, every cut of the connection's bytes into network
      reads, every interleaving of the receiving threads and every sequence of read sizes: the
      application has got a prefix of the plaintext, and it sees a clean end only after all of it. */
  lemma {:induction false} StreamArrives(codec: Codec, code: EndCode, limit: nat, writes: seq<Bytes>, raws: seq<Bytes>,
                                         end: Option<Totals>, start: Bytes, chunks: seq<Bytes>, es: seq<Event>)
    requires Good(codec) && (end.Some? ==> code.parse(code.encode(end.value)) == Some(end.value))
    requires SentBy(codec, Concat(writes), raws, end)
    requires var fs := WholeStream(code, start, raws, end);
             Framing.Legal(fs, false) && Concat(chunks) <= Framing.EncodeAll(fs)
    requires Sound(limit, Begin()) && IsAnyRun(codec, limit, Begin(), es)
    requires Arrivals(es) <= StreamEvents(code, Framing.Receive(Framing.Connection([], false, false), chunks).0)
    ensures var s := AfterAny(codec, limit, Begin(), es);
            && s.delivered <= Concat(writes) && !s.rd.broken
            && (s.rd.eof && !s.rx.abandoned ==> s.delivered + s.out == Concat(writes))
  {
    var plain := Concat(writes);
    assert Begin().received == [];
    hide *;
    DeliveredIsHonest(code, codec, plain, start, raws, end, chunks);
    var got := Framing.Receive(Framing.Connection([], false, false), chunks).0;
    RunIsFromWriter(codec, limit, Blocks(plain), Begin(), es, StreamEvents(code, got));
    BlocksAreHonest(plain);
    StreamIsFaithful(codec, limit, Blocks(plain), es);
  }
}
