/**
 Frames between workers (src/agent/cpp/peer_rpc_server.cpp, src/network/cpp/message_protocol.h).

 A frame is an 8-byte checked length, a type byte and a body. The receiver appends whatever
 the network delivers to a buffer and cuts complete frames off its front.
 */
module Framing {
  import opened Common

  type Byte = x: int | 0 <= x < 256
  type Bytes = seq<Byte>

  // ---------------------------------------------------------------------------
  // Fixed-width big-endian numbers
  // ---------------------------------------------------------------------------

  ghost function Pow256(n: nat): (p: nat)
    ensures p > 0
  {
    if n == 0 then 1 else 256 * Pow256(n - 1)
  }

  /** The n low bytes of v, most significant first. */
  function BigEndian(v: nat, n: nat): (r: Bytes)
    ensures |r| == n
  {
    if n == 0 then [] else BigEndian(v / 256, n - 1) + [v % 256]
  }

  function FromBigEndian(b: Bytes): nat {
    if b == [] then 0 else 256 * FromBigEndian(b[..|b| - 1]) + b[|b| - 1]
  }

  lemma {:induction false} BigEndianRoundTrip(v: nat, n: nat)
    requires v < Pow256(n)
    ensures FromBigEndian(BigEndian(v, n)) == v
    decreases n
  {
    if n > 0 {
      BigEndianRoundTrip(v / 256, n - 1);
      assert BigEndian(v, n)[..n - 1] == BigEndian(v / 256, n - 1);
    }
  }

  // ---------------------------------------------------------------------------
  // The checked length
  // ---------------------------------------------------------------------------

  /** Bitwise exclusive or, bit by bit. */
  function Xor(a: nat, b: nat): nat {
    if a == 0 && b == 0 then 0
    else 2 * Xor(a / 2, b / 2) + (if a % 2 == b % 2 then 0 else 1)
  }

  lemma {:induction false} XorBound(a: nat, b: nat, n: nat)
    requires a < Pow2(n) && b < Pow2(n)
    ensures Xor(a, b) < Pow2(n)
    decreases n
  {
    if n > 0 {
      XorBound(a / 2, b / 2, n - 1);
    }
  }

  /** Changing one operand changes the result. */
  lemma {:induction false} XorInjective(a: nat, a': nat, b: nat)
    requires a != a'
    ensures Xor(a, b) != Xor(a', b)
    ensures Xor(b, a) != Xor(b, a')
    decreases a + a' + b
  {
    if a / 2 != a' / 2 {
      XorInjective(a / 2, a' / 2, b / 2);
    } else {
      assert a % 2 != a' % 2;
    }
  }

  function XorByte(a: Byte, b: Byte): Byte {
    XorBound(a, b, 8);
    assert Pow2(8) == 256;
    Xor(a, b)
  }

  /** One byte of the 16-bit check: the magic folded with every second byte of the length. */
  function Check(magic: Byte, x: Byte, y: Byte, z: Byte): Byte {
    XorByte(XorByte(XorByte(magic, x), y), z)
  }

  /** 16 check bits, then the 48-bit length, most significant byte first. */
  function Header(len: nat): (h: Bytes)
    ensures |h| == 8
  {
    var l := BigEndian(len, 6);
    [Check(0xF1, l[0], l[2], l[4]), Check(0x7E, l[1], l[3], l[5])] + l
  }

  /** The length of a header whose check matches; a length of zero is invalid. */
  function ParseHeader(h: Bytes): Option<nat>
    requires |h| == 8
  {
    var len := FromBigEndian(h[2..]);
    if len == 0 then None
    else if h[0] != Check(0xF1, h[2], h[4], h[6]) || h[1] != Check(0x7E, h[3], h[5], h[7]) then None
    else Some(len)
  }

  lemma {:induction false} HeaderRoundTrip(len: nat)
    requires 0 < len < Pow256(6)
    ensures ParseHeader(Header(len)) == Some(len)
  {
    BigEndianRoundTrip(len, 6);
    assert Header(len)[2..] == BigEndian(len, 6);
  }

  lemma {:induction false} CheckInjective(magic: Byte, x: Byte, y: Byte, z: Byte, x': Byte, y': Byte, z': Byte)
    requires (x != x' && y == y' && z == z') || (x == x' && y != y' && z == z') || (x == x' && y == y' && z != z')
    ensures Check(magic, x, y, z) != Check(magic, x', y', z')
  {
    if z != z' {
      XorInjective(z, z', XorByte(XorByte(magic, x), y));
    } else if y != y' {
      XorInjective(y, y', XorByte(magic, x));
      XorInjective(XorByte(XorByte(magic, x), y), XorByte(XorByte(magic, x'), y'), z);
    } else {
      XorInjective(x, x', magic);
      XorInjective(XorByte(magic, x), XorByte(magic, x'), y);
      XorInjective(XorByte(XorByte(magic, x), y), XorByte(XorByte(magic, x'), y'), z);
    }
  }

  /** Damage to any one byte of a header, hence any single-bit flip, is detected. */
  lemma {:induction false} DamagedHeaderRejected(h: Bytes, i: nat, b: Byte)
    requires |h| == 8 && i < 8 && ParseHeader(h).Some? && b != h[i]
    ensures ParseHeader(h[i := b]) == None
  {
    var d := h[i := b];
    if i >= 2 {
      if i % 2 == 0 {
        CheckInjective(0xF1, h[2], h[4], h[6], d[2], d[4], d[6]);
      } else {
        CheckInjective(0x7E, h[3], h[5], h[7], d[3], d[5], d[7]);
      }
    }
  }

  // ---------------------------------------------------------------------------
  // Frames
  // ---------------------------------------------------------------------------

  const REQUEST: Byte := 50
  const RESPONSE: Byte := 51
  const DATA_CHUNK: Byte := 63
  const STREAM_START: Byte := 66
  const STREAM_END: Byte := 67

  /** What one frame carries. The bodies of START and END are the encoded messages. */
  datatype Frame =
    | Request(rpcId: nat, source: nat, payload: Bytes)
    | Response(rpcId: nat, status: Byte, payload: Bytes)
    | Start(body: Bytes)
    | Data(offset: nat, crc: nat, raw: Bytes)
    | End(body: Bytes)

  function TypeOf(f: Frame): Byte {
    match f
    case Request(_, _, _) => REQUEST
    case Response(_, _, _) => RESPONSE
    case Start(_) => STREAM_START
    case Data(_, _, _) => DATA_CHUNK
    case End(_) => STREAM_END
  }

  function Body(f: Frame): Bytes {
    match f
    case Request(id, src, payload) => BigEndian(id, 8) + BigEndian(src, 8) + payload
    case Response(id, status, payload) => BigEndian(id, 8) + [status] + payload
    case Start(body) => body
    case Data(offset, crc, raw) => BigEndian(16, 4) + BigEndian(offset, 8) + BigEndian(crc, 8) + raw
    case End(body) => body
  }

  /** Bytes on the wire. */
  function Encode(f: Frame): (r: Bytes)
    ensures |r| == 9 + |Body(f)|
  {
    Header(1 + |Body(f)|) + [TypeOf(f)] + Body(f)
  }

  function EncodeAll(fs: seq<Frame>): Bytes {
    if fs == [] then [] else Encode(fs[0]) + EncodeAll(fs[1..])
  }

  /** 64-bit fields, a 48-bit length, and no empty data frame. */
  ghost predicate WellFormed(f: Frame) {
    && 1 + |Body(f)| < Pow256(6)
    && match f
       case Request(id, src, _) => id < Pow256(8) && src < Pow256(8)
       case Response(id, _, _) => id < Pow256(8)
       case Data(offset, crc, raw) => offset < Pow256(8) && crc < Pow256(8) && raw != []
       case _ => true
  }

  // ---------------------------------------------------------------------------
  // The splitter
  // ---------------------------------------------------------------------------

  /** What the front of a buffer is: not a whole frame yet, a bad header or an empty data frame
      (the buffer is dropped), a fatal protocol error (the connection is closed), or a frame. */
  datatype Cut = More | Drop | Fatal | Skip(length: nat) | Got(frame: Frame, length: nat)

  /** streaming tells whether a stream is open on the connection. */
  function CutFrame(buf: Bytes, streaming: bool): (c: Cut)
    ensures c.Got? || c.Skip? ==> 9 <= c.length <= |buf|
  {
    if |buf| < 9 then More
    else
      match ParseHeader(buf[..8])
      case None => Drop
      case Some(total) =>
        if |buf| < 8 + total then More
        else CutBody(buf[8], buf[9..8 + total], |buf|, streaming)
  }

  /** The receiver reads the fields of a whole frame by their place in its body. A frame too
      short for its fixed fields is noticed once the buffer, of length available, covers them. */
  function CutBody(kind: Byte, body: Bytes, available: nat, streaming: bool): (c: Cut)
    ensures c.Got? || c.Skip? ==> c.length == 9 + |body|
  {
    var length := 9 + |body|;
    if kind == REQUEST then
      if available < 25 then More
      else if |body| < 16 then Fatal
      else Got(Request(FromBigEndian(body[..8]), FromBigEndian(body[8..16]), body[16..]), length)
    else if kind == RESPONSE then
      if available < 18 then More
      else if |body| < 9 then Fatal
      else Got(Response(FromBigEndian(body[..8]), body[8], body[9..]), length)
    else if kind == STREAM_START then Got(Start(body), length)
    else if kind == STREAM_END then
      if streaming then Got(End(body), length) else Fatal
    else if kind == DATA_CHUNK then
      if !streaming then Skip(length)
      else if |body| <= 20 then Drop
      else Got(Data(FromBigEndian(body[4..12]), FromBigEndian(body[12..20]), body[20..]), length)
    else Fatal
  }

  /** START opens the stream, END closes it. */
  function StreamingAfter(streaming: bool, f: Frame): bool {
    if f.Start? then true else if f.End? then false else streaming
  }

  datatype Connection = Connection(buf: Bytes, streaming: bool, closed: bool)

  /** The frames a buffer is cut into, in order, and the connection afterwards. */
  function Split(c: Connection): (r: (seq<Frame>, Connection))
    requires !c.closed
    decreases |c.buf|
  {
    match CutFrame(c.buf, c.streaming)
    case More => ([], c)
    case Drop => ([], c.(buf := []))
    case Fatal => ([], Connection([], false, true))
    case Skip(n) => Split(c.(buf := c.buf[n..]))
    case Got(f, n) =>
      var (fs, c') := Split(Connection(c.buf[n..], StreamingAfter(c.streaming, f), false));
      ([f] + fs, c')
  }

  /** The frames that go to an open stream at once; all others wait for the end of the read. */
  function StreamParts(fs: seq<Frame>): (r: seq<Frame>)
    ensures forall f :: f in r <==> f in fs && (f.Data? || f.End?)
  {
    if fs == [] then []
    else if fs[0].Data? || fs[0].End? then [fs[0]] + StreamParts(fs[1..])
    else StreamParts(fs[1..])
  }

  /** What one network read hands out: on a fatal error the messages cut out earlier in the same
      read are dropped with the connection. */
  ghost function HandOut(c: Connection): (seq<Frame>, Connection)
    requires !c.closed
  {
    var (fs, c') := Split(c);
    (if c'.closed then StreamParts(fs) else fs, c')
  }

  /** END and data frames come only inside a stream. */
  ghost predicate Legal(fs: seq<Frame>, streaming: bool)
    decreases |fs|
  {
    fs == [] ||
    (WellFormed(fs[0]) && (fs[0].Data? || fs[0].End? ==> streaming) && Legal(fs[1..], StreamingAfter(streaming, fs[0])))
  }

  ghost function StreamingAfterAll(streaming: bool, fs: seq<Frame>): bool
    decreases |fs|
  {
    if fs == [] then streaming else StreamingAfterAll(StreamingAfter(streaming, fs[0]), fs[1..])
  }

  // ---------------------------------------------------------------------------
  // Round trip of one frame
  // ---------------------------------------------------------------------------

  lemma {:induction false} BodyRoundTrip(f: Frame, available: nat, streaming: bool)
    requires WellFormed(f) && available >= 9 + |Body(f)| && (f.Data? || f.End? ==> streaming)
    ensures CutBody(TypeOf(f), Body(f), available, streaming) == Got(f, 9 + |Body(f)|)
  {
    var body := Body(f);
    match f
    case Request(id, src, payload) =>
      BigEndianRoundTrip(id, 8);
      BigEndianRoundTrip(src, 8);
      assert body[..8] == BigEndian(id, 8) && body[8..16] == BigEndian(src, 8) && body[16..] == payload;
    case Response(id, status, payload) =>
      BigEndianRoundTrip(id, 8);
      assert body[..8] == BigEndian(id, 8) && body[9..] == payload;
    case Data(offset, crc, raw) =>
      BigEndianRoundTrip(offset, 8);
      BigEndianRoundTrip(crc, 8);
      assert body[4..12] == BigEndian(offset, 8) && body[12..20] == BigEndian(crc, 8) && body[20..] == raw;
    case _ =>
  }

  lemma {:induction false} FrameRoundTrip(f: Frame, rest: Bytes, streaming: bool)
    requires WellFormed(f) && (f.Data? || f.End? ==> streaming)
    ensures CutFrame(Encode(f) + rest, streaming) == Got(f, |Encode(f)|)
  {
    hide Body, CutBody, Header, ParseHeader;
    var buf, body := Encode(f) + rest, Body(f);
    HeaderRoundTrip(1 + |body|);
    assert buf[..8] == Header(1 + |body|);
    assert buf[8] == TypeOf(f) && buf[9..9 + |body|] == body;
    BodyRoundTrip(f, |buf|, streaming);
  }

  /** A proper prefix of a frame is left in the buffer until the rest arrives. */
  lemma {:induction false} PrefixWaits(f: Frame, p: Bytes, streaming: bool)
    requires WellFormed(f) && p < Encode(f)
    ensures CutFrame(p, streaming) == More
  {
    hide Body, CutBody, Header, ParseHeader;
    if |p| >= 9 {
      var body := Body(f);
      HeaderRoundTrip(1 + |body|);
      assert p[..8] == Encode(f)[..8] == Header(1 + |body|);
    }
  }

  // ---------------------------------------------------------------------------
  // Frames that are not welcome
  // ---------------------------------------------------------------------------

  ghost function RawFrame(kind: Byte, body: Bytes): Bytes { Header(1 + |body|) + [kind] + body }

  /** A type the protocol does not know, END without a stream, or a request or response too short for
      its fields. */
  ghost predicate IsFatal(kind: Byte, body: Bytes, streaming: bool) {
    || kind !in {REQUEST, RESPONSE, STREAM_START, STREAM_END, DATA_CHUNK}
    || (kind == STREAM_END && !streaming)
    || (kind == REQUEST && |body| < 16)
    || (kind == RESPONSE && |body| < 9)
  }

  lemma {:induction false} CutRaw(kind: Byte, body: Bytes, rest: Bytes, streaming: bool)
    requires 1 + |body| < Pow256(6)
    ensures var buf := RawFrame(kind, body) + rest;
            CutFrame(buf, streaming) == CutBody(kind, body, |buf|, streaming)
  {
    hide CutBody, Header, ParseHeader;
    var buf := RawFrame(kind, body) + rest;
    HeaderRoundTrip(1 + |body|);
    assert buf[..8] == Header(1 + |body|);
    assert buf[8] == kind && buf[9..9 + |body|] == body;
  }

  /** The connection is closed on a fatal frame, once the buffer covers the fixed fields of its type;
      a data frame without a stream is passed over; an empty data frame clears the buffer. */
  lemma {:induction false} UnwelcomeFrames(kind: Byte, body: Bytes, rest: Bytes, streaming: bool)
    requires 1 + |body| < Pow256(6)
    ensures var c := Connection(RawFrame(kind, body) + rest, streaming, false);
            && (IsFatal(kind, body, streaming) && |c.buf| >= 25 ==> Split(c) == ([], Connection([], false, true)))
            && (kind == DATA_CHUNK && !streaming ==> Split(c) == Split(c.(buf := rest)))
            && (kind == DATA_CHUNK && streaming && |body| <= 20 ==> Split(c) == ([], c.(buf := [])))
  {
    CutRaw(kind, body, rest, streaming);
    var c := Connection(RawFrame(kind, body) + rest, streaming, false);
    SplitUnfolds(c);
    hide CutFrame, Split, Header;
    assert c.buf[9 + |body|..] == rest;
  }

  /** START opens a stream on the connection, END closes it, and nothing else does either. */
  lemma {:induction false} StreamOpensAndCloses(f: Frame, streaming: bool)
    requires WellFormed(f) && (f.Data? || f.End? ==> streaming)
    ensures var (fs, c) := Split(Connection(Encode(f), streaming, false));
            && fs == [f] && c.buf == [] && !c.closed
            && (c.streaming <==> f.Start? || (streaming && !f.End?))
  {
    SplitGot(f, [], streaming);
    assert Encode(f) + [] == Encode(f);
    hide Encode, WellFormed;
  }

  /** A damaged header clears the buffer; the connection stays open. */
  lemma {:induction false} BadHeaderClears(c: Connection)
    requires !c.closed && |c.buf| >= 9 && ParseHeader(c.buf[..8]).None?
    ensures Split(c) == ([], c.(buf := []))
  {
  }

  // ---------------------------------------------------------------------------
  // Round trip of a stream of frames, cut anywhere
  // ---------------------------------------------------------------------------

  /** The bytes p were split into the first n frames of fs and a proper prefix of the next one. */
  ghost predicate Arrived(fs: seq<Frame>, streaming: bool, p: Bytes, n: nat, got: seq<Frame>, c: Connection) {
    && n <= |fs| && got == fs[..n]
    && !c.closed && c.streaming == StreamingAfterAll(streaming, fs[..n])
    && (if n == |fs| then c.buf == [] else c.buf < Encode(fs[n]))
    && p == EncodeAll(fs[..n]) + c.buf
  }

  lemma {:induction false} NothingArrived(fs: seq<Frame>, p: Bytes, streaming: bool)
    requires Legal(fs, streaming) && (if fs == [] then p == [] else p < Encode(fs[0]))
    ensures Arrived(fs, streaming, p, 0, [], Connection(p, streaming, false))
    ensures Split(Connection(p, streaming, false)) == ([], Connection(p, streaming, false))
  {
    hide WellFormed, Encode;
    assert EncodeAll(fs[..0]) + p == p;
    if fs != [] {
      PrefixWaits(fs[0], p, streaming);
    }
  }

  lemma {:induction false} FirstArrived(fs: seq<Frame>, streaming: bool, rest: Bytes, n: nat, got: seq<Frame>,
                                        c: Connection)
    requires fs != [] && Arrived(fs[1..], StreamingAfter(streaming, fs[0]), rest, n, got, c)
    ensures Arrived(fs, streaming, Encode(fs[0]) + rest, n + 1, [fs[0]] + got, c)
  {
    hide Encode;
    var head, tail := fs[..n + 1], fs[1..][..n];
    assert head[1..] == tail && head[0] == fs[0];
    assert EncodeAll(head) == Encode(fs[0]) + EncodeAll(tail);
    assert StreamingAfterAll(streaming, head) == StreamingAfterAll(StreamingAfter(streaming, fs[0]), tail);
    hide EncodeAll, StreamingAfterAll, StreamingAfter;
    assert head == [fs[0]] + tail;
    assert Encode(fs[0]) + (EncodeAll(tail) + c.buf) == EncodeAll(head) + c.buf;
  }

  lemma {:induction false} SplitGot(f: Frame, rest: Bytes, streaming: bool)
    requires WellFormed(f) && (f.Data? || f.End? ==> streaming)
    ensures var (fs, c) := Split(Connection(rest, StreamingAfter(streaming, f), false));
            Split(Connection(Encode(f) + rest, streaming, false)) == ([f] + fs, c)
  {
    hide CutFrame, WellFormed, Encode;
    FrameRoundTrip(f, rest, streaming);
    assert (Encode(f) + rest)[|Encode(f)|..] == rest;
  }

  /** Whatever part of the encoded frames has arrived, the splitter yields exactly the frames
      that are complete and keeps a proper prefix of the next. */
  lemma {:induction false} SplitPrefix(fs: seq<Frame>, p: Bytes, streaming: bool) returns (n: nat)
    requires Legal(fs, streaming) && p <= EncodeAll(fs)
    ensures var (got, c) := Split(Connection(p, streaming, false)); Arrived(fs, streaming, p, n, got, c)
    decreases |fs|
  {
    hide Encode, WellFormed, Split, Arrived;
    if fs == [] || |p| < |Encode(fs[0])| {
      assert fs != [] ==> p == Encode(fs[0])[..|p|];
      NothingArrived(fs, p, streaming);
      n := 0;
    } else {
      var e := Encode(fs[0]);
      var rest := p[|e|..];
      assert p == e + rest;
      assert EncodeAll(fs)[|e|..] == EncodeAll(fs[1..]);
      SplitGot(fs[0], rest, streaming);
      n := SplitPrefix(fs[1..], rest, StreamingAfter(streaming, fs[0]));
      var (got, c) := Split(Connection(rest, StreamingAfter(streaming, fs[0]), false));
      FirstArrived(fs, streaming, rest, n, got, c);
      n := n + 1;
    }
  }

  lemma {:induction false} EncodeAllConcat(a: seq<Frame>, b: seq<Frame>)
    ensures EncodeAll(a + b) == EncodeAll(a) + EncodeAll(b)
    decreases |a|
  {
    hide Encode;
    if a == [] {
      assert a + b == b;
    } else {
      assert (a + b)[1..] == a[1..] + b;
      EncodeAllConcat(a[1..], b);
    }
  }

  lemma {:induction false} LegalSuffix(fs: seq<Frame>, n: nat, streaming: bool)
    requires Legal(fs, streaming) && n <= |fs|
    ensures Legal(fs[n..], StreamingAfterAll(streaming, fs[..n]))
    decreases n
  {
    hide WellFormed;
    if n == 0 {
      assert fs[0..] == fs;
    } else {
      LegalSuffix(fs[1..], n - 1, StreamingAfter(streaming, fs[0]));
      assert fs[1..][n - 1..] == fs[n..] && fs[..n][1..] == fs[1..][..n - 1];
    }
  }

  lemma {:induction false} StreamingConcat(streaming: bool, a: seq<Frame>, b: seq<Frame>)
    ensures StreamingAfterAll(streaming, a + b) == StreamingAfterAll(StreamingAfterAll(streaming, a), b)
    decreases |a|
  {
    if a == [] {
      assert a + b == b;
    } else {
      assert (a + b)[1..] == a[1..] + b;
      StreamingConcat(StreamingAfter(streaming, a[0]), a[1..], b);
    }
  }

  /** Two network reads in a row. */
  lemma {:induction false} ThenArrived(fs: seq<Frame>, streaming: bool, p: Bytes, k: nat, got: seq<Frame>,
                                       c: Connection,
                    more: Bytes, m: nat, got': seq<Frame>, c': Connection)
    requires Arrived(fs, streaming, p, k, got, c)
    requires Arrived(fs[k..], c.streaming, c.buf + more, m, got', c')
    ensures Arrived(fs, streaming, p + more, k + m, got + got', c')
  {
    hide Encode, EncodeAll, StreamingAfterAll;
    var a, b := fs[..k], fs[k..][..m];
    assert fs[..k + m] == a + b;
    EncodeAllConcat(a, b);
    StreamingConcat(streaming, a, b);
    assert EncodeAll(a) + EncodeAll(b) + c'.buf == EncodeAll(a) + (c.buf + more) == p + more;
  }

  /** The frames delivered by a series of network reads, and the connection at the end. */
  ghost function Receive(c: Connection, chunks: seq<Bytes>): (seq<Frame>, Connection)
    decreases |chunks|
  {
    if c.closed || chunks == [] then ([], c)
    else
      var (fs, c1) := HandOut(c.(buf := c.buf + chunks[0]));
      var (gs, c2) := Receive(c1, chunks[1..]);
      (fs + gs, c2)
  }

  /** What is still to come, once k frames have been delivered. */
  lemma {:induction false} StillToCome(fs: seq<Frame>, streaming: bool, p: Bytes, k: nat, got: seq<Frame>,
                                       c: Connection, more: Bytes)
    requires Legal(fs, streaming) && Arrived(fs, streaming, p, k, got, c) && p + more <= EncodeAll(fs)
    ensures Legal(fs[k..], c.streaming)
    ensures c.buf + more <= EncodeAll(fs[k..])
    ensures if fs[k..] == [] then c.buf == [] else c.buf < Encode(fs[k..][0])
  {
    hide Encode, EncodeAll, Legal, StreamingAfterAll;
    LegalSuffix(fs, k, streaming);
    assert fs == fs[..k] + fs[k..];
    EncodeAllConcat(fs[..k], fs[k..]);
    DropPrefix(EncodeAll(fs[..k]), c.buf, more, EncodeAll(fs[k..]));
  }

  lemma {:induction false} DropPrefix(a: Bytes, b: Bytes, more: Bytes, rest: Bytes)
    requires a + b + more <= a + rest
    ensures b + more <= rest
  {
    assert b + more == (a + b + more)[|a|..];
    assert rest == (a + rest)[|a|..];
  }

  /** For every cut of the bytes into network reads, exactly the sent frames arrive, in order,
      and nothing but a proper prefix of the next frame stays behind. */
  lemma {:induction false} ReceiveWhatWasSent(fs: seq<Frame>, left: Bytes, chunks: seq<Bytes>, streaming: bool)
    returns (n: nat)
    requires Legal(fs, streaming) && left + Concat(chunks) <= EncodeAll(fs)
    requires if fs == [] then left == [] else left < Encode(fs[0])
    ensures var (got, c) := Receive(Connection(left, streaming, false), chunks);
            Arrived(fs, streaming, left + Concat(chunks), n, got, c)
    decreases |chunks|
  {
    hide *;
    if chunks == [] {
      n := 0;
      assert left + Concat(chunks) == left by { NoChunks(); }
      NothingArrived(fs, left, streaming);
      ReceiveNothing(Connection(left, streaming, false));
    } else {
      var p, more := left + chunks[0], Concat(chunks[1..]);
      FirstChunk(left, chunks);
      var k := SplitPrefix(fs, p, streaming);
      var (got, c) := Split(Connection(p, streaming, false));
      ArrivedOpen(fs, streaming, p, k, got, c);
      StillToCome(fs, streaming, p, k, got, c, more);
      var m := ReceiveWhatWasSent(fs[k..], c.buf, chunks[1..], c.streaming);
      var (got', c') := Receive(Connection(c.buf, c.streaming, false), chunks[1..]);
      ThenArrived(fs, streaming, p, k, got, c, more, m, got', c');
      ReceiveStep(Connection(left, streaming, false), chunks);
      n := k + m;
    }
  }

  lemma {:induction false} NoChunks()
    ensures Concat<Byte>([]) == []
  {
  }

  lemma {:induction false} FirstChunk(left: Bytes, chunks: seq<Bytes>)
    requires chunks != []
    ensures left + Concat(chunks) == left + chunks[0] + Concat(chunks[1..])
    ensures left + chunks[0] <= left + Concat(chunks)
  {
  }

  lemma {:induction false} ArrivedOpen(fs: seq<Frame>, streaming: bool, p: Bytes, n: nat, got: seq<Frame>,
                                       c: Connection)
    requires Arrived(fs, streaming, p, n, got, c)
    ensures n <= |fs| && !c.closed && c == Connection(c.buf, c.streaming, false)
  {
  }

  lemma {:induction false} ReceiveNothing(c: Connection)
    ensures Receive(c, []) == ([], c)
  {
  }

  lemma {:induction false} ReceiveStep(c: Connection, chunks: seq<Bytes>)
    requires !c.closed && chunks != []
    ensures var (fs, c1) := Split(c.(buf := c.buf + chunks[0]));
            !c1.closed ==>
              var (gs, c2) := Receive(c1, chunks[1..]);
              Receive(c, chunks) == (fs + gs, c2)
  {
  }

  /** When everything has arrived, everything is delivered and the buffer is empty. */
  lemma {:induction false} AllFramesArrive(fs: seq<Frame>, chunks: seq<Bytes>)
    requires Legal(fs, false) && Concat(chunks) == EncodeAll(fs)
    ensures Receive(Connection([], false, false), chunks) == (fs, Connection([], StreamingAfterAll(false, fs), false))
  {
    hide Split, Encode, Legal, Receive, Concat, EncodeAll, StreamingAfterAll;
    assert [] + Concat(chunks) == Concat(chunks);
    assert fs != [] ==> [] < Encode(fs[0]) by { EncodeIsNotEmpty(fs); }
    var n := ReceiveWhatWasSent(fs, [], chunks, false);
    var (got, c) := Receive(Connection([], false, false), chunks);
    assert fs == fs[..n] + fs[n..];
    EncodeAllConcat(fs[..n], fs[n..]);
    assert EncodeAll(fs[n..]) == c.buf by {
      assert EncodeAll(fs)[|EncodeAll(fs[..n])|..] == c.buf;
    }
    EncodeIsNotEmpty(fs[n..]);
    assert n == |fs|;
    assert fs[..n] == fs;
  }

  lemma {:induction false} EncodeIsNotEmpty(fs: seq<Frame>)
    ensures fs != [] ==> Encode(fs[0]) != [] && Encode(fs[0]) <= EncodeAll(fs)
  {
  }

  // ---------------------------------------------------------------------------
  // The receive loop
  // ---------------------------------------------------------------------------

  lemma {:induction false} SplitUnfolds(c: Connection)
    requires !c.closed
    ensures match CutFrame(c.buf, c.streaming)
            case More => Split(c) == ([], c)
            case Drop => Split(c) == ([], c.(buf := []))
            case Fatal => Split(c) == ([], Connection([], false, true))
            case Skip(n) => Split(c) == Split(c.(buf := c.buf[n..]))
            case Got(f, n) =>
              var (fs, c') := Split(Connection(c.buf[n..], StreamingAfter(c.streaming, f), false));
              Split(c) == ([f] + fs, c')
  {
  }

  class PeerConnection {
    var buf: Bytes
    var streaming: bool
    var closed: bool

    constructor ()
      ensures buf == [] && !streaming && !closed
    {
      buf, streaming, closed := [], false, false;
    }

    ghost function View(): Connection
      reads this
    {
      Connection(buf, streaming, closed)
    }

    /** A network read: append, then cut frames until the buffer has no whole frame left. */
    method OnData(data: Bytes) returns (decoded: seq<Frame>)
      requires !closed
      modifies this
      ensures (decoded, View()) == HandOut(Connection(old(buf) + data, old(streaming), false))
      ensures closed ==> forall f :: f in decoded ==> f.Data? || f.End?
      ensures !closed ==> decoded == Split(Connection(old(buf) + data, old(streaming), false)).0
    {
      hide CutFrame, Split, StreamParts;
      decoded := [];
      buf := buf + data;
      ghost var all := Split(View());
      assert [] + all.0 == all.0;
      while !closed
        invariant closed ==> all.1 == View() && decoded == StreamParts(all.0)
        invariant !closed ==> all == (decoded + Split(View()).0, Split(View()).1)
        decreases !closed, |buf|
      {
        assert decoded + [] == decoded;
        SplitUnfolds(View());
        var cut := CutFrame(buf, streaming);
        match cut {
          case More =>
            break;
          case Drop =>
            buf := [];
            break;
          case Fatal =>
            buf, streaming, closed := [], false, true;
            decoded := StreamParts(decoded);
          case Skip(n) =>
            buf := buf[n..];
          case Got(f, n) =>
            ghost var rest := Split(Connection(buf[n..], StreamingAfter(streaming, f), false)).0;
            assert decoded + ([f] + rest) == (decoded + [f]) + rest;
            decoded := decoded + [f];
            streaming := StreamingAfter(streaming, f);
            buf := buf[n..];
        }
      }
    }
  }
}
