/**
 Byte streams between workers (src/agent/cpp/peer_rpc_server.cpp, src/storage/cpp/pipeline.h).

 The writer cuts plaintext into blocks and sends one record per block. The network thread puts
 records together from the bytes of the data frames and queues them under a byte limit. The
 reader takes records off the queue, verifies and unpacks them, and hands plaintext out; it
 reports a clean end only after reconciling its totals with those of the END frame.
 */
module PeerStream {
  import opened Common
  import Framing

  type Bytes = Framing.Bytes

  // ---------------------------------------------------------------------------
  // Records
  // ---------------------------------------------------------------------------

  /** The n low bytes of v, least significant first. */
  function LittleEndian(v: nat, n: nat): (r: Bytes)
    ensures |r| == n
  {
    if n == 0 then [] else [v % 256] + LittleEndian(v / 256, n - 1)
  }

  function FromLittleEndian(b: Bytes): nat {
    if b == [] then 0 else b[0] + 256 * FromLittleEndian(b[1..])
  }

  lemma {:induction false} LittleEndianRoundTrip(v: nat, n: nat)
    requires v < Framing.Pow256(n)
    ensures FromLittleEndian(LittleEndian(v, n)) == v
    decreases n
  {
    if n > 0 {
      LittleEndianRoundTrip(v / 256, n - 1);
      assert LittleEndian(v, n)[1..] == LittleEndian(v / 256, n - 1);
    }
  }

  /** Block size of the writer, and the largest size field the reader accepts. */
  const CHUNK: nat := 4 * 1024 * 1024
  const MAX_WIRE: nat := 64 * 1024 * 1024

  /** Compressor and checksum. Compression may be off or refuse a block. */
  datatype Codec = Codec(off: bool, compress: Bytes -> Option<Bytes>, decompress: (Bytes, nat) -> Option<Bytes>,
                         crc: Bytes -> nat)

  ghost predicate Good(codec: Codec) {
    && (forall p :: codec.crc(p) < Framing.Pow256(8))
    && (forall p :: codec.compress(p).Some? ==>
          codec.decompress(codec.compress(p).value, |p|) == Some(p))
  }

  /** Compression switched off: good codecs exist. */
  function PlainCodec(): Codec { Codec(true, p => None, (p, n) => None, p => 0) }

  lemma {:induction false} PlainCodecIsGood()
    ensures Good(PlainCodec()) && PayloadsAreNonEmpty(PlainCodec())
  {
  }

  /** The compressed block if that saves at least 15%, otherwise the block itself. */
  function Payload(codec: Codec, plain: Bytes): Bytes {
    if codec.off then plain
    else
      var e := codec.compress(plain);
      if e.Some? && |e.value| * 100 < |plain| * 85 then e.value else plain
  }

  /** Plain size, payload size, checksum of the payload, payload. */
  function Record(codec: Codec, plain: Bytes): Bytes {
    var payload := Payload(codec, plain);
    LittleEndian(|plain|, 4) + LittleEndian(|payload|, 4) + LittleEndian(codec.crc(payload), 8) + payload
  }

  /** Payload size announced by a header. */
  function PayloadSize(b: Bytes): nat
    requires |b| >= 16
  {
    FromLittleEndian(b[4..8])
  }

  /** b is exactly one record. */
  predicate IsRecord(b: Bytes) {
    |b| >= 16 && |b| == 16 + PayloadSize(b)
  }

  /** b is a record that is not complete yet. */
  predicate IsPartial(b: Bytes) {
    |b| >= 16 ==> |b| < 16 + PayloadSize(b)
  }

  /** The plaintext of a record: size limits, checksum, decompression. */
  function Decode(codec: Codec, rec: Bytes): Option<Bytes>
    requires IsRecord(rec)
  {
    var size, crc, payload := FromLittleEndian(rec[..4]), FromLittleEndian(rec[8..16]), rec[16..];
    if size > MAX_WIRE || PayloadSize(rec) > MAX_WIRE then None else Unpack(codec, size, crc, payload)
  }

  /** The stages of the read pipeline: checksum, then decompression unless the sizes are equal. */
  function Unpack(codec: Codec, size: nat, crc: nat, payload: Bytes): Option<Bytes> {
    if codec.crc(payload) != crc then None
    else if codec.off || |payload| == size then Some(payload)
    else
      var p := codec.decompress(payload, size);
      if p.Some? && |p.value| == size then p else None
  }

  lemma {:induction false} RecordFields(codec: Codec, plain: Bytes)
    requires Good(codec) && |plain| <= CHUNK
    ensures var rec, payload := Record(codec, plain), Payload(codec, plain);
            && IsRecord(rec) && rec[16..] == payload && |payload| <= |plain|
            && FromLittleEndian(rec[..4]) == |plain| && PayloadSize(rec) == |payload|
            && FromLittleEndian(rec[8..16]) == codec.crc(payload)
  {
    var payload := Payload(codec, plain);
    var rec := Record(codec, plain);
    assert Framing.Pow256(4) == 0x1_0000_0000;
    hide Framing.Pow256, LittleEndian, FromLittleEndian;
    LittleEndianRoundTrip(|plain|, 4);
    LittleEndianRoundTrip(|payload|, 4);
    LittleEndianRoundTrip(codec.crc(payload), 8);
    FourFields(LittleEndian(|plain|, 4), LittleEndian(|payload|, 4), LittleEndian(codec.crc(payload), 8), payload);
  }

  lemma {:induction false} FourFields(a: Bytes, b: Bytes, c: Bytes, d: Bytes)
    requires |a| == 4 && |b| == 4 && |c| == 8
    ensures var rec := a + b + c + d;
            rec[..4] == a && rec[4..8] == b && rec[8..16] == c && rec[16..] == d
  {
  }

  /** What the writer packs, the reader unpacks. */
  lemma {:induction false} RecordRoundTrip(codec: Codec, plain: Bytes)
    requires Good(codec) && |plain| <= CHUNK
    ensures IsRecord(Record(codec, plain)) && Decode(codec, Record(codec, plain)) == Some(plain)
  {
    hide Record;
    RecordFields(codec, plain);
  }

  /** Compressed bytes are sent exactly when compression is on and saves at least 15%. */
  lemma {:induction false} PayloadSaves(codec: Codec, plain: Bytes)
    ensures var payload, packed := Payload(codec, plain), codec.compress(plain);
            && (payload != plain ==> packed == Some(payload) && 100 * |payload| < 85 * |plain|)
            && (!codec.off && packed.Some? && 100 * |packed.value| < 85 * |plain| ==> payload == packed.value)
  {
  }

  /** A record whose payload does not have the checksum of its header is rejected, and so is one that
      announces more than 64 MB. */
  lemma {:induction false} BadRecordRejected(codec: Codec, rec: Bytes)
    requires IsRecord(rec)
    ensures codec.crc(rec[16..]) != FromLittleEndian(rec[8..16]) ==> Decode(codec, rec) == None
    ensures FromLittleEndian(rec[..4]) > MAX_WIRE || PayloadSize(rec) > MAX_WIRE ==> Decode(codec, rec) == None
    ensures Decode(codec, rec).Some? && !codec.off ==> |Decode(codec, rec).value| == FromLittleEndian(rec[..4])
  {
  }

  /** Damage to the payload of a sent record is noticed whenever it changes the checksum. */
  lemma {:induction false} DamagedPayloadRejected(codec: Codec, plain: Bytes, rec: Bytes)
    requires Good(codec) && |plain| <= CHUNK && |rec| == |Record(codec, plain)|
    requires rec[..16] == Record(codec, plain)[..16] && codec.crc(rec[16..]) != codec.crc(Payload(codec, plain))
    ensures IsRecord(rec) && Decode(codec, rec) == None
  {
    RecordFields(codec, plain);
    var sent := Record(codec, plain);
    assert rec[4..8] == rec[..16][4..8] == sent[..16][4..8] == sent[4..8];
    assert rec[8..16] == rec[..16][8..16] == sent[..16][8..16] == sent[8..16];
  }

  // ---------------------------------------------------------------------------
  // Sequences of records
  // ---------------------------------------------------------------------------

  lemma {:induction false} ConcatAppend(a: seq<Bytes>, b: seq<Bytes>)
    ensures Concat(a + b) == Concat(a) + Concat(b)
    decreases |a|
  {
    if a == [] {
      assert a + b == b;
    } else {
      assert (a + b)[1..] == a[1..] + b;
      ConcatAppend(a[1..], b);
    }
  }

  ghost function Records(codec: Codec, blocks: seq<Bytes>): (rs: seq<Bytes>)
    ensures |rs| == |blocks| && forall i :: 0 <= i < |rs| ==> rs[i] == Record(codec, blocks[i])
  {
    seq(|blocks|, i requires 0 <= i < |blocks| => Record(codec, blocks[i]))
  }

  /** The writer's block bytes on the wire. */
  ghost function Wire(codec: Codec, blocks: seq<Bytes>): Bytes {
    Concat(Records(codec, blocks))
  }

  ghost predicate AllRecords(rs: seq<Bytes>) {
    forall i :: 0 <= i < |rs| ==> IsRecord(rs[i])
  }

  /** A byte string is cut into records in one way only: two record sequences with nested
      concatenations are nested themselves, and the rest of the shorter one is a partial record. */
  lemma {:induction false} CutIsUnique(rs: seq<Bytes>, left: Bytes, all: seq<Bytes>)
    requires AllRecords(rs) && AllRecords(all) && Concat(rs) + left <= Concat(all)
    ensures rs <= all
    decreases |rs|
  {
    if rs != [] {
      var r, tail := rs[0], Concat(rs[1..]) + left;
      assert Concat(rs) + left == r + tail;
      assert |Concat(rs)| >= 16;
      assert all != [];
      var a := all[0];
      assert Concat(all) == a + Concat(all[1..]);
      SameHead(r, tail, a, Concat(all[1..]));
      assert tail <= Concat(all[1..]) by {
        assert (a + Concat(all[1..]))[|a|..] == Concat(all[1..]);
        assert (r + tail)[|r|..] == tail;
      }
      CutIsUnique(rs[1..], left, all[1..]);
      assert rs == [r] + rs[1..] && all == [a] + all[1..];
    }
  }

  lemma {:induction false} SameHead(r: Bytes, tail: Bytes, a: Bytes, rest: Bytes)
    requires IsRecord(r) && IsRecord(a) && r + tail <= a + rest
    ensures r == a
  {
    assert r[4..8] == (r + tail)[4..8] == (a + rest)[4..8] == a[4..8];
    assert |r| == |a|;
    assert r == (r + tail)[..|r|] == (a + rest)[..|r|] == a;
  }

  /** If records of the same total length start the same bytes, nothing is missing. */
  lemma {:induction false} SameLengthIsAll(rs: seq<Bytes>, all: seq<Bytes>)
    requires AllRecords(all) && rs <= all && |Concat(rs)| == |Concat(all)|
    ensures rs == all
  {
    var rest := all[|rs|..];
    assert all == rs + rest;
    ConcatAppend(rs, rest);
    NonEmptyConcat(rest);
  }

  lemma {:induction false} NonEmptyConcat(rs: seq<Bytes>)
    requires AllRecords(rs)
    ensures rs != [] ==> |Concat(rs)| >= 16
  {
  }

  ghost function Decoded(codec: Codec, rs: seq<Bytes>): Option<Bytes>
    requires AllRecords(rs)
  {
    if rs == [] then Some([])
    else
      var head, tail := Decode(codec, rs[0]), Decoded(codec, rs[1..]);
      if head.Some? && tail.Some? then Some(head.value + tail.value) else None
  }

  lemma {:induction false} NothingDecoded(codec: Codec)
    ensures Decoded(codec, []) == Some([])
  {
  }

  ghost predicate HonestBlocks(blocks: seq<Bytes>) {
    forall i :: 0 <= i < |blocks| ==> 0 < |blocks[i]| <= CHUNK
  }

  lemma {:induction false} DecodedWire(codec: Codec, blocks: seq<Bytes>)
    requires Good(codec) && HonestBlocks(blocks)
    ensures AllRecords(Records(codec, blocks))
    ensures Decoded(codec, Records(codec, blocks)) == Some(Concat(blocks))
    decreases |blocks|
  {
    hide Decode, IsRecord, Record, Good;
    forall i | 0 <= i < |blocks| ensures IsRecord(Record(codec, blocks[i])) {
      RecordRoundTrip(codec, blocks[i]);
    }
    if blocks != [] {
      RecordRoundTrip(codec, blocks[0]);
      DecodedWire(codec, blocks[1..]);
      assert Records(codec, blocks)[1..] == Records(codec, blocks[1..]);
    }
  }

  // ---------------------------------------------------------------------------
  // The network thread
  // ---------------------------------------------------------------------------

  /** Receive state shared by the network thread and the reader. acc is the record being put
      together; blocks and qBytes are the queue. */
  datatype Rx = Rx(acc: Bytes, blocks: seq<Bytes>, qBytes: nat, consumed: nat,
                   failed: bool, abandoned: bool, endSeen: bool, end: Totals)

  /** What END announces and the reader counts: plain bytes, blocks, record bytes. */
  datatype Totals = Totals(plain: nat, chunks: nat, consumed: nat)

  /** The queue holds whole records and knows their size; acc is at most one record. */
  ghost predicate ValidRx(rx: Rx, limit: nat) {
    && AllRecords(rx.blocks) && rx.qBytes == |Concat(rx.blocks)| && rx.qBytes <= limit
    && (IsPartial(rx.acc) || IsRecord(rx.acc))
  }

  /** How many of the waiting bytes belong to the record under construction. */
  function Take(acc: Bytes, data: Bytes): (n: nat)
    requires IsPartial(acc)
    ensures n <= |data|
  {
    if |acc| >= 16 then Min(|data|, 16 + PayloadSize(acc) - |acc|)
    else
      var t := Min(|data|, 16 - |acc|);
      var hdr := acc + data[..t];
      if |hdr| < 16 then t else t + Min(|data| - t, PayloadSize(hdr))
  }

  lemma {:induction false} SameHeader(acc: Bytes, more: Bytes)
    requires |acc| >= 16
    ensures PayloadSize(acc + more) == PayloadSize(acc)
  {
    assert (acc + more)[4..8] == acc[4..8];
  }

  /** Taking stops exactly at the end of the record, or with the data. */
  lemma {:induction false} TakeFits(acc: Bytes, data: Bytes)
    requires IsPartial(acc)
    ensures var n := Take(acc, data);
            && (IsPartial(acc + data[..n]) || IsRecord(acc + data[..n]))
            && (IsPartial(acc + data[..n]) ==> n == |data|)
            && (data != [] ==> n > 0)
  {
    hide FromLittleEndian;
    var t := if |acc| < 16 then Min(|data|, 16 - |acc|) else 0;
    var hdr, n := acc + data[..t], Take(acc, data);
    if |hdr| >= 16 {
      if |acc| >= 16 {
        assert hdr == acc;
      }
      assert acc + data[..n] == hdr + data[t..n];
      SameHeader(hdr, data[t..n]);
    }
  }

  datatype Fed = Done | Blocked | Failed

  predicate Room(rx: Rx, limit: nat) {
    rx.failed || rx.abandoned || rx.qBytes + |rx.acc| <= limit
  }

  /** A finished record goes to the queue, or nowhere once the reader is gone. */
  function Deposit(rx: Rx): Rx {
    if rx.abandoned then rx.(acc := [])
    else rx.(acc := [], blocks := rx.blocks + [rx.acc], qBytes := rx.qBytes + |rx.acc|)
  }

  /** Feeding the bytes of one data frame: fill the record, queue it when there is room, go on.
      The rest is what a full queue or a failure left over. */
  function Feed(rx: Rx, data: Bytes, limit: nat, stopping: bool): (r: (Rx, Bytes, Fed))
    requires IsPartial(rx.acc) || IsRecord(rx.acc)
    decreases |data|, if IsRecord(rx.acc) then 1 else 0
  {
    if IsRecord(rx.acc) then
      if !Room(rx, limit) then (rx, data, if stopping then Failed else Blocked)
      else if rx.failed then (rx, data, Failed)
      else Feed(Deposit(rx), data, limit, stopping)
    else if data == [] then (rx, [], Done)
    else
      var n := Take(rx.acc, data);
      TakeFits(rx.acc, data);
      Feed(rx.(acc := rx.acc + data[..n]), data[n..], limit, stopping)
  }

  /** All bytes the receiver still holds, in order. */
  ghost function Held(rx: Rx): Bytes {
    Concat(rx.blocks) + rx.acc
  }

  lemma {:induction false} DepositKeeps(rx: Rx, limit: nat)
    requires ValidRx(rx, limit) && IsRecord(rx.acc) && Room(rx, limit) && !rx.failed
    ensures ValidRx(Deposit(rx), limit)
    ensures !rx.abandoned ==> Held(Deposit(rx)) == Held(rx)
  {
    hide IsRecord;
    ConcatAppend(rx.blocks, [rx.acc]);
    assert Concat([rx.acc]) == rx.acc by {
      assert [rx.acc][1..] == [];
      assert rx.acc + [] == rx.acc;
    }
    var rx' := Deposit(rx);
    assert Concat(rx.blocks) + rx.acc + [] == Concat(rx.blocks) + rx.acc;
    assert IsPartial([]);
  }

  /** Nothing is lost or reordered: held bytes plus fed bytes become held bytes plus the rest.
      The queue stays within its limit, and only a finished record waits for room. */
  lemma {:induction false} FeedConserves(rx: Rx, data: Bytes, limit: nat, stopping: bool)
    requires ValidRx(rx, limit)
    ensures var (rx', rest, fed) := Feed(rx, data, limit, stopping);
            && ValidRx(rx', limit)
            && rx' == rx.(acc := rx'.acc, blocks := rx'.blocks, qBytes := rx'.qBytes)
            && rx.blocks <= rx'.blocks
            && (!rx.abandoned ==> Held(rx') + rest == Held(rx) + data)
            && (fed.Done? ==> rest == [] && IsPartial(rx'.acc))
            && (fed.Blocked? ==> IsRecord(rx'.acc) && !Room(rx', limit))
    decreases |data|, if IsRecord(rx.acc) then 1 else 0
  {
    hide Take, IsRecord, IsPartial;
    if IsRecord(rx.acc) {
      if Room(rx, limit) && !rx.failed {
        DepositKeeps(rx, limit);
        PartialOrRecord([]);
        FeedConserves(Deposit(rx), data, limit, stopping);
      }
    } else if data != [] {
      var n := Take(rx.acc, data);
      TakeFits(rx.acc, data);
      PartialOrRecord(rx.acc + data[..n]);
      var rx1 := rx.(acc := rx.acc + data[..n]);
      FeedConserves(rx1, data[n..], limit, stopping);
      assert Held(rx1) + data[n..] == Held(rx) + data by {
        assert data == data[..n] + data[n..];
        assert Concat(rx.blocks) + (rx.acc + data[..n]) + data[n..] == Concat(rx.blocks) + rx.acc + data;
      }
    } else {
      assert Held(rx) + [] == Held(rx);
    }
  }

  lemma {:induction false} PartialOrRecord(b: Bytes)
    ensures !(IsPartial(b) && IsRecord(b))
    ensures b == [] ==> IsPartial(b)
  {
  }

  /** Frame after frame, until one has to wait or fails; the rest is everything not fed. */
  ghost function FeedAll(rx: Rx, frames: seq<Bytes>, limit: nat): (Rx, Bytes, Fed)
    requires IsPartial(rx.acc) || IsRecord(rx.acc)
    decreases |frames|
  {
    if frames == [] then (rx, [], Done)
    else
      var (rx1, rest, fed) := Feed(rx, frames[0], limit, false);
      if fed.Done? && (IsPartial(rx1.acc) || IsRecord(rx1.acc)) then FeedAll(rx1, frames[1..], limit)
      else (rx1, rest + Concat(frames[1..]), fed)
  }

  lemma {:induction false} FeedAllConserves(rx: Rx, frames: seq<Bytes>, limit: nat)
    requires ValidRx(rx, limit) && IsPartial(rx.acc) && !rx.failed && !rx.abandoned
    ensures var (rx', rest, fed) := FeedAll(rx, frames, limit);
            && ValidRx(rx', limit)
            && rx' == rx.(acc := rx'.acc, blocks := rx'.blocks, qBytes := rx'.qBytes)
            && Held(rx') + rest == Held(rx) + Concat(frames)
            && (fed.Done? ==> rest == [] && IsPartial(rx'.acc))
            && (fed.Blocked? ==> IsRecord(rx'.acc) && !Room(rx', limit))
            && !fed.Failed?
    decreases |frames|
  {
    hide Feed, IsRecord, IsPartial, Held;
    if frames == [] {
      assert Held(rx) + [] == Held(rx);
    } else {
      FeedConserves(rx, frames[0], limit, false);
      FeedNeverFails(rx, frames[0], limit);
      var (rx1, rest, fed) := Feed(rx, frames[0], limit, false);
      var more := Concat(frames[1..]);
      assert Held(rx) + Concat(frames) == Held(rx) + frames[0] + more;
      if fed.Done? {
        assert Held(rx1) + [] == Held(rx1);
        FeedAllConserves(rx1, frames[1..], limit);
      } else {
        assert Held(rx1) + (rest + more) == Held(rx1) + rest + more;
      }
    }
  }

  lemma {:induction false} FeedNeverFails(rx: Rx, data: Bytes, limit: nat)
    requires (IsPartial(rx.acc) || IsRecord(rx.acc)) && !rx.failed
    ensures !Feed(rx, data, limit, false).2.Failed?
    decreases |data|, if IsRecord(rx.acc) then 1 else 0
  {
    hide Take, IsRecord, IsPartial;
    PartialOrRecord([]);
    if IsRecord(rx.acc) {
      if Room(rx, limit) {
        FeedNeverFails(Deposit(rx), data, limit);
      }
    } else if data != [] {
      var n := Take(rx.acc, data);
      TakeFits(rx.acc, data);
      PartialOrRecord(rx.acc + data[..n]);
      FeedNeverFails(rx.(acc := rx.acc + data[..n]), data[n..], limit);
    }
  }

  lemma {:induction false} ConcatOne(r: Bytes)
    ensures Concat([r]) == r
  {
  }

  /** The queue and the finished record that waits behind it. */
  ghost function Parsed(rx: Rx): seq<Bytes> {
    if IsRecord(rx.acc) then rx.blocks + [rx.acc] else rx.blocks
  }

  ghost function Unparsed(rx: Rx): Bytes {
    if IsRecord(rx.acc) then [] else rx.acc
  }

  lemma {:induction false} ParsedHolds(rx: Rx, limit: nat)
    requires ValidRx(rx, limit)
    ensures AllRecords(Parsed(rx)) && Held(rx) == Concat(Parsed(rx)) + Unparsed(rx)
    ensures |Concat(Parsed(rx))| == rx.qBytes + if IsRecord(rx.acc) then |rx.acc| else 0
  {
    hide IsRecord;
    if IsRecord(rx.acc) {
      ConcatAppend(rx.blocks, [rx.acc]);
      ConcatOne(rx.acc);
      assert Concat(rx.blocks) + rx.acc + [] == Concat(rx.blocks) + rx.acc;
    }
  }

  /** A partial record does not start with a record. */
  lemma {:induction false} RecordsAreNotPartial(rs: seq<Bytes>, more: Bytes)
    requires AllRecords(rs)
    ensures rs != [] ==> !IsPartial(Concat(rs) + more)
  {
    if rs != [] {
      var r, b := rs[0], Concat(rs) + more;
      assert b == r + (Concat(rs[1..]) + more);
      SameHeader(r, Concat(rs[1..]) + more);
    }
  }

  lemma {:induction false} SameTails(r: Bytes, tail: Bytes, a: Bytes, rest: Bytes)
    requires IsRecord(r) && IsRecord(a) && r + tail == a + rest
    ensures r == a && tail == rest
  {
    SameHead(r, tail, a, rest);
    assert tail == (r + tail)[|r|..];
    assert rest == (a + rest)[|a|..];
  }

  lemma {:induction false} ConcatHead(rs: seq<Bytes>, left: Bytes)
    requires rs != []
    ensures Concat(rs) + left == rs[0] + (Concat(rs[1..]) + left)
    ensures AllRecords(rs) ==> IsRecord(rs[0]) && AllRecords(rs[1..])
    ensures rs == [rs[0]] + rs[1..]
  {
  }

  /** Of two ways to cut the same bytes into records, one goes further along the other. */
  lemma {:induction false} NestedParse(rs: seq<Bytes>, left: Bytes, all: seq<Bytes>, rest: Bytes)
    requires AllRecords(rs) && AllRecords(all) && Concat(rs) + left == Concat(all) + rest
    ensures rs <= all || all <= rs
    decreases |rs|
  {
    hide *;
    if rs != [] && all != [] {
      ConcatHead(rs, left);
      ConcatHead(all, rest);
      SameTails(rs[0], Concat(rs[1..]) + left, all[0], Concat(all[1..]) + rest);
      NestedParse(rs[1..], left, all[1..], rest);
    }
  }

  /** A feed that waits for room has queued no less than another that got further. */
  lemma {:induction false} NoFurtherThanFull(x: Rx, y: Rx, limit: nat)
    requires ValidRx(x, limit) && ValidRx(y, limit) && IsRecord(x.acc) && !Room(x, limit)
    ensures !(Parsed(x) <= y.blocks)
  {
    ParsedHolds(x, limit);
    var px := Parsed(x);
    if px <= y.blocks {
      var extra := y.blocks[|px|..];
      assert y.blocks == px + extra;
      ConcatAppend(px, extra);
      assert false;
    }
  }

  /** A feed that ran out of bytes has queued no less than another. */
  lemma {:induction false} NoFurtherThanDone(x: Rx, y: Rx, restY: Bytes, limit: nat)
    requires ValidRx(x, limit) && ValidRx(y, limit) && IsPartial(x.acc) && Held(x) == Held(y) + restY
    ensures !(Parsed(x) < Parsed(y))
  {
    ParsedHolds(y, limit);
    ParsedHolds(x, limit);
    PartialOrRecord(x.acc);
    assert Parsed(x) == x.blocks && Unparsed(x) == x.acc;
    hide IsRecord, IsPartial, ValidRx, Held, Parsed, Unparsed, Concat;
    var px, py := Parsed(x), Parsed(y);
    if px < py {
      var more, tail := py[|px|..], Unparsed(y) + restY;
      assert py == px + more && more != [];
      assert AllRecords(more);
      ConcatAppend(px, more);
      RecordsAreNotPartial(more, tail);
      assert Concat(px) + x.acc == Concat(px) + (Concat(more) + tail) by {
        FourParts(Concat(px), Concat(more), Unparsed(y), restY);
      }
      SameRest(Concat(px), x.acc, Concat(more) + tail);
      assert false;
    }
  }

  lemma {:induction false} FourParts(a: Bytes, b: Bytes, c: Bytes, d: Bytes)
    ensures a + b + c + d == a + (b + (c + d))
  {
  }

  lemma {:induction false} SameRest(a: Bytes, b: Bytes, c: Bytes)
    requires a + b == a + c
    ensures b == c
  {
    assert b == (a + b)[|a|..] && c == (a + c)[|a|..];
  }

  /** Every byte is queued or waits for room, and nothing more can be queued. */
  ghost predicate Settled(rx: Rx, rest: Bytes, limit: nat) {
    && ValidRx(rx, limit) && !rx.failed && !rx.abandoned
    && (IsRecord(rx.acc) ==> !Room(rx, limit))
    && (IsPartial(rx.acc) ==> rest == [])
  }

  lemma {:induction false} NoFurther(x: Rx, restX: Bytes, y: Rx, restY: Bytes, limit: nat)
    requires Settled(x, restX, limit) && Settled(y, restY, limit) && Held(x) + restX == Held(y) + restY
    ensures !(Parsed(x) < Parsed(y))
    ensures Parsed(x) == Parsed(y) ==> (IsRecord(x.acc) ==> IsRecord(y.acc))
  {
    hide Held, IsRecord, IsPartial, Room;
    if IsRecord(x.acc) {
      NoFurtherThanFull(x, y, limit);
    } else {
      assert Held(x) + [] == Held(x);
      NoFurtherThanDone(x, y, restY, limit);
    }
  }

  /** Any two fragmentations of the same bytes leave the same queue, the same record under
      construction and the same bytes unfed. */
  lemma {:induction false} FragmentationDoesNotMatter(rx: Rx, xs: seq<Bytes>, ys: seq<Bytes>, limit: nat)
    requires ValidRx(rx, limit) && IsPartial(rx.acc) && !rx.failed && !rx.abandoned
    requires Concat(xs) == Concat(ys)
    ensures FeedAll(rx, xs, limit) == FeedAll(rx, ys, limit)
  {
    hide FeedAll, Held, IsPartial, IsRecord, Room, Concat;
    FeedAllConserves(rx, xs, limit);
    FeedAllConserves(rx, ys, limit);
    var (x, restX, fx) := FeedAll(rx, xs, limit);
    var (y, restY, fy) := FeedAll(rx, ys, limit);
    PartialOrRecord(x.acc);
    PartialOrRecord(y.acc);
    SameOutcome(x, restX, y, restY, limit);
    assert fx == fy;
  }

  lemma {:induction false} SameOutcome(x: Rx, restX: Bytes, y: Rx, restY: Bytes, limit: nat)
    requires Settled(x, restX, limit) && Settled(y, restY, limit) && Held(x) + restX == Held(y) + restY
    ensures x.acc == y.acc && x.blocks == y.blocks && x.qBytes == y.qBytes && restX == restY
  {
    ParsedHolds(x, limit);
    ParsedHolds(y, limit);
    NoFurther(x, restX, y, restY, limit);
    NoFurther(y, restY, x, restX, limit);
    hide IsRecord, IsPartial, Held, Concat, Room, AllRecords;
    var px, py, ux, uy := Parsed(x), Parsed(y), Unparsed(x) + restX, Unparsed(y) + restY;
    Associates(Concat(px), Unparsed(x), restX);
    Associates(Concat(py), Unparsed(y), restY);
    NestedParse(px, ux, py, uy);
    assert px == py;
    SameRest(Concat(px), ux, uy);
    if IsRecord(x.acc) {
      assert x.blocks == px[..|px| - 1] == y.blocks;
      assert x.acc == px[|px| - 1] == y.acc;
      assert [] + restX == restX && [] + restY == restY;
    } else {
      assert x.acc + [] == x.acc && y.acc + [] == y.acc;
    }
  }

  // ---------------------------------------------------------------------------
  // The reader
  // ---------------------------------------------------------------------------

  /** The reader's cursor: the current block and position (a compressed record while it is
      being pulled, the plaintext afterwards), its totals, and its end states. */
  datatype Rd = Rd(cur: Bytes, pos: nat, plain: nat, chunks: nat, eof: bool, broken: bool, drained: bool)

  ghost predicate ValidRd(rd: Rd) { rd.pos <= |rd.cur| }

  /** The wait of the pull has ended. */
  predicate Ready(rx: Rx) {
    rx.blocks != [] || rx.endSeen || rx.failed || rx.abandoned
  }

  predicate Reconciles(rx: Rx, rd: Rd) {
    rx.endSeen && Totals(rd.plain, rd.chunks, rx.consumed) == rx.end
  }

  /** Where the cursor stops when a record is rejected: after the header if its sizes are absurd. */
  function RejectAt(rec: Bytes): nat
    requires IsRecord(rec)
  {
    if FromLittleEndian(rec[..4]) > MAX_WIRE || PayloadSize(rec) > MAX_WIRE then 16 else |rec|
  }

  /** The next plaintext block: pop one record and unpack it; at the end, reconcile. */
  function Advance(codec: Codec, rx: Rx, rd: Rd): (Rx, Rd, bool)
    requires AllRecords(rx.blocks) && rx.qBytes >= if rx.blocks == [] then 0 else |rx.blocks[0]|
  {
    if rd.eof || rd.broken then (rx, rd, false)
    else if rd.drained || rx.blocks == [] then
      var rd1 := rd.(drained := true);
      if Reconciles(rx, rd) then (rx, rd1.(eof := true), false)
      else (rx.(failed := true), rd1, false)
    else
      var rec := rx.blocks[0];
      var rx1 := rx.(blocks := rx.blocks[1..], qBytes := rx.qBytes - |rec|, consumed := rx.consumed + |rec|);
      match Decode(codec, rec)
      case None => (rx1.(failed := true), rd.(cur := rec, pos := RejectAt(rec), broken := true), false)
      case Some(p) => (rx1, rd.(cur := p, pos := 0, plain := rd.plain + |p|, chunks := rd.chunks + 1), true)
  }

  // ---------------------------------------------------------------------------
  // Runs of the network thread and the reader
  // ---------------------------------------------------------------------------

  /** Both threads and what the application has got. pending is the rest of the data frame the
      network thread is feeding; open tells whether it still routes frames to this stream; out
      is what the read call in progress has copied. popped and received are bookkeeping. */
  datatype Sys = Sys(rx: Rx, rd: Rd, open: bool, pending: Bytes, out: Bytes, delivered: Bytes,
                     popped: seq<Bytes>, received: Bytes)

  datatype Event =
    | Arrive(raw: Bytes)      // a data frame
    | Net                     // the network thread feeds until it must wait
    | ArriveEnd(end: Totals)  // the END frame
    | Lose                    // disconnect, or a protocol error on the connection
    | Pull                    // the reader fetches its next block
    | Copy(n: nat)            // the reader copies from the current block
    | Return                  // the read call returns, or throws
    | Abandon                 // the reader is destroyed

  ghost predicate Enabled(limit: nat, s: Sys, e: Event) {
    match e
    case Arrive(raw) => s.open && s.pending == [] && IsPartial(s.rx.acc) && raw != []
    case Net => s.open && (s.pending != [] || IsRecord(s.rx.acc)) && (IsRecord(s.rx.acc) ==> Room(s.rx, limit))
    case ArriveEnd(_) => s.open && s.pending == [] && IsPartial(s.rx.acc)
    case Lose => s.open
    case Pull => !s.rx.abandoned && s.rd.pos >= |s.rd.cur| && (s.rd.eof || s.rd.broken || s.rd.drained || Ready(s.rx))
    case Copy(n) => !s.rx.abandoned && 0 < n <= |s.rd.cur| - s.rd.pos
    case Return => !s.rx.abandoned
    case Abandon => !s.rx.abandoned
  }

  /** The next block comes off the queue. */
  ghost predicate Pops(s: Sys) {
    !s.rd.eof && !s.rd.broken && !s.rd.drained && s.rx.blocks != []
  }

  ghost function Step(codec: Codec, limit: nat, s: Sys, e: Event): Sys
    requires Enabled(limit, s, e) && ValidRx(s.rx, limit)
  {
    match e
    case Arrive(raw) => s.(pending := raw, received := s.received + raw)
    case Net =>
      var (rx, rest, fed) := Feed(s.rx, s.pending, limit, false);
      s.(rx := rx, pending := rest, open := !fed.Failed?)
    case ArriveEnd(end) => s.(rx := s.rx.(endSeen := true, end := end), open := false)
    case Lose => s.(rx := s.rx.(failed := true), open := false)
    case Pull =>
      FirstInQueue(s.rx);
      var (rx, rd, ok) := Advance(codec, s.rx, s.rd);
      s.(rx := rx, rd := rd, popped := if Pops(s) then s.popped + [s.rx.blocks[0]] else s.popped)
    case Copy(n) =>
      s.(rd := s.rd.(pos := s.rd.pos + n), out := s.out + s.rd.cur[s.rd.pos..s.rd.pos + n])
    case Return =>
      if s.rx.failed && !s.rd.eof then s.(out := [])
      else s.(out := [], delivered := s.delivered + s.out)
    case Abandon => s.(rx := s.rx.(abandoned := true))
  }

  lemma {:induction false} FirstInQueue(rx: Rx)
    requires rx.qBytes == |Concat(rx.blocks)|
    ensures rx.qBytes >= if rx.blocks == [] then 0 else |rx.blocks[0]|
  {
  }

  ghost function Begin(): Sys {
    Sys(Rx([], [], 0, 0, false, false, false, Totals(0, 0, 0)), Rd([], 0, 0, 0, false, false, false),
        true, [], [], [], [], [])
  }

  // ---------------------------------------------------------------------------
  // Bytes are conserved, whatever arrives
  // ---------------------------------------------------------------------------

  ghost predicate Conserved(limit: nat, s: Sys) {
    && ValidRd(s.rd) && AllRecords(s.popped)
    && s.rx.consumed == |Concat(s.popped)|
    && (!s.rx.abandoned ==> s.received == Concat(s.popped) + (Held(s.rx) + s.pending))
  }

  lemma {:induction false} NetConserves(codec: Codec, limit: nat, s: Sys)
    requires ValidRx(s.rx, limit) && Conserved(limit, s) && Enabled(limit, s, Net)
    ensures ValidRx(Step(codec, limit, s, Net).rx, limit) && Conserved(limit, Step(codec, limit, s, Net))
  {
    hide Feed, IsRecord, IsPartial, Held, Room;
    FeedConserves(s.rx, s.pending, limit, false);
  }

  lemma {:induction false} PopConserves(codec: Codec, limit: nat, s: Sys)
    requires ValidRx(s.rx, limit) && Conserved(limit, s) && Enabled(limit, s, Pull) && Pops(s)
    ensures ValidRx(Step(codec, limit, s, Pull).rx, limit) && Conserved(limit, Step(codec, limit, s, Pull))
  {
    var rec, rest := s.rx.blocks[0], s.rx.blocks[1..];
    PopEffect(codec, limit, s);
    assert AllRecords(rest) && AllRecords(s.popped + [rec]) by { hide IsRecord, Step; }
    hide Step, Decode, IsPartial, IsRecord, AllRecords, Concat, Pops, Enabled;
    ConcatAppend(s.popped, [rec]);
    ConcatOne(rec);
    ConcatHead(s.rx.blocks, []);
    assert Concat(s.rx.blocks) == rec + Concat(rest) by {
      assert Concat(s.rx.blocks) + [] == Concat(s.rx.blocks) && Concat(rest) + [] == Concat(rest);
    }
    Regroup(Concat(s.popped), rec, Concat(rest), s.rx.acc, s.pending);
  }

  lemma {:induction false} PopEffect(codec: Codec, limit: nat, s: Sys)
    requires ValidRx(s.rx, limit) && ValidRd(s.rd) && Enabled(limit, s, Pull) && Pops(s)
    ensures var s', rec := Step(codec, limit, s, Pull), s.rx.blocks[0];
            && s'.rx == s.rx.(blocks := s.rx.blocks[1..], qBytes := s'.rx.qBytes,
                              consumed := s.rx.consumed + |rec|, failed := s'.rx.failed)
            && s'.rx.qBytes == s.rx.qBytes - |rec| && ValidRd(s'.rd)
            && s'.popped == s.popped + [rec] && s'.received == s.received && s'.pending == s.pending
  {
  }

  lemma {:induction false} Regroup(a: Bytes, b: Bytes, c: Bytes, d: Bytes, e: Bytes)
    ensures a + (b + c + d + e) == (a + b) + (c + d + e)
  {
  }

  /** Until the reader is abandoned, the bytes received are those consumed, those queued, the
      record under construction and the rest of the frame, in this order; the queue's byte count
      is the size of its records and never exceeds the limit. */
  lemma {:induction false} StepConserves(codec: Codec, limit: nat, s: Sys, e: Event)
    requires ValidRx(s.rx, limit) && Conserved(limit, s) && Enabled(limit, s, e)
    ensures ValidRx(Step(codec, limit, s, e).rx, limit) && Conserved(limit, Step(codec, limit, s, e))
  {
    match e
    case Net => NetConserves(codec, limit, s);
    case Arrive(raw) =>
      assert Held(s.rx) + [] == Held(s.rx);
      assert Concat(s.popped) + Held(s.rx) + raw == Concat(s.popped) + (Held(s.rx) + raw);
    case Pull =>
      if Pops(s) {
        PopConserves(codec, limit, s);
      }
    case _ =>
  }

  /** What every state of a run keeps. */
  ghost predicate Sound(limit: nat, s: Sys) { ValidRx(s.rx, limit) && Conserved(limit, s) }

  /** Any sequence of enabled steps, whatever bytes arrive. */
  ghost predicate IsAnyRun(codec: Codec, limit: nat, s: Sys, es: seq<Event>)
    requires Sound(limit, s)
    decreases |es|
  {
    es == [] ||
    (Enabled(limit, s, es[0])
     && (StepConserves(codec, limit, s, es[0]); IsAnyRun(codec, limit, Step(codec, limit, s, es[0]), es[1..])))
  }

  ghost function AfterAny(codec: Codec, limit: nat, s: Sys, es: seq<Event>): Sys
    requires Sound(limit, s) && IsAnyRun(codec, limit, s, es)
    decreases |es|
  {
    if es == [] then s
    else
      StepConserves(codec, limit, s, es[0]);
      AfterAny(codec, limit, Step(codec, limit, s, es[0]), es[1..])
  }

  lemma {:induction false} RunConserves(codec: Codec, limit: nat, s: Sys, es: seq<Event>)
    requires Sound(limit, s) && IsAnyRun(codec, limit, s, es)
    ensures Sound(limit, AfterAny(codec, limit, s, es))
    decreases |es|
  {
    hide ValidRx, Conserved, Enabled, Step;
    if es != [] {
      StepConserves(codec, limit, s, es[0]);
      RunConserves(codec, limit, Step(codec, limit, s, es[0]), es[1..]);
    }
  }

  /** In every run until the reader is abandoned: received bytes are consumed, queued, in the
      record under construction or in the rest of the frame; the queue knows its size and
      respects its limit. */
  lemma {:induction false} NothingIsLost(codec: Codec, limit: nat, es: seq<Event>)
    requires Sound(limit, Begin()) && IsAnyRun(codec, limit, Begin(), es)
    ensures var s := AfterAny(codec, limit, Begin(), es);
            && s.rx.qBytes == |Concat(s.rx.blocks)| && s.rx.qBytes <= limit
            && (!s.rx.abandoned ==>
                  |s.received| == s.rx.consumed + s.rx.qBytes + |s.rx.acc| + |s.pending|)
  {
    RunConserves(codec, limit, Begin(), es);
  }

  /** Whatever came: with the queue used up, the end is clean exactly when END has come and its plain
      bytes, blocks and record bytes are those the reader counted; otherwise the stream fails. */
  lemma {:induction false} EndNeedsTotals(codec: Codec, limit: nat, s: Sys)
    requires ValidRx(s.rx, limit) && Enabled(limit, s, Pull) && !s.rd.eof && !s.rd.broken && s.rx.blocks == []
    ensures var s' := Step(codec, limit, s, Pull);
            && (s'.rd.eof <==> && s.rx.endSeen && s.rx.end.plain == s.rd.plain && s.rx.end.chunks == s.rd.chunks
                               && s.rx.end.consumed == s.rx.consumed)
            && (!s'.rd.eof ==> s'.rx.failed) && s'.delivered == s.delivered
  {
  }

  // ---------------------------------------------------------------------------
  // A bad record ends the stream
  // ---------------------------------------------------------------------------

  ghost predicate Broken(s: Sys) { s.rd.broken && s.rx.failed && !s.rd.eof }

  lemma {:induction false} StepStaysBroken(codec: Codec, limit: nat, s: Sys, e: Event)
    requires Sound(limit, s) && Enabled(limit, s, e) && Broken(s)
    ensures Broken(Step(codec, limit, s, e)) && Step(codec, limit, s, e).delivered == s.delivered
  {
    hide Feed, Decode, IsRecord, IsPartial;
    if e.Net? {
      FeedConserves(s.rx, s.pending, limit, false);
    }
  }

  lemma {:induction false} RunStaysBroken(codec: Codec, limit: nat, s: Sys, es: seq<Event>)
    requires Sound(limit, s) && IsAnyRun(codec, limit, s, es) && Broken(s)
    ensures var s' := AfterAny(codec, limit, s, es); Broken(s') && s'.delivered == s.delivered
    decreases |es|
  {
    hide ValidRx, Conserved, Enabled, Step, Broken;
    if es != [] {
      StepStaysBroken(codec, limit, s, es[0]);
      StepIsSound(codec, limit, s, es[0]);
      RunStaysBroken(codec, limit, Step(codec, limit, s, es[0]), es[1..]);
    }
  }

  /** When the next record is rejected, nothing is delivered any more and no clean end is reported, in
      any run: every read throws. */
  lemma {:induction false} BadRecordEndsStream(codec: Codec, limit: nat, s: Sys, es: seq<Event>)
    requires Sound(limit, s) && Enabled(limit, s, Pull) && Pops(s)
    requires IsRecord(s.rx.blocks[0]) && Decode(codec, s.rx.blocks[0]) == None
    requires Sound(limit, Step(codec, limit, s, Pull)) && IsAnyRun(codec, limit, Step(codec, limit, s, Pull), es)
    ensures var s' := AfterAny(codec, limit, Step(codec, limit, s, Pull), es);
            s'.rx.failed && !s'.rd.eof && s'.delivered == s.delivered
  {
    hide Decode, IsRecord, IsAnyRun, AfterAny;
    var s1 := Step(codec, limit, s, Pull);
    assert Broken(s1) && s1.delivered == s.delivered;
    RunStaysBroken(codec, limit, s1, es);
  }

  // ---------------------------------------------------------------------------
  // A lost connection, an abandoned reader
  // ---------------------------------------------------------------------------

  /** The stream has failed, and no END will come. */
  ghost predicate Lost(s: Sys) { s.rx.failed && !s.rx.endSeen && !s.open && !s.rd.eof }

  lemma {:induction false} StepStaysLost(codec: Codec, limit: nat, s: Sys, e: Event)
    requires Sound(limit, s) && Enabled(limit, s, e) && Lost(s)
    ensures Lost(Step(codec, limit, s, e)) && Step(codec, limit, s, e).delivered == s.delivered
  {
    hide Feed, Decode, IsRecord, IsPartial;
  }

  /** A connection lost before END fails the stream: a reader that waits wakes up, and in every run
      from then on nothing is delivered and no clean end is reported. */
  lemma {:induction false} LossFailsStream(codec: Codec, limit: nat, s: Sys, es: seq<Event>)
    requires Sound(limit, s) && Enabled(limit, s, Lose) && !s.rx.endSeen && !s.rd.eof
    requires Sound(limit, Step(codec, limit, s, Lose)) && IsAnyRun(codec, limit, Step(codec, limit, s, Lose), es)
    ensures Ready(Step(codec, limit, s, Lose).rx)
    ensures var s' := AfterAny(codec, limit, Step(codec, limit, s, Lose), es);
            s'.rx.failed && !s'.rd.eof && s'.delivered == s.delivered
  {
    var s1 := Step(codec, limit, s, Lose);
    assert Lost(s1) && s1.delivered == s.delivered;
    RunStaysLost(codec, limit, s1, es);
  }

  lemma {:induction false} RunStaysLost(codec: Codec, limit: nat, s: Sys, es: seq<Event>)
    requires Sound(limit, s) && IsAnyRun(codec, limit, s, es) && Lost(s)
    ensures var s' := AfterAny(codec, limit, s, es); Lost(s') && s'.delivered == s.delivered
    decreases |es|
  {
    hide ValidRx, Conserved, Enabled, Step, Lost;
    if es != [] {
      StepStaysLost(codec, limit, s, es[0]);
      StepIsSound(codec, limit, s, es[0]);
      RunStaysLost(codec, limit, Step(codec, limit, s, es[0]), es[1..]);
    }
  }

  /** A reader that is gone stops no feed: records are dropped, and the network thread never waits. */
  lemma {:induction false} AbandonedNeverBlocks(codec: Codec, limit: nat, s: Sys, data: Bytes)
    requires Sound(limit, s) && Enabled(limit, s, Abandon)
    ensures var rx := Step(codec, limit, s, Abandon).rx;
            && rx == s.rx.(abandoned := true)
            && Feed(rx, data, limit, false).2 != Blocked && Feed(rx, data, limit, false).0.blocks == rx.blocks
  {
    AbandonedFeed(s.rx.(abandoned := true), data, limit);
  }

  lemma {:induction false} AbandonedFeed(rx: Rx, data: Bytes, limit: nat)
    requires (IsPartial(rx.acc) || IsRecord(rx.acc)) && rx.abandoned
    ensures Feed(rx, data, limit, false).2 != Blocked && Feed(rx, data, limit, false).0.blocks == rx.blocks
    decreases |data|, if IsRecord(rx.acc) then 1 else 0
  {
    hide Take, IsRecord, IsPartial;
    PartialOrRecord([]);
    if IsRecord(rx.acc) {
      if !rx.failed {
        AbandonedFeed(Deposit(rx), data, limit);
      }
    } else if data != [] {
      var n := Take(rx.acc, data);
      TakeFits(rx.acc, data);
      PartialOrRecord(rx.acc + data[..n]);
      AbandonedFeed(rx.(acc := rx.acc + data[..n]), data[n..], limit);
    }
  }

  // ---------------------------------------------------------------------------
  // An honest sender
  // ---------------------------------------------------------------------------

  ghost function TotalsOf(codec: Codec, blocks: seq<Bytes>): Totals {
    Totals(|Concat(blocks)|, |blocks|, |Wire(codec, blocks)|)
  }

  /** Data frames carry the writer's bytes in order, cut anywhere, possibly not all of them; END
      carries the writer's totals. */
  ghost predicate FromWriter(codec: Codec, blocks: seq<Bytes>, s: Sys, e: Event) {
    && (e.Arrive? ==> s.received + e.raw <= Wire(codec, blocks))
    && (e.ArriveEnd? ==> e.end == TotalsOf(codec, blocks))
  }

  ghost predicate IsRun(codec: Codec, limit: nat, blocks: seq<Bytes>, s: Sys, es: seq<Event>)
    requires Sound(limit, s)
    decreases |es|
  {
    es == [] ||
    (Enabled(limit, s, es[0]) && FromWriter(codec, blocks, s, es[0])
     && (StepConserves(codec, limit, s, es[0]); IsRun(codec, limit, blocks, Step(codec, limit, s, es[0]), es[1..])))
  }

  ghost function After(codec: Codec, limit: nat, blocks: seq<Bytes>, s: Sys, es: seq<Event>): Sys
    requires Sound(limit, s) && IsRun(codec, limit, blocks, s, es)
    decreases |es|
  {
    if es == [] then s
    else
      StepConserves(codec, limit, s, es[0]);
      After(codec, limit, blocks, Step(codec, limit, s, es[0]), es[1..])
  }

  lemma {:induction false} AfterIsSound(codec: Codec, limit: nat, blocks: seq<Bytes>, s: Sys, es: seq<Event>)
    requires Sound(limit, s) && IsRun(codec, limit, blocks, s, es)
    ensures Sound(limit, After(codec, limit, blocks, s, es))
    decreases |es|
  {
    hide ValidRx, Conserved, Enabled, Step, FromWriter;
    if es != [] {
      StepConserves(codec, limit, s, es[0]);
      AfterIsSound(codec, limit, blocks, Step(codec, limit, s, es[0]), es[1..]);
    }
  }

  /** How far the reader has got: it has popped the first records, and what it gave and holds is
      their plaintext. */
  ghost predicate Tracks(blocks: seq<Bytes>, s: Sys) {
    && |s.popped| <= |blocks| && ValidRd(s.rd)
    && var plain := Concat(blocks[..|s.popped|]);
    && s.rd.chunks == |s.popped| && s.rd.plain == |plain| && !s.rd.broken
    && s.delivered <= plain
    && (!s.rx.failed ==> plain == s.delivered + s.out + s.rd.cur[s.rd.pos..])
  }

  /** END and failure exclude each other unless the totals can never match. */
  ghost predicate Ending(codec: Codec, blocks: seq<Bytes>, s: Sys) {
    && (s.rx.endSeen ==> !s.open && s.rx.end == TotalsOf(codec, blocks) && s.pending == [] && IsPartial(s.rx.acc))
    && (s.rx.failed ==> (!s.open && !s.rx.endSeen) || (s.rx.endSeen && s.rd.drained && !Reconciles(s.rx, s.rd)))
    && (s.rd.eof ==> Reconciles(s.rx, s.rd) && s.rd.drained && s.rd.pos == |s.rd.cur|)
    && (s.rd.drained ==> s.rd.eof || s.rx.failed || s.rx.abandoned)
  }

  ghost predicate Inv(codec: Codec, limit: nat, blocks: seq<Bytes>, s: Sys) {
    && ValidRx(s.rx, limit) && Conserved(limit, s)
    && s.received <= Wire(codec, blocks)
    && s.popped <= Records(codec, blocks)
    && Tracks(blocks, s)
    && (!s.rx.abandoned ==> Ending(codec, blocks, s))
  }

  /** The records popped and queued are the first records of the writer. */
  lemma {:induction false} QueueIsNext(codec: Codec, limit: nat, blocks: seq<Bytes>, s: Sys)
    requires Good(codec) && HonestBlocks(blocks) && ValidRx(s.rx, limit) && Conserved(limit, s) && !s.rx.abandoned
    requires s.received <= Wire(codec, blocks)
    ensures s.popped + s.rx.blocks <= Records(codec, blocks)
  {
    hide Good, Decode, IsRecord, IsPartial, Record;
    DecodedWire(codec, blocks);
    var rs, left := s.popped + s.rx.blocks, s.rx.acc + s.pending;
    ConcatAppend(s.popped, s.rx.blocks);
    assert Concat(rs) + left == s.received by {
      assert Concat(s.popped) + Concat(s.rx.blocks) + (s.rx.acc + s.pending)
          == Concat(s.popped) + (Concat(s.rx.blocks) + s.rx.acc + s.pending);
    }
    CutIsUnique(rs, left, Records(codec, blocks));
  }

  lemma {:induction false} NextBlock(blocks: seq<Bytes>, k: nat)
    requires k < |blocks|
    ensures Concat(blocks[..k + 1]) == Concat(blocks[..k]) + blocks[k]
  {
    assert blocks[..k + 1] == blocks[..k] + [blocks[k]];
    ConcatAppend(blocks[..k], [blocks[k]]);
    ConcatOne(blocks[k]);
  }

  /** The record at the head of the queue is the writer's next block. */
  lemma {:induction false} HeadIsNext(codec: Codec, limit: nat, blocks: seq<Bytes>, s: Sys)
    requires Good(codec) && HonestBlocks(blocks) && ValidRx(s.rx, limit) && Conserved(limit, s) && !s.rx.abandoned
             && s.rx.blocks != []
    requires s.received <= Wire(codec, blocks)
    ensures var k := |s.popped|;
            && k < |blocks| && s.rx.blocks[0] == Record(codec, blocks[k])
            && s.popped + [s.rx.blocks[0]] <= Records(codec, blocks)
            && IsRecord(s.rx.blocks[0]) && Decode(codec, s.rx.blocks[0]) == Some(blocks[k])
  {
    hide Good, Decode, IsRecord, Record, Conserved, Concat;
    QueueIsNext(codec, limit, blocks, s);
    var k := |s.popped|;
    assert s.rx.blocks[0] == (s.popped + s.rx.blocks)[k] == Record(codec, blocks[k]);
    RecordRoundTrip(codec, blocks[k]);
  }

  /** Popping it makes that block current. */
  lemma {:induction false} PopTracks(codec: Codec, limit: nat, blocks: seq<Bytes>, s: Sys)
    requires Good(codec) && HonestBlocks(blocks) && Inv(codec, limit, blocks, s)
    requires Enabled(limit, s, Pull) && Pops(s)
    ensures var s' := Step(codec, limit, s, Pull);
            Tracks(blocks, s') && s'.popped <= Records(codec, blocks) && Ending(codec, blocks, s')
  {
    hide Good, Decode, IsRecord, Record, HonestBlocks, Concat, Wire, AllRecords, Room, IsPartial;
    var k := |s.popped|;
    HeadIsNext(codec, limit, blocks, s);
    NextBlock(blocks, k);
    assert s.rd.cur[s.rd.pos..] == [];
    assert s.delivered + s.out + [] == s.delivered + s.out;
    assert blocks[k][0..] == blocks[k];
  }

  lemma {:induction false} EndTracks(codec: Codec, limit: nat, blocks: seq<Bytes>, s: Sys)
    requires Inv(codec, limit, blocks, s) && Enabled(limit, s, Pull) && !Pops(s)
    ensures var s' := Step(codec, limit, s, Pull);
            Tracks(blocks, s') && s'.popped == s.popped && Ending(codec, blocks, s')
  {
  }

  lemma {:induction false} CopyTracks(codec: Codec, limit: nat, blocks: seq<Bytes>, s: Sys, n: nat)
    requires Inv(codec, limit, blocks, s) && Enabled(limit, s, Copy(n))
    ensures var s' := Step(codec, limit, s, Copy(n)); Tracks(blocks, s') && Ending(codec, blocks, s')
  {
  }

  lemma {:induction false} ReturnTracks(codec: Codec, limit: nat, blocks: seq<Bytes>, s: Sys)
    requires Inv(codec, limit, blocks, s) && Enabled(limit, s, Return)
    ensures var s' := Step(codec, limit, s, Return); Tracks(blocks, s') && Ending(codec, blocks, s')
  {
  }

  lemma {:induction false} FlagTracks(codec: Codec, limit: nat, blocks: seq<Bytes>, s: Sys, e: Event)
    requires Inv(codec, limit, blocks, s) && Enabled(limit, s, e) && FromWriter(codec, blocks, s, e)
    requires e.Arrive? || e.ArriveEnd? || e.Lose? || e.Abandon?
    ensures var s' := Step(codec, limit, s, e);
            && s'.received <= Wire(codec, blocks) && s'.popped == s.popped
            && Tracks(blocks, s') && (!s'.rx.abandoned ==> Ending(codec, blocks, s'))
  {
  }

  lemma {:induction false} StepKeepsInv(codec: Codec, limit: nat, blocks: seq<Bytes>, s: Sys, e: Event)
    requires Good(codec) && HonestBlocks(blocks) && Inv(codec, limit, blocks, s)
    requires Enabled(limit, s, e) && FromWriter(codec, blocks, s, e)
    ensures Inv(codec, limit, blocks, Step(codec, limit, s, e))
  {
    hide Good, HonestBlocks, Conserved, Feed, Concat, Wire, Tracks, Ending, Room, Decode, IsRecord;
    StepConserves(codec, limit, s, e);
    match e
    case Pull =>
      if Pops(s) {
        PopTracks(codec, limit, blocks, s);
      } else {
        EndTracks(codec, limit, blocks, s);
      }
    case Copy(n) => CopyTracks(codec, limit, blocks, s, n);
    case Return => ReturnTracks(codec, limit, blocks, s);
    case Net => NetFrame(codec, limit, blocks, s);
    case _ => FlagTracks(codec, limit, blocks, s, e);
  }

  lemma {:induction false} NetFrame(codec: Codec, limit: nat, blocks: seq<Bytes>, s: Sys)
    requires Inv(codec, limit, blocks, s) && Enabled(limit, s, Net)
    ensures var s' := Step(codec, limit, s, Net);
            && s'.received == s.received && s'.popped == s.popped && s'.rx.abandoned == s.rx.abandoned
            && Tracks(blocks, s') && (!s.rx.abandoned ==> Ending(codec, blocks, s'))
  {
    hide Feed, Concat, IsRecord, IsPartial;
    FeedConserves(s.rx, s.pending, limit, false);
    if !s.rx.failed {
      FeedNeverFails(s.rx, s.pending, limit);
    }
  }

  lemma {:induction false} RunKeepsInv(codec: Codec, limit: nat, blocks: seq<Bytes>, s: Sys, es: seq<Event>)
    requires Good(codec) && HonestBlocks(blocks) && Inv(codec, limit, blocks, s)
    requires IsRun(codec, limit, blocks, s, es)
    ensures Inv(codec, limit, blocks, After(codec, limit, blocks, s, es))
    decreases |es|
  {
    hide Good, HonestBlocks, Conserved, Tracks, Ending, Enabled, Step, FromWriter, Wire;
    if es != [] {
      StepKeepsInv(codec, limit, blocks, s, es[0]);
      RunKeepsInv(codec, limit, blocks, Step(codec, limit, s, es[0]), es[1..]);
    }
  }

  lemma {:induction false} BeginInv(codec: Codec, limit: nat, blocks: seq<Bytes>)
    ensures Inv(codec, limit, blocks, Begin())
  {
  }

  /** For every cut of the writer's bytes into data frames, every interleaving of the two threads
      and every sequence of reads, the application has got a prefix of the plaintext, and it sees
      a clean end only after all of it. */
  lemma {:induction false} StreamIsFaithful(codec: Codec, limit: nat, blocks: seq<Bytes>, es: seq<Event>)
    requires Good(codec) && HonestBlocks(blocks) && Sound(limit, Begin()) && IsRun(codec, limit, blocks, Begin(), es)
    ensures var s := After(codec, limit, blocks, Begin(), es);
            && s.delivered <= Concat(blocks)
            && (s.rd.eof && !s.rx.abandoned ==> s.delivered + s.out == Concat(blocks))
            && !s.rd.broken
  {
    BeginInv(codec, limit, blocks);
    RunKeepsInv(codec, limit, blocks, Begin(), es);
    var s := After(codec, limit, blocks, Begin(), es);
    PrefixOfPlain(blocks, |s.popped|);
    if s.rd.eof && !s.rx.abandoned {
      EndMeansAll(codec, limit, blocks, s);
    }
  }

  lemma {:induction false} PrefixOfPlain(blocks: seq<Bytes>, k: nat)
    requires k <= |blocks|
    ensures Concat(blocks[..k]) <= Concat(blocks)
  {
    assert blocks == blocks[..k] + blocks[k..];
    ConcatAppend(blocks[..k], blocks[k..]);
  }

  /** Totals that reconcile leave no record out: a truncated stream never ends cleanly. */
  lemma {:induction false} EndMeansAll(codec: Codec, limit: nat, blocks: seq<Bytes>, s: Sys)
    requires Good(codec) && HonestBlocks(blocks) && Inv(codec, limit, blocks, s) && s.rd.eof && !s.rx.abandoned
    ensures s.delivered + s.out == Concat(blocks)
    ensures s.received == Wire(codec, blocks)
  {
    hide Good, HonestBlocks, IsRecord, Record;
    DecodedWire(codec, blocks);
    SameLengthIsAll(s.popped, Records(codec, blocks));
    assert |s.popped| == |blocks| && blocks[..|blocks|] == blocks;
    assert s.rd.cur[s.rd.pos..] == [];
    assert s.delivered + s.out + [] == s.delivered + s.out;
    assert !s.rx.failed;
  }

  /** Records and a partial record that make up all record bytes are all records. */
  lemma {:induction false} AllPopped(rs: seq<Bytes>, acc: Bytes, all: seq<Bytes>)
    requires AllRecords(all) && rs <= all && IsPartial(acc) && Concat(rs) + acc == Concat(all)
    ensures rs == all && acc == []
  {
    hide IsPartial, IsRecord;
    var rest := all[|rs|..];
    assert all == rs + rest;
    ConcatAppend(rs, rest);
    SameRest(Concat(rs), acc, Concat(rest));
    RecordsAreNotPartial(rest, []);
    assert Concat(rest) + [] == Concat(rest);
  }

  /** When END has come and the queue is used up, the reader's next fetch ends the stream cleanly
      exactly when every byte of the writer has arrived; otherwise it fails. */
  lemma {:induction false} EndIsCleanIff(codec: Codec, limit: nat, blocks: seq<Bytes>, s: Sys)
    requires Good(codec) && HonestBlocks(blocks) && Inv(codec, limit, blocks, s) && Enabled(limit, s, Pull)
    requires s.rx.endSeen && s.rx.blocks == [] && !s.rx.failed && !s.rd.eof
    ensures var s' := Step(codec, limit, s, Pull);
            && (s'.rd.eof <==> s.received == Wire(codec, blocks))
            && (s'.rx.failed <==> !s'.rd.eof)
  {
    hide Good, HonestBlocks, IsRecord, IsPartial, Record, Decode, Decoded;
    DecodedWire(codec, blocks);
    assert s.received == Concat(s.popped) + s.rx.acc by {
      assert [] + s.rx.acc + [] == s.rx.acc;
    }
    if s.received == Wire(codec, blocks) {
      AllPopped(s.popped, s.rx.acc, Records(codec, blocks));
      assert blocks[..|blocks|] == blocks;
    }
    if Step(codec, limit, s, Pull).rd.eof {
      SameLengthIsAll(s.popped, Records(codec, blocks));
    }
  }

  /** A feed waits only while the reader has something to take, unless a single record is larger
      than the whole queue may be. */
  lemma {:induction false} FullQueueIsNotEmpty(limit: nat, s: Sys)
    requires ValidRx(s.rx, limit) && Conserved(limit, s) && IsRecord(s.rx.acc) && !s.rx.failed && !s.rx.abandoned
    ensures s.rx.blocks == [] ==> (Room(s.rx, limit) <==> |s.rx.acc| <= limit)
  {
  }

  lemma {:induction false} WaitingMeansQueued(codec: Codec, limit: nat, blocks: seq<Bytes>, s: Sys)
    requires Good(codec) && HonestBlocks(blocks) && Inv(codec, limit, blocks, s) && 16 + CHUNK <= limit
    requires IsRecord(s.rx.acc) && !Room(s.rx, limit)
    ensures s.rx.blocks != [] && (s.rd.pos == |s.rd.cur| ==> Enabled(limit, s, Pull))
  {
    hide Good, HonestBlocks, Conserved, Tracks, Ending, Wire, IsRecord, IsPartial, AllRecords;
    NextRecordFits(codec, limit, blocks, s);
    FullQueueIsNotEmpty(limit, s);
  }

  /** With room for one block, a feed waits only while the reader has a record to take. */
  lemma {:induction false} BackpressureEnds(codec: Codec, limit: nat, blocks: seq<Bytes>, es: seq<Event>)
    requires Sound(limit, Begin()) && IsRun(codec, limit, blocks, Begin(), es)
    requires Good(codec) && HonestBlocks(blocks) && 16 + CHUNK <= limit
    ensures var s := After(codec, limit, blocks, Begin(), es);
            IsRecord(s.rx.acc) && !Room(s.rx, limit) ==>
              s.rx.blocks != [] && (s.rd.pos == |s.rd.cur| ==> Enabled(limit, s, Pull))
  {
    hide *;
    BeginInv(codec, limit, blocks);
    RunKeepsInv(codec, limit, blocks, Begin(), es);
    var s := After(codec, limit, blocks, Begin(), es);
    if IsRecord(s.rx.acc) && !Room(s.rx, limit) {
      WaitingMeansQueued(codec, limit, blocks, s);
    }
  }

  lemma {:induction false} NextRecordFits(codec: Codec, limit: nat, blocks: seq<Bytes>, s: Sys)
    requires Good(codec) && HonestBlocks(blocks) && Inv(codec, limit, blocks, s) && !s.rx.abandoned
    requires IsRecord(s.rx.acc)
    ensures |s.rx.acc| <= 16 + CHUNK
  {
    var head, k := s.popped + s.rx.blocks, |s.popped| + |s.rx.blocks|;
    hide Tracks, Ending, HonestBlocks, Good, IsRecord, Record, Decoded, IsPartial;
    DecodedWire(codec, blocks);
    ConcatAppend(head, [s.rx.acc]);
    ConcatAppend(s.popped, s.rx.blocks);
    ConcatOne(s.rx.acc);
    assert Concat(head) + s.rx.acc + s.pending == s.received by {
      assert Concat(s.popped) + Concat(s.rx.blocks) + s.rx.acc + s.pending
          == Concat(s.popped) + (Concat(s.rx.blocks) + s.rx.acc + s.pending);
    }
    CutIsUnique(head + [s.rx.acc], s.pending, Records(codec, blocks));
    BlockRecordFits(codec, blocks, k, s.rx.acc);
  }

  lemma {:induction false} BlockRecordFits(codec: Codec, blocks: seq<Bytes>, k: nat, rec: Bytes)
    requires Good(codec) && HonestBlocks(blocks) && k < |blocks| && rec == Record(codec, blocks[k])
    ensures |rec| <= 16 + CHUNK
  {
  }

  // ---------------------------------------------------------------------------
  // Every plaintext gets through
  // ---------------------------------------------------------------------------

  /** Each block arrives in one frame and is read before the next; then END and the clean end. */
  ghost function BlockEvents(codec: Codec, block: Bytes): seq<Event> {
    [Arrive(Record(codec, block)), Net, Pull, Copy(|block|)]
  }

  ghost function EventsFor(codec: Codec, blocks: seq<Bytes>): seq<Event> {
    if blocks == [] then [] else EventsFor(codec, blocks[..|blocks| - 1]) + BlockEvents(codec, blocks[|blocks| - 1])
  }

  ghost function LastEvents(codec: Codec, blocks: seq<Bytes>): seq<Event> {
    [ArriveEnd(TotalsOf(codec, blocks)), Pull, Return]
  }

  /** The state when the first blocks have been read. */
  ghost function ReadSoFar(codec: Codec, blocks: seq<Bytes>): Sys {
    var cur := if blocks == [] then [] else blocks[|blocks| - 1];
    Sys(Rx([], [], 0, |Wire(codec, blocks)|, false, false, false, Totals(0, 0, 0)),
        Rd(cur, |cur|, |Concat(blocks)|, |blocks|, false, false, false),
        true, [], Concat(blocks), [], Records(codec, blocks), Wire(codec, blocks))
  }

  lemma {:induction false} FeedOneRecord(rx: Rx, rec: Bytes, limit: nat)
    requires rx.acc == [] && IsRecord(rec) && !rx.failed && !rx.abandoned && rx.qBytes + |rec| <= limit
    ensures Feed(rx, rec, limit, false) == (rx.(blocks := rx.blocks + [rec], qBytes := rx.qBytes + |rec|), [], Done)
  {
    FeedUnfolds(rx, rec, limit, false);
    var n := Take([], rec);
    assert [] + rec[..16] == rec[..16] && rec[..16][4..8] == rec[4..8];
    assert n == |rec| && rec[..n] == rec && rec[n..] == [] && [] + rec == rec;
    var rx1 := rx.(acc := rec);
    FeedUnfolds(rx1, [], limit, false);
    FeedUnfolds(Deposit(rx1), [], limit, false);
  }

  lemma {:induction false} RunThen(codec: Codec, limit: nat, blocks: seq<Bytes>, s: Sys, a: seq<Event>, b: seq<Event>)
    requires Sound(limit, s) && IsRun(codec, limit, blocks, s, a) && Sound(limit, After(codec, limit, blocks, s, a))
    requires IsRun(codec, limit, blocks, After(codec, limit, blocks, s, a), b)
    ensures IsRun(codec, limit, blocks, s, a + b)
    ensures After(codec, limit, blocks, s, a + b) == After(codec, limit, blocks, After(codec, limit, blocks, s, a), b)
    decreases |a|
  {
    hide Enabled, Step, FromWriter, ValidRx, Conserved;
    if a == [] {
      assert a + b == b;
    } else {
      assert (a + b)[1..] == a[1..] + b;
      StepConserves(codec, limit, s, a[0]);
      RunThen(codec, limit, blocks, Step(codec, limit, s, a[0]), a[1..], b);
    }
  }

  /** One step, then a run. */
  lemma {:induction false} RunFirst(codec: Codec, limit: nat, blocks: seq<Bytes>, s: Sys, e: Event, es: seq<Event>)
    requires Sound(limit, s) && Enabled(limit, s, e) && FromWriter(codec, blocks, s, e)
    requires Sound(limit, Step(codec, limit, s, e)) && IsRun(codec, limit, blocks, Step(codec, limit, s, e), es)
    ensures IsRun(codec, limit, blocks, s, [e] + es)
    ensures After(codec, limit, blocks, s, [e] + es) == After(codec, limit, blocks, Step(codec, limit, s, e), es)
  {
  }

  lemma {:induction false} RunNone(codec: Codec, limit: nat, blocks: seq<Bytes>, s: Sys)
    requires Sound(limit, s)
    ensures IsRun(codec, limit, blocks, s, []) && After(codec, limit, blocks, s, []) == s
  {
  }

  /** Between two blocks everything received has been read. */
  ghost predicate Caught(s: Sys) {
    && s.rx.acc == [] && s.rx.blocks == [] && s.rx.qBytes == 0 && !s.rx.failed && !s.rx.abandoned && !s.rx.endSeen
    && s.rd.pos == |s.rd.cur| && !s.rd.eof && !s.rd.broken && !s.rd.drained && s.open && s.pending == []
  }

  ghost predicate Queued(s: Sys, rec: Bytes) {
    s.rx.blocks == [rec] && s.rx.qBytes == |rec| && Caught(s.(rx := s.rx.(blocks := [], qBytes := 0)))
  }

  lemma {:induction false} QueueOne(codec: Codec, limit: nat, blocks: seq<Bytes>, s: Sys, rec: Bytes)
    requires Caught(s) && IsRecord(rec) && |rec| <= limit && s.received + rec <= Wire(codec, blocks)
    ensures ValidRx(s.rx, limit) && Enabled(limit, s, Arrive(rec)) && FromWriter(codec, blocks, s, Arrive(rec))
    ensures var s1 := Step(codec, limit, s, Arrive(rec));
            && ValidRx(s1.rx, limit) && Enabled(limit, s1, Net)
            && var s2 := Step(codec, limit, s1, Net);
            && ValidRx(s2.rx, limit)
            && s2 == s.(rx := s.rx.(blocks := [rec], qBytes := |rec|), received := s.received + rec)
            && Queued(s2, rec)
  {
    FeedOneRecord(s.rx, rec, limit);
    ConcatOne(rec);
  }

  lemma {:induction false} ReadOne(codec: Codec, limit: nat, s: Sys, rec: Bytes, b: Bytes)
    requires Queued(s, rec) && |rec| <= limit
    requires IsRecord(rec) && Decode(codec, rec) == Some(b) && b != []
    ensures ValidRx(s.rx, limit) && Enabled(limit, s, Pull)
    ensures var s3 := Step(codec, limit, s, Pull);
            && ValidRx(s3.rx, limit) && Enabled(limit, s3, Copy(|b|))
            && var s4 := Step(codec, limit, s3, Copy(|b|));
            && ValidRx(s4.rx, limit)
            && s4 == s.(rx := s.rx.(blocks := [], qBytes := 0, consumed := s.rx.consumed + |rec|),
                        rd := Rd(b, |b|, s.rd.plain + |b|, s.rd.chunks + 1, false, false, false),
                        out := s.out + b, popped := s.popped + [rec])
  {
  }

  /** One more block. */
  lemma {:induction false} ReadOneMore(codec: Codec, limit: nat, blocks: seq<Bytes>, k: nat)
    requires Good(codec) && HonestBlocks(blocks) && k < |blocks| && 16 + CHUNK <= limit
    ensures var s, es := ReadSoFar(codec, blocks[..k]), BlockEvents(codec, blocks[k]);
            && Sound(limit, s) && IsRun(codec, limit, blocks, s, es)
            && After(codec, limit, blocks, s, es) == ReadSoFar(codec, blocks[..k + 1])
  {
    hide *;
    var s, es, b := ReadSoFar(codec, blocks[..k]), BlockEvents(codec, blocks[k]), blocks[k];
    var rec := Record(codec, b);
    NextRecord(codec, limit, blocks, k);
    NextReadSoFar(codec, blocks, k);
    ReadSoFarIsSound(codec, limit, blocks, k);
    QueueOne(codec, limit, blocks, s, rec);
    var s1 := Step(codec, limit, s, es[0]);
    StepIsSound(codec, limit, s, es[0]);
    var s2 := Step(codec, limit, s1, es[1]);
    StepIsSound(codec, limit, s1, es[1]);
    ReadOne(codec, limit, s2, rec, b);
    var s3 := Step(codec, limit, s2, es[2]);
    StepIsSound(codec, limit, s2, es[2]);
    var s4 := Step(codec, limit, s3, es[3]);
    StepIsSound(codec, limit, s3, es[3]);
    NotFromWriter(codec, blocks, s1, s2, s3, |b|);
    RunNone(codec, limit, blocks, s4);
    RunFirst(codec, limit, blocks, s3, es[3], []);
    RunFirst(codec, limit, blocks, s2, es[2], [es[3]] + []);
    RunFirst(codec, limit, blocks, s1, es[1], [es[2]] + ([es[3]] + []));
    RunFirst(codec, limit, blocks, s, es[0], [es[1]] + ([es[2]] + ([es[3]] + [])));
    assert es == [es[0]] + ([es[1]] + ([es[2]] + ([es[3]] + [])));
  }

  lemma {:induction false} StepIsSound(codec: Codec, limit: nat, s: Sys, e: Event)
    requires Sound(limit, s) && Enabled(limit, s, e)
    ensures Sound(limit, Step(codec, limit, s, e))
  {
    hide ValidRx, Conserved, Enabled, Step;
    StepConserves(codec, limit, s, e);
  }

  lemma {:induction false} ReadSoFarIsSound(codec: Codec, limit: nat, blocks: seq<Bytes>, k: nat)
    requires Good(codec) && HonestBlocks(blocks) && k <= |blocks|
    ensures Sound(limit, ReadSoFar(codec, blocks[..k]))
  {
    hide IsRecord, Record, Decoded, Good;
    DecodedWire(codec, blocks[..k]);
    var s := ReadSoFar(codec, blocks[..k]);
    assert Held(s.rx) + s.pending == [];
    assert s.received + [] == s.received;
  }

  lemma {:induction false} NextRecord(codec: Codec, limit: nat, blocks: seq<Bytes>, k: nat)
    requires Good(codec) && HonestBlocks(blocks) && k < |blocks| && 16 + CHUNK <= limit
    ensures var b := blocks[k];
            var rec := Record(codec, b);
            && b != [] && IsRecord(rec) && Decode(codec, rec) == Some(b) && |rec| <= limit
            && BlockEvents(codec, b) == [Arrive(rec), Net, Pull, Copy(|b|)]
            && ReadSoFar(codec, blocks[..k]).received + rec <= Wire(codec, blocks)
  {
    hide Record, Decode, IsRecord, Concat, Good, Wire;
    RecordRoundTrip(codec, blocks[k]);
    BlockRecordFits(codec, blocks, k, Record(codec, blocks[k]));
    NextWire(codec, blocks, k);
  }

  lemma {:induction false} NextWire(codec: Codec, blocks: seq<Bytes>, k: nat)
    requires k < |blocks|
    ensures Wire(codec, blocks[..k]) + Record(codec, blocks[k]) <= Wire(codec, blocks)
  {
    hide Record, Concat, Wire;
    SentOneMore(codec, blocks[..k], blocks[k]);
    assert blocks[..k + 1] == blocks[..k] + [blocks[k]];
    WirePrefix(codec, blocks, k + 1);
  }

  lemma {:induction false} NextReadSoFar(codec: Codec, blocks: seq<Bytes>, k: nat)
    requires k < |blocks|
    ensures var s, b := ReadSoFar(codec, blocks[..k]), blocks[k];
            var rec := Record(codec, b);
            && Caught(s) && s.rx.blocks == [] && s.rx.qBytes == 0
            && ReadSoFar(codec, blocks[..k + 1]) ==
               s.(rx := s.rx.(consumed := s.rx.consumed + |rec|),
                  rd := Rd(b, |b|, s.rd.plain + |b|, s.rd.chunks + 1, false, false, false),
                  out := s.out + b, popped := s.popped + [rec], received := s.received + rec)
  {
    hide Record, Concat;
    SentOneMore(codec, blocks[..k], blocks[k]);
    assert blocks[..k + 1] == blocks[..k] + [blocks[k]];
  }

  lemma {:induction false} NotFromWriter(codec: Codec, blocks: seq<Bytes>, s1: Sys, s2: Sys, s3: Sys, n: nat)
    ensures FromWriter(codec, blocks, s1, Net) && FromWriter(codec, blocks, s2, Pull)
            && FromWriter(codec, blocks, s3, Copy(n))
  {
  }

  lemma {:induction false} WirePrefix(codec: Codec, blocks: seq<Bytes>, k: nat)
    requires k <= |blocks|
    ensures Wire(codec, blocks[..k]) <= Wire(codec, blocks)
  {
    hide Record;
    var a, b := blocks[..k], blocks[k..];
    assert Records(codec, blocks) == Records(codec, a) + Records(codec, b);
    ConcatAppend(Records(codec, a), Records(codec, b));
  }

  lemma {:induction false} ReadAll(codec: Codec, limit: nat, blocks: seq<Bytes>, k: nat)
    requires Good(codec) && HonestBlocks(blocks) && k <= |blocks| && 16 + CHUNK <= limit
    ensures Sound(limit, Begin()) && IsRun(codec, limit, blocks, Begin(), EventsFor(codec, blocks[..k]))
    ensures After(codec, limit, blocks, Begin(), EventsFor(codec, blocks[..k])) == ReadSoFar(codec, blocks[..k])
    decreases k
  {
    hide *;
    if k == 0 {
      ReadNothing(codec, limit, blocks);
    } else {
      ReadAll(codec, limit, blocks, k - 1);
      ReadOneMore(codec, limit, blocks, k - 1);
      assert blocks[..k][..k - 1] == blocks[..k - 1] && blocks[..k][k - 1] == blocks[k - 1];
      EventsStep(codec, blocks[..k]);
      RunThen(codec, limit, blocks, Begin(), EventsFor(codec, blocks[..k - 1]), BlockEvents(codec, blocks[k - 1]));
    }
  }

  lemma {:induction false} ReadNothing(codec: Codec, limit: nat, blocks: seq<Bytes>)
    ensures Sound(limit, Begin()) && IsRun(codec, limit, blocks, Begin(), EventsFor(codec, blocks[..0]))
    ensures After(codec, limit, blocks, Begin(), EventsFor(codec, blocks[..0])) == ReadSoFar(codec, blocks[..0])
  {
    assert blocks[..0] == [];
    assert Begin().received == Concat(Begin().popped) + (Held(Begin().rx) + Begin().pending);
  }

  lemma {:induction false} EventsStep(codec: Codec, blocks: seq<Bytes>)
    requires blocks != []
    ensures EventsFor(codec, blocks) ==
            EventsFor(codec, blocks[..|blocks| - 1]) + BlockEvents(codec, blocks[|blocks| - 1])
  {
  }

  /** For every plaintext there is a run that delivers all of it and ends cleanly. */
  lemma {:induction false} DeliveryIsPossible(codec: Codec, limit: nat, blocks: seq<Bytes>)
    requires Good(codec) && HonestBlocks(blocks) && 16 + CHUNK <= limit
    ensures var es := EventsFor(codec, blocks) + LastEvents(codec, blocks);
            && Sound(limit, Begin()) && IsRun(codec, limit, blocks, Begin(), es)
            && var s := After(codec, limit, blocks, Begin(), es);
            && s.delivered == Concat(blocks) && s.rd.eof
  {
    assert blocks[..|blocks|] == blocks;
    ReadAll(codec, limit, blocks, |blocks|);
    LastSteps(codec, limit, blocks);
    hide *;
    RunThen(codec, limit, blocks, Begin(), EventsFor(codec, blocks), LastEvents(codec, blocks));
  }

  lemma {:induction false} LastSteps(codec: Codec, limit: nat, blocks: seq<Bytes>)
    requires Good(codec) && HonestBlocks(blocks)
    ensures var s := ReadSoFar(codec, blocks);
            && Sound(limit, s) && IsRun(codec, limit, blocks, s, LastEvents(codec, blocks))
            && var s' := After(codec, limit, blocks, s, LastEvents(codec, blocks));
            && s'.delivered == Concat(blocks) && s'.rd.eof
  {
    hide *;
    var s, es := ReadSoFar(codec, blocks), LastEvents(codec, blocks);
    assert blocks[..|blocks|] == blocks;
    ReadSoFarIsSound(codec, limit, blocks, |blocks|);
    LastEventsAre(codec, blocks);
    SoundMeans(limit, s);
    LastStates(codec, limit, blocks, s);
    StepIsSound(codec, limit, s, es[0]);
    var s1 := Step(codec, limit, s, es[0]);
    StepIsSound(codec, limit, s1, es[1]);
    var s2 := Step(codec, limit, s1, es[1]);
    StepIsSound(codec, limit, s2, es[2]);
    RunNone(codec, limit, blocks, Step(codec, limit, s2, es[2]));
    RunFirst(codec, limit, blocks, s2, es[2], []);
    RunFirst(codec, limit, blocks, s1, es[1], [es[2]] + []);
    RunFirst(codec, limit, blocks, s, es[0], [es[1]] + ([es[2]] + []));
  }

  lemma {:induction false} LastEventsAre(codec: Codec, blocks: seq<Bytes>)
    ensures var es := LastEvents(codec, blocks);
            && |es| == 3 && es[0] == ArriveEnd(TotalsOf(codec, blocks)) && es[1] == Pull && es[2] == Return
            && es == [es[0]] + ([es[1]] + ([es[2]] + []))
  {
  }

  lemma {:induction false} SoundMeans(limit: nat, s: Sys)
    requires Sound(limit, s)
    ensures ValidRx(s.rx, limit)
  {
  }

  lemma {:induction false} LastStates(codec: Codec, limit: nat, blocks: seq<Bytes>, s: Sys)
    requires s == ReadSoFar(codec, blocks) && ValidRx(s.rx, limit)
    ensures var e := ArriveEnd(TotalsOf(codec, blocks));
            && Enabled(limit, s, e) && FromWriter(codec, blocks, s, e)
            && var s1 := Step(codec, limit, s, e);
            && ValidRx(s1.rx, limit) && Enabled(limit, s1, Pull) && FromWriter(codec, blocks, s1, Pull)
            && var s2 := Step(codec, limit, s1, Pull);
            && ValidRx(s2.rx, limit) && Enabled(limit, s2, Return) && FromWriter(codec, blocks, s2, Return)
            && var s3 := Step(codec, limit, s2, Return);
            && s3.delivered == Concat(blocks) && s3.rd.eof
  {
    hide Record, Decode;
    assert [] + Concat(blocks) == Concat(blocks);
  }

  // ---------------------------------------------------------------------------
  // The writer
  // ---------------------------------------------------------------------------

  /** Full blocks, then the rest if there is any. */
  ghost function Blocks(plain: Bytes): seq<Bytes> {
    if plain == [] then []
    else if |plain| <= CHUNK then [plain]
    else [plain[..CHUNK]] + Blocks(plain[CHUNK..])
  }

  lemma {:induction false} BlocksAreHonest(plain: Bytes)
    ensures HonestBlocks(Blocks(plain)) && Concat(Blocks(plain)) == plain
    decreases |plain|
  {
    if plain == [] {
    } else if |plain| <= CHUNK {
      ConcatOne(plain);
    } else {
      BlocksAreHonest(plain[CHUNK..]);
      assert plain == plain[..CHUNK] + plain[CHUNK..];
      assert Blocks(plain)[1..] == Blocks(plain[CHUNK..]);
    }
  }

  /** Only full blocks have been sent; the buffer holds less than one. */
  ghost predicate Cutting(plain: Bytes, full: seq<Bytes>, buf: Bytes) {
    plain == Concat(full) + buf && |buf| < CHUNK && forall i :: 0 <= i < |full| ==> |full[i]| == CHUNK
  }

  lemma {:induction false} CuttingIsBlocks(plain: Bytes, full: seq<Bytes>, buf: Bytes)
    requires Cutting(plain, full, buf)
    ensures Blocks(plain) == full + if buf == [] then [] else [buf]
    decreases |full|
  {
    if full == [] {
      assert plain == buf;
    } else {
      var tail := Concat(full[1..]) + buf;
      assert plain == full[0] + tail;
      CuttingIsBlocks(tail, full[1..], buf);
      assert plain[..CHUNK] == full[0] && plain[CHUNK..] == tail;
      assert full == [full[0]] + full[1..];
      if tail == [] {
        assert Blocks(tail) == [];
        assert plain == full[0];
      }
    }
  }

  /** The frames and the bytes held back are the given bytes; after a refusal, a beginning. */
  ghost predicate SentAs(wire: Bytes, frames: seq<Bytes>, held: Bytes, offset: nat, ok: bool) {
    && |held| <= 16 && (forall f :: f in frames ==> |f| >= 16) && Concat(frames) <= wire
    && (ok ==> Concat(frames) + held == wire && offset == |Concat(frames)|)
  }

  lemma {:induction false} HoldBack(wire: Bytes, frames: seq<Bytes>, held: Bytes, offset: nat, ok: bool, more: Bytes)
    requires SentAs(wire, frames, held, offset, ok) && |held| + |more| <= 16
    ensures SentAs(wire + more, frames, held + more, offset, ok)
  {
    hide Concat;
    assert Concat(frames) + (held + more) == Concat(frames) + held + more;
  }

  lemma {:induction false} SendHeld(wire: Bytes, frames: seq<Bytes>, held: Bytes, offset: nat, ok: bool, payload: Bytes)
    requires SentAs(wire, frames, held, offset, ok) && |held| == 16
    ensures ok ==> SentAs(wire + payload, frames + [held + payload], [], offset + 16 + |payload|, true)
    ensures forall offset' :: SentAs(wire + payload, frames, [], offset', false)
  {
    hide Concat;
    var frame := held + payload;
    ConcatAppend(frames, [frame]);
    ConcatOne(frame);
    assert ok ==> Concat(frames) + frame == wire + payload;
    assert forall x: Bytes :: x + [] == x;
  }

  /** Cuts what is written into blocks and sends the bytes of their records in data frames. The 16
      bytes in front of a payload are held back and leave with it; a compressor that packs a block
      into nothing leaves them waiting for the next bytes. */
  class PeerStreamWriter {
    const codec: Codec
    var buf: Bytes
    var blkHdr: Bytes
    var frames: seq<Bytes>
    var totalUncompressed: nat
    var chunkCount: nat
    var frameOff: nat
    /** No frame was refused so far, and the stream was not aborted. */
    var sendOk: bool
    /** Everything written so far, and the full blocks it was cut into. */
    ghost var written: Bytes
    ghost var full: seq<Bytes>
    /** The connection refused a frame. */
    ghost var refused: bool

    constructor (codec: Codec)
      ensures this.codec == codec && Valid() && written == []
    {
      this.codec := codec;
      buf, blkHdr, frames, totalUncompressed, chunkCount, frameOff, sendOk := [], [], [], 0, 0, 0, true;
      written, full, refused := [], [], false;
    }

    ghost predicate Sent(blocks: seq<Bytes>)
      reads this
    {
      && SentAs(Wire(codec, blocks), frames, blkHdr, frameOff, sendOk)
      && chunkCount == |blocks| && totalUncompressed == |Concat(blocks)|
      && (PayloadsAreNonEmpty(codec) && sendOk ==> blkHdr == [] && frames == Records(codec, blocks))
    }

    ghost predicate Valid()
      reads this
    {
      Cutting(written, full, buf) && Sent(full) && sendOk == !refused
    }

    /** One data frame with the bytes held back. Whether the connection takes it is not up to the
        writer; after a refusal nothing is sent. */
    method SendBlockFrame(payload: Bytes, ghost wire: Bytes)
      requires SentAs(wire, frames, blkHdr, frameOff, sendOk) && |blkHdr| == 16 && sendOk == !refused
      modifies `blkHdr, `frames, `frameOff, `sendOk, `refused
      ensures SentAs(wire + payload, frames, blkHdr, frameOff, sendOk) && blkHdr == [] && sendOk == !refused
      ensures sendOk ==> old(sendOk) && frames == old(frames) + [old(blkHdr) + payload]
    {
      hide SentAs;
      SendHeld(wire, frames, blkHdr, frameOff, sendOk, payload);
      var frame := blkHdr + payload;
      blkHdr := [];
      if !sendOk { return; }
      var sent: bool := *;
      frameOff := frameOff + 16 + |payload|;
      if sent {
        frames := frames + [frame];
      } else {
        sendOk, refused := false, true;
      }
    }

    /** The end point of the pipeline: 16 header bytes are held back and leave with the payload. */
    method Emit(d: Bytes, ghost wire: Bytes)
      requires SentAs(wire, frames, blkHdr, frameOff, sendOk) && sendOk == !refused
      modifies `blkHdr, `frames, `frameOff, `sendOk, `refused
      ensures SentAs(wire + d, frames, blkHdr, frameOff, sendOk) && sendOk == !refused
      ensures |old(blkHdr)| < 16 && |old(blkHdr)| + |d| <= 16 ==>
                blkHdr == old(blkHdr) + d && frames == old(frames) && sendOk == old(sendOk)
      ensures |old(blkHdr)| == 16 && sendOk ==> blkHdr == [] && frames == old(frames) + [old(blkHdr) + d]
      ensures sendOk ==> old(sendOk)
    {
      assert |blkHdr| <= 16;
      hide SentAs;
      var rest := d;
      ghost var w := wire;
      if |blkHdr| < 16 {
        var take := Min(|rest|, 16 - |blkHdr|);
        HoldBack(wire, frames, blkHdr, frameOff, sendOk, rest[..take]);
        blkHdr, w := blkHdr + rest[..take], wire + rest[..take];
        rest := rest[take..];
        assert w + rest == wire + d;
        if rest == [] {
          assert w == wire + d;
          return;
        }
      }
      SendBlockFrame(rest, w);
    }

    /** One block through compression, checksum and header. */
    method FlushBlock(ghost wire: Bytes)
      requires SentAs(wire, frames, blkHdr, frameOff, sendOk) && sendOk == !refused
      modifies this
      ensures SentAs(wire + Record(codec, old(buf)), frames, blkHdr, frameOff, sendOk) && sendOk == !refused
      ensures buf == [] && written == old(written) && full == old(full)
      ensures totalUncompressed == old(totalUncompressed) + |old(buf)| && chunkCount == old(chunkCount) + 1
      ensures old(blkHdr) == [] && Payload(codec, old(buf)) != [] && sendOk ==>
                blkHdr == [] && frames == old(frames) + [Record(codec, old(buf))]
      ensures sendOk ==> old(sendOk)
    {
      hide SentAs, LittleEndian, Payload;
      var payload := Payload(codec, buf);
      ghost var a, b, c := LittleEndian(|buf|, 4), LittleEndian(|payload|, 4), LittleEndian(codec.crc(payload), 8);
      Emit(LittleEndian(|buf|, 4), wire);
      Emit(LittleEndian(|payload|, 4), wire + a);
      Emit(LittleEndian(codec.crc(payload), 8), wire + a + b);
      assert old(blkHdr) == [] ==> blkHdr == a + b + c && frames == old(frames) && sendOk == old(sendOk) by {
        assert [] + a + b + c == a + b + c;
      }
      assert wire + a + b + c + payload == wire + Record(codec, buf);
      assert a + b + c + payload == Record(codec, buf);
      if payload != [] {
        Emit(payload, wire + a + b + c);
      } else {
        assert wire + a + b + c + payload == wire + a + b + c;
      }
      totalUncompressed := totalUncompressed + |buf|;
      chunkCount := chunkCount + 1;
      buf := [];
    }

    /** A block has been sent. */
    method SendBlock()
      requires Sent(full) && sendOk == !refused && buf != []
      modifies this
      ensures Sent(full) && sendOk == !refused
      ensures buf == [] && written == old(written) && full == old(full) + [old(buf)]
    {
      hide Record, Payload, Records, SentAs, Concat;
      ghost var block := buf;
      SentOneMore(codec, full, block);
      FlushBlock(Wire(codec, full));
      full := full + [block];
    }

    /** Fill the buffer; a full one is sent. */
    method Put(more: Bytes)
      requires Valid() && |buf| + |more| <= CHUNK
      modifies this
      ensures Valid() && written == old(written) + more
    {
      hide Concat, SentAs, Wire, Records;
      assert written + more == Concat(full) + (buf + more);
      written := written + more;
      buf := buf + more;
      if |buf| == CHUNK {
        SentOneMore(codec, full, buf);
        SendBlock();
        assert Concat(full) + [] == Concat(full);
      }
    }

    /** Append plaintext, block by block. */
    method Write(data: Bytes)
      requires Valid()
      modifies this
      ensures Valid() && written == old(written) + data
    {
      var rest := data;
      while rest != []
        invariant Valid() && written + rest == old(written) + data
        decreases |rest|
      {
        var take := Min(CHUNK - |buf|, |rest|);
        assert take > 0;
        hide Sent, Concat;
        assert rest == rest[..take] + rest[take..];
        assert written + rest == (written + rest[..take]) + rest[take..];
        Put(rest[..take]);
        rest := rest[take..];
      }
      assert written + [] == written;
    }

    /** What is still held back: a whole header is a record without payload, part of one aborts. */
    method FlushPendingBlock(ghost wire: Bytes)
      requires SentAs(wire, frames, blkHdr, frameOff, sendOk) && sendOk == !refused
      modifies `blkHdr, `frames, `frameOff, `sendOk, `refused
      ensures blkHdr == [] && (forall f :: f in frames ==> |f| >= 16) && Concat(frames) <= wire
      ensures sendOk ==> Concat(frames) == wire && frameOff == |wire| && !refused
      ensures old(blkHdr) == [] ==> frames == old(frames) && sendOk == old(sendOk)
      ensures (!sendOk && !refused <==> !old(refused) && 0 < |old(blkHdr)| < 16) && (old(refused) ==> refused)
    {
      hide Concat;
      assert forall x: Bytes :: x + [] == x;
      if blkHdr == [] { return; }
      if |blkHdr| == 16 {
        SendBlockFrame([], wire);
        return;
      }
      sendOk, blkHdr := false, [];
    }

    /** The last, shorter block and what is held back; then END, unless the stream has failed.
        However the plaintext was cut into writes, the frames carry the records of its blocks. */
    method Finish() returns (end: Option<Totals>)
      requires Valid()
      modifies this
      ensures SentBy(codec, old(written), frames, end)
      ensures end.None? <==> !sendOk
      ensures PayloadsAreNonEmpty(codec) && !refused ==> end.Some? && frames == Records(codec, Blocks(old(written)))
    {
      hide Concat, Records, Wire, SentAs, Blocks;
      CuttingIsBlocks(written, full, buf);
      if buf != [] {
        SendBlock();
      } else {
        assert full + [] == full;
      }
      FlushPendingBlock(Wire(codec, full));
      end := if sendOk then Some(Totals(totalUncompressed, chunkCount, frameOff)) else None;
    }
  }

  /** What a writer makes of plaintext: frames with the bytes of its records, all of them and the
      right totals if it gets to END, otherwise a beginning. */
  ghost predicate SentBy(codec: Codec, plain: Bytes, raws: seq<Bytes>, end: Option<Totals>) {
    && (forall f :: f in raws ==> |f| >= 16) && Concat(raws) <= Wire(codec, Blocks(plain))
    && (end.Some? ==> Concat(raws) == Wire(codec, Blocks(plain)) && end.value == TotalsOf(codec, Blocks(plain)))
  }

  /** A whole stream: any number of writes, then the end. */
  method SendStream(codec: Codec, writes: seq<Bytes>) returns (raws: seq<Bytes>, end: Option<Totals>)
    ensures SentBy(codec, Concat(writes), raws, end)
  {
    var w := new PeerStreamWriter(codec);
    for i := 0 to |writes|
      invariant w.Valid() && w.codec == codec && w.written == Concat(writes[..i])
    {
      NextBlock(writes, i);
      w.Write(writes[i]);
    }
    assert writes[..|writes|] == writes;
    end := w.Finish();
    raws := w.frames;
  }

  /** The header bytes leave together with a payload, so a compressor that packs a block into
      nothing would leave its header waiting. */
  ghost predicate PayloadsAreNonEmpty(codec: Codec) {
    forall p :: p != [] ==> Payload(codec, p) != []
  }

  lemma {:induction false} SentOneMore(codec: Codec, full: seq<Bytes>, block: Bytes)
    ensures Records(codec, full + [block]) == Records(codec, full) + [Record(codec, block)]
    ensures Concat(full + [block]) == Concat(full) + block
    ensures Wire(codec, full + [block]) == Wire(codec, full) + Record(codec, block)
  {
    hide Record;
    ConcatAppend(full, [block]);
    ConcatOne(block);
    ConcatAppend(Records(codec, full), [Record(codec, block)]);
    ConcatOne(Record(codec, block));
    assert Records(codec, full + [block]) == Records(codec, full) + [Record(codec, block)];
  }

  // ---------------------------------------------------------------------------
  // The receiving code
  // ---------------------------------------------------------------------------

  lemma {:induction false} FeedUnfolds(rx: Rx, data: Bytes, limit: nat, stopping: bool)
    requires IsPartial(rx.acc) || IsRecord(rx.acc)
    ensures IsRecord(rx.acc) && !Room(rx, limit) ==>
              Feed(rx, data, limit, stopping) == (rx, data, if stopping then Failed else Blocked)
    ensures IsRecord(rx.acc) && Room(rx, limit) && rx.failed ==> Feed(rx, data, limit, stopping) == (rx, data, Failed)
    ensures IsRecord(rx.acc) && Room(rx, limit) && !rx.failed ==>
              IsPartial(Deposit(rx).acc) && Feed(rx, data, limit, stopping) == Feed(Deposit(rx), data, limit, stopping)
    ensures !IsRecord(rx.acc) && data == [] ==> Feed(rx, data, limit, stopping) == (rx, [], Done)
    ensures !IsRecord(rx.acc) && data != [] ==>
              var n := Take(rx.acc, data);
              var rx1 := rx.(acc := rx.acc + data[..n]);
              && n > 0 && (IsPartial(rx1.acc) || IsRecord(rx1.acc)) && (IsPartial(rx1.acc) ==> n == |data|)
              && Feed(rx, data, limit, stopping) == Feed(rx1, data[n..], limit, stopping)
  {
    PartialOrRecord(rx.acc);
    PartialOrRecord([]);
    hide IsRecord, IsPartial, Take;
    if !IsRecord(rx.acc) {
      TakeFits(rx.acc, data);
    }
  }

  class PeerStreamRxState {
    var blockAcc: Bytes
    var pComp: nat
    var haveHdr: bool
    var blocks: seq<Bytes>
    var qBytes: nat
    var consumed: nat
    var failed: bool
    var abandoned: bool
    var endSeen: bool
    var end: Totals

    constructor ()
      ensures Valid() && View() == Begin().rx
    {
      blockAcc, pComp, haveHdr, blocks, qBytes, consumed := [], 0, false, [], 0, 0;
      failed, abandoned, endSeen, end := false, false, false, Totals(0, 0, 0);
    }

    ghost function View(): Rx
      reads this
    {
      Rx(blockAcc, blocks, qBytes, consumed, failed, abandoned, endSeen, end)
    }

    ghost predicate Valid()
      reads this
    {
      && (IsPartial(blockAcc) || IsRecord(blockAcc))
      && (haveHdr <==> |blockAcc| >= 16) && (haveHdr ==> pComp == PayloadSize(blockAcc))
    }

    /** Append what belongs to the record under construction: header first, then payload. */
    method Accumulate(data: Bytes) returns (rest: Bytes)
      requires Valid() && IsPartial(blockAcc)
      modifies `blockAcc, `pComp, `haveHdr
      ensures Valid()
      ensures var n := Take(old(blockAcc), data); blockAcc == old(blockAcc) + data[..n] && rest == data[n..]
    {
      hide FromLittleEndian;
      TakeFits(blockAcc, data);
      rest := data;
      if !haveHdr {
        var take := Min(|rest|, 16 - |blockAcc|);
        blockAcc := blockAcc + rest[..take];
        rest := rest[take..];
        if |blockAcc| < 16 {
          assert take == |data| && rest == data[take..];
          return;
        }
        pComp := PayloadSize(blockAcc);
        haveHdr := true;
      }
      var need := pComp - (|blockAcc| - 16);
      var take := Min(|rest|, need);
      ghost var hdr := blockAcc;
      blockAcc := blockAcc + rest[..take];
      rest := rest[take..];
      SameHeader(hdr, blockAcc[|hdr|..]);
      assert hdr + blockAcc[|hdr|..] == blockAcc;
      ghost var n := Take(old(blockAcc), data);
      assert |blockAcc| == |old(blockAcc)| + n && blockAcc == old(blockAcc) + data[..n];
    }

    /** The bytes of one data frame. Blocked means the thread waits here for room and goes on
        with the rest once there is some. */
    method FeedStreamBytes(data: Bytes, limit: nat, stopping: bool) returns (rest: Bytes, status: Fed)
      requires Valid()
      modifies this
      ensures Valid() && (View(), rest, status) == Feed(old(View()), data, limit, stopping)
    {
      hide Feed, IsRecord, IsPartial, Take, PayloadSize;
      rest := data;
      while true
        invariant Valid() && Feed(View(), rest, limit, stopping) == Feed(old(View()), data, limit, stopping)
        decreases |rest|, if IsRecord(blockAcc) then 1 else 0
      {
        FeedUnfolds(View(), rest, limit, stopping);
        PartialOrRecord([]);
        if haveHdr && |blockAcc| - 16 == pComp {
          assert IsRecord(blockAcc) by { FullIsRecord(blockAcc); }
          if !failed && !abandoned && qBytes + |blockAcc| > limit {
            return rest, if stopping then Failed else Blocked;
          }
          if failed {
            return rest, Failed;
          }
          if !abandoned {
            qBytes := qBytes + |blockAcc|;
            blocks := blocks + [blockAcc];
          }
          blockAcc, haveHdr := [], false;
        } else {
          assert !IsRecord(blockAcc) by { NotFull(blockAcc); }
          if rest == [] {
            return [], Done;
          }
          rest := Accumulate(rest);
          PartialOrRecord(blockAcc);
        }
      }
    }
  }

  lemma {:induction false} FullIsRecord(b: Bytes)
    requires |b| >= 16 && |b| - 16 == PayloadSize(b)
    ensures IsRecord(b)
  {
  }

  lemma {:induction false} NotFull(b: Bytes)
    requires |b| >= 16 ==> |b| - 16 != PayloadSize(b)
    ensures !IsRecord(b)
  {
  }

  /** Current record, position and queue after n more bytes, or as many as there are. */
  ghost function Pulled(cur: Bytes, pos: nat, queue: seq<Bytes>, n: nat): (Bytes, nat, seq<Bytes>)
    requires pos <= |cur|
    decreases |queue|
  {
    if n <= |cur| - pos then (cur, pos + n, queue)
    else if queue == [] then (cur, |cur|, [])
    else Pulled(queue[0], 0, queue[1..], n - (|cur| - pos))
  }

  lemma {:induction false} PulledStep(cur: Bytes, pos: nat, queue: seq<Bytes>, n: nat)
    requires pos <= |cur|
    ensures n == 0 ==> Pulled(cur, pos, queue, n) == (cur, pos, queue)
    ensures pos == |cur| && n > 0 && queue == [] ==> Pulled(cur, pos, queue, n) == (cur, pos, queue)
    ensures pos == |cur| && n > 0 && queue != [] ==> Pulled(cur, pos, queue, n) == Pulled(queue[0], 0, queue[1..], n)
    ensures var take := Min(n, |cur| - pos); Pulled(cur, pos, queue, n) == Pulled(cur, pos + take, queue, n - take)
  {
  }

  lemma {:induction false} PulledWithin(cur: Bytes, pos: nat, queue: seq<Bytes>, n: nat)
    requires pos <= |cur| && n > 0
    ensures pos < |cur| && n <= |cur| - pos ==>
              && Pulled(cur, pos, queue, n) == (cur, pos + n, queue) && n <= |cur[pos..] + Concat(queue)|
              && (cur[pos..] + Concat(queue))[..n] == cur[pos..pos + n]
    ensures pos == |cur| && queue == [] ==>
              Pulled(cur, pos, queue, n) == (cur, pos, []) && cur[pos..] + Concat(queue) == []
    ensures pos == |cur| && queue != [] && n <= |queue[0]| ==>
              && Pulled(cur, pos, queue, n) == (queue[0], n, queue[1..]) && n <= |cur[pos..] + Concat(queue)|
              && (cur[pos..] + Concat(queue))[..n] == queue[0][..n]
    ensures queue != [] ==> |Concat(queue)| == |queue[0]| + |Concat(queue[1..])|
  {
    PulledStep(cur, pos, queue, n);
  }

  lemma {:induction false} Associates(a: Bytes, b: Bytes, c: Bytes)
    ensures (a + b) + c == a + (b + c)
  {
  }

  class PeerStreamReader {
    const rx: PeerStreamRxState
    const codec: Codec
    var curBlock: Bytes
    var curPos: nat
    var plainTotal: nat
    var chunks: nat
    var eof: bool
    /** State of the read pipeline. */
    var plFailed: bool
    var plEof: bool

    constructor (rx: PeerStreamRxState, codec: Codec)
      ensures this.rx == rx && this.codec == codec && View() == Begin().rd
    {
      this.rx, this.codec := rx, codec;
      curBlock, curPos, plainTotal, chunks, eof, plFailed, plEof := [], 0, 0, 0, false, false, false;
    }

    ghost function View(): Rd
      reads this
    {
      Rd(curBlock, curPos, plainTotal, chunks, eof, plFailed, plEof)
    }

    ghost predicate Valid()
      reads this, rx
    {
      curPos <= |curBlock| && AllRecords(rx.blocks) && rx.qBytes == |Concat(rx.blocks)|
    }

    /** The compressed bytes the reader has not taken yet. */
    ghost function Unread(): Bytes
      requires curPos <= |curBlock|
      reads this, rx
    {
      curBlock[curPos..] + Concat(rx.blocks)
    }

    lemma {:induction false} NothingUnread()
      requires curPos == |curBlock| && rx.blocks == []
      ensures Unread() == []
    {
    }

    /** The next record becomes current. */
    method PopBlock()
      requires Valid() && curPos == |curBlock| && rx.blocks != []
      modifies this, rx
      ensures Valid() && Unread() == old(Unread()) && rx.haveHdr == old(rx.haveHdr) && rx.pComp == old(rx.pComp)
      ensures var rec := old(rx.blocks)[0];
              && View() == old(View()).(cur := rec, pos := 0)
              && rx.View() == old(rx.View()).(blocks := old(rx.blocks)[1..], qBytes := old(rx.qBytes) - |rec|,
                                              consumed := old(rx.consumed) + |rec|)
    {
      ConcatHead(rx.blocks, []);
      assert Concat(rx.blocks) + [] == Concat(rx.blocks) && Concat(rx.blocks[1..]) + [] == Concat(rx.blocks[1..]);
      hide Concat, IsRecord;
      assert curBlock[curPos..] == [] && [] + Concat(rx.blocks) == Concat(rx.blocks);
      curBlock := rx.blocks[0];
      rx.blocks := rx.blocks[1..];
      rx.qBytes := rx.qBytes - |curBlock|;
      rx.consumed := rx.consumed + |curBlock|;
      curPos := 0;
      assert curBlock[0..] == curBlock;
    }

    /** What of the current record fits into n bytes. */
    method TakeBytes(n: nat) returns (bytes: Bytes)
      requires curPos <= |curBlock|
      modifies `curPos
      ensures |bytes| == Min(n, |curBlock| - old(curPos)) && curPos == old(curPos) + |bytes|
      ensures bytes == curBlock[old(curPos)..curPos]
      ensures old(Unread()) == bytes + Unread()
    {
      var take := Min(n, |curBlock| - curPos);
      bytes := curBlock[curPos..curPos + take];
      assert curBlock[curPos..] == bytes + curBlock[curPos + take..];
      curPos := curPos + take;
    }

    /** Nothing but the cursor and the queue has changed, and no byte is lost. */
    twostate predicate OnlyPulled()
      reads this, rx
    {
      && rx.View() == old(rx.View()).(blocks := rx.blocks, qBytes := rx.qBytes, consumed := rx.consumed)
      && rx.consumed + rx.qBytes == old(rx.consumed + rx.qBytes)
      && View() == old(View()).(cur := curBlock, pos := curPos)
      && rx.haveHdr == old(rx.haveHdr) && rx.pComp == old(rx.pComp)
    }

    /** Bytes from one record: the current one, or the next. */
    method PullSome(n: nat) returns (part: Bytes)
      requires Valid() && n > 0 && (curPos < |curBlock| || rx.blocks != [])
      modifies this, rx
      ensures Valid() && OnlyPulled() && 0 < |part| <= n && |rx.blocks| <= |old(rx.blocks)|
      ensures old(Unread()) == part + Unread()
      ensures Pulled(curBlock, curPos, rx.blocks, n - |part|) == Pulled(old(curBlock), old(curPos), old(rx.blocks), n)
    {
      PulledStep(curBlock, curPos, rx.blocks, n);
      if curPos >= |curBlock| {
        PopBlock();
        PulledStep(curBlock, curPos, rx.blocks, n);
      }
      hide Concat, Pulled;
      part := TakeBytes(n);
    }

    /** Up to n compressed bytes, from as many records as it takes; None at the end of the stream.
        It stops early where the thread would sleep. */
    method Pull(n: nat) returns (r: Option<Bytes>, sleeps: bool)
      requires Valid() && n > 0
      modifies this, rx
      ensures Valid() && OnlyPulled()
      ensures (curBlock, curPos, rx.blocks) == Pulled(old(curBlock), old(curPos), old(rx.blocks), n)
      ensures var got := if r.Some? then r.value else [];
              && old(Unread()) == got + Unread() && |got| <= n
              && (|got| < n ==> Unread() == [] && sleeps == !Ready(rx.View()))
              && (|got| == n ==> !sleeps)
      ensures r.None? <==> old(Unread()) == [] && !sleeps
    {
      ghost var all := Unread();
      var done: Bytes := [];
      sleeps := false;
      assert [] + all == all;
      hide Concat, IsRecord, Pulled, AllRecords, PeerStreamReader.Unread;
      while |done| < n
        invariant Valid() && OnlyPulled() && |done| <= n && all == done + Unread() && !sleeps
        invariant Pulled(curBlock, curPos, rx.blocks, n - |done|) ==
                  Pulled(old(curBlock), old(curPos), old(rx.blocks), n)
        decreases n - |done|
      {
        if curPos >= |curBlock| && rx.blocks == [] {
          NothingUnread();
          sleeps := !rx.endSeen && !rx.failed && !rx.abandoned;
          break;
        }
        var part := PullSome(n - |done|);
        assert done + (part + Unread()) == (done + part) + Unread();
        done := done + part;
      }
      PulledStep(curBlock, curPos, rx.blocks, n - |done|);
      r := if done == [] && !sleeps then None else Some(done);
    }

    /** A pull that stays within one record, as those of the pipeline do; None at the end. */
    method PullWithin(n: nat) returns (r: Option<Bytes>)
      requires Valid() && n > 0 && (curPos < |curBlock| || Ready(rx.View()))
      requires n <= if curPos < |curBlock| then |curBlock| - curPos
                    else if rx.blocks != [] then |rx.blocks[0]| else n
      modifies this, rx
      ensures Valid() && OnlyPulled()
      ensures old(curPos) < |old(curBlock)| ==>
                r == Some(old(curBlock)[old(curPos)..old(curPos) + n]) && curBlock == old(curBlock)
                && curPos == old(curPos) + n && rx.blocks == old(rx.blocks) && rx.qBytes == old(rx.qBytes)
      ensures old(curPos) == |old(curBlock)| && old(rx.blocks) == [] ==>
                r == None && rx.blocks == old(rx.blocks) && rx.qBytes == old(rx.qBytes) && View() == old(View())
      ensures old(curPos) == |old(curBlock)| && old(rx.blocks) != [] ==>
                var rec := old(rx.blocks)[0];
                r == Some(rec[..n]) && curBlock == rec && curPos == n && rx.blocks == old(rx.blocks)[1..]
                && rx.qBytes == old(rx.qBytes) - |rec|
    {
      PulledWithin(curBlock, curPos, rx.blocks, n);
      hide Concat, Pulled, IsRecord;
      ghost var all := Unread();
      var sleeps;
      r, sleeps := Pull(n);
      ghost var got := if r.Some? then r.value else [];
      assert |all| >= n ==> |got| == n && got == all[..n];
    }

    /** The next block of the pipeline: header, size limits, payload, checksum, decompression. */
    method NextBlock() returns (plain: Option<Bytes>)
      requires Valid() && curPos == |curBlock| && (plFailed || plEof || Ready(rx.View()))
      modifies this, rx
      ensures Valid()
      ensures old(plFailed || plEof) ==> plain == None && View() == old(View()) && rx.View() == old(rx.View())
      ensures !old(plFailed || plEof) && old(rx.blocks) == [] ==>
                plain == None && View() == old(View()).(drained := true) && rx.View() == old(rx.View())
      ensures !old(plFailed || plEof) && old(rx.blocks) != [] ==>
                var rec := old(rx.blocks)[0];
                && IsRecord(rec) && plain == Decode(codec, rec)
                && rx.View() == old(rx.View()).(blocks := old(rx.blocks)[1..], qBytes := old(rx.qBytes) - |rec|,
                                                consumed := old(rx.consumed) + |rec|)
                && (plain.None? ==> View() == old(View()).(cur := rec, pos := RejectAt(rec), broken := true))
                && (plain.Some? ==> View() == old(View()).(cur := rec, pos := |rec|))
      ensures rx.haveHdr == old(rx.haveHdr) && rx.pComp == old(rx.pComp)
    {
      if plFailed || plEof {
        return None;
      }
      hide Unpack, FromLittleEndian, Concat;
      ghost var queue := rx.blocks;
      var hdr := PullWithin(16);
      if hdr.None? {
        plEof := true;
        return None;
      }
      ghost var rec := queue[0];
      var h := hdr.value;
      assert h[..4] == rec[..4] && h[4..8] == rec[4..8] && h[8..16] == rec[8..16];
      var size, comp, crc := FromLittleEndian(h[..4]), PayloadSize(h), FromLittleEndian(h[8..16]);
      if size > MAX_WIRE || comp > MAX_WIRE {
        plFailed := true;
        return None;
      }
      var payload: Bytes := [];
      if comp > 0 {
        var body := PullWithin(comp);
        payload := body.value;
      }
      assert payload == rec[16..];
      plain := Unpack(codec, size, crc, payload);
      plFailed := plain.None?;
    }

    /** The next plaintext block becomes current; at the end, the totals must match. */
    method AdvanceBlock() returns (ok: bool)
      requires Valid() && curPos == |curBlock| && (eof || plFailed || plEof || Ready(rx.View()))
      modifies this, rx
      ensures Valid()
      ensures old(rx.qBytes >= if rx.blocks == [] then 0 else |rx.blocks[0]|) &&
              (rx.View(), View(), ok) == Advance(codec, old(rx.View()), old(View()))
    {
      FirstInQueue(rx.View());
      if eof || plFailed {
        return false;
      }
      hide Decode, IsRecord;
      var b := NextBlock();
      if b.None? {
        if !plFailed && rx.endSeen && plainTotal == rx.end.plain && chunks == rx.end.chunks
           && rx.consumed == rx.end.consumed {
          eof := true;
          return false;
        }
        rx.failed := true;
        return false;
      }
      curBlock, curPos := b.value, 0;
      plainTotal := plainTotal + |b.value|;
      chunks := chunks + 1;
      ok := true;
    }

    /** The plaintext already at hand: the rest of the current block and the queued records. */
    ghost function Ahead(): Option<Bytes>
      requires Valid()
      reads this, rx
    {
      if plFailed || Decoded(codec, rx.blocks).None? then None
      else Some(curBlock[curPos..] + Decoded(codec, rx.blocks).value)
    }

    /** Advancing moves the next record's plaintext into the current block. */
    method NextCurrent() returns (ok: bool)
      requires Valid() && curPos == |curBlock| && (eof || plFailed || plEof || Ready(rx.View()))
      modifies this, rx
      ensures Valid() && (ok ==> |rx.blocks| < |old(rx.blocks)|) && |rx.blocks| <= |old(rx.blocks)|
      ensures old(Ahead()).Some? ==> Ahead() == old(Ahead())
      ensures old(Ahead()).Some? && !ok ==> old(eof || plEof || rx.blocks == []) && rx.blocks == old(rx.blocks)
      ensures !ok ==> eof || rx.failed || plFailed
      ensures ok ==> !eof && !plEof
    {
      hide Decode, IsRecord;
      ghost var q := rx.blocks;
      assert curBlock[curPos..] == [];
      ok := AdvanceBlock();
      if ok {
        assert rx.blocks == q[1..];
        assert curBlock[curPos..] == curBlock;
      }
      assert forall x: Bytes :: [] + x == x;
    }

    method CopyBytes(n: nat) returns (bytes: Bytes)
      requires Valid()
      modifies `curPos
      ensures Valid() && |bytes| == Min(n, |curBlock| - old(curPos))
      ensures old(Ahead()).Some? ==> Ahead().Some? && old(Ahead()).value == bytes + Ahead().value
    {
      hide Decoded;
      var take := Min(n, |curBlock| - curPos);
      bytes := curBlock[curPos..curPos + take];
      assert curBlock[curPos..] == bytes + curBlock[curPos + take..];
      curPos := curPos + take;
    }

    /** Copy up to n plaintext bytes, block after block. It stops early where the thread would
        sleep, at the end, or on a failure. */
    method ReadSpan(n: nat) returns (out: Bytes, sleeps: bool)
      requires Valid()
      modifies this, rx
      ensures Valid() && |out| <= n && (sleeps ==> !Ready(rx.View()))
      ensures old(Ahead()).Some? ==> Ahead().Some? && old(Ahead()).value == out + Ahead().value
      ensures |out| < n && !sleeps ==> eof || rx.failed || plFailed
      ensures old(Ahead()).Some? && |out| < n && !old(eof || plEof) ==> Ahead().value == []
    {
      NothingDecoded(codec);
      hide Decoded, AllRecords, Concat, IsRecord;
      out, sleeps := [], false;
      while |out| < n
        invariant Valid() && |out| <= n && !sleeps
        invariant old(Ahead()).Some? ==> Ahead().Some? && old(Ahead()).value == out + Ahead().value
        invariant !old(eof || plEof) ==> !eof && !plEof
        decreases |rx.blocks|, n - |out|
      {
        if curPos >= |curBlock| {
          if !eof && !plFailed && !plEof && rx.blocks == [] && !rx.endSeen && !rx.failed && !rx.abandoned {
            sleeps := true;
            break;
          }
          var ok := NextCurrent();
          if !ok { break; }
        }
        ghost var before := Ahead();
        var bytes := CopyBytes(n - |out|);
        if before.Some? {
          Associates(out, bytes, Ahead().value);
        }
        out := out + bytes;
      }
    }

    /** A read call: the bytes, unless the stream has failed, in which case it throws. */
    method Read(n: nat) returns (r: Option<Bytes>, sleeps: bool)
      requires Valid()
      modifies this, rx
      ensures Valid() && (r.None? <==> rx.failed && !eof)
      ensures r.Some? ==> |r.value| <= n
      ensures r.Some? && old(Ahead()).Some? ==> Ahead().Some? && old(Ahead()).value == r.value + Ahead().value
      ensures r.Some? && |r.value| < n && !sleeps ==> eof || plFailed
    {
      var out: Bytes := [];
      sleeps := false;
      if n > 0 {
        out, sleeps := ReadSpan(n);
      } else {
        assert Ahead().Some? ==> [] + Ahead().value == Ahead().value;
      }
      if rx.failed && !eof {
        return None, sleeps;
      }
      r := Some(out);
    }
  }
}
