/**
 * The relay's binary data frame, [stream id : 4][length : 4][payload], as the server, the daemon and the
 * mobile client each write and read it.
 */
module WireFrame {
  import opened Basics
  import opened WsFrames

  const MAX_CHUNK := 32 * 1024
  const TWO_32 := 0x1_0000_0000

  datatype Decoded = Malformed | Data(id: nat, payload: Bytes)

  /** The one format: big-endian words, lengths beyond 32 bits truncated. */
  function Wire(id: nat, payload: Bytes): Bytes {
    BeBytes(id, 4) + BeBytes(|payload|, 4) + payload
  }

  // ---- the three decoders ----

  function ServerDecode(b: Bytes): Decoded {
    if |b| < 8 then Malformed
    else
      var id, n := Be(b[0..4]), Be(b[4..8]);
      if n > MAX_CHUNK then Malformed
      else if n != |b| - 8 then Malformed
      else Data(id, b[8..])
  }

  /** A word put together by shifts. */
  function Word(b0: bv8, b1: bv8, b2: bv8, b3: bv8): bv32 {
    ((b0 as bv32) << 24) | ((b1 as bv32) << 16) | ((b2 as bv32) << 8) | (b3 as bv32)
  }

  function DaemonDecode(b: Bytes): Decoded {
    if |b| < 8 then Malformed
    else
      var id, n := Word(b[0], b[1], b[2], b[3]) as int, Word(b[4], b[5], b[6], b[7]) as int;
      if n != |b| - 8 then Malformed else Data(id, b[8..])
  }

  function MobileDecode(raw: Bytes): Decoded {
    if |raw| < 8 then Malformed
    else
      var id, len := Be(raw[0..4]), Be(raw[4..8]);
      if len != |raw| - 8 then Malformed else Data(id, raw[8..])
  }

  // ---- words ----

  lemma BePushed(front: Bytes, last: bv8)
    ensures Be(front + [last]) == 256 * Be(front) + last as int
  {
    assert (front + [last])[..|front|] == front;
  }

  lemma {:induction false} BeBytesBe(bytes: Bytes)
    ensures BeBytes(Be(bytes), |bytes|) == bytes
  {
    if bytes != [] {
      var front, last := bytes[..|bytes| - 1], bytes[|bytes| - 1];
      assert front + [last] == bytes;
      BeBytesBe(front);
      BePushed(front, last);
      hide Be;
      ByteFits(last);
      LowByte(Be(front), last as int);
    }
  }

  lemma {:induction false} BeBounded(bytes: Bytes)
    ensures Be(bytes) < Pow256(|bytes|)
  {
    if bytes != [] {
      BeBounded(bytes[..|bytes| - 1]);
      ByteFits(bytes[|bytes| - 1]);
    }
  }

  lemma ByteFits(b: bv8)
    ensures (b as int) as bv8 == b && b as int < 256
  {
  }

  lemma LowByte(high: nat, low: nat)
    requires low < 256
    ensures (256 * high + low) / 256 == high && (256 * high + low) % 256 == low
  {
  }

  lemma Pow256Four()
    ensures Pow256(4) == TWO_32
  {
  }

  lemma WordValue(b0: bv8, b1: bv8, b2: bv8, b3: bv8)
    ensures (((b0 as bv32) << 24) | ((b1 as bv32) << 16) | ((b2 as bv32) << 8) | (b3 as bv32)) as int
         == ((b0 as int * 256 + b1 as int) * 256 + b2 as int) * 256 + b3 as int
  {
  }

  lemma BeOfFour(bytes: Bytes)
    requires |bytes| == 4
    ensures Be(bytes) == ((bytes[0] as int * 256 + bytes[1] as int) * 256 + bytes[2] as int) * 256 + bytes[3] as int
  {
    assert bytes[..3][..2] == bytes[..2] && bytes[..2][..1] == bytes[..1] && bytes[..1][..0] == [];
    assert Be(bytes[..1]) == bytes[0] as int;
    assert Be(bytes[..2]) == 256 * Be(bytes[..1]) + bytes[1] as int;
    assert Be(bytes[..3]) == 256 * Be(bytes[..2]) + bytes[2] as int;
  }

  /** The shifted word is the big-endian number. */
  lemma WordIsBe(bytes: Bytes)
    requires |bytes| == 4
    ensures Word(bytes[0], bytes[1], bytes[2], bytes[3]) as int == Be(bytes)
  {
    hide Be;
    WordValue(bytes[0], bytes[1], bytes[2], bytes[3]);
    BeOfFour(bytes);
  }

  /** Eight bytes and a rest are a wire frame exactly when the words say so. */
  lemma WireExact(b: Bytes, id: nat, payload: Bytes)
    requires |b| >= 8
    ensures id < TWO_32 && |payload| < TWO_32 ==>
              (b == Wire(id, payload) <==> id == Be(b[0..4]) && |payload| == Be(b[4..8]) && payload == b[8..])
    ensures Be(b[0..4]) < TWO_32 && Be(b[4..8]) < TWO_32
  {
    BeBytesBe(b[0..4]);
    BeBytesBe(b[4..8]);
    BeBounded(b[0..4]);
    BeBounded(b[4..8]);
    Pow256Four();
    if id < TWO_32 && |payload| < TWO_32 {
      BeBack(id, 4);
      BeBack(|payload|, 4);
      hide BeBytes, Be;
      assert b == b[0..4] + b[4..8] + b[8..];
      if b == Wire(id, payload) {
        Layout(BeBytes(id, 4), BeBytes(|payload|, 4), payload);
      }
    }
  }

  lemma Layout(a: Bytes, c: Bytes, d: Bytes)
    requires |a| == |c| == 4
    ensures (a + c + d)[0..4] == a && (a + c + d)[4..8] == c && (a + c + d)[8..] == d
  {
  }

  // ---- the main results ----

  /** The server accepts a byte string exactly when it encodes a 32-bit id and a payload of up to 32 KiB. */
  lemma ServerAccepts(b: Bytes, id: nat, payload: Bytes)
    ensures ServerDecode(b) == Data(id, payload) <==> id < TWO_32 && |payload| <= MAX_CHUNK && b == Wire(id, payload)
  {
    if |b| >= 8 { WireExact(b, id, payload); }
    hide BeBytes, Be;
  }

  /** The daemon accepts longer payloads too, as long as their length is a 32-bit number. */
  lemma DaemonAccepts(b: Bytes, id: nat, payload: Bytes)
    ensures DaemonDecode(b) == Data(id, payload) <==> id < TWO_32 && |payload| < TWO_32 && b == Wire(id, payload)
  {
    if |b| >= 8 {
      WireExact(b, id, payload);
      WordIsBe(b[0..4]);
      WordIsBe(b[4..8]);
    }
    hide BeBytes, Be, Word;
  }

  /** All three read every byte string alike, but for the server's limit. */
  lemma DecodersAgree(b: Bytes)
    ensures MobileDecode(b) == DaemonDecode(b)
    ensures ServerDecode(b) == if |b| > 8 + MAX_CHUNK then Malformed else DaemonDecode(b)
  {
    if |b| >= 8 {
      WordIsBe(b[0..4]);
      WordIsBe(b[4..8]);
    }
    hide Be, Word;
  }

  /** Whatever any end encodes within the limits, every end reads back. */
  lemma EncodedReadsBack(id: nat, payload: Bytes)
    requires id < TWO_32 && |payload| <= MAX_CHUNK
    ensures ServerDecode(Wire(id, payload)) == DaemonDecode(Wire(id, payload)) == MobileDecode(Wire(id, payload))
            == Data(id, payload)
  {
    ServerAccepts(Wire(id, payload), id, payload);
    DaemonAccepts(Wire(id, payload), id, payload);
    DecodersAgree(Wire(id, payload));
    hide Wire, ServerDecode, DaemonDecode, MobileDecode;
  }

  // ---- the three encoders ----

  /** Writes a word big-endian, its last byte first. */
  method PutUint32(out: array<bv8>, at: nat, v: nat)
    requires at + 4 <= out.Length
    modifies out
    ensures out[at..at + 4] == BeBytes(v, 4)
    ensures forall k :: 0 <= k < out.Length && !(at <= k < at + 4) ==> out[k] == old(out[k])
  {
    var rest, i := v, 4;
    while i > 0
      invariant 0 <= i <= 4
      invariant BeBytes(rest, i) + out[at + i..at + 4] == BeBytes(v, 4)
      invariant forall k :: 0 <= k < out.Length && !(at <= k < at + 4) ==> out[k] == old(out[k])
    {
      i := i - 1;
      out[at + i] := (rest % 256) as bv8;
      rest := rest / 256;
      assert out[at + i..at + 4] == [out[at + i]] + out[at + i + 1..at + 4];
    }
  }

  /** The low byte of a word shifted right, the shift given as its power of two. */
  function ByteAt(v: nat, shift: nat): bv8
    requires shift > 0
  {
    (v / shift % 256) as bv8
  }

  lemma BeFour(v: nat)
    ensures BeBytes(v, 4) == [ByteAt(v, 0x100_0000), ByteAt(v, 0x1_0000), ByteAt(v, 0x100), ByteAt(v, 1)]
  {
    assert v / 256 / 256 == v / 0x1_0000 && v / 256 / 256 / 256 == v / 0x100_0000;
    assert BeBytes(v / 0x100_0000, 1) == [ByteAt(v, 0x100_0000)];
    assert BeBytes(v / 0x1_0000, 2) == [ByteAt(v, 0x100_0000), ByteAt(v, 0x1_0000)];
    assert BeBytes(v / 0x100, 3) == [ByteAt(v, 0x100_0000), ByteAt(v, 0x1_0000), ByteAt(v, 0x100)];
  }

  /** None stands for the error. */
  method ServerEncode(streamID: nat, payload: Bytes) returns (r: Option<Bytes>)
    requires streamID < TWO_32
    ensures r == if |payload| > MAX_CHUNK then None else Some(Wire(streamID, payload))
  {
    if |payload| > MAX_CHUNK { return None; }
    var frame := BigEndianFrame(streamID, payload);
    r := Some(frame);
  }

  /** No limit on the payload, and the id is truncated like the length. */
  method MobileEncode(streamId: nat, payload: Bytes) returns (frame: Bytes)
    ensures frame == Wire(streamId, payload)
  {
    frame := BigEndianFrame(streamId, payload);
  }

  method BigEndianFrame(streamId: nat, payload: Bytes) returns (frame: Bytes)
    ensures frame == Wire(streamId, payload)
  {
    var out := new bv8[8 + |payload|](i => 0);
    PutUint32(out, 0, streamId);
    PutUint32(out, 4, |payload|);
    CopyInto(out, payload);
    frame := out[..];
    assert frame[0..4] == BeBytes(streamId, 4) && frame[4..8] == BeBytes(|payload|, 4) && frame[8..] == payload;
    hide BeBytes;
    assert frame == frame[0..4] + frame[4..8] + frame[8..];
  }

  method CopyInto(out: array<bv8>, payload: Bytes)
    requires out.Length == 8 + |payload|
    modifies out
    ensures out[8..] == payload && out[..8] == old(out[..8])
  {
    for i := 0 to |payload|
      invariant out[8..8 + i] == payload[..i]
      invariant out[..8] == old(out[..8])
    {
      out[8 + i] := payload[i];
    }
  }

  /** The four bytes the daemon shifts out of a word. */
  function ShiftedOut(v: bv32): Bytes {
    [((v >> 24) & 0xFF) as bv8, ((v >> 16) & 0xFF) as bv8, ((v >> 8) & 0xFF) as bv8, (v & 0xFF) as bv8]
  }

  lemma ShiftedBack(v: bv32)
    ensures var b := ShiftedOut(v); Word(b[0], b[1], b[2], b[3]) == v
  {
  }

  lemma ShiftedIsBe(v: bv32)
    ensures ShiftedOut(v) == BeBytes(v as int, 4)
  {
    ShiftedBack(v);
    var bytes := ShiftedOut(v);
    assert |bytes| == 4;
    hide ShiftedOut, BeBytes, Be, Word;
    WordIsBe(bytes);
    BeBytesBe(bytes);
  }

  /** A number of at most 32 bits survives being made a word. */
  lemma WordBack(k: nat)
    requires k < TWO_32
    ensures (k as bv32) as int == k
  {
    var bytes := BeBytes(k, 4);
    Pow256Four();
    BeBack(k, 4);
    hide BeBytes, Be;
    WordIsBe(bytes);
    hide Word;
    SameWord(k, Word(bytes[0], bytes[1], bytes[2], bytes[3]));
  }

  lemma SameWord(k: nat, v: bv32)
    requires v as int == k
    ensures k < TWO_32 && (k as bv32) as int == k
  {
    assert k as bv32 == v;
  }

  method DaemonEncode(streamID: bv32, payload: Bytes) returns (frame: Bytes)
    ensures frame == Wire(streamID as int, payload)
  {
    hide BeBytes, ByteAt, ShiftedOut;
    var out := new bv8[8 + |payload|](i => 0);
    PutShifted(out, 0, streamID);
    var n := (|payload| % TWO_32) as bv32;
    WordBack(|payload| % TWO_32);
    LengthTruncated(|payload|);
    ghost var id := out[0..4];
    PutShifted(out, 4, n);
    ghost var len := out[4..8];
    assert out[0..4] == id;
    CopyInto(out, payload);
    frame := out[..];
    assert frame[0..4] == id;
    assert frame[4..8] == len;
    assert frame == frame[0..4] + frame[4..8] + frame[8..];
  }

  method PutShifted(out: array<bv8>, at: nat, v: bv32)
    requires at + 4 <= out.Length
    modifies out
    ensures out[at..at + 4] == BeBytes(v as int, 4)
    ensures forall k :: 0 <= k < out.Length && !(at <= k < at + 4) ==> out[k] == old(out[k])
  {
    out[at], out[at + 1] := ((v >> 24) & 0xFF) as bv8, ((v >> 16) & 0xFF) as bv8;
    out[at + 2], out[at + 3] := ((v >> 8) & 0xFF) as bv8, (v & 0xFF) as bv8;
    assert out[at..at + 4] == ShiftedOut(v);
    ShiftedIsBe(v);
  }

  lemma LengthTruncated(v: nat)
    ensures BeBytes(v % TWO_32, 4) == BeBytes(v, 4)
  {
    hide BeBytes, ByteAt;
    BeFour(v);
    BeFour(v % TWO_32);
    Truncated(v);
  }

  /** Truncating to 32 bits first changes none of the four bytes. */
  lemma Truncated(v: nat)
    ensures var n := v % TWO_32;
            && ByteAt(n, 0x100_0000) == ByteAt(v, 0x100_0000) && ByteAt(n, 0x1_0000) == ByteAt(v, 0x1_0000)
            && ByteAt(n, 0x100) == ByteAt(v, 0x100) && ByteAt(n, 1) == ByteAt(v, 1)
  {
    var q, n := v / TWO_32, v % TWO_32;
    assert v == TWO_32 * q + n;
    assert v / 0x100_0000 == 0x100 * q + n / 0x100_0000;
    assert v / 0x1_0000 == 0x1_0000 * q + n / 0x1_0000;
    assert v / 0x100 == 0x100_0000 * q + n / 0x100;
    SameLowByte(v / 0x100_0000, n / 0x100_0000, q);
    SameLowByte(v / 0x1_0000, n / 0x1_0000, 0x100 * q);
    SameLowByte(v / 0x100, n / 0x100, 0x1_0000 * q);
    SameLowByte(v, n, 0x100_0000 * q);
  }

  lemma SameLowByte(v: nat, n: nat, q: nat)
    requires v == 0x100 * q + n
    ensures v % 256 == n % 256
  {
  }
}
