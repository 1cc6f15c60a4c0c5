/**
 * WebSocket frames as the mobile client reads and writes them (sections 5.2 to 5.4 of RFC 6455): the
 * reference decoding of a byte stream, the encoder, and what a parser fed in pieces owes to both.
 */
module WsFrames {
  import opened Basics

  type Bytes = seq<bv8>

  /** One frame off the wire, unmasked. */
  datatype Raw = Raw(fin: bool, opcode: bv8, payload: Bytes)

  datatype Message = Message(opcode: bv8, payload: Bytes)

  /** Bad: where the frame ends does not fit a signed 64-bit integer, and the read of the payload throws. */
  datatype Parsed = NeedMore | Bad | Frame(raw: Raw, size: nat)

  const TWO_63 := 0x8000_0000_0000_0000

  // ---- one frame ----

  /** A big-endian number. */
  function Be(bytes: Bytes): nat {
    if bytes == [] then 0 else 256 * Be(bytes[..|bytes| - 1]) + bytes[|bytes| - 1] as int
  }

  /** The bytes of an extended length. */
  function ExtSize(b1: bv8): nat {
    if b1 & 0x7F == 126 then 2 else if b1 & 0x7F == 127 then 8 else 0
  }

  function MaskSize(b1: bv8): nat {
    if b1 & 0x80 != 0 then 4 else 0
  }

  function Unmasked(payload: Bytes, mask: Bytes): Bytes
    requires |mask| == 0 || |mask| == 4
  {
    if mask == [] then payload else seq(|payload|, i requires 0 <= i < |payload| => payload[i] ^ mask[i % 4])
  }

  function PayloadSize(buf: Bytes): nat
    requires |buf| >= 2 && |buf| >= 2 + ExtSize(buf[1])
  {
    if ExtSize(buf[1]) == 0 then (buf[1] & 0x7F) as int else Be(buf[2..2 + ExtSize(buf[1])])
  }

  /** The first frame of some bytes, as soon as all of it is there. */
  function Parse(buf: Bytes): Parsed {
    if |buf| < 2 || |buf| < 2 + ExtSize(buf[1]) + MaskSize(buf[1]) then NeedMore
    else
      var start := 2 + ExtSize(buf[1]);
      var off, len := start + MaskSize(buf[1]), PayloadSize(buf);
      if off + len >= TWO_63 then Bad
      else if |buf| < off + len then NeedMore
      else Frame(Raw(buf[0] & 0x80 != 0, buf[0] & 0x0F, Unmasked(buf[off..off + len], buf[start..off])), off + len)
  }

  // ---- the reference decoding of a stream ----

  /** bytes not yet decoded, and the message under assembly. */
  datatype State = State(buf: Bytes, frag: Bytes, fragOpcode: bv8)

  const FRESH := State([], [], 0)

  /** The message a frame completes, if it does. */
  function Completed(s: State, f: Raw): Option<Message> {
    if !f.fin then None
    else if f.opcode == 0 then Some(Message(s.fragOpcode, s.frag + f.payload))
    else Some(Message(f.opcode, f.payload))
  }

  /** What a frame makes of the message under assembly. */
  function Assembled(s: State, f: Raw): State {
    if f.opcode == 0 then s.(frag := if f.fin then [] else s.frag + f.payload)
    else if !f.fin then s.(frag := f.payload, fragOpcode := f.opcode)
    else s
  }

  function Taken(s: State, f: Raw, size: nat): State
    requires size <= |s.buf|
  {
    Assembled(s.(buf := s.buf[size..]), f)
  }

  lemma ParseSize(buf: Bytes)
    requires Parse(buf).Frame?
    ensures 2 <= Parse(buf).size <= |buf|
  {
  }

  /** Every message complete in the bytes at hand, fragments put together. */
  function Decode(s: State): seq<Message>
    decreases |s.buf|
  {
    match Parse(s.buf)
    case Frame(f, size) =>
      ParseSize(s.buf);
      (if Completed(s, f).Some? then [Completed(s, f).value] else []) + Decode(Taken(s, f, size))
    case _ => []
  }

  // ---- the parser ----

  /** One attempt: a message, or null - for want of bytes, and also after a frame that completes none. */
  datatype Attempt = Null(after: State) | Got(msg: Message, after: State) | Thrown

  function Try(s: State): Attempt {
    match Parse(s.buf)
    case NeedMore => Null(s)
    case Bad => Thrown
    case Frame(f, size) =>
      ParseSize(s.buf);
      if Completed(s, f).Some? then Got(Completed(s, f).value, Taken(s, f, size)) else Null(Taken(s, f, size))
  }

  /** The messages found, which a throw keeps from being returned; what was consumed stays consumed. */
  datatype Fed = Fed(found: seq<Message>, after: State, threw: bool)

  function Out(fed: Fed): seq<Message> {
    if fed.threw then [] else fed.found
  }

  lemma GotShrinks(s: State)
    requires Try(s).Got?
    ensures |Try(s).after.buf| < |s.buf|
  {
    ParseSize(s.buf);
  }

  /** Attempts until the first null. */
  function Drain(s: State): Fed
    decreases |s.buf|
  {
    match Try(s)
    case Null(after) => Fed([], after, false)
    case Thrown => Fed([], s, true)
    case Got(msg, after) =>
      GotShrinks(s);
      var rest := Drain(after);
      rest.(found := [msg] + rest.found)
  }

  function More(s: State, chunk: Bytes): State {
    s.(buf := s.buf + chunk)
  }

  function Feed(s: State, chunk: Bytes): Fed {
    Drain(More(s, chunk))
  }

  /** lost: messages found by a feed that threw. */
  datatype Session = Session(out: seq<Message>, lost: seq<Message>, after: State, threw: bool)

  /** Chunk after chunk, whether or not one of them throws. */
  function FeedAll(s: State, chunks: seq<Bytes>): Session
    decreases chunks
  {
    if chunks == [] then Session([], [], s, false)
    else
      var fed := Feed(s, chunks[0]);
      var rest := FeedAll(fed.after, chunks[1..]);
      Session(Out(fed) + rest.out, (if fed.threw then fed.found else []) + rest.lost, rest.after,
              fed.threw || rest.threw)
  }

  function Concat(chunks: seq<Bytes>): Bytes
    decreases chunks
  {
    if chunks == [] then [] else chunks[0] + Concat(chunks[1..])
  }

  // ---- any split of a stream ----

  lemma SizeStable(buf: Bytes, more: Bytes)
    requires |buf| >= 2 && |buf| >= 2 + ExtSize(buf[1])
    ensures PayloadSize(buf + more) == PayloadSize(buf)
  {
    hide Be, ExtSize;
    assert (buf + more)[2..2 + ExtSize(buf[1])] == buf[2..2 + ExtSize(buf[1])];
  }

  /** Further bytes change nothing about a frame already complete. */
  lemma ParseStable(buf: Bytes, more: Bytes)
    requires !Parse(buf).NeedMore?
    ensures Parse(buf + more) == Parse(buf)
  {
    hide PayloadSize, Unmasked, ExtSize, MaskSize;
    var all, start := buf + more, 2 + ExtSize(buf[1]);
    assert all[0] == buf[0] && all[1] == buf[1];
    SizeStable(buf, more);
    var off, len := start + MaskSize(buf[1]), PayloadSize(buf);
    if off + len < TWO_63 {
      SliceStable(buf, more, start, off);
      SliceStable(buf, more, off, off + len);
    }
  }

  lemma SliceStable(buf: Bytes, more: Bytes, i: nat, j: nat)
    requires i <= j <= |buf|
    ensures (buf + more)[i..j] == buf[i..j]
  {
  }

  lemma TakenMore(s: State, f: Raw, size: nat, x: Bytes)
    requires size <= |s.buf|
    ensures Taken(More(s, x), f, size) == More(Taken(s, f, size), x)
  {
    assert (s.buf + x)[size..] == s.buf[size..] + x;
  }

  /** Decoding takes a complete first frame off, whatever follows it. */
  lemma DecodeStep(s: State, x: Bytes)
    requires Parse(s.buf).Frame?
    ensures var f, size := Parse(s.buf).raw, Parse(s.buf).size;
            && 2 <= size <= |s.buf|
            && Decode(More(s, x)) == (if Completed(s, f).Some? then [Completed(s, f).value] else [])
               + Decode(More(Taken(s, f, size), x))
  {
    ParseSize(s.buf);
    ParseStable(s.buf, x);
    TakenMore(s, Parse(s.buf).raw, Parse(s.buf).size, x);
    hide Parse;
  }

  /** What one feed finds and what it leaves make up the decoding, even with bytes still to come. */
  lemma {:induction false} DrainExact(s: State, x: Bytes)
    ensures Decode(More(s, x)) == Drain(s).found + Decode(More(Drain(s).after, x))
    decreases |s.buf|
  {
    hide Parse, Decode, Completed, Taken;
    if Parse(s.buf).Frame? {
      DecodeStep(s, x);
      if Try(s).Got? {
        var m, after := Try(s).msg, Try(s).after;
        GotShrinks(s);
        DrainExact(after, x);
        hide Drain, More;
        Regroup([m], Drain(after).found, Decode(More(Drain(after).after, x)));
      }
    }
  }

  lemma {:induction false} DrainThrew(s: State)
    ensures Drain(s).threw ==> Parse(Drain(s).after.buf).Bad?
    decreases |s.buf|
  {
    if Try(s).Got? {
      GotShrinks(s);
      DrainThrew(Try(s).after);
    }
    hide Parse;
  }

  /** An unreadable length at the front stays there: nothing is found any more. */
  lemma {:induction false} FeedAllBad(s: State, chunks: seq<Bytes>)
    requires Parse(s.buf).Bad?
    ensures var all := FeedAll(s, chunks); all.out == [] && all.lost == []
    decreases chunks
  {
    if chunks != [] {
      ParseStable(s.buf, chunks[0]);
      hide Parse;
      FeedAllBad(More(s, chunks[0]), chunks[1..]);
    }
  }

  lemma {:induction false} FeedAllExact(s: State, chunks: seq<Bytes>, x: Bytes)
    ensures var all := FeedAll(s, chunks);
            Decode(More(s, Concat(chunks) + x)) == all.out + (all.lost + Decode(More(all.after, x)))
    decreases chunks
  {
    hide Decode, Drain, Parse, More;
    if chunks == [] {
      assert [] + x == x;
    } else {
      var fed, rest := Feed(s, chunks[0]), Concat(chunks[1..]) + x;
      DrainExact(More(s, chunks[0]), rest);
      DrainThrew(More(s, chunks[0]));
      FeedAllExact(fed.after, chunks[1..], x);
      if fed.threw { FeedAllBad(fed.after, chunks[1..]); }
      MoreAgain(s, chunks[0], Concat(chunks[1..]), x);
      var all := FeedAll(fed.after, chunks[1..]);
      Shared(fed, all.out, all.lost, Decode(More(all.after, x)));
      hide Out;
    }
  }

  lemma MoreAgain(s: State, a: Bytes, b: Bytes, c: Bytes)
    ensures More(More(s, a), b + c) == More(s, a + b + c)
  {
    assert s.buf + a + (b + c) == s.buf + (a + b + c);
  }

  /** What a feed found goes out or is lost. */
  lemma Shared(fed: Fed, out: seq<Message>, lost: seq<Message>, held: seq<Message>)
    requires fed.threw ==> out == [] && lost == []
    ensures fed.found + (out + (lost + held)) == Out(fed) + out + ((if fed.threw then fed.found else []) + lost + held)
  {
  }

  /**
   * However a stream is cut and whatever throws: the messages emitted start its decoding, followed by those a
   * throwing feed lost and those the parser still holds.
   */
  lemma AnySplit(chunks: seq<Bytes>)
    ensures var all, stream := FeedAll(FRESH, chunks), Decode(FRESH.(buf := Concat(chunks)));
            all.out <= stream && stream == all.out + (all.lost + Decode(all.after))
  {
    FeedAllExact(FRESH, chunks, []);
    var after := FeedAll(FRESH, chunks).after;
    assert More(FRESH, Concat(chunks) + []) == FRESH.(buf := Concat(chunks)) && More(after, []) == after;
  }

  // ---- when a feed lags, and when it throws, read off the bytes ----

  /** A complete final frame somewhere ahead of any unreadable length. */
  predicate HasFinal(buf: Bytes)
    decreases |buf|
  {
    match Parse(buf)
    case Frame(f, size) =>
      ParseSize(buf);
      f.fin || HasFinal(buf[size..])
    case _ => false
  }

  /** A non-final frame with a complete final frame somewhere behind it. */
  predicate Lags(buf: Bytes)
    decreases |buf|
  {
    match Parse(buf)
    case Frame(f, size) =>
      ParseSize(buf);
      if f.fin then Lags(buf[size..]) else HasFinal(buf[size..])
    case _ => false
  }

  /** An unreadable length behind final frames only. */
  predicate Stuck(buf: Bytes)
    decreases |buf|
  {
    match Parse(buf)
    case NeedMore => false
    case Bad => true
    case Frame(f, size) =>
      ParseSize(buf);
      f.fin && Stuck(buf[size..])
  }

  lemma {:induction false} HasFinalIff(s: State)
    ensures HasFinal(s.buf) <==> Decode(s) != []
    decreases |s.buf|
  {
    if Parse(s.buf).Frame? {
      ParseSize(s.buf);
      var f, size := Parse(s.buf).raw, Parse(s.buf).size;
      hide Parse;
      HasFinalIff(Taken(s, f, size));
    }
  }

  lemma {:induction false} DrainLags(s: State)
    ensures Drain(s).threw <==> Stuck(s.buf)
    ensures !Drain(s).threw ==> (Decode(Drain(s).after) == [] <==> !Lags(s.buf))
    decreases |s.buf|
  {
    if Parse(s.buf).Frame? {
      ParseSize(s.buf);
      var f, size := Parse(s.buf).raw, Parse(s.buf).size;
      hide Parse, Decode;
      HasFinalIff(Taken(s, f, size));
      if f.fin { DrainLags(Taken(s, f, size)); }
    }
  }

  /**
   * A feed throws exactly when an unreadable length stands behind final frames only; otherwise it emits the whole
   * decoding exactly when no non-final frame has a complete final frame behind it.
   */
  lemma FeedLagsIff(s: State, chunk: Bytes)
    ensures Feed(s, chunk).threw <==> Stuck(s.buf + chunk)
    ensures !Stuck(s.buf + chunk) ==> (Out(Feed(s, chunk)) == Decode(More(s, chunk)) <==> !Lags(s.buf + chunk))
  {
    var n := More(s, chunk);
    DrainLags(n);
    DrainExact(n, []);
    var after := Drain(n).after;
    assert More(n, []) == n && More(after, []) == after;
    hide Decode, Drain, Lags, Stuck;
    assert Drain(n).found + Decode(after) == Drain(n).found <==> Decode(after) == [];
  }

  /** Every complete frame is a final one, none a continuation, and every length is readable. */
  predicate Whole(buf: Bytes)
    decreases |buf|
  {
    match Parse(buf)
    case NeedMore => true
    case Bad => false
    case Frame(f, size) =>
      ParseSize(buf);
      f.fin && f.opcode != 0 && Whole(buf[size..])
  }

  lemma {:induction false} WholePrefix(a: Bytes, b: Bytes)
    requires Whole(a + b)
    ensures Whole(a)
    decreases |a|
  {
    if !Parse(a).NeedMore? {
      ParseStable(a, b);
      if Parse(a).Frame? {
        ParseSize(a);
        assert (a + b)[Parse(a).size..] == a[Parse(a).size..] + b;
        WholePrefix(a[Parse(a).size..], b);
      }
    }
  }

  /** A feed of whole frames leaves at most the beginning of one. */
  lemma {:induction false} DrainWhole(s: State, x: Bytes)
    requires Whole(s.buf + x)
    ensures !Drain(s).threw && Parse(Drain(s).after.buf).NeedMore? && Whole(Drain(s).after.buf + x)
    ensures Drain(s).after.frag == s.frag
    decreases |s.buf|
  {
    if !Parse(s.buf).NeedMore? {
      ParseStable(s.buf, x);
      ParseSize(s.buf);
      var size := Parse(s.buf).size;
      assert (s.buf + x)[size..] == s.buf[size..] + x;
      hide Parse;
      DrainWhole(Try(s).after, x);
    }
  }

  lemma {:induction false} FeedAllWhole(s: State, chunks: seq<Bytes>)
    requires Whole(s.buf + Concat(chunks)) && Parse(s.buf).NeedMore?
    ensures var all := FeedAll(s, chunks);
            !all.threw && all.lost == [] && Parse(all.after.buf).NeedMore? && all.after.frag == s.frag
    decreases chunks
  {
    hide Parse, Drain, Whole;
    if chunks != [] {
      var rest := Concat(chunks[1..]);
      assert s.buf + Concat(chunks) == s.buf + chunks[0] + rest;
      DrainWhole(More(s, chunks[0]), rest);
      FeedAllWhole(Feed(s, chunks[0]).after, chunks[1..]);
    }
  }

  /** Nothing lags behind in a stream of unfragmented frames, and nothing throws. */
  lemma WholeNoLag(chunks: seq<Bytes>)
    requires Whole(Concat(chunks))
    ensures !FeedAll(FRESH, chunks).threw && FeedAll(FRESH, chunks).out == Decode(FRESH.(buf := Concat(chunks)))
  {
    assert [] + Concat(chunks) == Concat(chunks);
    FeedAllWhole(FRESH, chunks);
    NoneHeld(FeedAll(FRESH, chunks).after);
    hide FeedAll, Whole, Parse, Decode;
    AnySplit(chunks);
  }

  lemma NoneHeld(s: State)
    requires Parse(s.buf).NeedMore?
    ensures Decode(s) == []
  {
  }

  const HALVES: Bytes := [0x01, 0x01, 0x61, 0x80, 0x01, 0x62]

  lemma HalvesParse()
    ensures Parse(HALVES) == Frame(Raw(false, 1, [0x61]), 3) && HALVES[3..] == [0x80, 0x01, 0x62]
    ensures Parse([0x80, 0x01, 0x62]) == Frame(Raw(true, 0, [0x62]), 3)
    ensures Parse([]).NeedMore?
  {
  }

  /** Two fragments of a text message in one chunk: nothing comes out until the next feed. */
  lemma FragmentLags()
    ensures var fed := Feed(FRESH, HALVES);
            && Out(fed) == [] && Decode(FRESH.(buf := HALVES)) == [Message(1, [0x61, 0x62])]
            && Out(Feed(fed.after, [])) == [Message(1, [0x61, 0x62])]
  {
    HalvesParse();
    hide Parse;
    var rest: Bytes := [0x80, 0x01, 0x62];
    var whole, half, done := FRESH.(buf := HALVES), State(rest, [0x61], 1), State([], [], 1);
    assert [] + HALVES == HALVES && rest + [] == rest && rest[3..] == [] && [0x61] + [0x62] == [0x61, 0x62];
    assert Taken(whole, Raw(false, 1, [0x61]), 3) == half && Taken(half, Raw(true, 0, [0x62]), 3) == done;
    assert Try(half) == Got(Message(1, [0x61, 0x62]), done) && Drain(done) == Fed([], done, false);
    assert Drain(whole) == Fed([], half, false) && Drain(half) == Fed([Message(1, [0x61, 0x62])], done, false);
    assert Decode(done) == [] && Decode(half) == [Message(1, [0x61, 0x62])];
  }

  // ---- the encoder ----

  /** Four bytes on every frame of a client, none on a frame of the server (section 5.1 of RFC 6455). */
  type Mask = m: Bytes | |m| == 0 || |m| == 4 witness []

  function BeBytes(n: nat, k: nat): (bytes: Bytes)
    ensures |bytes| == k
  {
    if k == 0 then [] else BeBytes(n / 256, k - 1) + [(n % 256) as bv8]
  }

  function Pow256(k: nat): nat {
    if k == 0 then 1 else 256 * Pow256(k - 1)
  }

  function MaskBit(masked: bool): bv8 {
    if masked then 0x80 else 0
  }

  /** The second byte, with the mask bit, and the extended length: 7, 16 or 64 bits. */
  function LenBytes(n: nat, masked: bool): Bytes {
    if n < 126 then [MaskBit(masked) | (n as bv8)]
    else if n <= 0xFFFF then [MaskBit(masked) | 126] + BeBytes(n, 2)
    else [MaskBit(masked) | 127] + BeBytes(n, 8)
  }

  function FirstByte(opcode: bv8, fin: bool): bv8 {
    (if fin then 0x80 else 0) | opcode
  }

  function Encoded(payload: Bytes, opcode: bv8, mask: Mask, fin: bool): Bytes {
    [FirstByte(opcode, fin)] + LenBytes(|payload|, mask != []) + mask + Unmasked(payload, mask)
  }

  lemma {:induction false} BeBack(n: nat, k: nat)
    requires n < Pow256(k)
    ensures Be(BeBytes(n, k)) == n
  {
    if k > 0 {
      BeBack(n / 256, k - 1);
      assert BeBytes(n, k)[..k - 1] == BeBytes(n / 256, k - 1);
      ByteBack(n % 256);
    }
  }

  lemma ByteAfter(b: bv8)
    requires b as int < 255
    ensures (b + 1) as int == b as int + 1
  {
    assert b < 255;
  }

  /** Every number below 256 is the value of a byte. */
  lemma {:induction false} ByteOf(k: nat) returns (b: bv8)
    requires k < 256
    ensures b as int == k
  {
    if k == 0 {
      b := 0;
    } else {
      b := ByteOf(k - 1);
      ByteAfter(b);
      b := b + 1;
    }
  }

  lemma ByteBack(k: nat)
    requires k < 256
    ensures (k as bv8) as int == k
  {
    var b := ByteOf(k);
    assert k as bv8 == b;
  }

  lemma FirstByteBits(opcode: bv8, fin: bool)
    requires opcode < 16
    ensures (FirstByte(opcode, fin) & 0x80 != 0) == fin && FirstByte(opcode, fin) & 0x0F == opcode
  {
  }

  lemma LenByteBits(x: bv8, masked: bool)
    requires x < 128
    ensures (MaskBit(masked) | x) & 0x7F == x && ((MaskBit(masked) | x) & 0x80 != 0 <==> masked)
  {
  }

  lemma XorTwice(a: bv8, m: bv8)
    ensures (a ^ m) ^ m == a
  {
  }

  /** Masking twice with one mask is nothing. */
  lemma UnmaskTwice(payload: Bytes, mask: Mask)
    ensures Unmasked(Unmasked(payload, mask), mask) == payload
  {
    if mask != [] {
      forall i | 0 <= i < |payload| ensures Unmasked(Unmasked(payload, mask), mask)[i] == payload[i] {
        XorTwice(payload[i], mask[i % 4]);
      }
    }
  }

  lemma LenSize(n: nat, masked: bool)
    ensures |LenBytes(n, masked)| == 1 + if n < 126 then 0 else if n < 0x1_0000 then 2 else 8
  {
  }

  lemma ShortBack(n: nat, masked: bool, buf: Bytes, rest: Bytes)
    requires n < 126 && |buf| >= 1 && buf == [buf[0]] + LenBytes(n, masked) + rest
    ensures buf[1] == LenBytes(n, masked)[0] && ExtSize(buf[1]) == 0 && PayloadSize(buf) == n
    ensures MaskSize(buf[1]) == if masked then 4 else 0
  {
    ByteBack(n);
    LenByteBits(n as bv8, masked);
    hide MaskBit;
  }

  lemma MediumBack(n: nat, masked: bool, buf: Bytes, rest: Bytes)
    requires 126 <= n <= 0xFFFF && |buf| >= 1 && buf == [buf[0]] + LenBytes(n, masked) + rest
    ensures buf[1] == LenBytes(n, masked)[0] && ExtSize(buf[1]) == 2 && PayloadSize(buf) == n
    ensures MaskSize(buf[1]) == if masked then 4 else 0
  {
    LenByteBits(126, masked);
    BeBack(n, 2);
    hide Be, BeBytes, MaskBit;
    assert buf[2..4] == BeBytes(n, 2);
  }

  lemma LongBack(n: nat, masked: bool, buf: Bytes, rest: Bytes)
    requires 0xFFFF < n < TWO_63 && |buf| >= 1 && buf == [buf[0]] + LenBytes(n, masked) + rest
    ensures buf[1] == LenBytes(n, masked)[0] && ExtSize(buf[1]) == 8 && PayloadSize(buf) == n
    ensures MaskSize(buf[1]) == if masked then 4 else 0
  {
    LenByteBits(127, masked);
    BeBack(n, 8);
    hide Be, BeBytes, MaskBit;
    assert buf[2..10] == BeBytes(n, 8);
  }

  /** The second byte announces the form of the length, and the length read back is the length written. */
  lemma LenBack(n: nat, masked: bool, buf: Bytes, rest: Bytes)
    requires n < TWO_63 && |buf| >= 1 && buf == [buf[0]] + LenBytes(n, masked) + rest
    ensures buf[1] == LenBytes(n, masked)[0] && ExtSize(buf[1]) == |LenBytes(n, masked)| - 1
    ensures MaskSize(buf[1]) == if masked then 4 else 0
    ensures PayloadSize(buf) == n && |LenBytes(n, masked)| <= 9
  {
    LenSize(n, masked);
    hide LenBytes, ExtSize, MaskSize, PayloadSize;
    if n < 126 {
      ShortBack(n, masked, buf, rest);
    } else if n <= 0xFFFF {
      MediumBack(n, masked, buf, rest);
    } else {
      LongBack(n, masked, buf, rest);
    }
  }

  lemma Middle(a: Bytes, b: Bytes, c: Bytes)
    ensures (a + b + c)[|a|..|a| + |b|] == b && (a + b + c)[|a| + |b|..] == c
  {
  }

  lemma Layout(b0: bv8, len: Bytes, mask: Mask, body: Bytes, more: Bytes)
    ensures var buf, off := [b0] + len + mask + body + more, 1 + |len| + |mask|;
            && buf[0] == b0 && buf == [b0] + len + (mask + body + more) && |buf| >= off + |body|
            && buf[1 + |len|..off] == mask && buf[off..off + |body|] == body
  {
    Middle([b0] + len, mask, body + more);
    Middle([b0] + len + mask, body, more);
    assert [b0] + len + mask + (body + more) == [b0] + len + mask + body + more;
  }

  /** The frame's size, at most 14 bytes more than the payload's, is a signed 64-bit integer. */
  predicate Fits(payload: Bytes) {
    |payload| + 14 < TWO_63
  }

  /** A frame encoded is the frame parsed, with nothing left over, whatever follows and whatever its length form. */
  lemma RoundTrip(payload: Bytes, opcode: bv8, mask: Mask, fin: bool, more: Bytes)
    requires opcode < 16 && Fits(payload)
    ensures Parse(Encoded(payload, opcode, mask, fin) + more)
         == Frame(Raw(fin, opcode, payload), |Encoded(payload, opcode, mask, fin)|)
  {
    hide LenBytes, FirstByte, Unmasked, PayloadSize, ExtSize, MaskSize;
    var b0, len, body := FirstByte(opcode, fin), LenBytes(|payload|, mask != []), Unmasked(payload, mask);
    var buf := [b0] + len + mask + body + more;
    Layout(b0, len, mask, body, more);
    LenBack(|payload|, mask != [], buf, mask + body + more);
    FirstByteBits(opcode, fin);
    UnmaskTwice(payload, mask);
    SameSize(payload, mask);
    assert 2 + ExtSize(buf[1]) == 1 + |len|;
  }

  /** One more digit. */
  lemma BePushed(front: Bytes, last: bv8)
    ensures Be(front + [last]) == 256 * Be(front) + last as int
  {
    assert (front + [last])[..|front|] == front;
  }

  /** The two bytes of a 16-bit number, highest first. */
  function Two(w: Bytes, at: nat): nat
    requires at + 2 <= |w|
  {
    w[at] as int * 256 + w[at + 1] as int
  }

  lemma BeTwo(w: Bytes)
    requires |w| >= 2
    ensures Be(w) == 0x1_0000 * Be(w[..|w| - 2]) + Two(w, |w| - 2)
  {
    hide Be;
    var n := |w|;
    BePushed(w[..n - 2], w[n - 2]);
    BePushed(w[..n - 1], w[n - 1]);
    assert w[..n - 1] == w[..n - 2] + [w[n - 2]];
    assert w == w[..n - 1] + [w[n - 1]];
  }

  lemma NoDigits()
    ensures Be([]) == 0
  {
  }

  lemma BeEight(w: Bytes)
    requires |w| == 8
    ensures Be(w) == Two(w, 0) * 0x1_0000_0000_0000 + Two(w, 2) * 0x1_0000_0000 + Two(w, 4) * 0x1_0000 + Two(w, 6)
  {
    hide Be;
    BeTwo(w);
    BeTwo(w[..6]);
    BeTwo(w[..4]);
    BeTwo(w[..2]);
    NoDigits();
    assert w[..6][..4] == w[..4] && w[..4][..2] == w[..2] && w[..2][..0] == [];
  }

  /** The length of a frame in its shortest form. */
  predicate LengthOnWire(w: Bytes, n: nat) {
    if n < 126 then |w| >= 2 && (w[1] & 0x7F) as int == n
    else if n < 0x1_0000 then |w| >= 4 && w[1] & 0x7F == 126 && Two(w, 2) == n
    else
      && |w| >= 10 && w[1] & 0x7F == 127
      && Two(w, 2) * 0x1_0000_0000_0000 + Two(w, 4) * 0x1_0000_0000 + Two(w, 6) * 0x1_0000 + Two(w, 8) == n
  }

  /** The first bytes of a frame, bit for bit. */
  predicate HeadOnWire(w: Bytes, n: nat, opcode: bv8, masked: bool, fin: bool) {
    && LengthOnWire(w, n)
    && (w[0] & 0x80 != 0 <==> fin) && w[0] & 0x70 == 0 && w[0] & 0x0F == opcode
    && (w[1] & 0x80 != 0 <==> masked)
  }

  lemma LongOnWire(n: nat)
    requires n < TWO_63
    ensures var w := BeBytes(n, 8);
            Two(w, 0) * 0x1_0000_0000_0000 + Two(w, 2) * 0x1_0000_0000 + Two(w, 4) * 0x1_0000 + Two(w, 6) == n
  {
    BeBack(n, 8);
    hide Be, BeBytes;
    BeEight(BeBytes(n, 8));
  }

  lemma TwoShifted(b0: bv8, b1: bv8, w: Bytes, rest: Bytes, at: nat)
    requires at + 2 <= |w|
    ensures Two([b0] + ([b1] + w) + rest, at + 2) == Two(w, at)
  {
  }

  lemma FirstTwo(b0: bv8, len: Bytes, rest: Bytes)
    requires len != []
    ensures ([b0] + len + rest)[0] == b0 && ([b0] + len + rest)[1] == len[0]
  {
  }

  lemma ShortWritten(b0: bv8, n: nat, masked: bool, rest: Bytes)
    requires n < 126
    ensures LengthOnWire([b0] + LenBytes(n, masked) + rest, n)
  {
    ByteBack(n);
    LenByteBits(n as bv8, masked);
    hide MaskBit;
  }

  lemma MediumShape(b0: bv8, b1: bv8, w: Bytes, rest: Bytes, n: nat)
    requires |w| == 2 && b1 & 0x7F == 126 && 126 <= n < 0x1_0000 && Two(w, 0) == n
    ensures LengthOnWire([b0] + ([b1] + w) + rest, n)
  {
    hide Two;
    TwoShifted(b0, b1, w, rest, 0);
    FirstTwo(b0, [b1] + w, rest);
  }

  lemma MediumOnWire(n: nat)
    requires n < 0x1_0000
    ensures Two(BeBytes(n, 2), 0) == n
  {
    BeBack(n, 2);
    hide BeBytes;
    BeTwo(BeBytes(n, 2));
    NoDigits();
    assert BeBytes(n, 2)[..0] == [];
    hide Be;
  }

  lemma MediumWritten(b0: bv8, n: nat, masked: bool, rest: Bytes)
    requires 126 <= n < 0x1_0000
    ensures LengthOnWire([b0] + LenBytes(n, masked) + rest, n)
  {
    LenByteBits(126, masked);
    MediumOnWire(n);
    MediumShape(b0, MaskBit(masked) | 126, BeBytes(n, 2), rest, n);
    hide LengthOnWire, Two;
  }

  lemma LongShape(b0: bv8, b1: bv8, w: Bytes, rest: Bytes, n: nat)
    requires |w| == 8 && b1 & 0x7F == 127 && 0x1_0000 <= n
    requires Two(w, 0) * 0x1_0000_0000_0000 + Two(w, 2) * 0x1_0000_0000 + Two(w, 4) * 0x1_0000 + Two(w, 6) == n
    ensures LengthOnWire([b0] + ([b1] + w) + rest, n)
  {
    hide Two;
    TwoShifted(b0, b1, w, rest, 0);
    TwoShifted(b0, b1, w, rest, 2);
    TwoShifted(b0, b1, w, rest, 4);
    TwoShifted(b0, b1, w, rest, 6);
    FirstTwo(b0, [b1] + w, rest);
  }

  lemma LongWritten(b0: bv8, n: nat, masked: bool, rest: Bytes)
    requires 0x1_0000 <= n < TWO_63
    ensures LengthOnWire([b0] + LenBytes(n, masked) + rest, n)
  {
    LenByteBits(127, masked);
    LongOnWire(n);
    LongShape(b0, MaskBit(masked) | 127, BeBytes(n, 8), rest, n);
    hide LengthOnWire, Two;
  }

  lemma LengthWritten(b0: bv8, n: nat, masked: bool, rest: Bytes)
    requires n < TWO_63
    ensures LengthOnWire([b0] + LenBytes(n, masked) + rest, n)
  {
    hide LenBytes, LengthOnWire;
    if n < 126 {
      ShortWritten(b0, n, masked, rest);
    } else if n < 0x1_0000 {
      MediumWritten(b0, n, masked, rest);
    } else {
      LongWritten(b0, n, masked, rest);
    }
  }

  lemma MaskBitWritten(n: nat, masked: bool)
    requires n < TWO_63
    ensures LenBytes(n, masked)[0] & 0x80 != 0 <==> masked
  {
    if n < 126 {
      ByteBack(n);
      LenByteBits(n as bv8, masked);
    } else if n <= 0xFFFF {
      LenByteBits(126, masked);
    } else {
      LenByteBits(127, masked);
    }
  }

  lemma FirstByteUnused(opcode: bv8, fin: bool)
    requires opcode < 16
    ensures FirstByte(opcode, fin) & 0x70 == 0
  {
  }

  lemma EncodedParts(payload: Bytes, opcode: bv8, mask: Mask, fin: bool)
    ensures Encoded(payload, opcode, mask, fin)
         == [FirstByte(opcode, fin)] + LenBytes(|payload|, mask != []) + (mask + Unmasked(payload, mask))
  {
    hide LenBytes, FirstByte, Unmasked;
  }

  lemma HeadWritten(payload: Bytes, opcode: bv8, mask: Mask, fin: bool)
    requires opcode < 16 && Fits(payload)
    ensures HeadOnWire(Encoded(payload, opcode, mask, fin), |payload|, opcode, mask != [], fin)
  {
    var b0, len, rest := FirstByte(opcode, fin), LenBytes(|payload|, mask != []), mask + Unmasked(payload, mask);
    EncodedParts(payload, opcode, mask, fin);
    FirstByteBits(opcode, fin);
    FirstByteUnused(opcode, fin);
    LengthWritten(b0, |payload|, mask != [], rest);
    MaskBitWritten(|payload|, mask != []);
    LenSize(|payload|, mask != []);
    hide LenBytes, FirstByte, LengthOnWire, Unmasked, Encoded;
    FirstTwo(b0, len, rest);
  }

  /** An encoded frame is that of section 5.2 of RFC 6455: head, mask, and the payload under the mask. */
  lemma EncodedOnWire(payload: Bytes, opcode: bv8, mask: Mask, fin: bool)
    requires opcode < 16 && Fits(payload)
    ensures var w, n := Encoded(payload, opcode, mask, fin), |payload|;
            var at := 2 + if n < 126 then 0 else if n < 0x1_0000 then 2 else 8;
            && HeadOnWire(w, n, opcode, mask != [], fin)
            && |w| == at + |mask| + n && w[at..at + |mask|] == mask
            && forall i :: 0 <= i < n ==>
                 w[at + |mask|..][i] == if mask == [] then payload[i] else payload[i] ^ mask[i % 4]
  {
    var len, body := LenBytes(|payload|, mask != []), Unmasked(payload, mask);
    HeadWritten(payload, opcode, mask, fin);
    LenSize(|payload|, mask != []);
    hide LenBytes, FirstByte, HeadOnWire;
    Middle([FirstByte(opcode, fin)] + len, mask, body);
  }

  lemma SameSize(payload: Bytes, mask: Mask)
    ensures |Unmasked(payload, mask)| == |payload|
  {
  }

  lemma FrontDecodes(s: State, front: Bytes, f: Raw, rest: Bytes)
    requires s.buf == front + rest && Parse(s.buf) == Frame(f, |front|)
    ensures Decode(s) == (if Completed(s, f).Some? then [Completed(s, f).value] else [])
                         + Decode(Assembled(s.(buf := rest), f))
    ensures |s.buf| - |rest| == |front|
  {
    hide Parse, Completed;
    assert s.buf[|front|..] == rest;
  }

  /** An encoded frame at the front is decoded first, and what follows it next. */
  lemma FrameDecodes(payload: Bytes, opcode: bv8, mask: Mask, fin: bool, rest: Bytes, s: State)
    requires opcode < 16 && Fits(payload) && s.buf == Encoded(payload, opcode, mask, fin) + rest
    ensures var f := Raw(fin, opcode, payload);
            Decode(s) == (if Completed(s, f).Some? then [Completed(s, f).value] else [])
                + Decode(Assembled(s.(buf := rest), f))
    ensures Parse(s.buf) == Frame(Raw(fin, opcode, payload), |s.buf| - |rest|)
  {
    RoundTrip(payload, opcode, mask, fin, rest);
    FrontDecodes(s, Encoded(payload, opcode, mask, fin), Raw(fin, opcode, payload), rest);
    hide *;
  }

  // ---- lists of frames ----

  /** A message the client sends as one final frame, and the mask drawn for it. */
  datatype Outgoing = Outgoing(msg: Message, mask: Mask)

  predicate Sendable(o: Outgoing) {
    0 < o.msg.opcode < 16 && Fits(o.msg.payload)
  }

  function WholeFrame(o: Outgoing): Bytes {
    Encoded(o.msg.payload, o.msg.opcode, o.mask, true)
  }

  function EncodedAll(os: seq<Outgoing>): Bytes {
    if os == [] then [] else WholeFrame(os[0]) + EncodedAll(os[1..])
  }

  function MessagesOf(os: seq<Outgoing>): seq<Message> {
    if os == [] then [] else [os[0].msg] + MessagesOf(os[1..])
  }

  lemma {:induction false} EncodedAllDecodes(os: seq<Outgoing>, s: State)
    requires (forall i :: 0 <= i < |os| ==> Sendable(os[i])) && s.buf == EncodedAll(os)
    ensures Whole(s.buf) && Decode(s) == MessagesOf(os)
    decreases os
  {
    if os == [] {
    } else {
      var o, rest := os[0], EncodedAll(os[1..]);
      assert Sendable(o);
      FrameDecodes(o.msg.payload, o.msg.opcode, o.mask, true, rest, s);
      hide Parse, Encoded, Decode;
      assert s.buf[|s.buf| - |rest|..] == rest;
      EncodedAllDecodes(os[1..], s.(buf := rest));
    }
  }

  /** A concatenation of encoded frames, cut anywhere, comes out as the list in order, with no residue. */
  lemma ListRoundTrip(os: seq<Outgoing>, chunks: seq<Bytes>)
    requires (forall i :: 0 <= i < |os| ==> Sendable(os[i])) && Concat(chunks) == EncodedAll(os)
    ensures !FeedAll(FRESH, chunks).threw && FeedAll(FRESH, chunks).out == MessagesOf(os)
  {
    EncodedAllDecodes(os, FRESH.(buf := Concat(chunks)));
    hide Decode, Whole, FeedAll;
    WholeNoLag(chunks);
  }

  // ---- fragments ----

  datatype Part = Part(payload: Bytes, mask: Mask)

  predicate SendablePart(p: Part) {
    Fits(p.payload)
  }

  /** The continuation frames of a fragmented message, the last one final. */
  function Continued(parts: seq<Part>): Bytes {
    if parts == [] then [] else Encoded(parts[0].payload, 0, parts[0].mask, |parts| == 1) + Continued(parts[1..])
  }

  function Joined(parts: seq<Part>): Bytes {
    if parts == [] then [] else parts[0].payload + Joined(parts[1..])
  }

  lemma LastDecodes(p: Part, s: State)
    requires SendablePart(p) && s.buf == Encoded(p.payload, 0, p.mask, true)
    ensures Decode(s) == [Message(s.fragOpcode, s.frag + p.payload)]
  {
    assert s.buf + [] == s.buf;
    FrameDecodes(p.payload, 0, p.mask, true, [], s);
    hide Encoded, Decode, Parse;
    NothingLeft(State([], [], s.fragOpcode));
  }

  lemma NothingLeft(s: State)
    requires s.buf == []
    ensures Decode(s) == []
  {
  }

  lemma {:induction false} ContinuedDecodes(parts: seq<Part>, s: State)
    requires parts != [] && (forall i :: 0 <= i < |parts| ==> SendablePart(parts[i])) && s.buf == Continued(parts)
    ensures Decode(s) == [Message(s.fragOpcode, s.frag + Joined(parts))]
    decreases parts
  {
    hide Encoded, Decode, Parse;
    var p, rest := parts[0], Continued(parts[1..]);
    assert SendablePart(p);
    if |parts| == 1 {
      assert Encoded(p.payload, 0, p.mask, true) == s.buf && Joined(parts) == p.payload + [] == p.payload;
      LastDecodes(p, s);
    } else {
      FrameDecodes(p.payload, 0, p.mask, false, rest, s);
      ContinuedDecodes(parts[1..], State(rest, s.frag + p.payload, s.fragOpcode));
      hide Continued;
      Regroup(s.frag, p.payload, Joined(parts[1..]));
    }
  }

  /** A message cut into a first frame and continuations is put together again, whatever was being assembled before. */
  lemma FragmentsJoin(opcode: bv8, first: Part, parts: seq<Part>, frag: Bytes, fragOpcode: bv8)
    requires 0 < opcode < 16 && SendablePart(first) && parts != []
             && (forall i :: 0 <= i < |parts| ==> SendablePart(parts[i]))
    ensures Decode(State(Encoded(first.payload, opcode, first.mask, false) + Continued(parts), frag, fragOpcode))
         == [Message(opcode, first.payload + Joined(parts))]
  {
    var s := State(Encoded(first.payload, opcode, first.mask, false) + Continued(parts), frag, fragOpcode);
    FrameDecodes(first.payload, opcode, first.mask, false, Continued(parts), s);
    hide Decode, Encoded, Continued;
    ContinuedDecodes(parts, State(Continued(parts), first.payload, opcode));
  }

  /** A whole frame between the fragments of a message comes out at once and leaves the message as it was. */
  lemma WholeBetween(opcode: bv8, first: Part, other: Outgoing, parts: seq<Part>, s: State)
    requires 0 < opcode < 16 && SendablePart(first) && Sendable(other) && parts != []
             && (forall i :: 0 <= i < |parts| ==> SendablePart(parts[i]))
    requires s.buf == Encoded(first.payload, opcode, first.mask, false) + (WholeFrame(other) + Continued(parts))
    ensures Decode(s) == [other.msg] + [Message(opcode, first.payload + Joined(parts))]
  {
    hide Decode, Encoded, Continued;
    var rest := WholeFrame(other) + Continued(parts);
    FrameDecodes(first.payload, opcode, first.mask, false, rest, s);
    FrameDecodes(other.msg.payload, other.msg.opcode, other.mask, true, Continued(parts),
                 State(rest, first.payload, opcode));
    ContinuedDecodes(parts, State(Continued(parts), first.payload, opcode));
    hide Parse, Joined;
    NothingAdded(Decode(State(rest, first.payload, opcode)));
  }
}
