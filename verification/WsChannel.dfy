/** The mobile client's incremental frame parser and its frame encoder, as code. */
module WsChannel {
  import opened Basics
  import opened WsFrames

  class WsFrameParser {
    var buf: Bytes
    var fragPayload: Bytes
    var fragOpcode: bv8

    ghost function View(): State
      reads this
    {
      State(buf, fragPayload, fragOpcode)
    }

    constructor ()
      ensures View() == FRESH
    {
      buf := [];
      fragPayload := [];
      fragOpcode := 0;
    }

    /** No message when bytes are missing, and none after a frame that completes none. */
    method TryParseOne() returns (threw: bool, msg: Option<Message>)
      modifies this
      ensures match Try(old(View()))
              case Null(after) => !threw && msg.None? && View() == after
              case Got(m, after) => !threw && msg == Some(m) && View() == after
              case Thrown => threw && View() == old(View())
    {
      hide Parse;
      threw, msg := false, None;
      var first := ReadFrame(buf);
      if first.NeedMore? { return; }
      if first.Bad? {
        threw := true;
        return;
      }
      ParseSize(buf);
      var Raw(fin, opcode, payload) := first.raw;
      buf := buf[first.size..];
      if opcode == 0 {
        fragPayload := fragPayload + payload;
        if fin {
          msg := Some(Message(fragOpcode, fragPayload));
          fragPayload := [];
        }
        return;
      }
      if !fin {
        fragPayload := payload;
        fragOpcode := opcode;
        return;
      }
      msg := Some(Message(opcode, payload));
    }

    /** Attempts until one yields no message; the messages found are not returned if one throws. */
    method Feed(chunk: Bytes) returns (threw: bool, out: seq<Message>)
      modifies this
      ensures var fed := WsFrames.Feed(old(View()), chunk);
              threw == fed.threw && View() == fed.after && (!threw ==> out == Out(fed))
    {
      hide Try;
      buf := buf + chunk;
      out := [];
      ghost var all := Drain(View());
      assert After([], all) == all;
      while true
        invariant After(out, Drain(View())) == all
        decreases |buf|
      {
        ghost var s := View();
        if Try(s).Got? {
          GotShrinks(s);
          Regroup(out, [Try(s).msg], Drain(Try(s).after).found);
        }
        var msg;
        threw, msg := TryParseOne();
        if threw || msg.None? { return; }
        out := out + [msg.value];
      }
    }
  }

  /** A feed whose first messages are already out. */
  ghost function After(out: seq<Message>, fed: Fed): Fed {
    fed.(found := out + fed.found)
  }

  /** The first frame of the buffer, its header field by field. */
  method ReadFrame(buf: Bytes) returns (p: Parsed)
    ensures p == Parse(buf)
  {
    if |buf| < 2 { return NeedMore; }
    var b0, b1 := buf[0], buf[1];
    var ready, len, start := ReadLength(buf);
    hide Be, Unmasked, ExtSize, PayloadSize;
    if !ready { return NeedMore; }
    var off := start;
    var masked := b1 & 0x80 != 0;
    var mask: Bytes := [];
    if masked {
      if |buf| < off + 4 { return NeedMore; }
      mask := buf[off..off + 4];
      off := off + 4;
    }
    if off + len >= TWO_63 { return Bad; }
    if |buf| < off + len { return NeedMore; }
    assert mask == buf[start..off];
    var payload := Unmask(buf[off..off + len], mask);
    p := Frame(Raw(b0 & 0x80 != 0, b0 & 0x0F, payload), off + len);
  }

  method ReadLength(buf: Bytes) returns (ready: bool, len: nat, off: nat)
    requires |buf| >= 2
    ensures ready <==> |buf| >= 2 + ExtSize(buf[1])
    ensures ready ==> len == PayloadSize(buf) && off == 2 + ExtSize(buf[1])
  {
    ready, len, off := true, (buf[1] & 0x7F) as int, 2;
    if buf[1] & 0x7F == 126 {
      if |buf| < off + 2 { return false, 0, 0; }
      len := Extended(buf[2..4]);
      off := off + 2;
    } else if buf[1] & 0x7F == 127 {
      if |buf| < off + 8 { return false, 0, 0; }
      len := Extended(buf[2..10]);
      off := off + 8;
    }
  }

  /** A big-endian length, byte by byte. */
  method Extended(bytes: Bytes) returns (len: nat)
    ensures len == Be(bytes)
  {
    len := 0;
    for i := 0 to |bytes|
      invariant len == Be(bytes[..i])
    {
      assert bytes[..i + 1][..i] == bytes[..i];
      len := len * 256 + bytes[i] as int;
    }
    assert bytes[..|bytes|] == bytes;
  }

  /** XORs the payload with the mask, in place in a copy. */
  method Unmask(bytes: Bytes, mask: Bytes) returns (payload: Bytes)
    requires |mask| == 0 || |mask| == 4
    ensures payload == Unmasked(bytes, mask)
  {
    if |mask| == 0 { return bytes; }
    var copy := new bv8[|bytes|](i requires 0 <= i < |bytes| => bytes[i]);
    for i := 0 to copy.Length
      invariant forall k :: 0 <= k < i ==> copy[k] == bytes[k] ^ mask[k % 4]
      invariant forall k :: i <= k < copy.Length ==> copy[k] == bytes[k]
    {
      copy[i] := copy[i] ^ mask[i % 4];
    }
    payload := copy[..];
  }

  /** A number shifted right by i bytes. */
  function Shifted(n: nat, i: nat): nat {
    if i == 0 then n else Shifted(n, i - 1) / 256
  }

  /** The 64-bit length form, highest byte first. */
  method LongLength(n: nat) returns (bytes: Bytes)
    ensures bytes == BeBytes(n, 8)
  {
    bytes := [];
    var i := 8;
    while i > 0
      invariant 0 <= i <= 8
      invariant bytes == BeBytes(Shifted(n, i), 8 - i)
    {
      i := i - 1;
      bytes := bytes + [(Shifted(n, i) % 256) as bv8];
    }
  }

  method EncodeHead(n: nat, opcode: bv8, fin: bool) returns (head: Bytes)
    ensures head == [FirstByte(opcode, fin)] + LenBytes(n, true)
  {
    head := [(if fin then 0x80 else 0x00) | opcode];
    if n < 126 {
      head := head + [0x80 | (n as bv8)];
    } else if n <= 0xFFFF {
      head := head + [0x80 | 126];
      assert BeBytes(n / 256, 1) == [(n / 256 % 256) as bv8];
      head := head + [(n / 256 % 256) as bv8] + [(n % 256) as bv8];
    } else {
      var long := LongLength(n);
      head := head + [0x80 | 127];
      head := head + long;
    }
  }

  /** The mask is drawn at random by the caller. */
  method EncodeClientFrame(payload: Bytes, opcode: bv8, mask: Mask, fin: bool) returns (frame: Bytes)
    requires mask != []
    ensures frame == Encoded(payload, opcode, mask, fin)
  {
    hide LenBytes, FirstByte;
    var n := |payload|;
    var head := EncodeHead(n, opcode, fin);
    head := head + mask;
    var out := new bv8[|head| + n](i => 0);
    for i := 0 to |head|
      invariant out[..i] == head[..i]
    {
      out[i] := head[i];
    }
    for i := 0 to n
      invariant out[..|head|] == head
      invariant forall k :: 0 <= k < i ==> out[|head| + k] == payload[k] ^ mask[k % 4]
    {
      out[|head| + i] := payload[i] ^ mask[i % 4];
    }
    frame := out[..];
    assert frame[|head|..] == Unmasked(payload, mask);
    assert frame == head + frame[|head|..];
  }
}
