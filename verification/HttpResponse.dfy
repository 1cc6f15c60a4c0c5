/**
 * The mobile client's incremental HTTP/1.1 response parser. The text of the head is read by a given function;
 * what is modelled is where the head ends, where the body ends (section 6.3 of RFC 9112), and that neither
 * depends on how the bytes were cut.
 */
module HttpResponse {
  import opened Basics

  type Bytes = seq<bv8>

  /** A head as read from its bytes; length is the Content-Length when there is a readable one. */
  datatype Head = Head(status: int, reason: string, headers: map<string, string>, length: Option<int>)

  type HeadReader = Bytes -> Option<Head>

  datatype Response = Response(head: Head, body: Bytes)

  /** Closing: no end of the body is known yet, so it would be whatever there is when the stream ends. */
  datatype Outcome = Incomplete | Closing(response: Response) | Complete(response: Response)

  // ---- the bytes as one piece ----

  predicate BlankLineAt(buf: Bytes, i: int) {
    0 <= i && i + 3 < |buf| && buf[i] == 13 && buf[i + 1] == 10 && buf[i + 2] == 13 && buf[i + 3] == 10
  }

  /** Where the first blank line starts, looking from i on. */
  function HeadEnd(buf: Bytes, i: nat): (end: Option<nat>)
    ensures end.Some? ==> i <= end.value && BlankLineAt(buf, end.value)
    decreases |buf| - i
  {
    if i + 3 >= |buf| then None else if BlankLineAt(buf, i) then Some(i) else HeadEnd(buf, i + 1)
  }

  /** The head, if there is one that can be read; a head that cannot be read stays unreadable. */
  function HeadOf(read: HeadReader, buf: Bytes): Option<Head> {
    var end := HeadEnd(buf, 0);
    if end.None? then None else read(buf[..end.value])
  }

  function BodyStart(buf: Bytes): (n: nat)
    ensures n <= |buf|
  {
    if HeadEnd(buf, 0).None? then 0 else HeadEnd(buf, 0).value + 4
  }

  /** What the response is, given all the bytes at once. */
  function OutcomeOf(read: HeadReader, all: Bytes): Outcome {
    var head := HeadOf(read, all);
    if head.None? then Incomplete
    else
      var start, length := BodyStart(all), head.value.length;
      if length.Some? && 0 <= length.value <= |all| - start
      then Complete(Response(head.value, all[start..start + length.value]))
      else Closing(Response(head.value, all[start..]))
  }

  // ---- the bytes in pieces ----

  /** head and bodyStart are meant only once a head was read. */
  datatype State = State(buf: Bytes, head: Option<Head>, bodyStart: nat, done: Option<Response>)

  const FRESH := State([], None, 0, None)

  function WithHead(read: HeadReader, s: State): State {
    if s.head.Some? || HeadOf(read, s.buf).None? then s
    else s.(head := HeadOf(read, s.buf), bodyStart := BodyStart(s.buf))
  }

  function Added(read: HeadReader, s: State, chunk: Bytes): State
    requires s.head.Some? ==> s.bodyStart <= |s.buf|
  {
    if s.done.Some? then s
    else
      var n := WithHead(read, s.(buf := s.buf + chunk));
      if n.head.Some? && n.head.value.length.Some? && 0 <= n.head.value.length.value <= |n.buf| - n.bodyStart
      then n.(done := Some(Response(n.head.value, n.buf[n.bodyStart..n.bodyStart + n.head.value.length.value])))
      else n
  }

  /** A negative length is always already reached, and cutting the body there throws. */
  predicate Throws(read: HeadReader, s: State, chunk: Bytes) {
    s.done.None? &&
    var n := WithHead(read, s.(buf := s.buf + chunk));
    n.head.Some? && n.head.value.length.Some? && n.head.value.length.value < 0
  }

  /** The response once the stream has ended, none when the head never was complete. */
  function Finished(s: State): Option<Response>
    requires s.head.Some? ==> s.bodyStart <= |s.buf|
  {
    if s.done.Some? then s.done
    else if s.head.None? then None
    else Some(Response(s.head.value, s.buf[s.bodyStart..]))
  }

  function AddAll(read: HeadReader, chunks: seq<Bytes>): (s: State)
    ensures s.head.Some? ==> s.bodyStart <= |s.buf|
  {
    if chunks == [] then FRESH else Added(read, AddAll(read, chunks[..|chunks| - 1]), chunks[|chunks| - 1])
  }

  function Concat(chunks: seq<Bytes>): Bytes {
    if chunks == [] then [] else Concat(chunks[..|chunks| - 1]) + chunks[|chunks| - 1]
  }

  // ---- what the response is, read off the bytes ----

  const BLANK_LINE: Bytes := [13, 10, 13, 10]

  /** A head and the blank line that ends it: none starts any earlier. */
  predicate EndsFirst(h: Bytes) {
    forall i :: 0 <= i < |h| ==> !(BLANK_LINE <= (h + BLANK_LINE)[i..])
  }

  lemma BlankPrefix(buf: Bytes, i: nat)
    requires i <= |buf|
    ensures BlankLineAt(buf, i) <==> BLANK_LINE <= buf[i..]
  {
    if BLANK_LINE <= buf[i..] {
      assert forall j :: 0 <= j < 4 ==> buf[i..][j] == BLANK_LINE[j] && buf[i..][j] == buf[i + j];
    }
  }

  lemma {:induction false} FirstFound(h: Bytes, rest: Bytes, i: nat)
    requires EndsFirst(h) && i <= |h|
    ensures HeadEnd(h + BLANK_LINE + rest, i) == Some(|h|)
    decreases |h| - i
  {
    var buf := h + BLANK_LINE + rest;
    assert forall j :: 0 <= j < |h| + 4 ==> buf[j] == (h + BLANK_LINE)[j];
    if i < |h| {
      BlankPrefix(h + BLANK_LINE, i);
      assert !(BLANK_LINE <= (h + BLANK_LINE)[i..]);
      FirstFound(h, rest, i + 1);
    }
  }

  /**
   * A readable head, the blank line that ends it, and whatever follows: with a length no longer than what follows
   * the body is that many bytes of it, otherwise it is all of it so far. An unreadable head never gets anywhere.
   */
  lemma ResponseOf(read: HeadReader, h: Bytes, rest: Bytes)
    requires EndsFirst(h)
    ensures OutcomeOf(read, h + BLANK_LINE + rest)
         == match read(h)
            case None => Incomplete
            case Some(hd) =>
              if hd.length.Some? && 0 <= hd.length.value <= |rest|
              then Complete(Response(hd, rest[..hd.length.value]))
              else Closing(Response(hd, rest))
  {
    var all := h + BLANK_LINE + rest;
    FirstFound(h, rest, 0);
    assert all[..|h|] == h && all[|h| + 4..] == rest;
    if read(h).Some? && read(h).value.length.Some? && 0 <= read(h).value.length.value <= |rest| {
      var n := read(h).value.length.value;
      assert all[|h| + 4..|h| + 4 + n] == rest[..n];
    }
  }

  /** No blank line, no response yet. */
  lemma {:induction false} NoBlankLine(buf: Bytes, i: nat)
    requires forall j :: i <= j <= |buf| ==> !(BLANK_LINE <= buf[j..])
    ensures HeadEnd(buf, i).None?
    decreases |buf| - i
  {
    if i + 3 < |buf| {
      BlankPrefix(buf, i);
      NoBlankLine(buf, i + 1);
    }
  }

  lemma HeadMissing(read: HeadReader, all: Bytes)
    requires forall j :: 0 <= j <= |all| ==> !(BLANK_LINE <= all[j..])
    ensures OutcomeOf(read, all) == Incomplete
  {
    NoBlankLine(all, 0);
  }

  // ---- more bytes ----

  /** The first blank line stays the first. */
  lemma {:induction false} HeadEndStable(buf: Bytes, more: Bytes, i: nat)
    requires HeadEnd(buf, i).Some?
    ensures HeadEnd(buf + more, i) == HeadEnd(buf, i)
    decreases |buf| - i
  {
    assert forall j :: 0 <= j < |buf| ==> (buf + more)[j] == buf[j];
    if !BlankLineAt(buf, i) {
      HeadEndStable(buf, more, i + 1);
    }
  }

  lemma HeadStable(read: HeadReader, buf: Bytes, more: Bytes)
    requires HeadEnd(buf, 0).Some?
    ensures HeadOf(read, buf + more) == HeadOf(read, buf) && BodyStart(buf + more) == BodyStart(buf)
  {
    HeadEndStable(buf, more, 0);
    var end := HeadEnd(buf, 0).value;
    assert (buf + more)[..end] == buf[..end];
  }

  /** Bytes after a complete body are nothing to the response. */
  lemma CompleteStable(read: HeadReader, all: Bytes, more: Bytes)
    requires OutcomeOf(read, all).Complete?
    ensures OutcomeOf(read, all + more) == OutcomeOf(read, all)
  {
    HeadStable(read, all, more);
    var start, n := BodyStart(all), HeadOf(read, all).value.length.value;
    assert (all + more)[start..start + n] == all[start..start + n];
  }

  // ---- any split ----

  /** What the parser has made of the bytes so far. */
  ghost predicate Reflects(read: HeadReader, s: State, all: Bytes) {
    if s.done.Some? then OutcomeOf(read, all) == Complete(s.done.value)
    else
      && !OutcomeOf(read, all).Complete?
      && s.buf == all && s.head == HeadOf(read, all)
      && (s.head.Some? ==> s.bodyStart == BodyStart(all))
  }

  lemma AddReflects(read: HeadReader, s: State, all: Bytes, chunk: Bytes)
    requires Reflects(read, s, all) && (s.head.Some? ==> s.bodyStart <= |s.buf|)
    ensures Reflects(read, Added(read, s, chunk), all + chunk)
    ensures Throws(read, s, chunk) <==>
              var head := HeadOf(read, all + chunk);
              head.Some? && head.value.length.Some? && head.value.length.value < 0
  {
    if s.done.Some? {
      CompleteStable(read, all, chunk);
      HeadStable(read, all, chunk);
    } else if s.head.Some? {
      HeadStable(read, all, chunk);
    }
  }

  lemma {:induction false} AllReflects(read: HeadReader, chunks: seq<Bytes>)
    ensures Reflects(read, AddAll(read, chunks), Concat(chunks))
  {
    if chunks != [] {
      var before := chunks[..|chunks| - 1];
      AllReflects(read, before);
      AddReflects(read, AddAll(read, before), Concat(before), chunks[|chunks| - 1]);
    }
  }

  /** Completion and the finished response depend on the bytes alone, never on where they were cut. */
  lemma SplitIndependent(read: HeadReader, chunks: seq<Bytes>)
    ensures var s, outcome := AddAll(read, chunks), OutcomeOf(read, Concat(chunks));
            && (s.done.Some? <==> outcome.Complete?)
            && Finished(s) == if outcome.Incomplete? then None else Some(outcome.response)
  {
    AllReflects(read, chunks);
  }

  lemma SameBytesSameResponse(read: HeadReader, a: seq<Bytes>, b: seq<Bytes>)
    requires Concat(a) == Concat(b)
    ensures AddAll(read, a).done == AddAll(read, b).done && Finished(AddAll(read, a)) == Finished(AddAll(read, b))
  {
    AllReflects(read, a);
    AllReflects(read, b);
  }

  /** However it is cut, a response of known length is the parser's answer as soon as its last byte is there. */
  lemma Received(read: HeadReader, h: Bytes, hd: Head, body: Bytes, more: Bytes, chunks: seq<Bytes>)
    requires EndsFirst(h) && read(h) == Some(hd) && Concat(chunks) == h + BLANK_LINE + body + more
    ensures hd.length == Some(|body|) ==> AddAll(read, chunks).done == Some(Response(hd, body))
    ensures hd.length == None ==> Finished(AddAll(read, chunks)) == Some(Response(hd, body + more))
  {
    assert h + BLANK_LINE + body + more == h + BLANK_LINE + (body + more);
    ResponseOf(read, h, body + more);
    AllReflects(read, chunks);
  }

  // ---- the code ----

  class TunnelHttpParser {
    const read: HeadReader
    var buf: Bytes
    var headersParsed: bool
    var head: Option<Head>
    var bodyStart: nat
    var done: Option<Response>

    ghost predicate Valid()
      reads this
    {
      headersParsed == head.Some? && (head.Some? ==> bodyStart <= |buf|)
    }

    ghost function View(): State
      reads this
    {
      State(buf, head, bodyStart, done)
    }

    constructor (read: HeadReader)
      ensures Valid() && View() == FRESH && this.read == read
    {
      this.read := read;
      buf, headersParsed, head, bodyStart, done := [], false, None, 0, None;
    }

    method TryParseHeaders()
      requires Valid() && !headersParsed
      modifies this`head, this`bodyStart, this`headersParsed
      ensures Valid() && View() == WithHead(read, old(View()))
    {
      var sep, i := -1, 0;
      while i + 3 < |buf|
        invariant sep == -1 && HeadEnd(buf, i) == HeadEnd(buf, 0)
      {
        if buf[i] == 13 && buf[i + 1] == 10 && buf[i + 2] == 13 && buf[i + 3] == 10 {
          sep := i;
          break;
        }
        i := i + 1;
      }
      if sep < 0 { return; }
      var parsed := read(buf[..sep]);
      if parsed.None? { return; }
      head := parsed;
      bodyStart := sep + 4;
      headersParsed := true;
    }

    method Add(chunk: Bytes) returns (threw: bool)
      requires Valid()
      modifies this
      ensures Valid() && threw == Throws(read, old(View()), chunk)
      ensures View() == Added(read, old(View()), chunk)
    {
      threw := false;
      if done.Some? { return; }
      buf := buf + chunk;
      if !headersParsed {
        TryParseHeaders();
      }
      if headersParsed {
        var cl := head.value.length;
        if cl.Some? && |buf| - bodyStart >= cl.value {
          if cl.value < 0 { return true; }
          done := Some(Response(head.value, buf[bodyStart..bodyStart + cl.value]));
        }
      }
    }

    /** None stands for the exception. */
    method Finish() returns (r: Option<Response>)
      requires Valid()
      ensures r == Finished(View())
    {
      if done.Some? { return done; }
      if !headersParsed { return None; }
      r := Some(Response(head.value, buf[bodyStart..]));
    }
  }
}
