/**
 * How the raw bytes of one terminal become numbered chunks: per direction a buffer that is cut by size and
 * by a timer, a counter shared by both directions, and resize markers written just before the output they govern.
 */
module Logstore {
  import opened Basics
  import opened LogRepo

  type Bytes = seq<bv8>

  datatype Direction = Input | Output

  datatype Grid = Grid(cols: int, rows: int)

  const DEFAULT_MAX_CHUNK := 16 * 1024

  function EffectiveMaxChunk(n: int): (max: int)
    ensures max > 0 && (n > 0 ==> max == n)
  {
    if n <= 0 then DEFAULT_MAX_CHUNK else n
  }

  /** chunks: everything handed on to be persisted, in order. pending: a grid no marker has recorded yet. */
  datatype Store = Store(counter: int, pending: Option<Grid>, chunks: seq<Row>)

  /** busy: a data message has been taken in but not all its full slices have been cut yet. */
  datatype Agg = Agg(buf: Bytes, armed: bool, busy: bool, open: bool)

  datatype State = State(store: Store, input: Agg, output: Agg)

  // ---- the steps ----

  function Chunk(d: Direction, data: Bytes): Body {
    if d.Output? then Stdout(data) else Stdin(data)
  }

  function Stamped(s: Store, body: Body): Store {
    s.(counter := s.counter + 1, chunks := s.chunks + [Row(s.counter + 1, body)])
  }

  function Marked(s: Store): Store {
    if s.pending.None? then s else Stamped(s.(pending := None), Resize(s.pending.value.cols, s.pending.value.rows))
  }

  function Flushed(s: Store, d: Direction, data: Bytes): Store {
    Stamped(if d.Output? then Marked(s) else s, Chunk(d, data))
  }

  /** What is left in a buffer, when anything is. */
  function FlushedRest(s: Store, d: Direction, buf: Bytes): Store {
    if buf == [] then s else Flushed(s, d, buf)
  }

  predicate ValidGrid(g: Grid) {
    g.cols > 0 && g.rows > 0
  }

  function WithGrid(s: Store, g: Grid): Store {
    if ValidGrid(g) then s.(pending := Some(g)) else s
  }

  function AggOf(st: State, d: Direction): Agg {
    if d.Output? then st.output else st.input
  }

  function With(st: State, d: Direction, store: Store, a: Agg): State {
    if d.Output? then st.(store := store, output := a) else st.(store := store, input := a)
  }

  /** Both aggregators and the callers that resize run on their own; each flush is one step. */
  datatype Event =
    | Receive(d: Direction, data: Bytes)
    | Slice(d: Direction)
    | Settle(d: Direction)
    | Fire(d: Direction)
    | Stop(d: Direction)
    | SetGrid(g: Grid)
    | FlushMarker

  predicate Enabled(max: int, st: State, e: Event) {
    match e
    case Receive(d, data) => AggOf(st, d).open && !AggOf(st, d).busy && data != []
    case Slice(d) => AggOf(st, d).busy && |AggOf(st, d).buf| >= max
    case Settle(d) => AggOf(st, d).busy && |AggOf(st, d).buf| < max
    case Fire(d) => AggOf(st, d).open && !AggOf(st, d).busy && AggOf(st, d).armed
    case Stop(d) => AggOf(st, d).open && !AggOf(st, d).busy
    case _ => true
  }

  function Next(max: int, st: State, e: Event): State
    requires max > 0 && Enabled(max, st, e)
  {
    match e
    case Receive(d, data) =>
      var a := AggOf(st, d);
      With(st, d, st.store, a.(buf := a.buf + data, busy := true))
    case Slice(d) =>
      var a := AggOf(st, d);
      With(st, d, Flushed(st.store, d, a.buf[..max]), a.(buf := a.buf[max..]))
    case Settle(d) =>
      var a := AggOf(st, d);
      With(st, d, st.store, a.(armed := a.buf != [], busy := false))
    case Fire(d) =>
      var a := AggOf(st, d);
      With(st, d, FlushedRest(st.store, d, a.buf), a.(buf := [], armed := false))
    case Stop(d) =>
      var a := AggOf(st, d);
      With(st, d, FlushedRest(st.store, d, a.buf), a.(buf := [], open := false))
    case SetGrid(g) => st.(store := WithGrid(st.store, g))
    case FlushMarker => st.(store := Marked(st.store))
  }

  const FRESH := Agg([], false, false, true)

  /** A terminal just registered, its counter seeded from the highest number in the table. */
  function Start(base: int): State {
    State(Store(base, None, []), FRESH, FRESH)
  }

  predicate Run(max: int, base: int, es: seq<Event>)
    requires max > 0
    decreases es, 0
  {
    es == [] ||
    (Run(max, base, es[..|es| - 1]) && Enabled(max, Exec(max, base, es[..|es| - 1]), es[|es| - 1]))
  }

  function Exec(max: int, base: int, es: seq<Event>): State
    requires max > 0 && Run(max, base, es)
    decreases es, 1
  {
    if es == [] then Start(base) else Next(max, Exec(max, base, es[..|es| - 1]), es[|es| - 1])
  }

  // ---- what a run was told, read off its events alone ----

  /** Every byte the run received in a direction, in order. */
  function Received(es: seq<Event>, d: Direction): Bytes {
    if es == [] then []
    else Received(es[..|es| - 1], d) + if es[|es| - 1].Receive? && es[|es| - 1].d == d then es[|es| - 1].data else []
  }

  /** The last valid grid set. */
  function LastGrid(es: seq<Event>): Option<Grid> {
    if es == [] then None
    else if es[|es| - 1].SetGrid? && ValidGrid(es[|es| - 1].g) then Some(es[|es| - 1].g)
    else LastGrid(es[..|es| - 1])
  }

  function GridsSet(es: seq<Event>): nat {
    if es == [] then 0
    else GridsSet(es[..|es| - 1]) + One(es[|es| - 1].SetGrid? && ValidGrid(es[|es| - 1].g))
  }

  // ---- what the chunks say ----

  function BytesOf(body: Body, d: Direction): Bytes {
    match body
    case Stdout(b) => if d.Output? then b else []
    case Stdin(b) => if d.Input? then b else []
    case Resize(_, _) => []
  }

  /** The bytes of one direction in a list of chunks. */
  function Stream(chunks: seq<Row>, d: Direction): Bytes {
    if chunks == [] then [] else Stream(chunks[..|chunks| - 1], d) + BytesOf(chunks[|chunks| - 1].body, d)
  }

  /** The grid of the last marker among some chunks. */
  function LastMarker(chunks: seq<Row>): Option<Grid> {
    if chunks == [] then None
    else match chunks[|chunks| - 1].body
      case Resize(cols, rows) => Some(Grid(cols, rows))
      case _ => LastMarker(chunks[..|chunks| - 1])
  }

  function Markers(chunks: seq<Row>): nat {
    if chunks == [] then 0 else Markers(chunks[..|chunks| - 1]) + if chunks[|chunks| - 1].body.Resize? then 1 else 0
  }

  lemma Appended(chunks: seq<Row>, r: Row, d: Direction)
    ensures Stream(chunks + [r], d) == Stream(chunks, d) + BytesOf(r.body, d)
    ensures LastMarker(chunks + [r])
         == if r.body.Resize? then Some(Grid(r.body.cols, r.body.rows)) else LastMarker(chunks)
    ensures Markers(chunks + [r]) == Markers(chunks) + if r.body.Resize? then 1 else 0
  {
    assert (chunks + [r])[..|chunks|] == chunks;
  }

  // ---- what every step keeps ----

  predicate SizeOk(max: int, body: Body) {
    match body
    case Stdout(b) => 1 <= |b| <= max
    case Stdin(b) => 1 <= |b| <= max
    case Resize(cols, rows) => cols > 0 && rows > 0
  }

  /** Numbered without a gap from just above the base, every chunk of a proper size. */
  ghost predicate Numbered(max: int, base: int, s: Store) {
    && s.counter == base + |s.chunks|
    && (forall i :: 0 <= i < |s.chunks| ==> s.chunks[i].num == base + i + 1 && SizeOk(max, s.chunks[i].body))
  }

  /** A grid still pending is the last one set; otherwise the last marker is. */
  ghost predicate GridOk(s: Store, last: Option<Grid>, sets: nat) {
    && (s.pending.Some? ==> ValidGrid(s.pending.value) && s.pending == last)
    && (s.pending.None? ==> LastMarker(s.chunks) == last)
    && Markers(s.chunks) + (if s.pending.Some? then 1 else 0) <= sets
  }

  ghost predicate AggOk(max: int, a: Agg) {
    && (!a.busy && a.open ==> |a.buf| < max && (a.armed <==> a.buf != []))
    && (!a.open ==> a.buf == [] && !a.busy)
  }

  ghost predicate Inv(max: int, base: int, es: seq<Event>, st: State) {
    && Numbered(max, base, st.store)
    && GridOk(st.store, LastGrid(es), GridsSet(es))
    && AggOk(max, st.input) && AggOk(max, st.output)
    && Balanced(es, st, Input) && Balanced(es, st, Output)
  }

  /** Every output chunk added has the grid `last` on record before it. */
  ghost predicate Governed(was: seq<Row>, now: seq<Row>, last: Option<Grid>) {
    && was <= now
    && (forall i :: |was| <= i < |now| && now[i].body.Stdout? ==> LastMarker(now[..i]) == last)
  }

  /** One direction's bytes have grown by data, the other's not. */
  predicate Added(was: seq<Row>, now: seq<Row>, d: Direction, data: Bytes) {
    && Stream(now, Input) == Stream(was, Input) + (if d.Input? then data else [])
    && Stream(now, Output) == Stream(was, Output) + (if d.Output? then data else [])
  }

  lemma MarkExact(max: int, base: int, s: Store, last: Option<Grid>, sets: nat)
    requires Numbered(max, base, s) && GridOk(s, last, sets)
    ensures var n := Marked(s);
            && Numbered(max, base, n) && GridOk(n, last, sets) && n.pending.None? && Governed(s.chunks, n.chunks, last)
            && Added(s.chunks, n.chunks, Input, [])
  {
    if s.pending.Some? {
      var r := Row(s.counter + 1, Resize(s.pending.value.cols, s.pending.value.rows));
      assert Marked(s).chunks == s.chunks + [r];
      hide Stream;
      forall o: Direction ensures Stream(s.chunks + [r], o) == Stream(s.chunks, o) {
        Appended(s.chunks, r, o);
      }
      Appended(s.chunks, r, Output);
    }
  }

  lemma ChunkExact(max: int, base: int, s: Store, d: Direction, data: Bytes, last: Option<Grid>, sets: nat)
    requires Numbered(max, base, s) && GridOk(s, last, sets) && 1 <= |data| <= max && (d.Output? ==> s.pending.None?)
    ensures var n := Stamped(s, Chunk(d, data));
            && Numbered(max, base, n) && GridOk(n, last, sets) && Governed(s.chunks, n.chunks, last)
            && Added(s.chunks, n.chunks, d, data)
  {
    hide Stream, LastMarker, Markers;
    var r := Row(s.counter + 1, Chunk(d, data));
    assert (s.chunks + [r])[..|s.chunks|] == s.chunks;
    forall o: Direction ensures Stream(s.chunks + [r], o) == Stream(s.chunks, o) + if o == d then data else [] {
      Appended(s.chunks, r, o);
    }
    Appended(s.chunks, r, d);
  }

  lemma GovernedThen(a: seq<Row>, b: seq<Row>, c: seq<Row>, last: Option<Grid>)
    requires Governed(a, b, last) && Governed(b, c, last)
    ensures Governed(a, c, last)
  {
    forall i | |a| <= i < |b| ensures c[..i] == b[..i] {}
  }

  /** One flush adds the data to its own direction, behind the grid that governs it. */
  lemma FlushExact(max: int, base: int, s: Store, d: Direction, data: Bytes, last: Option<Grid>, sets: nat)
    requires Numbered(max, base, s) && GridOk(s, last, sets) && |data| <= max
    ensures var n := FlushedRest(s, d, data);
            && Numbered(max, base, n) && GridOk(n, last, sets) && Governed(s.chunks, n.chunks, last)
            && Added(s.chunks, n.chunks, d, data)
  {
    if data != [] {
      MarkExact(max, base, s, last, sets);
      var m := if d.Output? then Marked(s) else s;
      ChunkExact(max, base, m, d, data, last, sets);
      hide Stream, Numbered, GridOk, Stamped, Marked;
      if d.Output? { GovernedThen(s.chunks, m.chunks, Stamped(m, Chunk(d, data)).chunks, last); }
    }
  }

  lemma EventRead(es: seq<Event>, e: Event, d: Direction)
    ensures Received(es + [e], d) == Received(es, d) + if e.Receive? && e.d == d then e.data else []
    ensures LastGrid(es + [e]) == if e.SetGrid? && ValidGrid(e.g) then Some(e.g) else LastGrid(es)
    ensures GridsSet(es + [e]) == GridsSet(es) + if e.SetGrid? && ValidGrid(e.g) then 1 else 0
  {
    assert (es + [e])[..|es|] == es;
  }

  ghost predicate Balanced(es: seq<Event>, st: State, d: Direction) {
    Stream(st.store.chunks, d) + AggOf(st, d).buf == Received(es, d)
  }

  /** Cutting `data` off a buffer and flushing it keeps both directions' balance. */
  lemma FlushBalanced(es: seq<Event>, st: State, n: State, d: Direction, data: Bytes, rest: Bytes, o: Direction)
    requires Balanced(es, st, o) && AggOf(st, d).buf == data + rest && AggOf(n, d).buf == rest
    requires o != d ==> AggOf(n, o).buf == AggOf(st, o).buf
    requires Stream(n.store.chunks, o) == Stream(st.store.chunks, o) + if o == d then data else []
    ensures Balanced(es, n, o)
  {
    if o == d { Regroup(Stream(st.store.chunks, d), data, rest); }
  }

  /** A step that flushes. */
  lemma FlushStep(max: int, base: int, es: seq<Event>, st: State, e: Event)
    requires max > 0 && Inv(max, base, es, st) && Enabled(max, st, e) && (e.Slice? || e.Fire? || e.Stop?)
    ensures Inv(max, base, es, Next(max, st, e))
    ensures Governed(st.store.chunks, Next(max, st, e).store.chunks, LastGrid(es))
  {
    hide Flushed, Stream, Received, Numbered, GridOk, LastMarker, LastGrid, GridsSet, Governed;
    var a, n := AggOf(st, e.d), Next(max, st, e);
    var data := if e.Slice? then a.buf[..max] else a.buf;
    var rest := if e.Slice? then a.buf[max..] else [];
    assert AggOk(max, a) && data + rest == a.buf;
    FlushExact(max, base, st.store, e.d, data, LastGrid(es), GridsSet(es));
    assert n.store == FlushedRest(st.store, e.d, data);
    hide FlushedRest;
    forall d ensures AggOk(max, AggOf(n, d)) && Balanced(es, n, d) {
      assert AggOk(max, AggOf(st, d)) && Balanced(es, st, d);
      FlushBalanced(es, st, n, e.d, data, rest, d);
    }
  }

  lemma ReceiveStep(max: int, base: int, es: seq<Event>, st: State, e: Event)
    requires max > 0 && Inv(max, base, es, st) && Enabled(max, st, e) && (e.Receive? || e.Settle?)
    ensures Inv(max, base, es + [e], Next(max, st, e)) && Next(max, st, e).store == st.store
  {
    hide Stream, Received, Numbered, GridOk, LastMarker, LastGrid, GridsSet;
    var a, n := AggOf(st, e.d), Next(max, st, e);
    EventRead(es, e, Input);
    EventRead(es, e, Output);
    forall d ensures AggOk(max, AggOf(n, d)) && Balanced(es + [e], n, d) {
      assert AggOk(max, AggOf(st, d)) && Balanced(es, st, d);
      if e.Receive? && d == e.d { Regroup(Stream(st.store.chunks, d), a.buf, e.data); }
    }
  }

  lemma GridStep(max: int, base: int, es: seq<Event>, st: State, e: Event)
    requires max > 0 && Inv(max, base, es, st) && (e.SetGrid? || e.FlushMarker?)
    ensures Inv(max, base, es + [e], Next(max, st, e))
    ensures Governed(st.store.chunks, Next(max, st, e).store.chunks, LastGrid(es))
  {
    hide Stream, Received, LastMarker, LastGrid, GridsSet, Marked;
    var n := Next(max, st, e);
    EventRead(es, e, Input);
    EventRead(es, e, Output);
    MarkExact(max, base, st.store, LastGrid(es), GridsSet(es));
    forall d ensures AggOk(max, AggOf(n, d)) && Balanced(es + [e], n, d) {
      assert AggOk(max, AggOf(st, d)) && Balanced(es, st, d);
    }
  }

  lemma NextKeeps(max: int, base: int, es: seq<Event>, st: State, e: Event)
    requires max > 0 && Inv(max, base, es, st) && Enabled(max, st, e)
    ensures Inv(max, base, es + [e], Next(max, st, e))
    ensures Governed(st.store.chunks, Next(max, st, e).store.chunks, LastGrid(es))
  {
    match e
    case Receive(_, _) => ReceiveStep(max, base, es, st, e);
    case Settle(_) => ReceiveStep(max, base, es, st, e);
    case SetGrid(_) => GridStep(max, base, es, st, e);
    case FlushMarker => GridStep(max, base, es, st, e);
    case _ =>
      FlushStep(max, base, es, st, e);
      NothingTold(max, base, es, Next(max, st, e), e);
  }

  lemma NothingTold(max: int, base: int, es: seq<Event>, n: State, e: Event)
    requires Inv(max, base, es, n) && !e.Receive? && !e.SetGrid?
    ensures Inv(max, base, es + [e], n)
  {
    hide Numbered, GridOk, AggOk, Stream;
    EventRead(es, e, Input);
    EventRead(es, e, Output);
    forall d ensures Balanced(es + [e], n, d) { assert Balanced(es, n, d); }
  }

  lemma {:induction false} RunKeeps(max: int, base: int, es: seq<Event>)
    requires max > 0 && Run(max, base, es)
    ensures Inv(max, base, es, Exec(max, base, es))
  {
    if es != [] {
      var before := es[..|es| - 1];
      RunKeeps(max, base, before);
      hide Inv, Next, Enabled;
      NextKeeps(max, base, before, Exec(max, base, before), es[|es| - 1]);
      assert before + [es[|es| - 1]] == es;
    }
  }

  // ---- the main results ----

  /**
   * No byte is lost, repeated or moved: what was flushed in a direction and what its buffer holds is what it
   * received.
   */
  lemma BytesConserved(max: int, base: int, es: seq<Event>, d: Direction)
    requires max > 0 && Run(max, base, es)
    ensures var st := Exec(max, base, es);
            && Stream(st.store.chunks, d) + AggOf(st, d).buf == Received(es, d)
            && (!AggOf(st, d).open ==> Stream(st.store.chunks, d) == Received(es, d))
            && (AggOf(st, d).open && !AggOf(st, d).busy ==>
                  |AggOf(st, d).buf| < max && (AggOf(st, d).armed <==> AggOf(st, d).buf != []))
  {
    RunKeeps(max, base, es);
    var st := Exec(max, base, es);
    assert Balanced(es, st, d) && AggOk(max, AggOf(st, d));
    hide Exec, Stream;
    assert Stream(st.store.chunks, d) + [] == Stream(st.store.chunks, d);
  }

  /** Numbers run on from the base without a gap, and no chunk is empty or oversized. */
  lemma ChunksNumbered(max: int, base: int, es: seq<Event>, i: nat)
    requires max > 0 && Run(max, base, es) && i < |Exec(max, base, es).store.chunks|
    ensures var r := Exec(max, base, es).store.chunks[i];
            r.num == base + i + 1 && SizeOk(max, r.body)
  {
    RunKeeps(max, base, es);
  }

  /** The event that wrote the i-th chunk. */
  function When(max: int, base: int, es: seq<Event>, i: nat): (k: nat)
    requires max > 0 && Run(max, base, es) && i < |Exec(max, base, es).store.chunks|
    ensures k < |es|
  {
    if i < |Exec(max, base, es[..|es| - 1]).store.chunks| then When(max, base, es[..|es| - 1], i) else |es| - 1
  }

  /** At every output chunk the nearest earlier marker carries the last valid grid set before that flush. */
  lemma {:induction false} GridAtOutput(max: int, base: int, es: seq<Event>, i: nat)
    requires max > 0 && Run(max, base, es) && i < |Exec(max, base, es).store.chunks|
    requires Exec(max, base, es).store.chunks[i].body.Stdout?
    ensures LastMarker(Exec(max, base, es).store.chunks[..i]) == LastGrid(es[..When(max, base, es, i)])
  {
    var n := |es| - 1;
    var before := es[..n];
    RunKeeps(max, base, before);
    var st := Exec(max, base, before);
    NextKeeps(max, base, before, st, es[n]);
    var was, now := st.store.chunks, Exec(max, base, es).store.chunks;
    assert Governed(was, now, LastGrid(before));
    hide Inv, Next, Enabled;
    if i < |was| {
      GridAtOutput(max, base, before, i);
      assert now[..i] == was[..i] && now[i] == was[i];
      var k := When(max, base, before, i);
      assert before[..k] == es[..k];
    }
  }

  /** The event writes an output chunk. */
  predicate WritesOutput(st: State, e: Event) {
    e == Slice(Output) || ((e == Fire(Output) || e == Stop(Output)) && st.output.buf != [])
  }

  /** The data of a chunk is a full slice off the front of its buffer, or on a timer or at the end all of it. */
  predicate CutBy(max: int, st: State, e: Event, d: Direction, data: Bytes) {
    var buf := AggOf(st, d).buf;
    || (e == Slice(d) && 0 <= max <= |buf| && data == buf[..max])
    || ((e == Fire(d) || e == Stop(d)) && data == buf && data != [])
  }

  /** What may have written a chunk. */
  predicate WrittenBy(max: int, st: State, e: Event, body: Body) {
    match body
    case Stdout(b) => CutBy(max, st, e, Output, b)
    case Stdin(b) => CutBy(max, st, e, Input, b)
    case Resize(_, _) => e.FlushMarker? || WritesOutput(st, e)
  }

  lemma StepWrites(max: int, st: State, e: Event, i: nat)
    requires max > 0 && Enabled(max, st, e) && |st.store.chunks| <= i < |Next(max, st, e).store.chunks|
    ensures WrittenBy(max, st, e, Next(max, st, e).store.chunks[i].body)
  {
  }

  lemma StepAppends(max: int, st: State, e: Event)
    requires max > 0 && Enabled(max, st, e)
    ensures st.store.chunks <= Next(max, st, e).store.chunks
  {
  }

  /** Every chunk and marker of every run was written by the event that had to write it, and holds what it had to. */
  lemma {:induction false} ChunkCut(max: int, base: int, es: seq<Event>, i: nat)
    requires max > 0 && Run(max, base, es) && i < |Exec(max, base, es).store.chunks|
    ensures var k := When(max, base, es, i);
            && Run(max, base, es[..k])
            && WrittenBy(max, Exec(max, base, es[..k]), es[k], Exec(max, base, es).store.chunks[i].body)
  {
    var n := |es| - 1;
    var before := es[..n];
    var st := Exec(max, base, before);
    StepAppends(max, st, es[n]);
    if i < |st.store.chunks| {
      ChunkCut(max, base, before, i);
      hide WrittenBy, Next, Enabled;
      var k := When(max, base, before, i);
      assert before[..k] == es[..k] && before[k] == es[k];
    } else {
      StepWrites(max, st, es[n], i);
      hide WrittenBy, Next, Enabled;
    }
  }

  /** The last valid grid set since an output chunk or a marker was last written. */
  function Unrecorded(max: int, base: int, es: seq<Event>): Option<Grid>
    requires max > 0 && Run(max, base, es)
  {
    if es == [] then None
    else
      var before, e := es[..|es| - 1], es[|es| - 1];
      if e.SetGrid? && ValidGrid(e.g) then Some(e.g)
      else if e.FlushMarker? || WritesOutput(Exec(max, base, before), e) then None
      else Unrecorded(max, base, before)
  }

  /** At every point of every run the grid pending is the one set since; so input never brings a marker. */
  lemma {:induction false} PendingExact(max: int, base: int, es: seq<Event>)
    requires max > 0 && Run(max, base, es)
    ensures Exec(max, base, es).store.pending == Unrecorded(max, base, es)
  {
    if es != [] {
      PendingExact(max, base, es[..|es| - 1]);
    }
  }

  /** Bursts of resizes cost one marker; once a marker flush is done the log ends at the current grid. */
  lemma MarkersCoalesced(max: int, base: int, es: seq<Event>)
    requires max > 0 && Run(max, base, es)
    ensures var s := Exec(max, base, es).store;
            && Markers(s.chunks) <= GridsSet(es)
            && LastMarker(Marked(s).chunks) == LastGrid(es)
  {
    RunKeeps(max, base, es);
    var s := Exec(max, base, es).store;
    MarkExact(max, base, s, LastGrid(es), GridsSet(es));
  }
}
