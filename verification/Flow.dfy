/**
 * One tunnel stream seen on its own: what is queued for it on every leg between its client end and its
 * daemon end, and what each end has sent and received.
 */
module Flow {
  import opened Basics

  type Bytes = seq<bv8>

  /** Open travels to the daemon end, Accept to the client end, Data either way. */
  datatype Tok = Open | Accept | Data(bytes: Bytes)

  datatype EndState = Unopened | Opened | Ended

  /** A leg between one end and the other, from the far end's queue back to the sender's. */
  datatype Leg = Leg(down: seq<Tok>, hand: seq<Tok>, up: seq<Tok>, broken: bool, sent: Bytes, got: Bytes)

  /** live: the hub still has the pipe. toD runs from client to daemon, toC the other way. */
  datatype State = State(toD: Leg, toC: Leg, endC: EndState, endD: EndState, live: bool)

  datatype Move =
    | SendC(bytes: Bytes)
    | SendD(bytes: Bytes)
    | ServeC
    | ServeD
    | WriteD
    | WriteC
    | ReceiveD(ok: bool, taken: nat)
    | ReceiveC(ok: bool, taken: nat)
    | EndC
    | EndD
    | Decay(live: bool, brokenD: bool, brokenC: bool)

  function Sending(l: Leg, bytes: Bytes): Leg {
    l.(up := l.up + [Data(bytes)], sent := l.sent + bytes)
  }

  /** The hub takes the next frame: into its hands while the pipe is there, dropped otherwise. */
  function Serving(l: Leg, live: bool): Leg
    requires l.up != []
  {
    l.(up := l.up[1..], hand := if live then [l.up[0]] else [])
  }

  function Writing(l: Leg): Leg
    requires |l.hand| == 1
  {
    l.(hand := [], down := if l.broken then l.down else l.down + l.hand)
  }

  /** A data frame at an open end is handed over, or only part of it when that fails and ends the stream. */
  function Taking(l: Leg, end: EndState, ok: bool, taken: nat): Leg
    requires l.down != []
  {
    var rest := l.(down := l.down[1..]);
    if l.down[0].Data? && end.Opened? then
      var b := l.down[0].bytes;
      rest.(got := rest.got + if ok || taken > |b| then b else b[..taken])
    else rest
  }

  predicate Enabled(f: State, m: Move) {
    match m
    case SendC(_) => !f.endC.Unopened?
    case SendD(_) => !f.endD.Unopened?
    case ServeC => f.toD.up != [] && f.toD.hand == []
    case ServeD => f.toC.up != [] && f.toC.hand == []
    case WriteD => |f.toD.hand| == 1
    case WriteC => |f.toC.hand| == 1
    case ReceiveD(_, _) => f.toD.down != []
    case ReceiveC(_, _) => f.toC.down != []
    case EndC => f.endC.Opened?
    case EndD => f.endD.Opened?
    case Decay(live, brokenD, brokenC) => (live ==> f.live) && (f.toD.broken ==> brokenD) && (f.toC.broken ==> brokenC)
  }

  function Next(f: State, m: Move): State
    requires Enabled(f, m)
  {
    match m
    case SendC(b) => f.(toD := Sending(f.toD, b))
    case SendD(b) => f.(toC := Sending(f.toC, b))
    case ServeC => f.(toD := Serving(f.toD, f.live))
    case ServeD => f.(toC := Serving(f.toC, f.live))
    case WriteD => f.(toD := Writing(f.toD))
    case WriteC => f.(toC := Writing(f.toC))
    case ReceiveD(ok, taken) =>
      var x, toD := f.toD.down[0], Taking(f.toD, f.endD, ok, taken);
      if x.Open? && ok then f.(toD := toD, endD := Opened, toC := f.toC.(up := f.toC.up + [Accept]))
      else if x.Data? && f.endD.Opened? && !ok then f.(toD := toD, endD := Ended)
      else f.(toD := toD)
    case ReceiveC(ok, taken) =>
      var x, toC := f.toC.down[0], Taking(f.toC, f.endC, ok, taken);
      if x.Accept? then f.(toC := toC, endC := if ok then Opened else Ended)
      else if x.Data? && f.endC.Opened? && !ok then f.(toC := toC, endC := Ended)
      else f.(toC := toC)
    case EndC => f.(endC := Ended)
    case EndD => f.(endD := Ended)
    case Decay(live, brokenD, brokenC) =>
      f.(live := live, toD := f.toD.(broken := brokenD), toC := f.toC.(broken := brokenC))
  }

  // ---- what every move keeps ----

  function Load(q: seq<Tok>): Bytes {
    if q == [] then [] else (if q[0].Data? then q[0].bytes else []) + Load(q[1..])
  }

  function Count(q: seq<Tok>, t: Tok): nat {
    multiset(q)[t]
  }

  predicate NoData(q: seq<Tok>) {
    forall i :: 0 <= i < |q| ==> !q[i].Data?
  }

  /** No data token before the first Accept. */
  predicate AcceptFirst(q: seq<Tok>) {
    q == [] || q[0].Accept? || (!q[0].Data? && AcceptFirst(q[1..]))
  }

  /** Everything on the leg that can still reach its far end. */
  function Coming(l: Leg, live: bool): seq<Tok> {
    l.down + if l.broken then [] else l.hand + if live then l.up else []
  }

  /** Received and still to come never departs from what was sent; nothing is missing while all is well. */
  ghost predicate LegOk(l: Leg, end: EndState, live: bool) {
    && |l.hand| <= 1
    && (end.Ended? ==> l.got <= l.sent)
    && (!end.Ended? ==> l.got + Load(Coming(l, live)) <= l.sent)
    && (!end.Ended? && live && !l.broken ==> l.got + Load(Coming(l, live)) == l.sent)
  }

  function Opens(f: State): nat {
    Count(f.toD.down, Open) + Count(f.toD.hand, Open)
  }

  function Accepts(f: State): nat {
    Count(f.toC.down, Accept) + Count(f.toC.hand, Accept) + Count(f.toC.up, Accept)
  }

  /** Before the daemon end opens, nothing but the one Open is anywhere on the stream. */
  ghost predicate Quiet(f: State) {
    && f.endC.Unopened?
    && f.toD.up == [] && NoData(f.toD.down) && NoData(f.toD.hand)
    && f.toC.up == [] && f.toC.hand == [] && f.toC.down == []
    && f.toD.sent == [] && f.toD.got == [] && f.toC.sent == [] && f.toC.got == []
  }

  ghost predicate Inv(f: State) {
    && LegOk(f.toD, f.endD, f.live) && LegOk(f.toC, f.endC, f.live)
    && NoOpen(f.toD.up)
    && Opens(f) + One(!f.endD.Unopened?) <= 1
    && Opens(f) + Accepts(f) + One(!f.endC.Unopened?) <= 1
    && (f.endD.Unopened? ==> Quiet(f))
    && (f.endC.Unopened? ==> f.toC.got == [] && AcceptFirst(Coming(f.toC, f.live)))
    && (f.endC.Unopened? && !f.endD.Unopened? && f.live && !f.toC.broken ==> Accept in Coming(f.toC, f.live))
  }

  predicate NoOpen(q: seq<Tok>) {
    forall i :: 0 <= i < |q| ==> !q[i].Open?
  }

  lemma {:induction false} LoadConcat(a: seq<Tok>, b: seq<Tok>)
    ensures Load(a + b) == Load(a) + Load(b)
  {
    if a == [] {
      assert a + b == b;
    } else {
      assert (a + b)[1..] == a[1..] + b;
      LoadConcat(a[1..], b);
    }
  }

  lemma {:induction false} AcceptFirstPrefix(a: seq<Tok>, b: seq<Tok>)
    requires AcceptFirst(a + b)
    ensures AcceptFirst(a)
  {
    if a != [] && !a[0].Accept? {
      assert (a + b)[1..] == a[1..] + b;
      AcceptFirstPrefix(a[1..], b);
    }
  }

  lemma {:induction false} AcceptFirstAppend(a: seq<Tok>, b: seq<Tok>)
    requires AcceptFirst(a) && Accept in a
    ensures AcceptFirst(a + b)
  {
    if !a[0].Accept? {
      assert (a + b)[1..] == a[1..] + b;
      AcceptFirstAppend(a[1..], b);
    }
  }

  lemma LoadOne(t: Tok)
    ensures Load([t]) == if t.Data? then t.bytes else []
  {
    assert [t][1..] == [];
  }

  // ---- one leg at a time ----

  lemma SendingOk(l: Leg, end: EndState, live: bool, bytes: Bytes)
    requires LegOk(l, end, live)
    ensures LegOk(Sending(l, bytes), end, live)
    ensures !l.broken && live ==> Coming(Sending(l, bytes), live) == Coming(l, live) + [Data(bytes)]
    ensures !(!l.broken && live) ==> Coming(Sending(l, bytes), live) == Coming(l, live)
  {
    var was, n := Coming(l, live), Sending(l, bytes);
    assert l.sent <= n.sent;
    if !l.broken && live {
      assert Coming(n, live) == was + [Data(bytes)];
      LoadOne(Data(bytes));
      LoadConcat(was, [Data(bytes)]);
      Regroup(l.got, Load(was), bytes);
    }
  }

  lemma ServingOk(l: Leg, end: EndState, live: bool)
    requires LegOk(l, end, live) && l.up != [] && l.hand == []
    ensures LegOk(Serving(l, live), end, live)
    ensures Coming(Serving(l, live), live) == Coming(l, live)
  {
    assert l.up == [l.up[0]] + l.up[1..];
    assert Coming(Serving(l, live), live) == Coming(l, live);
  }

  lemma WritingOk(l: Leg, end: EndState, live: bool)
    requires LegOk(l, end, live) && |l.hand| == 1
    ensures LegOk(Writing(l), end, live)
    ensures Coming(Writing(l), live) == Coming(l, live)
  {
    assert Coming(Writing(l), live) == Coming(l, live);
  }

  lemma DecayOk(l: Leg, end: EndState, live: bool, live': bool, broken': bool) returns (cut: seq<Tok>)
    requires LegOk(l, end, live) && (live' ==> live) && (l.broken ==> broken')
    ensures LegOk(l.(broken := broken'), end, live')
    ensures Coming(l, live) == Coming(l.(broken := broken'), live') + cut
    ensures live' && !broken' ==> cut == []
  {
    var was, now := Coming(l, live), Coming(l.(broken := broken'), live');
    cut := was[|now|..];
    assert was == now + cut;
    LoadConcat(now, cut);
  }

  /** Receiving the front token; `end'` is the state of the receiving end afterwards. */
  lemma TakingOk(l: Leg, end: EndState, end': EndState, live: bool, ok: bool, taken: nat)
    requires LegOk(l, end, live) && l.down != []
    requires l.down[0].Data? && !end.Ended? ==> end.Opened? && end' == if ok then Opened else Ended
    requires l.down[0].Data? && end.Ended? ==> end' == Ended
    requires !l.down[0].Data? ==> (end.Ended? ==> end'.Ended?)
    ensures LegOk(Taking(l, end, ok, taken), end', live)
    ensures Coming(l, live) == [l.down[0]] + Coming(Taking(l, end, ok, taken), live)
  {
    var x, n := l.down[0], Taking(l, end, ok, taken);
    assert l.down == [x] + l.down[1..];
    var rest := Coming(n, live);
    assert Coming(l, live) == [x] + rest;
    LoadConcat([x], rest);
    LoadOne(x);
    hide Coming, Load;
    if x.Data? && end.Opened? {
      Regroup(l.got, x.bytes, Load(rest));
      assert l.got + x.bytes <= l.got + x.bytes + Load(rest);
      assert n.got <= l.got + x.bytes;
    } else if x.Data? {
      assert n.got == l.got;
    } else {
      assert Load([x] + rest) == Load(rest);
      assert l.got <= l.got + Load(rest);
    }
  }

  // ---- the whole stream ----

  lemma CountConcat(a: seq<Tok>, b: seq<Tok>, t: Tok)
    ensures Count(a + b, t) == Count(a, t) + Count(b, t)
  {
    assert multiset(a + b) == multiset(a) + multiset(b);
  }

  lemma CountHead(q: seq<Tok>, t: Tok)
    requires q != []
    ensures Count(q, t) == One(q[0] == t) + Count(q[1..], t)
  {
    assert q == [q[0]] + q[1..];
    CountConcat([q[0]], q[1..], t);
  }

  lemma SendKeeps(f: State, m: Move)
    requires Inv(f) && Enabled(f, m) && (m.SendC? || m.SendD?)
    ensures Inv(Next(f, m))
  {
    if m.SendC? {
      SendingOk(f.toD, f.endD, f.live, m.bytes);
    } else {
      SendingOk(f.toC, f.endC, f.live, m.bytes);
      CountConcat(f.toC.up, [Data(m.bytes)], Accept);
      if f.endC.Unopened? && f.live && !f.toC.broken {
        AcceptFirstAppend(Coming(f.toC, f.live), [Data(m.bytes)]);
      }
    }
  }

  lemma ServeKeeps(f: State, m: Move)
    requires Inv(f) && Enabled(f, m) && (m.ServeC? || m.ServeD?)
    ensures Inv(Next(f, m))
  {
    if m.ServeC? {
      ServingOk(f.toD, f.endD, f.live);
    } else {
      ServingOk(f.toC, f.endC, f.live);
      CountHead(f.toC.up, Accept);
    }
  }

  lemma WriteKeeps(f: State, m: Move)
    requires Inv(f) && Enabled(f, m) && (m.WriteC? || m.WriteD?)
    ensures Inv(Next(f, m))
  {
    if m.WriteD? {
      WritingOk(f.toD, f.endD, f.live);
      CountConcat(f.toD.down, f.toD.hand, Open);
    } else {
      WritingOk(f.toC, f.endC, f.live);
      CountConcat(f.toC.down, f.toC.hand, Accept);
    }
  }

  lemma DecayKeeps(f: State, m: Move)
    requires Inv(f) && Enabled(f, m) && m.Decay?
    ensures Inv(Next(f, m))
  {
    var _ := DecayOk(f.toD, f.endD, f.live, m.live, m.brokenD);
    var cut := DecayOk(f.toC, f.endC, f.live, m.live, m.brokenC);
    var now := Coming(Next(f, m).toC, m.live);
    if f.endC.Unopened? {
      AcceptFirstPrefix(now, cut);
      assert m.live && !m.brokenC ==> now + cut == now;
    }
  }

  /** The daemon end opens: the Open is used up, and the Accept it sends is the first thing on its way back. */
  lemma OpenedKeeps(f: State, m: Move)
    requires Inv(f) && Enabled(f, m) && m.ReceiveD? && f.toD.down[0].Open? && m.ok
    ensures Inv(Next(f, m))
  {
    var n := Next(f, m);
    CountHead(f.toD.down, Open);
    TakingOk(f.toD, f.endD, n.endD, f.live, m.ok, m.taken);
    assert f.endD.Unopened? && n.toC.up == [Accept];
    LoadOne(Accept);
    hide Taking;
  }

  /** An Open whose dial fails, or a frame at an end that is not open, is used up and nothing else. */
  lemma IgnoredKeeps(f: State, m: Move)
    requires Inv(f) && Enabled(f, m) && m.ReceiveD? && !f.toD.down[0].Data? && !(f.toD.down[0].Open? && m.ok)
    ensures Inv(Next(f, m))
  {
    hide Load, Coming, AcceptFirst;
    CountHead(f.toD.down, Open);
    TakingOk(f.toD, f.endD, f.endD, f.live, m.ok, m.taken);
    hide LegOk, Count;
  }

  /** Data reaches the daemon end only once that has opened. */
  lemma DataAtDaemonKeeps(f: State, m: Move)
    requires Inv(f) && Enabled(f, m) && m.ReceiveD? && f.toD.down[0].Data?
    ensures Inv(Next(f, m))
  {
    hide Load, Coming, AcceptFirst;
    assert !f.endD.Unopened?;
    CountHead(f.toD.down, Open);
    TakingOk(f.toD, f.endD, Next(f, m).endD, f.live, m.ok, m.taken);
    hide LegOk, Count;
  }

  lemma ReceiveDKeeps(f: State, m: Move)
    requires Inv(f) && Enabled(f, m) && m.ReceiveD?
    ensures Inv(Next(f, m))
  {
    hide Inv;
    if f.toD.down[0].Data? {
      DataAtDaemonKeeps(f, m);
    } else if f.toD.down[0].Open? && m.ok {
      OpenedKeeps(f, m);
    } else {
      IgnoredKeeps(f, m);
    }
  }

  lemma ReceiveCKeeps(f: State, m: Move)
    requires Inv(f) && Enabled(f, m) && m.ReceiveC?
    ensures Inv(Next(f, m))
  {
    var n, x := Next(f, m), f.toC.down[0];
    CountHead(f.toC.down, Accept);
    assert f.endC.Unopened? ==> !x.Data? by {
      assert f.endC.Unopened? ==> Coming(f.toC, f.live)[0] == x;
    }
    TakingOk(f.toC, f.endC, n.endC, f.live, m.ok, m.taken);
  }

  lemma NextKeeps(f: State, m: Move)
    requires Inv(f) && Enabled(f, m)
    ensures Inv(Next(f, m))
  {
    match m
    case SendC(_) => SendKeeps(f, m);
    case SendD(_) => SendKeeps(f, m);
    case ServeC => ServeKeeps(f, m);
    case ServeD => ServeKeeps(f, m);
    case WriteD => WriteKeeps(f, m);
    case WriteC => WriteKeeps(f, m);
    case ReceiveD(_, _) => ReceiveDKeeps(f, m);
    case ReceiveC(_, _) => ReceiveCKeeps(f, m);
    case Decay(_, _, _) => DecayKeeps(f, m);
    case _ =>
  }

  /** One move, or none. */
  ghost predicate Steps(f: State, g: State) {
    g == f || exists m :: Enabled(f, m) && g == Next(f, m)
  }

  lemma Stepped(f: State, m: Move)
    requires Enabled(f, m)
    ensures Steps(f, Next(f, m))
  {
  }

  lemma Stayed(f: State)
    ensures Steps(f, f)
  {
  }

  lemma StepsKeep(f: State, g: State)
    requires Inv(f) && Steps(f, g)
    ensures Inv(g)
  {
    hide Inv;
    if g != f {
      var m :| Enabled(f, m) && g == Next(f, m);
      NextKeeps(f, m);
    }
  }

  /** A stream nobody has used yet, its Open about to be written to the daemon. */
  function Start(brokenD: bool, brokenC: bool): State {
    State(Leg([], [Open], [], brokenD, [], []), Leg([], [], [], brokenC, [], []), Unopened, Unopened, true)
  }

  lemma StartOk(brokenD: bool, brokenC: bool)
    ensures Inv(Start(brokenD, brokenC))
  {
    LoadOne(Open);
  }
}
