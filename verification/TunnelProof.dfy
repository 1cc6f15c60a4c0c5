/** Every stream of the relay behaves as module Flow says, and so delivers a prefix of what was sent. */
module TunnelProof {
  import opened Basics
  import Hub
  import Flow
  import opened Tunnel

  type Pipes = map<nat, Hub.Pipe>

  // ---- who may hold what ----

  predicate Party(pipes: Pipes, id: nat, s: SessionId) {
    id in pipes && Hub.Touches(pipes[id], s)
  }

  predicate UpFits(pipes: Pipes, s: SessionId, f: Frame) {
    match f
    case DataFrame(id, _) => Party(pipes, id, s)
    case AcceptFrame(id) => id in pipes && pipes[id].daemon == s
    case OpenFrame(_) => false
    case _ => true
  }

  predicate DownFits(pipes: Pipes, s: SessionId, f: Frame) {
    match f
    case DataFrame(id, _) => Party(pipes, id, s)
    case AcceptFrame(id) => id in pipes && pipes[id].client == s
    case OpenFrame(id) => Party(pipes, id, s)
    case _ => true
  }

  predicate ActFits(pipes: Pipes, t: Thread, a: Action) {
    match a
    case Write(to, f) =>
      (match f
       case AcceptFrame(id) => id in pipes && t == Reader(pipes[id].daemon) && to == pipes[id].client
       case CloseFrame(_) => true
       case ErrorFrame => true
       case _ => false)
    case WriteOrDrop(to, f, id) =>
      && id in pipes
      && (match f
          case DataFrame(j, _) => j == id && t.Reader? && Party(pipes, id, t.s) && to == Hub.Peer(pipes[id], t.s)
          case OpenFrame(j) => j == id && t == Reader(pipes[id].client) && Party(pipes, id, to)
          case _ => false)
    case _ => true
  }

  /** Only the first action of a list can carry a frame a stream depends on. */
  predicate Plain(pipes: Pipes, a: Action) {
    match a
    case Write(_, f) => f.CloseFrame? || f.ErrorFrame?
    case WriteOrDrop(to, f, id) => f.OpenFrame? && id in pipes && to == pipes[id].client
    case _ => true
  }

  ghost predicate HubOk(hub: Hub.State, pipes: Pipes) {
    && Hub.Inv(hub)
    && (forall id :: id in hub.streams ==> id in pipes && pipes[id] == hub.streams[id])
    && (forall id :: id in pipes ==> PipeKnown(hub, id, pipes[id]))
  }

  predicate PipeKnown(hub: Hub.State, id: nat, p: Hub.Pipe) {
    && p.id == id && 1 <= id <= hub.nextId
    && Hub.RoleOf(hub, p.client) == Some(Hub.ClientRole)
    && Hub.RoleOf(hub, p.daemon) == Some(Hub.DaemonRole)
  }

  ghost predicate UpOk(pipes: Pipes, up: map<SessionId, seq<Frame>>) {
    forall s, f :: f in Queue(up, s) ==> UpFits(pipes, s, f)
  }

  ghost predicate DownOk(pipes: Pipes, down: map<SessionId, seq<Frame>>) {
    forall s, f :: f in Queue(down, s) ==> DownFits(pipes, s, f)
  }

  ghost predicate ListFits(pipes: Pipes, t: Thread, acts: seq<Action>) {
    && (forall a :: a in acts ==> ActFits(pipes, t, a))
    && (forall k :: 0 < k < |acts| ==> Plain(pipes, acts[k]))
  }

  ghost predicate TodoOk(pipes: Pipes, todo: map<Thread, seq<Action>>) {
    forall t :: ThreadOk(pipes, todo, t)
  }

  ghost predicate ThreadOk(pipes: Pipes, todo: map<Thread, seq<Action>>, t: Thread) {
    ListFits(pipes, t, Todo(todo, t))
  }

  ghost predicate EndsOk(pipes: Pipes, st: State) {
    && (forall k :: k in st.ends ==> Party(pipes, k.id, k.s))
    && (forall k :: k in st.sent ==> Party(pipes, k.id, k.s))
    && (forall k :: k in st.got ==> Party(pipes, k.id, k.s))
  }

  ghost predicate Wired(st: State) {
    && HubOk(st.hub, st.pipes) && UpOk(st.pipes, st.up) && DownOk(st.pipes, st.down)
    && TodoOk(st.pipes, st.todo) && EndsOk(st.pipes, st)
  }

  // ---- one stream's view ----

  function Tok(f: Frame, id: nat, toDaemon: bool): seq<Flow.Tok> {
    match f
    case DataFrame(j, b) => if j == id then [Flow.Data(b)] else []
    case OpenFrame(j) => if j == id && toDaemon then [Flow.Open] else []
    case AcceptFrame(j) => if j == id && !toDaemon then [Flow.Accept] else []
    case _ => []
  }

  function Toks(q: seq<Frame>, id: nat, toDaemon: bool): seq<Flow.Tok> {
    if q == [] then [] else Tok(q[0], id, toDaemon) + Toks(q[1..], id, toDaemon)
  }

  function Hand(acts: seq<Action>, to: SessionId, id: nat, toDaemon: bool): seq<Flow.Tok> {
    if acts != [] && (acts[0].Write? || acts[0].WriteOrDrop?) && acts[0].to == to
    then Tok(acts[0].frame, id, toDaemon) else []
  }

  function LegOf(st: State, id: nat, from: SessionId, to: SessionId, toDaemon: bool): Flow.Leg {
    Flow.Leg(Toks(Queue(st.down, to), id, toDaemon), Hand(Todo(st.todo, Reader(from)), to, id, toDaemon),
             Toks(Queue(st.up, from), id, toDaemon), to in st.broken,
             BytesAt(st.sent, End(from, id)), BytesAt(st.got, End(to, id)))
  }

  function FlowOf(st: State, id: nat): Flow.State
    requires id in st.pipes
  {
    var p := st.pipes[id];
    Flow.State(LegOf(st, id, p.client, p.daemon, true), LegOf(st, id, p.daemon, p.client, false),
               EndOf(st, p.client, id), EndOf(st, p.daemon, id), id in st.hub.streams)
  }

  lemma {:induction false} ToksPushed(q: seq<Frame>, f: Frame, id: nat, toDaemon: bool)
    ensures Toks(q + [f], id, toDaemon) == Toks(q, id, toDaemon) + Tok(f, id, toDaemon)
  {
    if q == [] {
      assert [f][1..] == [];
    } else {
      assert (q + [f])[1..] == q[1..] + [f];
      ToksPushed(q[1..], f, id, toDaemon);
    }
  }

  lemma {:induction false} NoToks(q: seq<Frame>, id: nat, toDaemon: bool)
    requires forall f :: f in q ==> Tok(f, id, toDaemon) == []
    ensures Toks(q, id, toDaemon) == []
  {
    if q != [] {
      assert q == [q[0]] + q[1..] && q[0] in q;
      NoToks(q[1..], id, toDaemon);
    }
  }

  // ---- the wiring is kept ----

  lemma StartWired()
    ensures Wired(START)
  {
  }

  /** Streams only go, ids and roles stay. */
  lemma HubShrinks(hub: Hub.State, pipes: Pipes, n: Hub.State)
    requires HubOk(hub, pipes) && Hub.Inv(n) && n.nextId == hub.nextId
    requires forall id :: id in n.streams ==> id in hub.streams && n.streams[id] == hub.streams[id]
    requires forall s :: s in hub.sessions ==> Hub.RoleOf(n, s) == Hub.RoleOf(hub, s)
    ensures HubOk(n, pipes)
  {
    forall id | id in pipes ensures PipeKnown(n, id, pipes[id]) { assert PipeKnown(hub, id, pipes[id]); }
  }

  lemma UpPushed(pipes: Pipes, up: map<SessionId, seq<Frame>>, s: SessionId, f: Frame)
    requires UpOk(pipes, up) && UpFits(pipes, s, f)
    ensures UpOk(pipes, Pushed(up, s, f))
  {
    forall t, x | x in Queue(Pushed(up, s, f), t) ensures UpFits(pipes, t, x) {
      if x in Queue(up, t) { assert UpFits(pipes, t, x); }
    }
  }

  lemma DownPushed(pipes: Pipes, down: map<SessionId, seq<Frame>>, s: SessionId, f: Frame)
    requires DownOk(pipes, down) && DownFits(pipes, s, f)
    ensures DownOk(pipes, Pushed(down, s, f))
  {
    forall t, x | x in Queue(Pushed(down, s, f), t) ensures DownFits(pipes, t, x) {
      if x in Queue(down, t) { assert DownFits(pipes, t, x); }
    }
  }

  lemma UpPopped(pipes: Pipes, up: map<SessionId, seq<Frame>>, s: SessionId)
    requires UpOk(pipes, up) && Queue(up, s) != []
    ensures UpFits(pipes, s, up[s][0]) && UpOk(pipes, up[s := up[s][1..]])
  {
    assert up[s][0] in Queue(up, s);
    forall t, x | x in Queue(up[s := up[s][1..]], t) ensures UpFits(pipes, t, x) {
      assert x in Queue(up, t);
    }
  }

  lemma DownPopped(pipes: Pipes, down: map<SessionId, seq<Frame>>, s: SessionId)
    requires DownOk(pipes, down) && Queue(down, s) != []
    ensures DownFits(pipes, s, down[s][0]) && DownOk(pipes, down[s := down[s][1..]])
  {
    assert down[s][0] in Queue(down, s);
    forall t, x | x in Queue(down[s := down[s][1..]], t) ensures DownFits(pipes, t, x) {
      assert x in Queue(down, t);
    }
  }

  lemma TodoSet(pipes: Pipes, todo: map<Thread, seq<Action>>, t: Thread, acts: seq<Action>)
    requires TodoOk(pipes, todo) && ListFits(pipes, t, acts)
    ensures TodoOk(pipes, todo[t := acts])
  {
    var n := todo[t := acts];
    forall u ensures ThreadOk(pipes, n, u) {
      assert ThreadOk(pipes, todo, u);
    }
  }

  lemma ListTail(pipes: Pipes, t: Thread, acts: seq<Action>, front: seq<Action>)
    requires ListFits(pipes, t, acts) && acts != []
    requires forall k :: 0 <= k < |front| ==> ActFits(pipes, t, front[k]) && Plain(pipes, front[k])
    ensures ListFits(pipes, t, front + acts[1..])
  {
    var all := front + acts[1..];
    forall k | 0 <= k < |all| ensures ActFits(pipes, t, all[k]) && (k > 0 ==> Plain(pipes, all[k])) {
      if k >= |front| {
        assert all[k] == acts[k - |front| + 1];
        assert acts[k - |front| + 1] in acts;
      }
    }
  }

  lemma HubStepWired(st: State, e: Event)
    requires Wired(st) && Enabled(st, e) && e.HubStep?
    ensures Wired(Next(st, e)) && Next(st, e).hub.streams == st.hub.streams
  {
    hide HubOk, UpOk, DownOk, TodoOk, EndsOk, Hub.Section, Hub.Inv, Hub.Enabled;
    HubOkInv(st.hub, st.pipes);
    Hub.SectionKeeps(st.hub, e.e);
    Hub.SectionTables(st.hub, e.e);
    HubShrinks(st.hub, st.pipes, Hub.Section(st.hub, e.e));
    EndsSame(st.pipes, st, Next(st, e));
  }

  lemma EndsSame(pipes: Pipes, st: State, n: State)
    requires EndsOk(pipes, st) && n.ends == st.ends && n.sent == st.sent && n.got == st.got
    ensures EndsOk(pipes, n)
  {
  }

  lemma SendersWired(st: State, e: Event)
    requires Wired(st) && Enabled(st, e)
    requires e.Request? || e.Send? || e.SendClose? || e.EndLocally? || e.Break? || e.StartClose?
    ensures Wired(Next(st, e))
  {
    match e
    case Request(s, devId) => UpPushed(st.pipes, st.up, s, OpenRequest(devId));
    case Send(s, id, b) => UpPushed(st.pipes, st.up, s, DataFrame(id, b));
    case SendClose(s, id) => UpPushed(st.pipes, st.up, s, CloseFrame(id));
    case StartClose(n, s) =>
      assert ThreadOk(st.pipes, st.todo, Closer(n));
      TodoSet(st.pipes, st.todo, Closer(n), Todo(st.todo, Closer(n)) + [CloseNow(s)]);
    case _ =>
  }

  lemma HandedEnds(pipes: Pipes, st: State, role: Hub.Role, k: End, f: Frame, ok: bool, taken: nat)
    requires EndsOk(pipes, st) && DownFits(pipes, k.s, f) && StreamOf(f) == Some(k.id)
    ensures EndsOk(pipes, Handed(st, role, k, f, ok, taken))
  {
    if f.CloseFrame? {
      assert k in st.ends ==> Party(pipes, k.id, k.s);
    } else {
      assert Party(pipes, k.id, k.s);
    }
    hide EndAfter, Reply, Party, Pushed;
  }

  lemma HandedWired(st: State, s: SessionId, k: End, f: Frame, ok: bool, taken: nat)
    requires Wired(st) && DownFits(st.pipes, s, f) && s in st.hub.sessions && StreamOf(f).Some?
             && k == End(s, StreamOf(f).value)
    ensures Wired(Handed(st, st.hub.sessions[s].role, k, f, ok, taken))
  {
    hide UpOk, DownOk, TodoOk, EndsOk;
    var role := st.hub.sessions[s].role;
    var reply := Reply(role, EndAt(st.ends, k), f, ok);
    ReplyFits(st, s, f, ok);
    hide HubOk, DownFits, EndAfter, Reply, Taken, Gained, Filed;
    HandedEnds(st.pipes, st, role, k, f, ok, taken);
    if reply.Some? { UpPushed(st.pipes, st.up, s, reply.value); }
  }

  lemma PoppedWired(st: State, s: SessionId)
    requires Wired(st) && Queue(st.down, s) != []
    ensures Wired(st.(down := st.down[s := st.down[s][1..]])) && DownFits(st.pipes, s, st.down[s][0])
  {
    hide HubOk, UpOk, TodoOk;
    DownPopped(st.pipes, st.down, s);
    EndsSame(st.pipes, st, st.(down := st.down[s := st.down[s][1..]]));
    hide DownOk;
  }

  lemma ReceiveWired(st: State, e: Event)
    requires Wired(st) && Enabled(st, e) && e.Receive?
    ensures Wired(Next(st, e))
  {
    hide Wired, DownFits, Handed;
    var f, rest := st.down[e.s][0], st.(down := st.down[e.s := st.down[e.s][1..]]);
    PoppedWired(st, e.s);
    if StreamOf(f).Some? && e.s in st.hub.sessions {
      HandedWired(rest, e.s, End(e.s, StreamOf(f).value), f, e.ok, e.taken);
    }
    hide StreamOf;
  }

  lemma ReplyFits(st: State, s: SessionId, f: Frame, ok: bool)
    requires HubOk(st.hub, st.pipes) && DownFits(st.pipes, s, f) && StreamOf(f).Some? && s in st.hub.sessions
    ensures var role, end := st.hub.sessions[s].role, EndOf(st, s, StreamOf(f).value);
            Reply(role, end, f, ok).Some? ==> UpFits(st.pipes, s, Reply(role, end, f, ok).value)
  {
    if f.OpenFrame? {
      assert PipeKnown(st.hub, f.id, st.pipes[f.id]);
    }
  }

  lemma {:induction false} CloseWritesPlain(pipes: Pipes, t: Thread, told: seq<Hub.Notice>)
    ensures forall k :: 0 <= k < |CloseWrites(told)| ==>
              ActFits(pipes, t, CloseWrites(told)[k]) && Plain(pipes, CloseWrites(told)[k])
                  && CloseWrites(told)[k].Write?
              && CloseWrites(told)[k].frame.CloseFrame?
  {
    if told != [] { CloseWritesPlain(pipes, t, told[1..]); }
  }

  lemma ActTodo(st: State, t: Thread)
    requires Wired(st) && Enabled(st, Act(t))
    ensures TodoOk(st.pipes, Acting(st, t).todo)
  {
    var acts := Todo(st.todo, t);
    assert ThreadOk(st.pipes, st.todo, t);
    var front := Front(st, acts[0]);
    if acts[0].CloseNow? && acts[0].s !in st.hub.closed {
      CloseWritesPlain(st.pipes, t, Hub.Notices(Hub.Doomed(st.hub.streams, Hub.Ids(st.hub, acts[0].s)), acts[0].s));
    }
    ListTail(st.pipes, t, acts, front);
    var failed := acts[0].WriteOrDrop? && acts[0].to in st.broken;
    var list := if failed then front else front + acts[1..];
    assert [] + acts[1..] == acts[1..];
    assert ListFits(st.pipes, t, list);
    TodoSet(st.pipes, st.todo, t, list);
  }

  lemma ActHub(st: State, t: Thread)
    requires HubOk(st.hub, st.pipes) && Enabled(st, Act(t))
    ensures HubOk(HubAfter(st.hub, st.todo[t][0]), st.pipes)
  {
    var a := st.todo[t][0];
    if a.DropNow? {
      Hub.DropKeeps(st.hub, a.id);
    } else if a.CloseNow? {
      Hub.CloseKeeps(st.hub, a.s);
    }
    hide Hub.Inv, Enabled;
    HubShrinks(st.hub, st.pipes, HubAfter(st.hub, a));
  }

  lemma ActWired(st: State, t: Thread)
    requires Wired(st) && Enabled(st, Act(t))
    ensures Wired(Acting(st, t))
  {
    ActHub(st, t);
    ActTodo(st, t);
    var a := st.todo[t][0];
    assert ThreadOk(st.pipes, st.todo, t) && a in Todo(st.todo, t);
    if a.Write? || a.WriteOrDrop? {
      DownPushed(st.pipes, st.down, a.to, a.frame);
    }
    hide HubOk, UpOk, DownOk, TodoOk;
    EndsSame(st.pipes, st, Acting(st, t));
  }

  /** More pipes known: whatever fitted still fits. */
  lemma FitsGrow(st: State, pipes: Pipes)
    requires UpOk(st.pipes, st.up) && DownOk(st.pipes, st.down) && TodoOk(st.pipes, st.todo) && EndsOk(st.pipes, st)
    requires forall id :: id in st.pipes ==> id in pipes && pipes[id] == st.pipes[id]
    ensures UpOk(pipes, st.up) && DownOk(pipes, st.down) && TodoOk(pipes, st.todo) && EndsOk(pipes, st)
  {
    forall s, f | f in Queue(st.up, s) ensures UpFits(pipes, s, f) { assert UpFits(st.pipes, s, f); }
    forall s, f | f in Queue(st.down, s) ensures DownFits(pipes, s, f) { assert DownFits(st.pipes, s, f); }
    forall t ensures ThreadOk(pipes, st.todo, t) {
      assert ThreadOk(st.pipes, st.todo, t);
    }
  }

  lemma PipeAdded(hub: Hub.State, pipes: Pipes, n: Hub.State, p: Hub.Pipe)
    requires HubOk(hub, pipes) && Hub.Inv(n) && p.id == n.nextId == hub.nextId + 1
    requires n.streams == hub.streams[p.id := p] && n.sessions == hub.sessions
    ensures p.id !in pipes && HubOk(n, pipes[p.id := p])
  {
    assert Hub.PipeOk(n, p.id);
    forall id | id in pipes ensures PipeKnown(n, id, pipes[id]) && id != p.id { assert PipeKnown(hub, id, pipes[id]); }
  }

  lemma HandleOpens(hub: Hub.State, pipes: Pipes, s: SessionId, devId: string)
    requires HubOk(hub, pipes) && hub.nextId + 1 < Hub.ID_SPAN
    ensures var (n, acts) := Handle(hub, s, OpenRequest(devId));
            var more := PipesAfter(pipes, hub, n);
            && HubOk(n, more) && ListFits(more, Reader(s), acts)
            && (forall id :: id in pipes ==> id in more && more[id] == pipes[id])
  {
    hide HubOk, Hub.Opening, Hub.Inv, ListFits, PipesAfter;
    var (n, answer) := Hub.Opening(hub, s, devId);
    if answer.Opened? {
      var p := answer.pipe;
      HubOkInv(hub, pipes);
      Hub.OpenKeeps(hub, s, devId);
      Hub.OpenedPipe(hub, s, devId);
      PipeAdded(hub, pipes, n, p);
      PipeGrows(hub, pipes, n, p);
      OpenListFits(pipes[p.id := p], s, p);
    } else {
      RefusedKeeps(hub, s, devId);
      SamePipes(pipes, hub);
      FailingFits(pipes, s);
    }
  }

  lemma HubOkInv(hub: Hub.State, pipes: Pipes)
    requires HubOk(hub, pipes)
    ensures Hub.Inv(hub)
  {
  }

  lemma RefusedKeeps(hub: Hub.State, s: SessionId, devId: string)
    requires Hub.Opening(hub, s, devId).1.Rejected?
    ensures Hub.Opening(hub, s, devId).0 == hub
  {
  }

  lemma PipeGrows(hub: Hub.State, pipes: Pipes, n: Hub.State, p: Hub.Pipe)
    requires n.nextId == hub.nextId + 1 == p.id && n.streams == hub.streams[p.id := p]
    ensures PipesAfter(pipes, hub, n) == pipes[p.id := p]
  {
  }

  lemma SamePipes(pipes: Pipes, hub: Hub.State)
    ensures PipesAfter(pipes, hub, hub) == pipes
  {
  }

  lemma OpenListFits(pipes: Pipes, s: SessionId, p: Hub.Pipe)
    requires p.id in pipes && pipes[p.id] == p && p.client == s
    ensures ListFits(pipes, Reader(s),
                     [WriteOrDrop(p.daemon, OpenFrame(p.id), p.id), WriteOrDrop(s, OpenFrame(p.id), p.id)])
  {
  }

  lemma FailingFits(pipes: Pipes, s: SessionId)
    ensures ListFits(pipes, Reader(s), Failing(s))
  {
  }

  lemma HandleFits(st: State, s: SessionId)
    requires Wired(st) && Enabled(st, Serve(s)) && !st.up[s][0].OpenRequest?
    ensures var n := Serving(st, s);
            && n.hub == st.hub && n.pipes == st.pipes && ListFits(n.pipes, Reader(s), Todo(n.todo, Reader(s)))
  {
    hide UpOk, DownOk, TodoOk, EndsOk, Hub.Inv;
    UpPopped(st.pipes, st.up, s);
    hide Hub.Opening;
  }

  lemma ServeWired(st: State, s: SessionId)
    requires Wired(st) && Enabled(st, Serve(s))
    ensures Wired(Serving(st, s))
  {
    var n := Serving(st, s);
    UpPopped(st.pipes, st.up, s);
    var popped := st.(up := st.up[s := st.up[s][1..]]);
    assert n.up == st.up || n.up == popped.up;
    assert n.down == st.down && n.ends == st.ends && n.sent == st.sent && n.got == st.got;
    assert n.todo == st.todo[Reader(s) := Todo(n.todo, Reader(s))];
    if st.up[s][0].OpenRequest? { HandleOpens(st.hub, st.pipes, s, st.up[s][0].devId); } else { HandleFits(st, s); }
    hide Serving, HubOk, Enabled, UpFits;
    EndsSame(st.pipes, st, popped);
    FitsGrow(st, n.pipes);
    FitsGrow(popped, n.pipes);
    TodoSet(n.pipes, st.todo, Reader(s), Todo(n.todo, Reader(s)));
    EndsSame(n.pipes, st, n);
  }

  lemma NextWired(st: State, e: Event)
    requires Wired(st) && Enabled(st, e)
    ensures Wired(Next(st, e))
  {
    match e
    case HubStep(_) => HubStepWired(st, e);
    case Serve(s) => ServeWired(st, s);
    case Act(t) => ActWired(st, t);
    case Receive(_, _, _) => ReceiveWired(st, e);
    case Request(_, _) => SendersWired(st, e);
    case Send(_, _, _) => SendersWired(st, e);
    case SendClose(_, _) => SendersWired(st, e);
    case EndLocally(_, _) => SendersWired(st, e);
    case Break(_) => SendersWired(st, e);
    case StartClose(_, _) => SendersWired(st, e);
  }

  // ---- every step of the relay is a move of each stream ----

  lemma PushedToks(m: map<SessionId, seq<Frame>>, s: SessionId, f: Frame, x: SessionId, id: nat, toDaemon: bool)
    ensures Toks(Queue(Pushed(m, s, f), x), id, toDaemon)
         == Toks(Queue(m, x), id, toDaemon) + if x == s then Tok(f, id, toDaemon) else []
  {
    ToksPushed(Queue(m, s), f, id, toDaemon);
  }

  lemma PoppedToks(m: map<SessionId, seq<Frame>>, s: SessionId, x: SessionId, id: nat, toDaemon: bool)
    requires Queue(m, s) != []
    ensures Toks(Queue(m, x), id, toDaemon)
         == (if x == s then Tok(m[s][0], id, toDaemon) else []) + Toks(Queue(m[s := m[s][1..]], x), id, toDaemon)
  {
  }

  /** The two ends of a stream are different sessions. */
  lemma Ends(st: State, id: nat)
    requires HubOk(st.hub, st.pipes) && id in st.pipes
    ensures var p := st.pipes[id];
            && p.client != p.daemon && p.client in st.hub.sessions && p.daemon in st.hub.sessions
            && st.hub.sessions[p.client].role == Hub.ClientRole && st.hub.sessions[p.daemon].role == Hub.DaemonRole
  {
    assert PipeKnown(st.hub, id, st.pipes[id]);
  }

  lemma LegPushed(st: State, n: State, s: SessionId, f: Frame, id: nat, from: SessionId, to: SessionId, toDaemon: bool)
    requires n == st.(up := Pushed(st.up, s, f), sent := n.sent)
    ensures var l := LegOf(st, id, from, to, toDaemon);
            LegOf(n, id, from, to, toDaemon)
            == l.(up := l.up + (if from == s then Tok(f, id, toDaemon) else []), sent := BytesAt(n.sent, End(from, id)))
  {
    PushedToks(st.up, s, f, from, id, toDaemon);
    hide Toks, Hand, Tok;
  }

  /** A frame that is nothing to the stream. */
  lemma NothingPushed(st: State, n: State, s: SessionId, frame: Frame, id: nat)
    requires id in st.pipes && n == st.(up := Pushed(st.up, s, frame))
    requires Tok(frame, id, true) == [] && Tok(frame, id, false) == []
    ensures FlowOf(n, id) == FlowOf(st, id)
  {
    var p := st.pipes[id];
    LegPushed(st, n, s, frame, id, p.client, p.daemon, true);
    LegPushed(st, n, s, frame, id, p.daemon, p.client, false);
    hide LegOf;
  }

  lemma LegSent(st: State, n: State, s: SessionId, j: nat, b: Bytes, id: nat, from: SessionId, to: SessionId,
          toDaemon: bool)
    requires n == st.(up := Pushed(st.up, s, DataFrame(j, b)),
                          sent := st.sent[End(s, j) := BytesAt(st.sent, End(s, j)) + b])
    ensures var l := LegOf(st, id, from, to, toDaemon);
            LegOf(n, id, from, to, toDaemon) == if s == from && j == id then Flow.Sending(l, b) else l
  {
    hide Toks, Hand, Queue, Todo;
    LegPushed(st, n, s, DataFrame(j, b), id, from, to, toDaemon);
  }

  lemma DataPushed(st: State, n: State, s: SessionId, id: nat, b: Bytes, j: nat)
    requires id in st.pipes && st.pipes[id].client != st.pipes[id].daemon && Party(st.pipes, j, s)
    requires n == st.(up := Pushed(st.up, s, DataFrame(j, b)),
                          sent := st.sent[End(s, j) := BytesAt(st.sent, End(s, j)) + b])
    ensures var p, f := st.pipes[id], FlowOf(st, id);
            FlowOf(n, id) == if j != id then f
                             else if s == p.client then f.(toD := Flow.Sending(f.toD, b))
                             else f.(toC := Flow.Sending(f.toC, b))
  {
    hide LegOf, Flow.Sending;
    var p := st.pipes[id];
    LegSent(st, n, s, j, b, id, p.client, p.daemon, true);
    LegSent(st, n, s, j, b, id, p.daemon, p.client, false);
  }

  lemma SendFlow(st: State, s: SessionId, j: nat, b: Bytes, id: nat)
    requires Wired(st) && Enabled(st, Send(s, j, b)) && id in st.pipes
    ensures Flow.Steps(FlowOf(st, id), FlowOf(Next(st, Send(s, j, b)), id))
  {
    var f, n := FlowOf(st, id), Next(st, Send(s, j, b));
    Ends(st, id);
    assert End(s, j) in st.ends && Party(st.pipes, j, s);
    var end := EndOf(st, s, j);
    DataPushed(st, n, s, id, b, j);
    assert j == id ==> f.endC == EndOf(st, st.pipes[id].client, id) && f.endD == EndOf(st, st.pipes[id].daemon, id);
    Flow.Stayed(f);
    hide Wired, FlowOf, Next, Enabled, Flow.Steps;
    if j == id {
      Flow.Stepped(f, if s == st.pipes[id].client then Flow.SendC(b) else Flow.SendD(b));
    }
  }

  /** Steps that leave every queue and reader alone. */
  lemma QueuesKept(st: State, n: State, id: nat)
    requires id in st.pipes && n.pipes == st.pipes
    requires n.up == st.up && n.down == st.down && n.sent == st.sent && n.got == st.got
    requires forall s :: Todo(n.todo, Reader(s)) == Todo(st.todo, Reader(s))
    ensures var p, f := st.pipes[id], FlowOf(st, id);
            FlowOf(n, id) == Flow.State(f.toD.(broken := p.daemon in n.broken), f.toC.(broken := p.client in n.broken),
                                        EndOf(n, p.client, id), EndOf(n, p.daemon, id), id in n.hub.streams)
  {
    hide Toks, Hand;
  }

  /** The stream's pipe may go and its sockets may break; nothing else changes. */
  lemma DecayFlow(st: State, n: State, id: nat)
    requires id in st.pipes && n.pipes == st.pipes
    requires n.up == st.up && n.down == st.down && n.sent == st.sent && n.got == st.got && n.ends == st.ends
    requires forall s :: Todo(n.todo, Reader(s)) == Todo(st.todo, Reader(s))
    requires (id in n.hub.streams ==> id in st.hub.streams) && st.broken <= n.broken
    ensures Flow.Steps(FlowOf(st, id), FlowOf(n, id))
  {
    var p, f := st.pipes[id], FlowOf(st, id);
    QueuesKept(st, n, id);
    assert f.endC == EndOf(n, p.client, id) && f.endD == EndOf(n, p.daemon, id);
    assert f.live == (id in st.hub.streams);
    assert f.toD.broken == (p.daemon in st.broken) && f.toC.broken == (p.client in st.broken);
    hide FlowOf, Flow.Steps;
    Flow.Stepped(f, Flow.Decay(id in n.hub.streams, p.daemon in n.broken, p.client in n.broken));
  }

  lemma LocalFlow(st: State, e: Event, id: nat)
    requires Enabled(st, e) && id in st.pipes
    requires e.HubStep? || e.Break? || e.StartClose?
    ensures Flow.Steps(FlowOf(st, id), FlowOf(Next(st, e), id))
  {
    hide FlowOf, Flow.Steps;
    if e.HubStep? { Hub.SectionTables(st.hub, e.e); }
    hide FlowOf, Flow.Steps, Hub.Section, Hub.Enabled;
    DecayFlow(st, Next(st, e), id);
  }

  lemma EndView(st: State, n: State, s: SessionId, j: nat, end: Flow.EndState, id: nat)
    requires id in st.pipes && st.pipes[id].client != st.pipes[id].daemon
    requires n == st.(ends := st.ends[End(s, j) := end])
    ensures var p, f := st.pipes[id], FlowOf(st, id);
            FlowOf(n, id) == if j == id && s == p.client then f.(endC := end)
                             else if j == id && s == p.daemon then f.(endD := end)
                             else f
  {
    hide Toks, Hand;
  }

  lemma EndFlow(st: State, s: SessionId, j: nat, id: nat)
    requires Wired(st) && Enabled(st, EndLocally(s, j)) && id in st.pipes
    ensures Flow.Steps(FlowOf(st, id), FlowOf(Next(st, EndLocally(s, j)), id))
  {
    var p, f, n := st.pipes[id], FlowOf(st, id), Next(st, EndLocally(s, j));
    Ends(st, id);
    EndView(st, n, s, j, Flow.Ended, id);
    assert f.endC == EndOf(st, p.client, id) && f.endD == EndOf(st, p.daemon, id) && EndOf(st, s, j).Opened?;
    Flow.Stayed(f);
    hide Wired, FlowOf, Next, Enabled, Flow.Steps;
    if j == id && s == p.client {
      Flow.Stepped(f, Flow.EndC);
    } else if j == id && s == p.daemon {
      Flow.Stepped(f, Flow.EndD);
    }
  }

  /** What serving a frame leaves in the reader's hands for a stream. */
  lemma ServedHand(st: State, s: SessionId, id: nat, toDaemon: bool)
    requires Wired(st) && Enabled(st, Serve(s)) && id in st.pipes
    requires s == if toDaemon then st.pipes[id].client else st.pipes[id].daemon
    ensures var p, f := st.pipes[id], st.up[s][0];
            Hand(Served(st.hub, s, f).1, if toDaemon then p.daemon else p.client, id, toDaemon)
            == if !Malformed(f) && id in st.hub.streams then Tok(f, id, toDaemon) else []
  {
    var p, f := st.pipes[id], st.up[s][0];
    Ends(st, id);
    UpPopped(st.pipes, st.up, s);
    if f.OpenRequest? {
      OpeningElsewhere(st, s, f.devId, id);
      hide Hub.Opening;
    }
    hide UpOk, DownOk, TodoOk, EndsOk;
  }

  lemma OpeningElsewhere(st: State, s: SessionId, devId: string, id: nat)
    requires HubOk(st.hub, st.pipes) && id in st.pipes && st.hub.nextId + 1 < Hub.ID_SPAN
    ensures var (n, answer) := Hub.Opening(st.hub, s, devId);
            && (id in n.streams <==> id in st.hub.streams)
            && (answer.Opened? ==> answer.pipe.id != id)
  {
    assert PipeKnown(st.hub, id, st.pipes[id]);
    if Hub.Opening(st.hub, s, devId).1.Opened? {
      Hub.OpenedPipe(st.hub, s, devId);
    }
  }

  /** Serving leaves a stream's leg alone unless the frame is one of its own. */
  lemma LegServed(st: State, n: State, s: SessionId, x: Frame, acts: seq<Action>, id: nat, from: SessionId,
          to: SessionId, toDaemon: bool)
    requires Queue(st.up, s) != [] && x == st.up[s][0] && Todo(st.todo, Reader(s)) == []
    requires n.down == st.down && n.broken == st.broken && n.sent == st.sent && n.got == st.got
    requires n.up == if Malformed(x) then st.up else st.up[s := st.up[s][1..]]
    requires n.todo == st.todo[Reader(s) := acts]
    requires s == from ==> Hand(acts, to, id, toDaemon)
                           == if !Malformed(x) && id in st.hub.streams then Tok(x, id, toDaemon) else []
    ensures var l := LegOf(st, id, from, to, toDaemon);
            if from == s && !Malformed(x) && Tok(x, id, toDaemon) != []
            then l.up != [] && l.hand == [] && LegOf(n, id, from, to, toDaemon) == Flow.Serving(l, id in st.hub.streams)
            else LegOf(n, id, from, to, toDaemon) == l
  {
    PoppedToks(st.up, s, from, id, toDaemon);
    assert s == from ==> Hand([], to, id, toDaemon) == [];
    assert |Tok(x, id, toDaemon)| <= 1;
    hide Toks, Hand, Tok, Malformed, BytesAt, Queue;
  }

  lemma LiveServed(st: State, s: SessionId, id: nat)
    requires HubOk(st.hub, st.pipes) && Enabled(st, Serve(s)) && id in st.pipes
    ensures id in Serving(st, s).hub.streams <==> id in st.hub.streams
  {
    hide Hub.Opening, HubOk, PipesAfter;
    if st.up[s][0].OpenRequest? { OpeningElsewhere(st, s, st.up[s][0].devId, id); }
  }

  function ServedView(f: Flow.State, fromClient: bool, fromDaemon: bool): Flow.State
    requires fromClient ==> f.toD.up != []
    requires fromDaemon ==> f.toC.up != []
  {
    if fromClient then f.(toD := Flow.Serving(f.toD, f.live))
    else if fromDaemon then f.(toC := Flow.Serving(f.toC, f.live))
    else f
  }

  lemma ServeView(st: State, s: SessionId, id: nat)
    requires Wired(st) && Enabled(st, Serve(s)) && id in st.pipes
    requires id in Serving(st, s).pipes && Serving(st, s).pipes[id] == st.pipes[id]
    ensures var p, f, x := st.pipes[id], FlowOf(st, id), st.up[s][0];
            var fromClient := !Malformed(x) && s == p.client && Tok(x, id, true) != [];
            var fromDaemon := !Malformed(x) && s == p.daemon && Tok(x, id, false) != [];
            && (fromClient ==> f.toD.up != [] && f.toD.hand == [])
               && (fromDaemon ==> f.toC.up != [] && f.toC.hand == [])
            && FlowOf(Serving(st, s), id) == ServedView(f, fromClient, fromDaemon)
  {
    hide Wired, Served, LegOf;
    var p, n, x := st.pipes[id], Serving(st, s), st.up[s][0];
    var acts := Served(st.hub, s, x).1;
    WiredHub(st);
    Ends(st, id);
    LiveServed(st, s, id);
    if s == p.client { ServedHand(st, s, id, true); }
    if s == p.daemon { ServedHand(st, s, id, false); }
    LegServed(st, n, s, x, acts, id, p.client, p.daemon, true);
    LegServed(st, n, s, x, acts, id, p.daemon, p.client, false);
    assert n.ends == st.ends;
    hide Serving, Enabled, HubOk;
  }

  lemma WiredHub(st: State)
    requires Wired(st)
    ensures HubOk(st.hub, st.pipes)
  {
  }

  lemma ServeFlow(st: State, s: SessionId, id: nat)
    requires Wired(st) && Enabled(st, Serve(s)) && id in st.pipes
    requires id in Serving(st, s).pipes && Serving(st, s).pipes[id] == st.pipes[id]
    ensures Flow.Steps(FlowOf(st, id), FlowOf(Serving(st, s), id))
  {
    var p, f, x := st.pipes[id], FlowOf(st, id), st.up[s][0];
    Ends(st, id);
    ServeView(st, s, id);
    Flow.Stayed(f);
    hide Wired, FlowOf, Serving, Enabled, Flow.Steps;
    if !Malformed(x) && s == p.client && Tok(x, id, true) != [] {
      Flow.Stepped(f, Flow.ServeC);
    } else if !Malformed(x) && s == p.daemon && Tok(x, id, false) != [] {
      Flow.Stepped(f, Flow.ServeD);
    }
  }

  /** The action writes something of the stream towards `to`. */
  predicate Carries(a: Action, to: SessionId, id: nat, toDaemon: bool) {
    (a.Write? || a.WriteOrDrop?) && a.to == to && Tok(a.frame, id, toDaemon) != []
  }

  /** Only the sending end's reader carries, and after its step it carries nothing more. */
  lemma ActCarries(st: State, t: Thread, id: nat, toDaemon: bool)
    requires Wired(st) && Enabled(st, Act(t)) && id in st.pipes
    ensures var p, a := st.pipes[id], st.todo[t][0];
            var from, to := if toDaemon then p.client else p.daemon, if toDaemon then p.daemon else p.client;
            && (Carries(a, to, id, toDaemon) ==> t == Reader(from))
            && Hand(TodoAfter(st, st.todo[t]), to, id, toDaemon) == []
  {
    var p, acts := st.pipes[id], st.todo[t];
    var to := if toDaemon then p.daemon else p.client;
    Ends(st, id);
    assert ThreadOk(st.pipes, st.todo, t) && acts[0] in acts;
    if |acts| > 1 { assert acts[1..][0] == acts[1] && Plain(st.pipes, acts[1]); }
    if acts[0].CloseNow? && acts[0].s !in st.hub.closed {
      CloseWritesPlain(st.pipes, t, Hub.Notices(Hub.Doomed(st.hub.streams, Hub.Ids(st.hub, acts[0].s)), acts[0].s));
    }
    var front := Front(st, acts[0]);
    assert forall k :: 0 <= k < |front| ==> !Carries(front[k], to, id, toDaemon);
    hide HubOk, UpOk, DownOk, TodoOk, EndsOk, Front;
  }

  lemma DownActed(st: State, a: Action, to: SessionId, id: nat, toDaemon: bool)
    ensures Toks(Queue(DownAfter(st, a), to), id, toDaemon)
         == Toks(Queue(st.down, to), id, toDaemon)
            + if Carries(a, to, id, toDaemon) && to !in st.broken then Tok(a.frame, id, toDaemon) else []
  {
    if a.Write? || a.WriteOrDrop? { PushedToks(st.down, a.to, a.frame, to, id, toDaemon); }
    hide Toks, Tok;
  }

  /** A thread's step takes what a sending end's reader holds for the stream, or leaves it. */
  lemma HandActed(todo: map<Thread, seq<Action>>, t: Thread, rest: seq<Action>, id: nat, from: SessionId,
          to: SessionId, toDaemon: bool)
    requires Todo(todo, t) != [] && Hand(rest, to, id, toDaemon) == []
    requires Carries(Todo(todo, t)[0], to, id, toDaemon) ==> t == Reader(from)
    ensures var was, now := Hand(Todo(todo, Reader(from)), to, id, toDaemon),
            Hand(Todo(todo[t := rest], Reader(from)), to, id, toDaemon);
            if Carries(Todo(todo, t)[0], to, id, toDaemon)
            then was == Tok(Todo(todo, t)[0].frame, id, toDaemon) && |was| == 1 && now == []
            else now == was
  {
  }

  lemma LegActed(st: State, n: State, t: Thread, rest: seq<Action>, id: nat, from: SessionId, to: SessionId,
          toDaemon: bool)
    requires Todo(st.todo, t) != [] && n.todo == st.todo[t := rest] && n.down == DownAfter(st, Todo(st.todo, t)[0])
    requires n.up == st.up && n.sent == st.sent && n.got == st.got
    requires Carries(Todo(st.todo, t)[0], to, id, toDaemon) ==> t == Reader(from)
    requires Hand(rest, to, id, toDaemon) == []
    ensures var l, carries := LegOf(st, id, from, to, toDaemon), Carries(Todo(st.todo, t)[0], to, id, toDaemon);
            && (carries ==> |l.hand| == 1)
            && LegOf(n, id, from, to, toDaemon) == (if carries then Flow.Writing(l) else l).(broken := to in n.broken)
  {
    DownActed(st, Todo(st.todo, t)[0], to, id, toDaemon);
    HandActed(st.todo, t, rest, id, from, to, toDaemon);
    hide Toks, Tok, DownAfter, Hand, Todo, Carries, Queue, BytesAt;
  }

  lemma HubAfterStreams(h: Hub.State, a: Action)
    ensures forall id :: id in HubAfter(h, a).streams ==> id in h.streams
    ensures a.Write? || a.WriteOrDrop? ==> HubAfter(h, a) == h
  {
  }

  /** What an action can and cannot do at once. */
  lemma ActFacts(st: State, t: Thread, id: nat)
    requires Wired(st) && Enabled(st, Act(t)) && id in st.pipes
    ensures var p, a, n := st.pipes[id], st.todo[t][0], Acting(st, t);
            var toD, toC := Carries(a, p.daemon, id, true), Carries(a, p.client, id, false);
            && !(toD && toC)
            && (toD || toC ==> n.broken == st.broken && (id in n.hub.streams <==> id in st.hub.streams))
            && (id in n.hub.streams ==> id in st.hub.streams) && st.broken <= n.broken && n.pipes == st.pipes
  {
    Ends(st, id);
    HubAfterStreams(st.hub, st.todo[t][0]);
    hide Wired, TodoAfter, Tok, Enabled, DownAfter, HubAfter;
  }

  function ActedLeg(l: Flow.Leg, carries: bool, broken: bool): Flow.Leg
    requires carries ==> |l.hand| == 1
  {
    (if carries then Flow.Writing(l) else l).(broken := broken)
  }

  lemma ActLegs(st: State, t: Thread, id: nat, toDaemon: bool)
    requires Wired(st) && Enabled(st, Act(t)) && id in st.pipes
    ensures var p, n := st.pipes[id], Acting(st, t);
            var from, to := if toDaemon then p.client else p.daemon, if toDaemon then p.daemon else p.client;
            var l, carries := LegOf(st, id, from, to, toDaemon), Carries(st.todo[t][0], to, id, toDaemon);
            && (carries ==> |l.hand| == 1)
            && LegOf(n, id, from, to, toDaemon) == ActedLeg(l, carries, to in n.broken)
  {
    var p, n := st.pipes[id], Acting(st, t);
    var from, to := if toDaemon then p.client else p.daemon, if toDaemon then p.daemon else p.client;
    ActCarries(st, t, id, toDaemon);
    hide Wired, TodoAfter, Hand, Toks, DownAfter, Carries, HubAfter;
    LegActed(st, n, t, TodoAfter(st, st.todo[t]), id, from, to, toDaemon);
    hide LegOf, Acting, Flow.Writing;
  }

  lemma ActFlow(st: State, t: Thread, id: nat)
    requires Wired(st) && Enabled(st, Act(t)) && id in st.pipes
    ensures Flow.Steps(FlowOf(st, id), FlowOf(Acting(st, t), id))
  {
    var p, a, n := st.pipes[id], st.todo[t][0], Acting(st, t);
    hide Wired, LegOf, Acting, Enabled, Carries, Flow.Steps, EndOf;
    ActFacts(st, t, id);
    ActLegs(st, t, id, true);
    ActLegs(st, t, id, false);
    ActEnds(st, t, id);
    LegBroken(st, id, p.client, p.daemon, true);
    LegBroken(st, id, p.daemon, p.client, false);
    ActMove(FlowOf(st, id), FlowOf(n, id), Carries(a, p.daemon, id, true), Carries(a, p.client, id, false),
            p.daemon in n.broken, p.client in n.broken);
  }

  lemma ActEnds(st: State, t: Thread, id: nat)
    requires Enabled(st, Act(t))
    ensures forall s :: EndOf(Acting(st, t), s, id) == EndOf(st, s, id)
  {
    hide HubAfter, DownAfter, TodoAfter;
  }

  lemma LegBroken(st: State, id: nat, from: SessionId, to: SessionId, toDaemon: bool)
    ensures LegOf(st, id, from, to, toDaemon).broken == (to in st.broken)
  {
  }

  lemma ActMove(f: Flow.State, g: Flow.State, toD: bool, toC: bool, brokenD: bool, brokenC: bool)
    requires !(toD && toC) && (toD ==> |f.toD.hand| == 1) && (toC ==> |f.toC.hand| == 1)
    requires (f.toD.broken ==> brokenD) && (f.toC.broken ==> brokenC) && (g.live ==> f.live)
    requires toD || toC ==> f.toD.broken == brokenD && f.toC.broken == brokenC && g.live == f.live
    requires g.toD == ActedLeg(f.toD, toD, brokenD) && g.toC == ActedLeg(f.toC, toC, brokenC)
    requires g.endC == f.endC && g.endD == f.endD
    ensures Flow.Steps(f, g)
  {
    var m := if toD then Flow.WriteD else if toC then Flow.WriteC else Flow.Decay(g.live, brokenD, brokenC);
    assert Flow.Enabled(f, m) && g == Flow.Next(f, m);
    hide Flow.Steps, Flow.Enabled, Flow.Next;
    Flow.Stepped(f, m);
  }

  lemma RequestFlow(st: State, e: Event, id: nat)
    requires Enabled(st, e) && (e.Request? || e.SendClose?) && id in st.pipes
    ensures Flow.Steps(FlowOf(st, id), FlowOf(Next(st, e), id))
  {
    var frame := if e.Request? then OpenRequest(e.devId) else CloseFrame(e.id);
    NothingPushed(st, Next(st, e), e.s, frame, id);
    Flow.Stayed(FlowOf(st, id));
    hide FlowOf, Flow.Steps;
  }

  lemma GainedBytes(got: map<End, Bytes>, k: End, bytes: Bytes, x: End)
    ensures BytesAt(Gained(got, k, bytes), x) == BytesAt(got, x) + if x == k then bytes else []
  {
  }

  function ReplyTok(reply: Option<Frame>, id: nat, toDaemon: bool): seq<Flow.Tok> {
    if reply.Some? then Tok(reply.value, id, toDaemon) else []
  }

  lemma RepliedToks(up: map<SessionId, seq<Frame>>, s: SessionId, reply: Option<Frame>, x: SessionId, id: nat,
          toDaemon: bool)
    ensures Toks(Queue(Replied(up, s, reply), x), id, toDaemon)
         == Toks(Queue(up, x), id, toDaemon) + if x == s then ReplyTok(reply, id, toDaemon) else []
  {
    if reply.Some? { PushedToks(up, s, reply.value, x, id, toDaemon); }
    hide Toks, Tok, Pushed;
  }

  /** A leg after a receive: the frame's token gone from its far end, the reply's joined if the near end sent one. */
  ghost predicate LegReceived(l: Flow.Leg, l': Flow.Leg, popped: seq<Flow.Tok>, pushed: seq<Flow.Tok>, bytes: Bytes) {
    && l.down == popped + l'.down
    && l' == l.(down := l'.down, up := l.up + pushed, got := l.got + bytes)
  }

  lemma LegPopped(st: State, s: SessionId, id: nat, from: SessionId, to: SessionId, toDaemon: bool)
    requires Queue(st.down, s) != []
    ensures LegReceived(LegOf(st, id, from, to, toDaemon),
            LegOf(st.(down := st.down[s := st.down[s][1..]]), id, from, to, toDaemon),
                        if to == s then Tok(st.down[s][0], id, toDaemon) else [], [], [])
  {
    PoppedToks(st.down, s, to, id, toDaemon);
    hide Toks, Tok, Hand, BytesAt, Todo, Queue;
  }

  lemma LegHanded(st: State, role: Hub.Role, k: End, f: Frame, ok: bool, taken: nat, id: nat, from: SessionId,
          to: SessionId, toDaemon: bool)
    ensures var end := EndAt(st.ends, k);
            LegReceived(LegOf(st, id, from, to, toDaemon),
                LegOf(Handed(st, role, k, f, ok, taken), id, from, to, toDaemon), [],
                        if from == k.s then ReplyTok(Reply(role, end, f, ok), id, toDaemon) else [],
                        if k == End(to, id) then Taken(end, f, ok, taken) else [])
  {
    var end := EndAt(st.ends, k);
    RepliedToks(st.up, k.s, Reply(role, end, f, ok), from, id, toDaemon);
    GainedBytes(st.got, k, Taken(end, f, ok, taken), End(to, id));
    hide Toks, Tok, Hand, BytesAt, Todo, Gained, Replied, Queue, Reply, Taken, EndAt, Filed, EndAfter, ReplyTok;
  }

  lemma LegsReceived(a: Flow.Leg, b: Flow.Leg, c: Flow.Leg, popped: seq<Flow.Tok>, pushed: seq<Flow.Tok>, bytes: Bytes)
    requires LegReceived(a, b, popped, [], []) && LegReceived(b, c, [], pushed, bytes)
    ensures LegReceived(a, c, popped, pushed, bytes)
  {
  }

  function Role(toDaemon: bool): Hub.Role {
    if toDaemon then Hub.DaemonRole else Hub.ClientRole
  }

  predicate Mine(x: Frame, id: nat) {
    StreamOf(x) == Some(id)
  }

  /** What the client end's receive means for its stream. */
  lemma ClientReceives(f: Flow.State, g: Flow.State, x: Frame, id: nat, ok: bool, taken: nat)
    requires g.live == f.live && g.endD == f.endD && LegReceived(f.toD, g.toD, [], [], [])
    requires g.endC == if Mine(x, id) then EndAfter(Hub.ClientRole, f.endC, x, ok) else f.endC
    requires LegReceived(f.toC, g.toC, Tok(x, id, false), [], if Mine(x, id) then Taken(f.endC, x, ok, taken) else [])
    ensures Flow.Steps(f, g)
  {
    hide Flow.Steps;
    if Tok(x, id, false) != [] {
      assert g == Flow.Next(f, Flow.ReceiveC(ok, taken));
      Flow.Stepped(f, Flow.ReceiveC(ok, taken));
    } else if g.endC != f.endC {
      assert g == Flow.Next(f, Flow.EndC);
      Flow.Stepped(f, Flow.EndC);
    } else {
      assert g == f;
      Flow.Stayed(f);
    }
  }

  lemma DaemonReceives(f: Flow.State, g: Flow.State, x: Frame, id: nat, ok: bool, taken: nat)
    requires g.live == f.live && g.endC == f.endC && !x.AcceptFrame?
    requires g.endD == if Mine(x, id) then EndAfter(Hub.DaemonRole, f.endD, x, ok) else f.endD
    requires LegReceived(f.toD, g.toD, Tok(x, id, true), [], if Mine(x, id) then Taken(f.endD, x, ok, taken) else [])
    requires LegReceived(f.toC, g.toC, [],
                         if Mine(x, id) then ReplyTok(Reply(Hub.DaemonRole, f.endD, x, ok), id, false) else [], [])
    ensures Flow.Steps(f, g)
  {
    hide Flow.Steps;
    if Tok(x, id, true) != [] {
      assert g == Flow.Next(f, Flow.ReceiveD(ok, taken));
      Flow.Stepped(f, Flow.ReceiveD(ok, taken));
    } else if g.endD != f.endD {
      assert g == Flow.Next(f, Flow.EndD);
      Flow.Stepped(f, Flow.EndD);
    } else {
      assert g == f;
      Flow.Stayed(f);
    }
  }

  lemma LegReceives(st: State, s: SessionId, ok: bool, taken: nat, id: nat, from: SessionId, to: SessionId,
          toDaemon: bool)
    requires Queue(st.down, s) != [] && StreamOf(st.down[s][0]).Some? && s in st.hub.sessions
    ensures var x, role := st.down[s][0], st.hub.sessions[s].role;
            var k := End(s, StreamOf(x).value);
            LegReceived(LegOf(st, id, from, to, toDaemon), LegOf(Receiving(st, s, ok, taken), id, from, to, toDaemon),
                        if to == s then Tok(x, id, toDaemon) else [],
                        if from == s then ReplyTok(Reply(role, EndAt(st.ends, k), x, ok), id, toDaemon) else [],
                        if k == End(to, id) then Taken(EndAt(st.ends, k), x, ok, taken) else [])
  {
    var x, role, rest := st.down[s][0], st.hub.sessions[s].role, st.(down := st.down[s := st.down[s][1..]]);
    var k := End(s, StreamOf(x).value);
    LegPopped(st, s, id, from, to, toDaemon);
    LegHanded(rest, role, k, x, ok, taken, id, from, to, toDaemon);
    hide LegOf, Tok, Taken, EndAt, Handed, LegReceived, Reply, ReplyTok;
    LegsReceived(LegOf(st, id, from, to, toDaemon), LegOf(rest, id, from, to, toDaemon),
                 LegOf(Handed(rest, role, k, x, ok, taken), id, from, to, toDaemon),
                     if to == s then Tok(x, id, toDaemon) else [],
                 if from == s then ReplyTok(Reply(role, EndAt(st.ends, k), x, ok), id, toDaemon) else [],
                 if k == End(to, id) then Taken(EndAt(st.ends, k), x, ok, taken) else []);
  }

  lemma EndReceives(st: State, s: SessionId, ok: bool, taken: nat, e: End)
    requires Queue(st.down, s) != [] && StreamOf(st.down[s][0]).Some? && s in st.hub.sessions
    ensures var x, k := st.down[s][0], End(s, StreamOf(st.down[s][0]).value);
            EndAt(Receiving(st, s, ok, taken).ends, e)
            == if e == k then EndAfter(st.hub.sessions[s].role, EndAt(st.ends, k), x, ok) else EndAt(st.ends, e)
  {
    hide EndAfter, Taken, Reply, Replied, Gained, StreamOf;
  }

  lemma LegSame(l: Flow.Leg, l': Flow.Leg)
    requires LegReceived(l, l', [], [], [])
    ensures l' == l
  {
  }

  /** A leg whose ends are other sessions, or whose sender is a client, which never replies. */
  lemma LegApart(st: State, s: SessionId, ok: bool, taken: nat, id: nat, from: SessionId, to: SessionId, toDaemon: bool)
    requires Queue(st.down, s) != [] && StreamOf(st.down[s][0]).Some? && s in st.hub.sessions
    requires s != to && (s == from ==> st.hub.sessions[s].role.ClientRole? && toDaemon)
    ensures LegReceived(LegOf(st, id, from, to, toDaemon),
            LegOf(Receiving(st, s, ok, taken), id, from, to, toDaemon), [], [], [])
  {
    var x := st.down[s][0];
    var k := End(s, StreamOf(x).value);
    LegReceives(st, s, ok, taken, id, from, to, toDaemon);
    assert ReplyTok(Reply(Hub.ClientRole, EndAt(st.ends, k), x, ok), id, true) == [];
    hide LegOf, Receiving, Tok, Taken, EndAt, LegReceived, Reply, ReplyTok;
  }

  lemma LegTaken(st: State, s: SessionId, ok: bool, taken: nat, id: nat, from: SessionId, toDaemon: bool)
    requires Queue(st.down, s) != [] && StreamOf(st.down[s][0]).Some? && s in st.hub.sessions && from != s
    ensures var x := st.down[s][0];
            LegReceived(LegOf(st, id, from, s, toDaemon), LegOf(Receiving(st, s, ok, taken), id, from, s, toDaemon),
                Tok(x, id, toDaemon), [],
                        if Mine(x, id) then Taken(EndAt(st.ends, End(s, id)), x, ok, taken) else [])
  {
    LegReceives(st, s, ok, taken, id, from, s, toDaemon);
    hide LegOf, Receiving, Tok, Taken, EndAt, LegReceived, Reply, ReplyTok, StreamOf;
  }

  lemma ClientView(st: State, n: State, x: Frame, ok: bool, taken: nat, id: nat)
    requires id in st.pipes && id in n.pipes && n.pipes[id] == st.pipes[id]
             && (id in n.hub.streams <==> id in st.hub.streams)
    requires var p := st.pipes[id];
             && LegReceived(LegOf(st, id, p.client, p.daemon, true), LegOf(n, id, p.client, p.daemon, true), [], [], [])
             && LegReceived(LegOf(st, id, p.daemon, p.client, false), LegOf(n, id, p.daemon, p.client, false),
                            Tok(x, id, false), [],
                            if Mine(x, id) then Taken(EndOf(st, p.client, id), x, ok, taken) else [])
             && EndOf(n, p.client, id) == (if Mine(x, id) then EndAfter(Hub.ClientRole, EndOf(st, p.client, id), x, ok)
                                           else EndOf(st, p.client, id))
             && EndOf(n, p.daemon, id) == EndOf(st, p.daemon, id)
    ensures Flow.Steps(FlowOf(st, id), FlowOf(n, id))
  {
    hide Flow.Steps, LegOf, EndOf, LegReceived, Tok, Taken, EndAfter, Mine;
    ClientReceives(FlowOf(st, id), FlowOf(n, id), x, id, ok, taken);
  }

  lemma ClientHandles(st: State, s: SessionId, ok: bool, taken: nat, id: nat)
    requires Queue(st.down, s) != [] && StreamOf(st.down[s][0]).Some? && id in st.pipes
    requires s in st.hub.sessions && st.hub.sessions[s].role.ClientRole?
             && s == st.pipes[id].client != st.pipes[id].daemon
    ensures Flow.Steps(FlowOf(st, id), FlowOf(Receiving(st, s, ok, taken), id))
  {
    hide Flow.Steps, FlowOf, LegOf, EndAfter, Taken, LegReceived, EndAt, Tok, Handed;
    var p := st.pipes[id];
    LegApart(st, s, ok, taken, id, p.client, p.daemon, true);
    LegTaken(st, s, ok, taken, id, p.daemon, false);
    EndReceives(st, s, ok, taken, End(p.client, id));
    EndReceives(st, s, ok, taken, End(p.daemon, id));
    hide StreamOf;
    HandedRest(st, s, ok, taken);
    hide Receiving;
    ClientView(st, Receiving(st, s, ok, taken), st.down[s][0], ok, taken, id);
  }

  lemma HandedRest(st: State, s: SessionId, ok: bool, taken: nat)
    requires Queue(st.down, s) != []
    ensures Receiving(st, s, ok, taken).pipes == st.pipes && Receiving(st, s, ok, taken).hub == st.hub
  {
    hide StreamOf, Filed, Gained, Replied, EndAfter, Taken, Reply, EndAt;
  }

  lemma DaemonView(st: State, n: State, x: Frame, ok: bool, taken: nat, id: nat)
    requires id in st.pipes && id in n.pipes && n.pipes[id] == st.pipes[id]
             && (id in n.hub.streams <==> id in st.hub.streams)
    requires !x.AcceptFrame?
    requires var p := st.pipes[id];
             && LegReceived(LegOf(st, id, p.client, p.daemon, true), LegOf(n, id, p.client, p.daemon, true),
                            Tok(x, id, true), [],
                            if Mine(x, id) then Taken(EndOf(st, p.daemon, id), x, ok, taken) else [])
             && LegReceived(LegOf(st, id, p.daemon, p.client, false), LegOf(n, id, p.daemon, p.client, false),
                            [],
                            (if !Mine(x, id) then []
                             else ReplyTok(Reply(Hub.DaemonRole, EndOf(st, p.daemon, id), x, ok), id, false)),
                            [])
             && EndOf(n, p.daemon, id) == (if Mine(x, id) then EndAfter(Hub.DaemonRole, EndOf(st, p.daemon, id), x, ok)
                                           else EndOf(st, p.daemon, id))
             && EndOf(n, p.client, id) == EndOf(st, p.client, id)
    ensures Flow.Steps(FlowOf(st, id), FlowOf(n, id))
  {
    hide Flow.Steps, LegOf, EndOf, LegReceived, Tok, Taken, EndAfter, Mine, Reply, ReplyTok;
    DaemonReceives(FlowOf(st, id), FlowOf(n, id), x, id, ok, taken);
  }

  lemma DaemonHandles(st: State, s: SessionId, ok: bool, taken: nat, id: nat)
    requires Queue(st.down, s) != [] && StreamOf(st.down[s][0]).Some? && id in st.pipes
    requires s in st.hub.sessions && st.hub.sessions[s].role.DaemonRole?
             && s == st.pipes[id].daemon != st.pipes[id].client
    requires !st.down[s][0].AcceptFrame?
    ensures Flow.Steps(FlowOf(st, id), FlowOf(Receiving(st, s, ok, taken), id))
  {
    hide Flow.Steps, FlowOf, LegOf, EndAfter, Taken, LegReceived, EndAt, Tok, Handed, Reply, ReplyTok;
    var p, x := st.pipes[id], st.down[s][0];
    LegTaken(st, s, ok, taken, id, p.client, true);
    LegReceives(st, s, ok, taken, id, p.daemon, p.client, false);
    EndReceives(st, s, ok, taken, End(p.client, id));
    EndReceives(st, s, ok, taken, End(p.daemon, id));
    ReplyElsewhere(Hub.DaemonRole, EndAt(st.ends, End(s, StreamOf(x).value)), x, ok, id);
    hide StreamOf;
    HandedRest(st, s, ok, taken);
    hide Receiving;
    DaemonView(st, Receiving(st, s, ok, taken), x, ok, taken, id);
  }

  lemma ReplyElsewhere(role: Hub.Role, end: Flow.EndState, x: Frame, ok: bool, id: nat)
    ensures !Mine(x, id) ==> ReplyTok(Reply(role, end, x, ok), id, false) == []
  {
  }

  lemma SameView(st: State, n: State, id: nat)
    requires id in st.pipes && id in n.pipes && n.pipes[id] == st.pipes[id]
             && (id in n.hub.streams <==> id in st.hub.streams)
    requires var p := st.pipes[id];
             && LegReceived(LegOf(st, id, p.client, p.daemon, true), LegOf(n, id, p.client, p.daemon, true), [], [], [])
             && LegReceived(LegOf(st, id, p.daemon, p.client, false), LegOf(n, id, p.daemon, p.client, false),
                            [], [], [])
             && EndOf(n, p.daemon, id) == EndOf(st, p.daemon, id) && EndOf(n, p.client, id) == EndOf(st, p.client, id)
    ensures Flow.Steps(FlowOf(st, id), FlowOf(n, id))
  {
    hide Flow.Steps, LegOf, EndOf, LegReceived;
    var f, g := FlowOf(st, id), FlowOf(n, id);
    LegSame(f.toD, g.toD);
    LegSame(f.toC, g.toC);
    Flow.Stayed(f);
  }

  lemma OthersHandle(st: State, s: SessionId, ok: bool, taken: nat, id: nat)
    requires Queue(st.down, s) != [] && StreamOf(st.down[s][0]).Some? && id in st.pipes
    requires s in st.hub.sessions && s != st.pipes[id].client && s != st.pipes[id].daemon
    ensures Flow.Steps(FlowOf(st, id), FlowOf(Receiving(st, s, ok, taken), id))
  {
    hide Flow.Steps, FlowOf, LegOf, LegReceived, EndAt, Handed, EndAfter;
    var p := st.pipes[id];
    LegApart(st, s, ok, taken, id, p.client, p.daemon, true);
    LegApart(st, s, ok, taken, id, p.daemon, p.client, false);
    EndReceives(st, s, ok, taken, End(p.client, id));
    EndReceives(st, s, ok, taken, End(p.daemon, id));
    hide StreamOf;
    HandedRest(st, s, ok, taken);
    hide Receiving;
    SameView(st, Receiving(st, s, ok, taken), id);
  }

  lemma IgnoredFlow(st: State, s: SessionId, ok: bool, taken: nat, id: nat)
    requires Queue(st.down, s) != [] && id in st.pipes
    requires || StreamOf(st.down[s][0]).None?
             || (s !in st.hub.sessions && s != st.pipes[id].client && s != st.pipes[id].daemon)
    ensures Flow.Steps(FlowOf(st, id), FlowOf(Receiving(st, s, ok, taken), id))
  {
    hide Flow.Steps, FlowOf, LegOf, LegReceived, EndAt;
    var p := st.pipes[id];
    LegPopped(st, s, id, p.client, p.daemon, true);
    LegPopped(st, s, id, p.daemon, p.client, false);
    SameView(st, Receiving(st, s, ok, taken), id);
  }

  lemma ReceiveFlow(st: State, s: SessionId, ok: bool, taken: nat, id: nat)
    requires Wired(st) && Enabled(st, Receive(s, ok, taken)) && id in st.pipes
    ensures Flow.Steps(FlowOf(st, id), FlowOf(Receiving(st, s, ok, taken), id))
  {
    var p, x := st.pipes[id], st.down[s][0];
    Ends(st, id);
    DownPopped(st.pipes, st.down, s);
    if s == p.daemon { NoAcceptToDaemon(st, s, id); }
    hide Wired, DownFits, Receiving, FlowOf, Flow.Steps;
    if StreamOf(x).None? || s !in st.hub.sessions {
      IgnoredFlow(st, s, ok, taken, id);
    } else if s == p.client {
      ClientHandles(st, s, ok, taken, id);
    } else if s == p.daemon {
      DaemonHandles(st, s, ok, taken, id);
    } else {
      OthersHandle(st, s, ok, taken, id);
    }
  }

  lemma NoAcceptToDaemon(st: State, s: SessionId, id: nat)
    requires HubOk(st.hub, st.pipes) && Queue(st.down, s) != [] && DownFits(st.pipes, s, st.down[s][0])
    requires id in st.pipes && st.pipes[id].daemon == s
    ensures !st.down[s][0].AcceptFrame?
  {
    if st.down[s][0].AcceptFrame? {
      Ends(st, id);
      Ends(st, st.down[s][0].id);
      assert false;
    }
  }

  // ---- a stream's first moment ----

  /** Nothing of a stream is about before its pipe is allocated. */
  lemma FreshLeg(pipes: Pipes, st: State, id: nat, from: SessionId, to: SessionId, toDaemon: bool)
    requires id !in pipes && UpOk(pipes, st.up) && DownOk(pipes, st.down) && EndsOk(pipes, st)
    ensures LegOf(st, id, from, to, toDaemon)
         == Flow.Leg([], Hand(Todo(st.todo, Reader(from)), to, id, toDaemon), [], to in st.broken, [], [])
    ensures EndOf(st, from, id).Unopened?
  {
    hide Hand;
    forall f | f in Queue(st.down, to) ensures Tok(f, id, toDaemon) == [] { assert DownFits(pipes, to, f); }
    forall f | f in Queue(st.up, from) ensures Tok(f, id, toDaemon) == [] { assert UpFits(pipes, from, f); }
    NoToks(Queue(st.down, to), id, toDaemon);
    NoToks(Queue(st.up, from), id, toDaemon);
  }

  lemma FreshHand(pipes: Pipes, todo: map<Thread, seq<Action>>, from: SessionId, to: SessionId, id: nat, toDaemon: bool)
    requires id !in pipes && TodoOk(pipes, todo)
    ensures Hand(Todo(todo, Reader(from)), to, id, toDaemon) == []
  {
    var acts := Todo(todo, Reader(from));
    assert ThreadOk(pipes, todo, Reader(from));
    if acts != [] { assert acts[0] in acts && ActFits(pipes, Reader(from), acts[0]); }
  }

  /** Only a granted open request allocates a pipe. */
  lemma OpenServed(st: State, s: SessionId, id: nat)
    requires HubOk(st.hub, st.pipes) && Enabled(st, Serve(s)) && id in Serving(st, s).pipes && id !in st.pipes
    ensures var n := Serving(st, s);
            var p := n.pipes[id];
            && p.client == s != p.daemon && id in n.hub.streams
            && Todo(n.todo, Reader(s)) == [WriteOrDrop(p.daemon, OpenFrame(id), id), WriteOrDrop(s, OpenFrame(id), id)]
            && st.up[s][0].OpenRequest?
  {
    var f := st.up[s][0];
    if f.OpenRequest? && Hub.Opening(st.hub, s, f.devId).1.Opened? {
      Hub.OpenedPipe(st.hub, s, f.devId);
    }
    hide Hub.Opening, HubOk;
  }

  /** Serving an open request changes no queue but the request's own. */
  lemma OpenOthers(st: State, s: SessionId)
    requires Wired(st) && Enabled(st, Serve(s)) && st.up[s][0].OpenRequest?
    ensures var n := Serving(st, s);
            && UpOk(st.pipes, n.up) && DownOk(st.pipes, n.down) && EndsOk(st.pipes, n) && n.broken == st.broken
            && (forall d :: d != s ==> Todo(n.todo, Reader(d)) == Todo(st.todo, Reader(d)))
  {
    UpPopped(st.pipes, st.up, s);
    hide UpOk, DownOk, TodoOk, HubOk, Served, PipesAfter;
    EndsSame(st.pipes, st, Serving(st, s));
  }

  lemma OpenFlow(st: State, s: SessionId, id: nat)
    requires Wired(st) && Enabled(st, Serve(s)) && id in Serving(st, s).pipes && id !in st.pipes
    ensures var n := Serving(st, s);
            FlowOf(n, id) == Flow.Start(n.pipes[id].daemon in n.broken, n.pipes[id].client in n.broken)
  {
    hide LegOf, UpOk, DownOk, EndsOk, TodoOk, HubOk, FlowOf;
    var n := Serving(st, s);
    var p := n.pipes[id];
    OpenServed(st, s, id);
    OpenOthers(st, s);
    FreshHand(st.pipes, st.todo, p.daemon, p.client, id, false);
    hide Serving, Enabled;
    FreshLeg(st.pipes, n, id, p.client, p.daemon, true);
    FreshLeg(st.pipes, n, id, p.daemon, p.client, false);
    FreshFlow(n, id);
  }

  lemma FreshFlow(n: State, id: nat)
    requires id in n.pipes && id in n.hub.streams
    requires var p := n.pipes[id];
             && LegOf(n, id, p.client, p.daemon, true) == Flow.Leg([], [Flow.Open], [], p.daemon in n.broken, [], [])
             && LegOf(n, id, p.daemon, p.client, false) == Flow.Leg([], [], [], p.client in n.broken, [], [])
             && EndOf(n, p.client, id).Unopened? && EndOf(n, p.daemon, id).Unopened?
    ensures FlowOf(n, id) == Flow.Start(n.pipes[id].daemon in n.broken, n.pipes[id].client in n.broken)
  {
    hide LegOf;
  }

  // ---- every run ----

  ghost predicate StreamOk(st: State, id: nat) {
    id in st.pipes ==> Flow.Inv(FlowOf(st, id))
  }

  ghost predicate AllOk(st: State) {
    Wired(st) && forall id :: StreamOk(st, id)
  }

  /** Pipes are only ever added, under ids of their own. */
  lemma PipesStay(st: State, e: Event, id: nat)
    requires Wired(st) && Enabled(st, e) && id in st.pipes
    ensures id in Next(st, e).pipes && Next(st, e).pipes[id] == st.pipes[id]
  {
    hide Wired, Serving, Acting;
    if e.Serve? { ServedPipes(st, e.s, id); }
    if e.Act? { ActedPipes(st, e.t); }
    if e.Receive? { HandedRest(st, e.s, e.ok, e.taken); }
    hide Receiving;
  }

  lemma ServedPipes(st: State, s: SessionId, id: nat)
    requires Wired(st) && Enabled(st, Serve(s)) && id in st.pipes
    ensures id in Serving(st, s).pipes && Serving(st, s).pipes[id] == st.pipes[id]
  {
    if st.up[s][0].OpenRequest? { HandleOpens(st.hub, st.pipes, s, st.up[s][0].devId); } else { HandleFits(st, s); }
    hide Wired, Handle;
  }

  /** Whatever step the relay takes, a stream makes one move of its own or none. */
  lemma StreamKept(st: State, e: Event, id: nat)
    requires Wired(st) && Enabled(st, e) && id in st.pipes
    ensures id in Next(st, e).pipes && Flow.Steps(FlowOf(st, id), FlowOf(Next(st, e), id))
  {
    PipesStay(st, e, id);
    hide Flow.Steps, FlowOf, Wired, Enabled, Serving, Acting, Receiving;
    match e
    case HubStep(_) => LocalFlow(st, e, id);
    case Break(_) => LocalFlow(st, e, id);
    case StartClose(_, _) => LocalFlow(st, e, id);
    case Request(_, _) => RequestFlow(st, e, id);
    case SendClose(_, _) => RequestFlow(st, e, id);
    case Send(s, j, b) => SendFlow(st, s, j, b, id);
    case EndLocally(s, j) => EndFlow(st, s, j, id);
    case Serve(s) => ServeFlow(st, s, id);
    case Act(t) => ActFlow(st, t, id);
    case Receive(s, ok, taken) => ReceiveFlow(st, s, ok, taken, id);
  }

  /** A stream a step allocates starts with nothing but its Open about to be written. */
  lemma StreamBegun(st: State, e: Event, id: nat)
    requires Wired(st) && Enabled(st, e) && id !in st.pipes && id in Next(st, e).pipes
    ensures var n := Next(st, e);
            FlowOf(n, id) == Flow.Start(n.pipes[id].daemon in n.broken, n.pipes[id].client in n.broken)
  {
    OnlyServeOpens(st, e, id);
    hide FlowOf, Wired, Enabled, Serving;
    OpenFlow(st, e.s, id);
  }

  lemma OnlyServeOpens(st: State, e: Event, id: nat)
    requires Enabled(st, e) && id !in st.pipes && id in Next(st, e).pipes
    ensures e.Serve?
  {
    hide Serving, Acting, Handed;
    if e.Act? { ActedPipes(st, e.t); }
    if e.Receive? { HandedRest(st, e.s, e.ok, e.taken); }
    hide Receiving;
  }

  lemma ActedPipes(st: State, t: Thread)
    requires Enabled(st, Act(t))
    ensures Acting(st, t).pipes == st.pipes
  {
    hide HubAfter, DownAfter, TodoAfter;
  }

  lemma NextOk(st: State, e: Event)
    requires AllOk(st) && Enabled(st, e)
    ensures AllOk(Next(st, e))
  {
    hide Wired, FlowOf, Flow.Inv, Flow.Steps, Flow.Start, Next, Enabled;
    NextWired(st, e);
    var n := Next(st, e);
    forall id ensures StreamOk(n, id) {
      if id in st.pipes {
        assert StreamOk(st, id);
        StreamKept(st, e, id);
        Flow.StepsKeep(FlowOf(st, id), FlowOf(n, id));
      } else if id in n.pipes {
        StreamBegun(st, e, id);
        Flow.StartOk(n.pipes[id].daemon in n.broken, n.pipes[id].client in n.broken);
      }
    }
  }

  lemma {:induction false} RunOk(st: State, es: seq<Event>)
    requires AllOk(st) && Run(st, es)
    ensures AllOk(Exec(st, es))
    decreases es
  {
    if es != [] {
      NextOk(st, es[0]);
      hide AllOk;
      RunOk(Next(st, es[0]), es[1..]);
    }
  }

  lemma ReachedOk(es: seq<Event>)
    requires Run(START, es)
    ensures AllOk(Exec(START, es))
  {
    StartWired();
    RunOk(START, es);
  }

  /** In every run, what one end of a stream received is a prefix of what its other end sent on it. */
  lemma Fidelity(es: seq<Event>, id: nat)
    requires Run(START, es) && id in Exec(START, es).pipes
    ensures var st := Exec(START, es);
            var p := st.pipes[id];
            && BytesAt(st.got, End(p.daemon, id)) <= BytesAt(st.sent, End(p.client, id))
            && BytesAt(st.got, End(p.client, id)) <= BytesAt(st.sent, End(p.daemon, id))
  {
    var st := Exec(START, es);
    ReachedOk(es);
    assert StreamOk(st, id);
    var f := FlowOf(st, id);
    hide Wired;
    PrefixOfSent(f.toD, f.endD, f.live);
    PrefixOfSent(f.toC, f.endC, f.live);
  }

  lemma PrefixOfSent(l: Flow.Leg, end: Flow.EndState, live: bool)
    requires Flow.LegOk(l, end, live)
    ensures l.got <= l.sent
  {
    var rest := Flow.Load(Flow.Coming(l, live));
    assert l.got <= l.got + rest;
  }

  /** Only the two sessions a pipe joins ever send or receive on its id, whichever streams interleave with it. */
  lemma NoStrangers(es: seq<Event>, s: SessionId, id: nat)
    requires Run(START, es) && !Party(Exec(START, es).pipes, id, s)
    ensures var st := Exec(START, es);
            BytesAt(st.got, End(s, id)) == [] && BytesAt(st.sent, End(s, id)) == [] && EndOf(st, s, id).Unopened?
  {
    ReachedOk(es);
  }

  /** No frame of the stream is waiting anywhere between two of its ends. */
  predicate Drained(st: State, id: nat, from: SessionId, to: SessionId, toDaemon: bool) {
    && Toks(Queue(st.up, from), id, toDaemon) == []
    && Hand(Todo(st.todo, Reader(from)), to, id, toDaemon) == []
    && Toks(Queue(st.down, to), id, toDaemon) == []
  }

  /** While the pipe, the receiving socket and the receiving end last, nothing sent is lost on the way. */
  lemma DeliveredOnceDrained(es: seq<Event>, id: nat)
    requires Run(START, es) && id in Exec(START, es).hub.streams
    ensures var st := Exec(START, es);
            var p := st.hub.streams[id];
            && (p.daemon !in st.broken && !EndOf(st, p.daemon, id).Ended? && Drained(st, id, p.client, p.daemon, true)
                ==> BytesAt(st.got, End(p.daemon, id)) == BytesAt(st.sent, End(p.client, id)))
            && (p.client !in st.broken && !EndOf(st, p.client, id).Ended? && Drained(st, id, p.daemon, p.client, false)
                ==> BytesAt(st.got, End(p.client, id)) == BytesAt(st.sent, End(p.daemon, id)))
  {
    hide AllOk, Drained, EndOf, BytesAt;
    ReachedOk(es);
    var st := Exec(START, es);
    LivePipe(st, id);
    DrainedBoth(st, id);
    hide Exec, Run;
  }

  lemma LivePipe(st: State, id: nat)
    requires AllOk(st) && id in st.hub.streams
    ensures id in st.pipes && st.pipes[id] == st.hub.streams[id] && Flow.Inv(FlowOf(st, id))
  {
    assert StreamOk(st, id);
    hide FlowOf, Flow.Inv;
  }

  lemma DrainedBoth(st: State, id: nat)
    requires id in st.pipes && id in st.hub.streams && Flow.Inv(FlowOf(st, id))
    ensures var p := st.pipes[id];
            && (p.daemon !in st.broken && !EndOf(st, p.daemon, id).Ended? && Drained(st, id, p.client, p.daemon, true)
                ==> BytesAt(st.got, End(p.daemon, id)) == BytesAt(st.sent, End(p.client, id)))
            && (p.client !in st.broken && !EndOf(st, p.client, id).Ended? && Drained(st, id, p.daemon, p.client, false)
                ==> BytesAt(st.got, End(p.client, id)) == BytesAt(st.sent, End(p.daemon, id)))
  {
    var f := FlowOf(st, id);
    hide Toks, Hand, EndOf, BytesAt;
    DrainedLeg(f.toD, f.endD, f.live);
    DrainedLeg(f.toC, f.endC, f.live);
    hide Flow.LegOk;
  }

  lemma DrainedLeg(l: Flow.Leg, end: Flow.EndState, live: bool)
    requires Flow.LegOk(l, end, live)
    ensures live && !l.broken && !end.Ended? && l.up == [] && l.hand == [] && l.down == [] ==> l.got == l.sent
  {
    assert Flow.Load([]) == [];
  }
}
