/**
 * The relay as a whole: the hub's tables, the sockets as queues, and the goroutines that work on them.
 * A handler is one locked section followed by its writes, each a step of its own, so that the handlers
 * of different sessions interleave freely; frames of one session are served one after the other.
 */
module Tunnel {
  import Hub
  import opened Basics
  import Flow

  type SessionId = Hub.SessionId
  type Bytes = Flow.Bytes

  datatype Frame =
    | OpenRequest(devId: string)
    | OpenFrame(id: nat)
    | AcceptFrame(id: nat)
    | CloseFrame(id: nat)
    | DataFrame(id: nat, bytes: Bytes)
    | ErrorFrame

  const MAX_CHUNK := 32 * 1024

  /** What a handler still has to do after its locked section. */
  datatype Action =
    | Write(to: SessionId, frame: Frame)                  // a failed write is ignored
    | WriteOrDrop(to: SessionId, frame: Frame, id: nat)   // a failed write drops the stream instead
    | DropNow(id: nat)
    | CloseNow(s: SessionId)

  datatype Thread = Reader(s: SessionId) | Closer(n: nat)

  datatype End = End(s: SessionId, id: nat)

  /**
   * broken: sessions that writes no longer reach. deaf: sessions whose read loop has ended.
   * pipes: every pipe the hub ever allocated.
   */
  datatype State = State(
    hub: Hub.State,
    broken: set<SessionId>,
    deaf: set<SessionId>,
    up: map<SessionId, seq<Frame>>,
    down: map<SessionId, seq<Frame>>,
    todo: map<Thread, seq<Action>>,
    ends: map<End, Flow.EndState>,
    sent: map<End, Bytes>,
    got: map<End, Bytes>,
    pipes: map<nat, Hub.Pipe>)

  const START := State(Hub.EMPTY, {}, {}, map[], map[], map[], map[], map[], map[], map[])

  datatype Event =
    | HubStep(e: Hub.Event)                             // the section of an attach, reg, code or claim
    | Request(s: SessionId, devId: string)
    | Send(s: SessionId, id: nat, bytes: Bytes)         // only on a stream the sender has seen open
    | SendClose(s: SessionId, id: nat)
    | EndLocally(s: SessionId, id: nat)
    | Serve(s: SessionId)                               // the read loop takes the next frame
    | Act(t: Thread)                                    // a goroutine's next action
    | Receive(s: SessionId, ok: bool, taken: nat)       // the far end takes the next frame
    | Break(s: SessionId)
    | StartClose(n: nat, s: SessionId)

  function Queue(m: map<SessionId, seq<Frame>>, s: SessionId): seq<Frame> {
    if s in m then m[s] else []
  }

  function Pushed(m: map<SessionId, seq<Frame>>, s: SessionId, f: Frame): map<SessionId, seq<Frame>> {
    m[s := Queue(m, s) + [f]]
  }

  function Todo(m: map<Thread, seq<Action>>, t: Thread): seq<Action> {
    if t in m then m[t] else []
  }

  function BytesAt(m: map<End, Bytes>, k: End): Bytes {
    if k in m then m[k] else []
  }

  function EndAt(ends: map<End, Flow.EndState>, k: End): Flow.EndState {
    if k in ends then ends[k] else Flow.Unopened
  }

  function EndOf(st: State, s: SessionId, id: nat): Flow.EndState {
    EndAt(st.ends, End(s, id))
  }

  predicate Enabled(st: State, e: Event) {
    match e
    case HubStep(h) => (h.Attach? || h.Reg? || h.Code? || h.Claim?) && Hub.Enabled(st.hub, h)
    case Send(s, id, _) => !EndOf(st, s, id).Unopened?
    case EndLocally(s, id) => EndOf(st, s, id).Opened?
    case Serve(s) =>
      && s !in st.deaf && Queue(st.up, s) != [] && Todo(st.todo, Reader(s)) == []
      && (st.up[s][0].OpenRequest? ==> st.hub.nextId + 1 < Hub.ID_SPAN)
    case Act(t) => Todo(st.todo, t) != []
    case Receive(s, _, _) => Queue(st.down, s) != []
    case _ => true
  }

  function Failing(s: SessionId): seq<Action> {
    [Write(s, ErrorFrame), CloseNow(s)]
  }

  /** The locked section of the handler for one frame, and the actions that follow it. */
  function Handle(h: Hub.State, s: SessionId, f: Frame): (Hub.State, seq<Action>) {
    match f
    case OpenRequest(devId) =>
      var (n, answer) := Hub.Opening(h, s, devId);
      (match answer
       case Rejected(_) => (n, Failing(s))
       case Opened(p) => (n, [WriteOrDrop(p.daemon, OpenFrame(p.id), p.id), WriteOrDrop(s, OpenFrame(p.id), p.id)]))
    case AcceptFrame(id) =>
      if Hub.RoleOf(h, s) == Some(Hub.DaemonRole) && id in h.streams && h.streams[id].daemon == s
      then (h, [Write(h.streams[id].client, f)])
      else (h, Failing(s))
    case CloseFrame(id) =>
      if id !in h.streams then (h, [])
      else if !Hub.Touches(h.streams[id], s) then (h, Failing(s))
      else (h, [DropNow(id), Write(Hub.Peer(h.streams[id], s), f)])
    case DataFrame(id, _) =>
      if id !in h.streams then (h, [Write(s, CloseFrame(id))])
      else (h, [WriteOrDrop(Hub.Peer(h.streams[id], s), f, id)])
    case _ => (h, Failing(s))
  }

  function CloseWrites(told: seq<Hub.Notice>): seq<Action> {
    if told == [] then [] else [Write(told[0].to, CloseFrame(told[0].id))] + CloseWrites(told[1..])
  }

  /** A malformed frame ends the read loop, and with it the session. */
  predicate Malformed(f: Frame) {
    f.DataFrame? && |f.bytes| > MAX_CHUNK
  }

  function Served(h: Hub.State, s: SessionId, f: Frame): (Hub.State, seq<Action>) {
    if Malformed(f) then (h, [CloseNow(s)]) else Handle(h, s, f)
  }

  /** The pipes ever allocated, with the one a section may just have added. */
  function PipesAfter(pipes: map<nat, Hub.Pipe>, h: Hub.State, n: Hub.State): map<nat, Hub.Pipe> {
    if n.nextId != h.nextId && n.nextId in n.streams then pipes[n.nextId := n.streams[n.nextId]] else pipes
  }

  function Serving(st: State, s: SessionId): State
    requires Enabled(st, Serve(s))
  {
    var f := st.up[s][0];
    var (hub, acts) := Served(st.hub, s, f);
    st.(hub := hub,
        pipes := PipesAfter(st.pipes, st.hub, hub),
        deaf := if Malformed(f) then st.deaf + {s} else st.deaf,
        up := if Malformed(f) then st.up else st.up[s := st.up[s][1..]],
        todo := st.todo[Reader(s) := acts])
  }

  function HubAfter(h: Hub.State, a: Action): Hub.State {
    match a
    case DropNow(id) => Hub.Dropped(h, id)
    case CloseNow(s) => Hub.Closed(h, s)
    case _ => h
  }

  function DownAfter(st: State, a: Action): map<SessionId, seq<Frame>> {
    if (a.Write? || a.WriteOrDrop?) && a.to !in st.broken then Pushed(st.down, a.to, a.frame) else st.down
  }

  /** The actions a step puts in front of the rest of its thread's list. */
  function Front(st: State, a: Action): seq<Action> {
    match a
    case Write(_, _) => []
    case WriteOrDrop(to, _, id) => if to in st.broken then [DropNow(id)] else []
    case DropNow(id) =>
      if id !in st.hub.streams then []
      else [Write(st.hub.streams[id].client, CloseFrame(id)), Write(st.hub.streams[id].daemon, CloseFrame(id))]
    case CloseNow(s) =>
      if s in st.hub.closed then []
      else CloseWrites(Hub.Notices(Hub.Doomed(st.hub.streams, Hub.Ids(st.hub, s)), s))
  }

  /** A failed write that drops its stream gives up on the actions after it. */
  function TodoAfter(st: State, acts: seq<Action>): seq<Action>
    requires acts != []
  {
    if acts[0].WriteOrDrop? && acts[0].to in st.broken then Front(st, acts[0]) else Front(st, acts[0]) + acts[1..]
  }

  function Acting(st: State, t: Thread): State
    requires Enabled(st, Act(t))
  {
    var a := st.todo[t][0];
    st.(hub := HubAfter(st.hub, a),
        broken := if a.CloseNow? then st.broken + {a.s} else st.broken,
        down := DownAfter(st, a),
        todo := st.todo[t := TodoAfter(st, st.todo[t])])
  }

  /** ok: the local dial, the local write, or the pending open the frame needs did not fail. */
  function EndAfter(role: Hub.Role, end: Flow.EndState, f: Frame, ok: bool): Flow.EndState {
    match f
    case OpenFrame(_) => if role.DaemonRole? && ok then Flow.Opened else end
    case AcceptFrame(_) => if role.DaemonRole? then end else if ok then Flow.Opened else Flow.Ended
    case CloseFrame(_) => if end.Opened? then Flow.Ended else end
    case DataFrame(_, _) => if end.Opened? && !ok then Flow.Ended else end
    case _ => end
  }

  function Reply(role: Hub.Role, end: Flow.EndState, f: Frame, ok: bool): Option<Frame> {
    match f
    case OpenFrame(id) => if role.ClientRole? then None else Some(if ok then AcceptFrame(id) else CloseFrame(id))
    case DataFrame(id, _) => if role.DaemonRole? && !end.Opened? then Some(CloseFrame(id)) else None
    case _ => None
  }

  /** A local write that fails part-way has taken some of the bytes. */
  function Taken(end: Flow.EndState, f: Frame, ok: bool, taken: nat): Bytes {
    if f.DataFrame? && end.Opened? then (if ok || taken > |f.bytes| then f.bytes else f.bytes[..taken]) else []
  }

  function StreamOf(f: Frame): Option<nat> {
    match f
    case OpenFrame(id) => Some(id)
    case AcceptFrame(id) => Some(id)
    case CloseFrame(id) => Some(id)
    case DataFrame(id, _) => Some(id)
    case _ => None
  }

  function Gained(got: map<End, Bytes>, k: End, bytes: Bytes): map<End, Bytes> {
    if |bytes| == 0 then got else got[k := BytesAt(got, k) + bytes]
  }

  function Replied(up: map<SessionId, seq<Frame>>, s: SessionId, reply: Option<Frame>): map<SessionId, seq<Frame>> {
    if reply.None? then up else Pushed(up, s, reply.value)
  }

  function Filed(ends: map<End, Flow.EndState>, k: End, end: Flow.EndState): map<End, Flow.EndState> {
    if EndAt(ends, k) == end then ends else ends[k := end]
  }

  /** What the end k makes of a frame of its stream. */
  function Handed(st: State, role: Hub.Role, k: End, f: Frame, ok: bool, taken: nat): State {
    var end := EndAt(st.ends, k);
    st.(ends := Filed(st.ends, k, EndAfter(role, end, f, ok)),
        got := Gained(st.got, k, Taken(end, f, ok, taken)),
        up := Replied(st.up, k.s, Reply(role, end, f, ok)))
  }

  function Receiving(st: State, s: SessionId, ok: bool, taken: nat): State
    requires Queue(st.down, s) != []
  {
    var f, rest := st.down[s][0], st.(down := st.down[s := st.down[s][1..]]);
    if StreamOf(f).None? || s !in st.hub.sessions then rest
    else Handed(rest, st.hub.sessions[s].role, End(s, StreamOf(f).value), f, ok, taken)
  }

  function Next(st: State, e: Event): State
    requires Enabled(st, e)
  {
    match e
    case HubStep(h) => st.(hub := Hub.Section(st.hub, h))
    case Request(s, devId) => st.(up := Pushed(st.up, s, OpenRequest(devId)))
    case Send(s, id, b) =>
      st.(up := Pushed(st.up, s, DataFrame(id, b)), sent := st.sent[End(s, id) := BytesAt(st.sent, End(s, id)) + b])
    case SendClose(s, id) => st.(up := Pushed(st.up, s, CloseFrame(id)))
    case EndLocally(s, id) => st.(ends := st.ends[End(s, id) := Flow.Ended])
    case Serve(s) => Serving(st, s)
    case Act(t) => Acting(st, t)
    case Receive(s, ok, taken) => Receiving(st, s, ok, taken)
    case Break(s) => st.(broken := st.broken + {s})
    case StartClose(n, s) => st.(todo := st.todo[Closer(n) := Todo(st.todo, Closer(n)) + [CloseNow(s)]])
  }

  predicate Run(st: State, es: seq<Event>)
    decreases es
  {
    es == [] || (Enabled(st, es[0]) && Run(Next(st, es[0]), es[1..]))
  }

  function Exec(st: State, es: seq<Event>): State
    requires Run(st, es)
    decreases es
  {
    if es == [] then st else Exec(Next(st, es[0]), es[1..])
  }
}
