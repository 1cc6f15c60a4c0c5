/** How the end of a stream spreads through the relay: to the hub's tables, and to both ends. */
module TunnelClose {
  import opened Basics
  import Hub
  import Flow
  import opened Tunnel
  import opened TunnelProof

  // ---- what stays where it is ----

  /** Some goroutine has this still to do. */
  ghost predicate Waits(st: State, a: Action) {
    exists t :: a in Todo(st.todo, t)
  }

  /** After an action that may give up on the rest of its list comes nothing that must not be given up. */
  predicate TidyList(acts: seq<Action>) {
    forall i, j :: 0 <= i < j < |acts| && acts[i].WriteOrDrop? ==> acts[j].WriteOrDrop? && acts[j].id == acts[i].id
  }

  ghost predicate TidyThread(todo: map<Thread, seq<Action>>, t: Thread) {
    TidyList(Todo(todo, t))
  }

  ghost predicate Tidy(st: State) {
    forall t :: TidyThread(st.todo, t)
  }

  /** What an event leaves of the frames waiting at the far ends. */
  lemma DownOf(st: State, e: Event)
    requires Enabled(st, e)
    ensures Next(st, e).down
         == match e
            case Act(t) => DownAfter(st, st.todo[t][0])
            case Receive(s, _, _) => st.down[s := st.down[s][1..]]
            case _ => st.down
  {
    hide Served, PipesAfter, Hub.Section, HubAfter, TodoAfter, DownAfter;
    hide EndAfter, Reply, Taken, Gained, Filed, Replied;
  }

  lemma UpStays(st: State, e: Event, s: SessionId, f: Frame)
    requires Enabled(st, e) && f in Queue(st.up, s)
    ensures f in Queue(Next(st, e).up, s) || (e == Serve(s) && f == st.up[s][0] && !Malformed(f))
  {
    hide Served, PipesAfter, Hub.Section, HubAfter, TodoAfter, DownAfter, EndAfter, Reply, Taken, Gained, Filed;
  }

  lemma DownStays(st: State, e: Event, s: SessionId, f: Frame)
    requires Enabled(st, e) && f in Queue(st.down, s)
    ensures f in Queue(Next(st, e).down, s) || (e.Receive? && e.s == s && f == st.down[s][0])
  {
    DownOf(st, e);
    hide Next;
  }

  lemma AfterAct(st: State, t: Thread, a: Action)
    requires Enabled(st, Act(t)) && TidyList(Todo(st.todo, t)) && a in Todo(st.todo, t) && !a.WriteOrDrop?
    ensures a in TodoAfter(st, st.todo[t]) || a == st.todo[t][0]
  {
    hide Front;
    var acts := st.todo[t];
    var i :| 0 <= i < |acts| && acts[i] == a;
    if i > 0 { assert acts[1..][i - 1] == a; }
  }

  lemma TodoKept(st: State, e: Event, t: Thread)
    requires Enabled(st, e) && e != Act(t) && Todo(st.todo, t) != []
    ensures Todo(st.todo, t) <= Todo(Next(st, e).todo, t)
  {
    hide Served, PipesAfter, Hub.Section, HubAfter, TodoAfter, EndAfter, Reply;
  }

  /** What must not be given up waits until it is done. */
  lemma WaitsOn(st: State, e: Event, a: Action)
    requires Enabled(st, e) && Tidy(st) && Waits(st, a) && !a.WriteOrDrop?
    ensures Waits(Next(st, e), a) || (e.Act? && a == st.todo[e.t][0])
  {
    var t :| a in Todo(st.todo, t);
    assert TidyThread(st.todo, t);
    if e == Act(t) {
      AfterAct(st, t, a);
      ActTodoAt(st, t);
      if a != st.todo[t][0] { assert a in Todo(Next(st, e).todo, t); }
    } else {
      TodoKept(st, e, t);
      assert a in Todo(Next(st, e).todo, t);
    }
  }

  lemma ActTodoAt(st: State, t: Thread)
    requires Enabled(st, Act(t))
    ensures Todo(Next(st, Act(t)).todo, t) == TodoAfter(st, st.todo[t])
  {
    hide TodoAfter, HubAfter, DownAfter;
  }

  // ---- the lists stay tidy ----

  lemma ServedTidy(h: Hub.State, s: SessionId, f: Frame)
    ensures TidyList(Served(h, s, f).1)
  {
    hide Hub.Opening;
  }

  lemma {:induction false} CloseWritesSure(told: seq<Hub.Notice>)
    ensures forall a :: a in CloseWrites(told) ==> a.Write?
  {
    if told != [] { CloseWritesSure(told[1..]); }
  }

  lemma FrontSure(st: State, a: Action)
    ensures forall x :: x in Front(st, a) ==> !x.WriteOrDrop?
  {
    if a.CloseNow? { CloseWritesSure(Hub.Notices(Hub.Doomed(st.hub.streams, Hub.Ids(st.hub, a.s)), a.s)); }
  }

  lemma AfterTidy(st: State, acts: seq<Action>)
    requires acts != [] && TidyList(acts)
    ensures TidyList(TodoAfter(st, acts))
  {
    FrontSure(st, acts[0]);
    var front, all := Front(st, acts[0]), TodoAfter(st, acts);
    hide Front;
    forall i, j | 0 <= i < j < |all| && all[i].WriteOrDrop? ensures all[j].WriteOrDrop? && all[j].id == all[i].id {
      if i >= |front| { assert all[i] == acts[i - |front| + 1] && all[j] == acts[j - |front| + 1]; }
    }
  }

  lemma TidyStep(st: State, e: Event)
    requires Wired(st) && Tidy(st) && Enabled(st, e)
    ensures Tidy(Next(st, e))
  {
    var n := Next(st, e);
    forall t ensures TidyThread(n.todo, t) {
      assert TidyThread(st.todo, t);
      TidyAt(st, e, t);
    }
  }

  lemma TidyAt(st: State, e: Event, t: Thread)
    requires Wired(st) && TidyThread(st.todo, t) && Enabled(st, e)
    ensures TidyThread(Next(st, e).todo, t)
  {
    assert ThreadOk(st.pipes, st.todo, t);
    hide Wired, Hub.Section, HubAfter, DownAfter, Receiving, PipesAfter;
    if e == Act(t) {
      AfterTidy(st, st.todo[t]);
      hide TodoAfter;
    } else if e.Serve? && t == Reader(e.s) {
      ServedTidy(st.hub, e.s, st.up[e.s][0]);
      hide Served;
    } else if e.StartClose? && t == Closer(e.n) {
      forall a | a in Todo(st.todo, t) ensures !a.WriteOrDrop? { assert ActFits(st.pipes, t, a); }
    } else {
      ElsewhereKept(st, e, t);
    }
  }

  lemma ElsewhereKept(st: State, e: Event, t: Thread)
    requires Enabled(st, e) && e != Act(t) && !(e.Serve? && t == Reader(e.s)) && !(e.StartClose? && t == Closer(e.n))
    ensures Todo(Next(st, e).todo, t) == Todo(st.todo, t)
  {
    hide Served, PipesAfter, Hub.Section, HubAfter, TodoAfter, EndAfter, Reply, DownAfter;
  }

  // ---- a stream that has been asked to end does ----

  /** Something is on its way that will take the stream off the hub's tables. */
  ghost predicate Dying(st: State, id: nat)
    requires id in st.pipes
  {
    var p := st.pipes[id];
    || CloseFrame(id) in Queue(st.up, p.client) || CloseFrame(id) in Queue(st.up, p.daemon)
    || Waits(st, DropNow(id))
    || (p.client !in st.hub.closed && Waits(st, CloseNow(p.client)))
    || (p.daemon !in st.hub.closed && Waits(st, CloseNow(p.daemon)))
  }

  ghost predicate Going(st: State, id: nat)
    requires id in st.pipes
  {
    id !in st.hub.streams || Dying(st, id)
  }

  lemma LiveGoes(f: Flow.State, g: Flow.State)
    requires Flow.Steps(f, g) && !f.live
    ensures !g.live
  {
  }

  /** A stream that is gone stays gone. */
  lemma GoneStays(st: State, e: Event, id: nat)
    requires Wired(st) && Enabled(st, e) && id in st.pipes && id !in st.hub.streams
    ensures id in Next(st, e).pipes && id !in Next(st, e).hub.streams
  {
    StreamKept(st, e, id);
    LiveGoes(FlowOf(st, id), FlowOf(Next(st, e), id));
    hide Flow.Steps, LegOf, Wired, Next;
  }

  lemma ClosedOnlyBy(st: State, e: Event, s: SessionId)
    requires Enabled(st, e) && s !in st.hub.closed
    ensures s !in Next(st, e).hub.closed || (e.Act? && st.todo[e.t][0] == CloseNow(s))
  {
    hide Front, TodoAfter, DownAfter, PipesAfter, Receiving, Hub.CodesWithout;
    if e.HubStep? { SectionClosed(st.hub, e.e); }
    if e.Serve? { ServedClosed(st.hub, e.s, st.up[e.s][0]); }
    if e.Receive? { HandedRest(st, e.s, e.ok, e.taken); }
    hide Hub.Section, Served;
  }

  lemma SectionClosed(h: Hub.State, e: Hub.Event)
    requires e.Attach? || e.Reg? || e.Code? || e.Claim?
    ensures Hub.Section(h, e).closed == h.closed
  {
    match e
    case Code(s, code, ttl, now) => Hub.AdvertisedTables(h, s, code, ttl, now);
    case Claim(s, code, now) => Hub.ClaimedTables(h, s, code, now);
    case _ =>
    hide Hub.Advertised, Hub.Claimed;
  }

  lemma ServedClosed(h: Hub.State, s: SessionId, f: Frame)
    ensures Served(h, s, f).0.closed == h.closed
  {
  }

  /** Taking a party's close off the wire sets out to drop the stream. */
  lemma CloseServed(st: State, s: SessionId, id: nat)
    requires Wired(st) && Enabled(st, Serve(s)) && st.up[s][0] == CloseFrame(id)
    requires id in st.hub.streams && Hub.Touches(st.pipes[id], s)
    ensures Waits(Next(st, Serve(s)), DropNow(id))
  {
    assert st.pipes[id] == st.hub.streams[id];
    hide Wired, PipesAfter;
    var n := Next(st, Serve(s));
    assert n.todo[Reader(s)][0] == DropNow(id);
    assert DropNow(id) in Todo(n.todo, Reader(s));
  }

  lemma DropActed(st: State, t: Thread, id: nat)
    requires Enabled(st, Act(t)) && st.todo[t][0] == DropNow(id)
    ensures id !in Next(st, Act(t)).hub.streams
  {
  }

  lemma ClosedDrops(h: Hub.State, s: SessionId, id: nat)
    requires Hub.Inv(h) && s !in h.closed && (id in h.streams ==> Hub.Touches(h.streams[id], s))
    ensures id !in Hub.Closed(h, s).streams
  {
    assert Hub.PipeOk(h, id);
    hide Hub.CodesWithout, Hub.DevIdOf, Hub.RoleOf;
  }

  lemma PipeSame(st: State, id: nat)
    requires Wired(st) && id in st.hub.streams
    ensures Hub.Inv(st.hub) && id in st.pipes && st.pipes[id] == st.hub.streams[id]
  {
    hide UpOk, DownOk, TodoOk, EndsOk, Hub.Inv;
  }

  /** The first close of a party takes its streams along. */
  lemma CloseActed(st: State, t: Thread, s: SessionId, id: nat)
    requires Wired(st) && Enabled(st, Act(t)) && st.todo[t][0] == CloseNow(s) && s !in st.hub.closed
    requires id in st.hub.streams && Hub.Touches(st.pipes[id], s)
    ensures id !in Next(st, Act(t)).hub.streams
  {
    hide Wired, Hub.Inv, Hub.Closed;
    PipeSame(st, id);
    ClosedDrops(st.hub, s, id);
    hide Front, TodoAfter, DownAfter;
  }

  lemma AskedByFrame(st: State, e: Event, s: SessionId, id: nat)
    requires Wired(st) && Enabled(st, e) && id in st.pipes && id in st.hub.streams && Hub.Touches(st.pipes[id], s)
    requires CloseFrame(id) in Queue(st.up, s)
    ensures CloseFrame(id) in Queue(Next(st, e).up, s) || Waits(Next(st, e), DropNow(id))
  {
    hide Next, Enabled, Wired, Waits;
    UpStays(st, e, s, CloseFrame(id));
    if e == Serve(s) && st.up[s][0] == CloseFrame(id) { CloseServed(st, s, id); }
  }

  lemma AskedByDrop(st: State, e: Event, id: nat)
    requires Tidy(st) && Enabled(st, e) && Waits(st, DropNow(id))
    ensures Waits(Next(st, e), DropNow(id)) || id !in Next(st, e).hub.streams
  {
    hide Next, Tidy, Waits;
    WaitsOn(st, e, DropNow(id));
    if e.Act? && st.todo[e.t][0] == DropNow(id) { DropActed(st, e.t, id); }
  }

  lemma AskedByClose(st: State, e: Event, s: SessionId, id: nat)
    requires Wired(st) && Tidy(st) && Enabled(st, e) && id in st.hub.streams && Hub.Touches(st.pipes[id], s)
    requires Waits(st, CloseNow(s)) && s !in st.hub.closed
    ensures (Waits(Next(st, e), CloseNow(s)) && s !in Next(st, e).hub.closed) || id !in Next(st, e).hub.streams
  {
    hide Next, Wired, Tidy, Waits;
    WaitsOn(st, e, CloseNow(s));
    ClosedOnlyBy(st, e, s);
    if e.Act? && st.todo[e.t][0] == CloseNow(s) { CloseActed(st, e.t, s, id); }
  }

  lemma DyingStep(st: State, e: Event, id: nat)
    requires Wired(st) && Tidy(st) && Enabled(st, e) && id in st.pipes && id in st.hub.streams && Dying(st, id)
    requires id in Next(st, e).pipes && Next(st, e).pipes[id] == st.pipes[id]
    ensures Going(Next(st, e), id)
  {
    var p := st.pipes[id];
    hide Next, Enabled, Wired, Tidy, Waits, Queue;
    if CloseFrame(id) in Queue(st.up, p.client) {
      AskedByFrame(st, e, p.client, id);
    } else if CloseFrame(id) in Queue(st.up, p.daemon) {
      AskedByFrame(st, e, p.daemon, id);
    } else if Waits(st, DropNow(id)) {
      AskedByDrop(st, e, id);
    } else if p.client !in st.hub.closed && Waits(st, CloseNow(p.client)) {
      AskedByClose(st, e, p.client, id);
    } else {
      AskedByClose(st, e, p.daemon, id);
    }
  }

  lemma GoingStep(st: State, e: Event, id: nat)
    requires Wired(st) && Tidy(st) && Enabled(st, e) && id in st.pipes && Going(st, id)
    ensures id in Next(st, e).pipes && Next(st, e).pipes[id] == st.pipes[id] && Going(Next(st, e), id)
  {
    PipesStay(st, e, id);
    hide Next, Enabled, Wired, Tidy, Dying;
    if id in st.hub.streams { DyingStep(st, e, id); } else { GoneStays(st, e, id); }
  }

  // ---- what asks a stream to end ----

  /** A frame the hub answers with an error and the end of the session. */
  predicate Violates(h: Hub.State, s: SessionId, f: Frame) {
    match f
    case OpenRequest(devId) => Hub.Opening(h, s, devId).1.Rejected?
    case AcceptFrame(j) =>
      !(Hub.RoleOf(h, s) == Some(Hub.DaemonRole) && j in h.streams && h.streams[j].daemon == s)
    case CloseFrame(j) => j in h.streams && !Hub.Touches(h.streams[j], s)
    case DataFrame(_, b) => |b| > MAX_CHUNK
    case _ => true
  }

  /**
   * A party sends a close; the daemon end cannot dial, or gets data for a stream it does not have open; a write of
   * the stream's own frames fails; or a party's session is to be closed, because it broke the protocol or otherwise.
   */
  predicate Asks(st: State, e: Event, id: nat)
    requires id in st.pipes && Enabled(st, e)
  {
    var p := st.pipes[id];
    match e
    case SendClose(s, j) => j == id && Hub.Touches(p, s)
    case Receive(s, ok, _) =>
      && s == p.daemon
      && (match st.down[s][0]
          case OpenFrame(j) => j == id && !ok
          case DataFrame(j, _) => j == id && !EndOf(st, s, id).Opened?
          case _ => false)
    case Act(t) => st.todo[t][0].WriteOrDrop? && st.todo[t][0].id == id && st.todo[t][0].to in st.broken
    case StartClose(_, s) => Hub.Touches(p, s) && s !in st.hub.closed
    case Serve(s) => Hub.Touches(p, s) && s !in st.hub.closed && Violates(st.hub, s, st.up[s][0])
    case _ => false
  }

  lemma DaemonRole(st: State, id: nat)
    requires Wired(st) && id in st.pipes
    ensures Hub.RoleOf(st.hub, st.pipes[id].daemon) == Some(Hub.DaemonRole)
    ensures Hub.RoleOf(st.hub, st.pipes[id].client) == Some(Hub.ClientRole)
  {
    assert PipeKnown(st.hub, id, st.pipes[id]);
    hide UpOk, DownOk, TodoOk, EndsOk, Hub.Inv;
  }

  lemma ReplySent(st: State, e: Event, id: nat)
    requires Wired(st) && Enabled(st, e) && id in st.pipes && e.Receive? && Asks(st, e, id)
    ensures CloseFrame(id) in Queue(Next(st, e).up, st.pipes[id].daemon)
  {
    DaemonRole(st, id);
    hide Wired, Gained, Filed, Taken, EndAfter;
    var s, f := e.s, st.down[e.s][0];
    assert Reply(Hub.DaemonRole, EndOf(st, s, id), f, e.ok) == Some(CloseFrame(id));
    hide Reply;
  }

  lemma Refusal(h: Hub.State, s: SessionId, f: Frame)
    requires Violates(h, s, f)
    ensures CloseNow(s) in Served(h, s, f).1
  {
    assert Failing(s)[1] == CloseNow(s);
    hide Hub.Opening;
  }

  /** A session about to be closed that was not yet. */
  lemma ClosingGoes(n: State, id: nat, s: SessionId)
    requires id in n.pipes && Hub.Touches(n.pipes[id], s) && s !in n.hub.closed && Waits(n, CloseNow(s))
    ensures Going(n, id)
  {
    hide Waits;
  }

  lemma ServeAsks(st: State, s: SessionId, id: nat)
    requires Enabled(st, Serve(s)) && id in st.pipes && Asks(st, Serve(s), id)
    ensures Waits(Next(st, Serve(s)), CloseNow(s)) && s !in Next(st, Serve(s)).hub.closed
  {
    Refusal(st.hub, s, st.up[s][0]);
    ServedClosed(st.hub, s, st.up[s][0]);
    hide Violates, Served, PipesAfter, Malformed;
    var n := Next(st, Serve(s));
    assert CloseNow(s) in Todo(n.todo, Reader(s));
  }

  lemma StartAsks(st: State, k: nat, s: SessionId)
    requires s !in st.hub.closed
    ensures Waits(Next(st, StartClose(k, s)), CloseNow(s)) && s !in Next(st, StartClose(k, s)).hub.closed
  {
    var n := Next(st, StartClose(k, s));
    assert CloseNow(s) in Todo(n.todo, Closer(k));
  }

  lemma ActAsks(st: State, t: Thread, id: nat)
    requires Enabled(st, Act(t)) && id in st.pipes && Asks(st, Act(t), id)
    ensures Waits(Next(st, Act(t)), DropNow(id))
  {
    ActTodoAt(st, t);
    hide Next;
    assert TodoAfter(st, st.todo[t]) == [DropNow(id)];
    assert DropNow(id) in Todo(Next(st, Act(t)).todo, t);
  }

  lemma SendAsks(st: State, s: SessionId, id: nat)
    ensures CloseFrame(id) in Queue(Next(st, SendClose(s, id)).up, s)
  {
  }

  lemma AskedDies(st: State, e: Event, id: nat)
    requires Wired(st) && Enabled(st, e) && id in st.pipes && Asks(st, e, id)
    requires id in Next(st, e).pipes && Next(st, e).pipes[id] == st.pipes[id]
    ensures Going(Next(st, e), id)
  {
    var n := Next(st, e);
    hide Next, Wired, Waits, Queue, Violates;
    match e
    case SendClose(s, _) => SendAsks(st, s, id);
    case Receive(_, _, _) => ReplySent(st, e, id);
    case Act(t) => ActAsks(st, t, id);
    case StartClose(k, s) => StartAsks(st, k, s); ClosingGoes(n, id, s);
    case Serve(s) => ServeAsks(st, s, id); ClosingGoes(n, id, s);
  }

  lemma AskedGoes(st: State, e: Event, id: nat)
    requires Wired(st) && Enabled(st, e) && id in st.pipes && Asks(st, e, id)
    ensures id in Next(st, e).pipes && Next(st, e).pipes[id] == st.pipes[id] && Going(Next(st, e), id)
  {
    PipesStay(st, e, id);
    hide Next, Enabled, Wired, Dying, Asks;
    AskedDies(st, e, id);
  }

  // ---- both ends are told ----

  lemma BrokenStays(st: State, e: Event, s: SessionId)
    requires Enabled(st, e) && s in st.broken
    ensures s in Next(st, e).broken
  {
    hide Served, PipesAfter, Hub.Section, HubAfter, TodoAfter, DownAfter;
    hide EndAfter, Reply, Taken, Gained, Filed, Replied;
  }

  /** A close has been written to a party, or is about to be. */
  ghost predicate CloseComing(st: State, s: SessionId, id: nat) {
    CloseFrame(id) in Queue(st.down, s) || Waits(st, Write(s, CloseFrame(id)))
  }

  lemma WriteActed(st: State, t: Thread, s: SessionId, f: Frame)
    requires Enabled(st, Act(t)) && st.todo[t][0] == Write(s, f)
    ensures s in st.broken || f in Queue(Next(st, Act(t)).down, s)
  {
    DownOf(st, Act(t));
    hide Next;
  }

  lemma ComingStep(st: State, e: Event, s: SessionId, id: nat)
    requires Enabled(st, e) && Tidy(st) && CloseComing(st, s, id)
    ensures || CloseComing(Next(st, e), s, id) || s in Next(st, e).broken
            || (e.Receive? && e.s == s && st.down[s][0] == CloseFrame(id))
  {
    hide Next, Tidy, Waits;
    if CloseFrame(id) in Queue(st.down, s) {
      DownStays(st, e, s, CloseFrame(id));
    } else {
      var a := Write(s, CloseFrame(id));
      WaitsOn(st, e, a);
      if e.Act? && st.todo[e.t][0] == a {
        WriteActed(st, e.t, s, CloseFrame(id));
        if s in st.broken { BrokenStays(st, e, s); }
      }
    }
  }

  lemma StreamsOf(st: State, e: Event, id: nat)
    requires Wired(st) && Enabled(st, e) && id in st.hub.streams && id !in Next(st, e).hub.streams
    ensures e.Act?
    ensures || st.todo[e.t][0] == DropNow(id)
            || (&& st.todo[e.t][0].CloseNow? && st.todo[e.t][0].s !in st.hub.closed
                && Hub.Touches(st.hub.streams[id], st.todo[e.t][0].s))
  {
    PipeSame(st, id);
    if e.HubStep? { HubStepWired(st, e); }
    if e.Serve? { ServedStreams(st.hub, e.s, st.up[e.s][0], id); }
    if e.Receive? { HandedRest(st, e.s, e.ok, e.taken); }
    if e.Act? { ActDrops(st, e.t, id); }
    hide Wired, Hub.Inv, Served, Hub.Section, HubAfter, Receiving, PipesAfter, TodoAfter, DownAfter;
  }

  lemma ServedStreams(h: Hub.State, s: SessionId, f: Frame, id: nat)
    requires id in h.streams
    ensures id in Served(h, s, f).0.streams
  {
  }

  lemma ActDrops(st: State, t: Thread, id: nat)
    requires Hub.Inv(st.hub) && Enabled(st, Act(t)) && id in st.hub.streams && id !in Next(st, Act(t)).hub.streams
    ensures || st.todo[t][0] == DropNow(id)
            || (&& st.todo[t][0].CloseNow? && st.todo[t][0].s !in st.hub.closed
                && Hub.Touches(st.hub.streams[id], st.todo[t][0].s))
  {
    hide Front, TodoAfter, DownAfter, Hub.Unlisted, Hub.CodesWithout;
    if st.todo[t][0].CloseNow? { assert Hub.ListOk(st.hub, st.todo[t][0].s); }
    hide Hub.Inv;
  }

  lemma {:induction false} CloseWritesHas(told: seq<Hub.Notice>, to: SessionId, id: nat)
    requires Hub.Notice(to, id) in told
    ensures Write(to, CloseFrame(id)) in CloseWrites(told)
  {
    if told[0] != Hub.Notice(to, id) { CloseWritesHas(told[1..], to, id); }
  }

  /** Whoever takes a stream off the tables has its parties told, a session closed for good excepted. */
  lemma LostTells(st: State, t: Thread, id: nat, x: SessionId)
    requires Wired(st) && Enabled(st, Act(t)) && id in st.hub.streams && Hub.Touches(st.hub.streams[id], x)
    requires || st.todo[t][0] == DropNow(id)
             || (&& st.todo[t][0].CloseNow? && st.todo[t][0].s !in st.hub.closed
                 && Hub.Touches(st.hub.streams[id], st.todo[t][0].s))
    ensures Waits(Next(st, Act(t)), Write(x, CloseFrame(id))) || x in Next(st, Act(t)).broken
  {
    var a, n := st.todo[t][0], Next(st, Act(t));
    if a == DropNow(id) || x != a.s {
      FrontTells(st, t, id, x);
      ActTodoAt(st, t);
      hide Next, Front, Wired;
      assert Write(x, CloseFrame(id)) in Todo(n.todo, t);
    }
  }

  lemma FrontTells(st: State, t: Thread, id: nat, x: SessionId)
    requires Wired(st) && Enabled(st, Act(t)) && id in st.hub.streams && Hub.Touches(st.hub.streams[id], x)
    requires || st.todo[t][0] == DropNow(id)
             || (&& st.todo[t][0].CloseNow? && st.todo[t][0].s !in st.hub.closed && x != st.todo[t][0].s
                 && Hub.Touches(st.hub.streams[id], st.todo[t][0].s))
    ensures Write(x, CloseFrame(id)) in TodoAfter(st, st.todo[t])
  {
    var a := st.todo[t][0];
    PipeSame(st, id);
    if a.CloseNow? {
      assert Hub.PipeOk(st.hub, id);
      PartyKnown(st.hub, id, a.s);
      hide Hub.PipeOk, Hub.Inv, Wired;
      Hub.TeardownNotices(st.hub, a.s, id);
      CloseWritesHas(Hub.Notices(Hub.Doomed(st.hub.streams, Hub.Ids(st.hub, a.s)), a.s), x, id);
    }
    hide Wired, Hub.Inv, CloseWrites, Hub.Notices, Hub.Doomed;
  }

  lemma PartyKnown(h: Hub.State, id: nat, s: SessionId)
    requires Hub.PipeOk(h, id) && id in h.streams && Hub.Touches(h.streams[id], s)
    ensures s in h.sessions
  {
  }

  lemma LostWrites(st: State, e: Event, id: nat, x: SessionId)
    requires Wired(st) && Enabled(st, e) && id in st.hub.streams && id !in Next(st, e).hub.streams
    requires Hub.Touches(st.hub.streams[id], x)
    ensures Waits(Next(st, e), Write(x, CloseFrame(id))) || x in Next(st, e).broken
  {
    StreamsOf(st, e, id);
    LostTells(st, e.t, id, x);
    hide Next, Wired, Waits;
  }

  lemma StreamLost(st: State, e: Event, id: nat, x: SessionId)
    requires Wired(st) && Enabled(st, e) && id in st.hub.streams && id !in Next(st, e).hub.streams
    requires Hub.Touches(st.hub.streams[id], x)
    ensures CloseComing(Next(st, e), x, id) || x in Next(st, e).broken
  {
    LostWrites(st, e, id, x);
    hide Next, Wired, Waits;
  }

  lemma EndStays(st: State, e: Event, x: SessionId, id: nat)
    requires Enabled(st, e) && !e.Receive? && e != EndLocally(x, id)
    ensures EndOf(Next(st, e), x, id) == EndOf(st, x, id)
  {
    hide Served, PipesAfter, Hub.Section, HubAfter, TodoAfter, DownAfter;
  }

  lemma EndReceived(st: State, e: Event, role: Hub.Role, x: SessionId, id: nat)
    requires Enabled(st, e) && e.Receive? && Hub.RoleOf(st.hub, x) == Some(role)
    ensures EndOf(Next(st, e), x, id)
         == if e.s == x && StreamOf(st.down[e.s][0]) == Some(id)
            then EndAfter(role, EndOf(st, x, id), st.down[e.s][0], e.ok) else EndOf(st, x, id)
  {
    hide EndAfter, Reply, Taken, Gained, Replied, StreamOf;
  }

  /** What becomes of an end in one step. */
  lemma EndMoves(st: State, e: Event, x: SessionId, id: nat)
    requires Wired(st) && Enabled(st, e) && id in st.pipes && Hub.Touches(st.pipes[id], x)
    ensures var role := if x == st.pipes[id].daemon then Hub.DaemonRole else Hub.ClientRole;
            EndOf(Next(st, e), x, id)
            == match e
               case EndLocally(s, j) => if s == x && j == id then Flow.Ended else EndOf(st, x, id)
               case Receive(s, ok, _) =>
                 if s == x && StreamOf(st.down[s][0]) == Some(id)
                 then EndAfter(role, EndOf(st, x, id), st.down[s][0], ok) else EndOf(st, x, id)
               case _ => EndOf(st, x, id)
  {
    DaemonRole(st, id);
    var role := if x == st.pipes[id].daemon then Hub.DaemonRole else Hub.ClientRole;
    if e.Receive? {
      EndReceived(st, e, role, x, id);
      hide Next;
    } else if e != EndLocally(x, id) {
      EndStays(st, e, x, id);
      hide Next;
    }
    hide Wired, EndAfter, StreamOf, Receiving, Serving, Acting;
  }

  // ---- the daemon end ----

  ghost predicate DaemonHears(st: State, d: SessionId, id: nat) {
    CloseComing(st, d, id) || AcceptFrame(id) in Queue(st.up, d) || Waits(st, CloseNow(d))
  }

  /** Off the tables, the daemon end is no longer open, or will hear of it, or loses its connection. */
  ghost predicate DaemonTold(st: State, id: nat)
    requires id in st.pipes
  {
    var d := st.pipes[id].daemon;
    id in st.hub.streams || d in st.broken || !EndOf(st, d, id).Opened? || DaemonHears(st, d, id)
  }

  lemma AcceptServed(st: State, s: SessionId, id: nat)
    requires Enabled(st, Serve(s)) && st.up[s][0] == AcceptFrame(id) && id !in st.hub.streams
    ensures Waits(Next(st, Serve(s)), CloseNow(s))
  {
    var n := Next(st, Serve(s));
    hide PipesAfter;
    assert n.todo[Reader(s)][1] == CloseNow(s);
    assert CloseNow(s) in Todo(n.todo, Reader(s));
  }

  lemma ClosedBreaks(st: State, t: Thread, s: SessionId)
    requires Enabled(st, Act(t)) && st.todo[t][0] == CloseNow(s)
    ensures s in Next(st, Act(t)).broken
  {
    hide HubAfter, DownAfter, TodoAfter;
  }

  lemma HearsStep(st: State, e: Event, d: SessionId, id: nat)
    requires Enabled(st, e) && Tidy(st) && id !in st.hub.streams && DaemonHears(st, d, id)
    ensures || DaemonHears(Next(st, e), d, id) || d in Next(st, e).broken
            || (e.Receive? && e.s == d && st.down[d][0] == CloseFrame(id))
  {
    hide Next, Tidy, Waits, CloseComing;
    if CloseComing(st, d, id) {
      ComingStep(st, e, d, id);
    } else if AcceptFrame(id) in Queue(st.up, d) {
      UpStays(st, e, d, AcceptFrame(id));
      if e == Serve(d) && st.up[d][0] == AcceptFrame(id) { AcceptServed(st, d, id); }
    } else {
      WaitsOn(st, e, CloseNow(d));
      if e.Act? && st.todo[e.t][0] == CloseNow(d) { ClosedBreaks(st, e.t, d); }
    }
  }

  /** A daemon end that opens says so. */
  lemma OpeningSays(st: State, e: Event, id: nat)
    requires Wired(st) && Enabled(st, e) && id in st.pipes && e.Receive? && e.s == st.pipes[id].daemon && e.ok
    requires st.down[e.s][0] == OpenFrame(id)
    ensures AcceptFrame(id) in Queue(Next(st, e).up, e.s)
  {
    DaemonRole(st, id);
    hide Wired, Gained, Filed, Taken, EndAfter;
  }

  lemma DaemonStep(st: State, e: Event, id: nat)
    requires Wired(st) && Tidy(st) && Enabled(st, e) && id in st.pipes && DaemonTold(st, id)
    ensures id in Next(st, e).pipes && Next(st, e).pipes[id] == st.pipes[id] && DaemonTold(Next(st, e), id)
  {
    var d, n := st.pipes[id].daemon, Next(st, e);
    PipesStay(st, e, id);
    if id !in n.hub.streams && d !in n.broken && EndOf(n, d, id).Opened? {
      hide Next, Tidy, Waits, Wired, EndOf;
      if id in st.hub.streams {
        PipeSame(st, id);
        StreamLost(st, e, id, d);
      } else {
        EndMoves(st, e, d, id);
        if d in st.broken {
          BrokenStays(st, e, d);
        } else if EndOf(st, d, id).Opened? {
          HearsStep(st, e, d, id);
        } else {
          OpeningSays(st, e, id);
        }
      }
    }
  }

  // ---- the client end ----

  /** The answer to an open, or the end of a stream. */
  predicate IsWord(f: Frame, id: nat) {
    f == AcceptFrame(id) || f == CloseFrame(id)
  }

  function WordsIn(q: seq<Frame>, id: nat): seq<Frame> {
    if q == [] then [] else (if IsWord(q[0], id) then [q[0]] else []) + WordsIn(q[1..], id)
  }

  /** The word about a stream that an event writes to a session's socket. */
  function Word(st: State, e: Event, s: SessionId, id: nat): seq<Frame> {
    if e.Act? && Todo(st.todo, e.t) != [] then
      var a := st.todo[e.t][0];
      if (a.Write? || a.WriteOrDrop?) && a.to == s && s !in st.broken && IsWord(a.frame, id) then [a.frame] else []
    else []
  }

  /** All of them, in the order of the run. */
  function Words(st: State, es: seq<Event>, s: SessionId, id: nat): seq<Frame>
    requires Run(st, es)
    decreases es
  {
    if es == [] then [] else Word(st, es[0], s, id) + Words(Next(st, es[0]), es[1..], s, id)
  }

  /** The client refuses the answer, fails to take the stream's data, or ends the stream itself. */
  predicate EndsItself(st: State, e: Event, s: SessionId, id: nat)
    requires Enabled(st, e)
  {
    match e
    case EndLocally(t, j) => t == s && j == id
    case Receive(t, ok, _) =>
      t == s && !ok && StreamOf(st.down[t][0]) == Some(id) && (st.down[t][0].AcceptFrame? || st.down[t][0].DataFrame?)
    case _ => false
  }

  predicate EndedItself(st: State, es: seq<Event>, s: SessionId, id: nat)
    requires Run(st, es)
    decreases es
  {
    es != [] && (EndsItself(st, es[0], s, id) || EndedItself(Next(st, es[0]), es[1..], s, id))
  }

  predicate LastAccepts(words: seq<Frame>) {
    words != [] && words[|words| - 1].AcceptFrame?
  }

  /** The words taken in say whether the client end is open, unless it ended the stream itself. */
  predicate Says(end: Flow.EndState, took: seq<Frame>, own: bool) {
    (end.Opened? ==> LastAccepts(took)) && (LastAccepts(took) && !own ==> end.Opened?)
  }

  /** Of the words written, those no longer waiting have been heeded. */
  ghost predicate Heeds(st: State, s: SessionId, id: nat, words: seq<Frame>, own: bool) {
    var waiting := WordsIn(Queue(st.down, s), id);
    && |waiting| <= |words| && words[|words| - |waiting|..] == waiting
    && Says(EndOf(st, s, id), words[..|words| - |waiting|], own)
  }

  lemma {:induction false} WordsPushed(q: seq<Frame>, f: Frame, id: nat)
    ensures WordsIn(q + [f], id) == WordsIn(q, id) + if IsWord(f, id) then [f] else []
  {
    if q == [] {
      assert [f][1..] == [];
    } else {
      var head := if IsWord(q[0], id) then [q[0]] else [];
      assert (q + [f])[0] == q[0] && (q + [f])[1..] == q[1..] + [f];
      WordsPushed(q[1..], f, id);
      Regroup(head, WordsIn(q[1..], id), if IsWord(f, id) then [f] else []);
    }
  }

  /** The waiting words change by one written, or by one taken in. */
  lemma WaitingMoves(st: State, e: Event, s: SessionId, id: nat)
    requires Enabled(st, e)
    ensures Heard(st, e, s, id) + WordsIn(Queue(Next(st, e).down, s), id)
         == WordsIn(Queue(st.down, s), id) + Word(st, e, s, id)
  {
    DownOf(st, e);
    NothingAdded(WordsIn(Queue(st.down, s), id));
    hide Next, IsWord;
    if e.Act? {
      var a := st.todo[e.t][0];
      if (a.Write? || a.WriteOrDrop?) && a.to == s && s !in st.broken { WordsPushed(Queue(st.down, s), a.frame, id); }
      NothingAdded(WordsIn(Queue(Next(st, e).down, s), id));
    }
  }

  /** The word an event takes in. */
  function Heard(st: State, e: Event, s: SessionId, id: nat): seq<Frame>
    requires Enabled(st, e)
  {
    if e.Receive? && e.s == s && IsWord(st.down[s][0], id) then [st.down[s][0]] else []
  }

  /** The words split into those taken in and those waiting. */
  lemma WordsTaken(words: seq<Frame>, waiting: seq<Frame>, word: seq<Frame>, heard: seq<Frame>, left: seq<Frame>)
    requires |waiting| <= |words| && words[|words| - |waiting|..] == waiting && heard + left == waiting + word
    ensures var more := words + word;
            && |left| <= |more| && more[|more| - |left|..] == left
            && more[..|more| - |left|] == words[..|words| - |waiting|] + heard
  {
    var took := words[..|words| - |waiting|];
    assert words == took + waiting;
    Regroup(took, waiting, word);
    Regroup(took, heard, left);
    assert words + word == (took + heard) + left;
  }

  lemma SaysMore(end: Flow.EndState, took: seq<Frame>, own: bool, f: Frame, ok: bool, id: nat)
    requires Says(end, took, own) && StreamOf(f) == Some(id)
    ensures Says(EndAfter(Hub.ClientRole, end, f, ok), took + (if IsWord(f, id) then [f] else []),
                 own || (!ok && (f.AcceptFrame? || f.DataFrame?)))
  {
    NothingAdded(took);
  }

  lemma SaysStep(st: State, e: Event, id: nat, took: seq<Frame>, own: bool)
    requires Wired(st) && Enabled(st, e) && id in st.pipes && Says(EndOf(st, st.pipes[id].client, id), took, own)
    ensures var c := st.pipes[id].client;
            Says(EndOf(Next(st, e), c, id), took + Heard(st, e, c, id), own || EndsItself(st, e, c, id))
  {
    var c := st.pipes[id].client;
    NothingAdded(took);
    DaemonRole(st, id);
    EndMoves(st, e, c, id);
    hide Next, Wired, EndOf, Says, EndAfter, LastAccepts;
    if e.Receive? && e.s == c && StreamOf(st.down[c][0]) == Some(id) {
      SaysMore(EndOf(st, c, id), took, own, st.down[c][0], e.ok, id);
    } else if e == EndLocally(c, id) {
      OwnEnd(took);
    } else {
      NoOther(EndOf(st, c, id), took, own);
    }
  }

  lemma OwnEnd(took: seq<Frame>)
    ensures Says(Flow.Ended, took, true)
  {
  }

  lemma NoOther(end: Flow.EndState, took: seq<Frame>, own: bool)
    requires Says(end, took, own)
    ensures Says(end, took, own || false)
  {
  }

  lemma HeedsFrom(n: State, s: SessionId, id: nat, more: seq<Frame>, took: seq<Frame>, own: bool)
    requires var left := WordsIn(Queue(n.down, s), id);
             |left| <= |more| && more[|more| - |left|..] == left && more[..|more| - |left|] == took
    requires Says(EndOf(n, s, id), took, own)
    ensures Heeds(n, s, id, more, own)
  {
  }

  lemma HeedsParts(st: State, s: SessionId, id: nat, words: seq<Frame>, own: bool) returns (took: seq<Frame>)
    requires Heeds(st, s, id, words, own)
    ensures var waiting := WordsIn(Queue(st.down, s), id);
            |waiting| <= |words| && words[|words| - |waiting|..] == waiting && took == words[..|words| - |waiting|]
    ensures Says(EndOf(st, s, id), took, own)
  {
    took := words[..|words| - |WordsIn(Queue(st.down, s), id)|];
  }

  lemma HeedsMore(st: State, n: State, s: SessionId, id: nat, words: seq<Frame>, word: seq<Frame>,
                  heard: seq<Frame>, took: seq<Frame>, own: bool, ended: bool)
    requires Heeds(st, s, id, words, own) && Says(EndOf(n, s, id), took + heard, ended)
    requires took == words[..|words| - |WordsIn(Queue(st.down, s), id)|]
    requires heard + WordsIn(Queue(n.down, s), id) == WordsIn(Queue(st.down, s), id) + word
    ensures Heeds(n, s, id, words + word, ended)
  {
    hide Says, EndOf, WordsIn, Queue;
    WordsTaken(words, WordsIn(Queue(st.down, s), id), word, heard, WordsIn(Queue(n.down, s), id));
  }

  lemma HeedsStep(st: State, e: Event, id: nat, words: seq<Frame>, own: bool)
    requires Wired(st) && Enabled(st, e) && id in st.pipes
    requires Heeds(st, st.pipes[id].client, id, words, own)
    ensures var c := st.pipes[id].client;
            Heeds(Next(st, e), c, id, words + Word(st, e, c, id), own || EndsItself(st, e, c, id))
  {
    hide Next, Wired, WordsIn, EndOf, Says, Word, Heard, EndsItself, Heeds, Queue, Enabled;
    var c := st.pipes[id].client;
    var took := HeedsParts(st, c, id, words, own);
    WaitingMoves(st, e, c, id);
    SaysStep(st, e, id, took, own);
    HeedsMore(st, Next(st, e), c, id, words, Word(st, e, c, id), Heard(st, e, c, id), took, own,
              own || EndsItself(st, e, c, id));
  }

  /** Off the tables, the client has been written a close, or is about to be, or has lost its connection. */
  ghost predicate ClientTold(st: State, id: nat, words: seq<Frame>)
    requires id in st.pipes
  {
    var c := st.pipes[id].client;
    id in st.hub.streams || c in st.broken || CloseFrame(id) in words || Waits(st, Write(c, CloseFrame(id)))
  }

  lemma ClosePending(st: State, e: Event, c: SessionId, id: nat)
    requires Enabled(st, e) && Tidy(st) && Waits(st, Write(c, CloseFrame(id)))
    ensures || Waits(Next(st, e), Write(c, CloseFrame(id))) || c in Next(st, e).broken
            || CloseFrame(id) in Word(st, e, c, id)
  {
    WaitsOn(st, e, Write(c, CloseFrame(id)));
    if c in st.broken { BrokenStays(st, e, c); }
    hide Next, Tidy, Waits;
  }

  lemma ClientStep(st: State, e: Event, id: nat, words: seq<Frame>)
    requires Wired(st) && Tidy(st) && Enabled(st, e) && id in st.pipes && ClientTold(st, id, words)
    ensures id in Next(st, e).pipes && Next(st, e).pipes[id] == st.pipes[id]
    ensures ClientTold(Next(st, e), id, words + Word(st, e, st.pipes[id].client, id))
  {
    var c, n := st.pipes[id].client, Next(st, e);
    PipesStay(st, e, id);
    hide Next, Tidy, Waits, Wired, Word, Enabled;
    if id !in n.hub.streams && c !in n.broken {
      if id in st.hub.streams {
        PipeSame(st, id);
        LostWrites(st, e, id, c);
      } else if c in st.broken {
        BrokenStays(st, e, c);
      } else if CloseFrame(id) !in words {
        ClosePending(st, e, c, id);
      }
    }
  }

  // ---- before the stream is there ----

  lemma NoStrangeEnd(st: State, x: SessionId, id: nat)
    requires Wired(st) && id !in st.pipes
    ensures EndOf(st, x, id).Unopened?
  {
    hide HubOk, UpOk, DownOk, TodoOk;
  }

  /** No answer to an open is about before the open. */
  lemma NoStrangeWord(st: State, e: Event, s: SessionId, id: nat)
    requires Wired(st) && Enabled(st, e) && id !in st.pipes
    ensures AcceptFrame(id) !in Word(st, e, s, id)
  {
    if e.Act? {
      assert ThreadOk(st.pipes, st.todo, e.t) && st.todo[e.t][0] in Todo(st.todo, e.t);
      assert ActFits(st.pipes, e.t, st.todo[e.t][0]);
    }
    hide Wired;
  }

  /** A stream appears as its open is served. */
  lemma FirstThere(st: State, e: Event, id: nat)
    requires Wired(st) && Enabled(st, e) && id !in st.pipes && id in Next(st, e).pipes
    ensures e.Serve? && id in Next(st, e).hub.streams
  {
    OnlyServeOpens(st, e, id);
    StreamBegun(st, e, id);
    hide Wired, Next, LegOf;
  }

  lemma NotAccepting(took: seq<Frame>, id: nat)
    requires AcceptFrame(id) !in took && forall w :: w in took ==> IsWord(w, id)
    ensures !LastAccepts(took)
  {
    if took != [] { assert took[|took| - 1] in took; }
  }

  /** Until then only closes nobody heeds. */
  ghost predicate Idle(st: State, c: SessionId, id: nat, words: seq<Frame>) {
    Heeds(st, c, id, words, false) && AcceptFrame(id) !in words && forall w :: w in words ==> IsWord(w, id)
  }

  lemma WordIs(st: State, e: Event, s: SessionId, id: nat)
    ensures forall w :: w in Word(st, e, s, id) ==> IsWord(w, id)
  {
  }

  lemma StillUnopened(st: State, e: Event, c: SessionId, id: nat)
    requires Wired(st) && Enabled(st, e) && id !in st.pipes
    requires id !in Next(st, e).pipes ==> Wired(Next(st, e))
    ensures EndOf(Next(st, e), c, id).Unopened?
  {
    hide Wired, Next, EndOf, Enabled;
    NoStrangeEnd(st, c, id);
    if id in Next(st, e).pipes {
      FirstThere(st, e, id);
      EndStays(st, e, c, id);
    } else {
      NoStrangeEnd(Next(st, e), c, id);
    }
  }

  lemma IdleMore(words: seq<Frame>, word: seq<Frame>, id: nat, k: nat)
    requires AcceptFrame(id) !in words && AcceptFrame(id) !in word && k <= |words + word|
    requires (forall w :: w in words ==> IsWord(w, id)) && (forall w :: w in word ==> IsWord(w, id))
    ensures AcceptFrame(id) !in words + word && (forall w :: w in words + word ==> IsWord(w, id))
    ensures !LastAccepts((words + word)[..k])
  {
    hide IsWord;
    var took := (words + word)[..k];
    assert forall w :: w in took ==> w in words + word;
    NotAccepting(took, id);
  }

  lemma IdleStep(st: State, e: Event, c: SessionId, id: nat, words: seq<Frame>)
    requires Wired(st) && Enabled(st, e) && id !in st.pipes && Idle(st, c, id, words)
    requires id !in Next(st, e).pipes ==> Wired(Next(st, e))
    ensures Idle(Next(st, e), c, id, words + Word(st, e, c, id))
  {
    hide Next, Wired, WordsIn, EndOf, Word, Heard, Heeds, Queue, IsWord, Says, LastAccepts;
    var n, word := Next(st, e), Word(st, e, c, id);
    WordIs(st, e, c, id);
    NoStrangeWord(st, e, c, id);
    StillUnopened(st, e, c, id);
    WaitingMoves(st, e, c, id);
    hide Enabled;
    var took := HeedsParts(st, c, id, words, false);
    var left := WordsIn(Queue(n.down, c), id);
    WordsTaken(words, WordsIn(Queue(st.down, c), id), word, Heard(st, e, c, id), left);
    IdleMore(words, word, id, |words + word| - |left|);
    NotOpen(EndOf(n, c, id), (words + word)[..|words + word| - |left|]);
    HeedsFrom(n, c, id, words + word, (words + word)[..|words + word| - |left|], false);
  }

  lemma NotOpen(end: Flow.EndState, took: seq<Frame>)
    requires end.Unopened? && !LastAccepts(took)
    ensures Says(end, took, false)
  {
  }

  // ---- whole runs ----

  /** Some event of the run asks the stream to end. */
  predicate Asked(st: State, es: seq<Event>, id: nat)
    requires Run(st, es)
    decreases es
  {
    es != [] && ((id in st.pipes && Asks(st, es[0], id)) || Asked(Next(st, es[0]), es[1..], id))
  }

  ghost predicate Tracked(st: State, c: SessionId, id: nat, words: seq<Frame>, own: bool, asked: bool) {
    if id in st.pipes then
      && st.pipes[id].client == c && Heeds(st, c, id, words, own)
      && (asked ==> Going(st, id)) && DaemonTold(st, id) && ClientTold(st, id, words)
    else !asked && !own && Idle(st, c, id, words)
  }

  predicate AsksNow(st: State, e: Event, id: nat)
    requires Enabled(st, e)
  {
    id in st.pipes && Asks(st, e, id)
  }

  lemma TrackStep(st: State, e: Event, c: SessionId, id: nat, words: seq<Frame>, own: bool, asked: bool)
    requires Wired(st) && Tidy(st) && Enabled(st, e) && Wired(Next(st, e)) && Tracked(st, c, id, words, own, asked)
    requires id in Next(st, e).pipes ==> Next(st, e).pipes[id].client == c
    ensures Tracked(Next(st, e), c, id, words + Word(st, e, c, id), own || EndsItself(st, e, c, id),
                    asked || AsksNow(st, e, id))
  {
    hide Next, Wired, Tidy, Going, DaemonTold, ClientTold, Heeds, Idle, Word, EndsItself, Asks, Enabled;
    if id in st.pipes {
      HeedsStep(st, e, id, words, own);
      DaemonStep(st, e, id);
      ClientStep(st, e, id, words);
      if asked { GoingStep(st, e, id); } else if Asks(st, e, id) { AskedGoes(st, e, id); }
    } else {
      NothingItself(st, e, c, id);
      IdleStep(st, e, c, id, words);
      if id in Next(st, e).pipes {
        FirstThere(st, e, id);
        AtFirst(Next(st, e), c, id, words + Word(st, e, c, id));
      }
    }
  }

  lemma AtFirst(n: State, c: SessionId, id: nat, words: seq<Frame>)
    requires id in n.pipes && id in n.hub.streams && Idle(n, c, id, words)
    ensures DaemonTold(n, id) && ClientTold(n, id, words) && Heeds(n, c, id, words, false)
  {
  }

  /** Nobody ends or refuses a stream that is not there. */
  lemma NothingItself(st: State, e: Event, c: SessionId, id: nat)
    requires Wired(st) && Enabled(st, e) && id !in st.pipes
    ensures !EndsItself(st, e, c, id)
  {
    NoStrangeEnd(st, c, id);
    if e.Receive? { DownPopped(st.pipes, st.down, e.s); }
    hide Wired;
  }

  lemma {:induction false} RunPipes(st: State, es: seq<Event>, id: nat)
    requires Wired(st) && Run(st, es) && id in st.pipes
    ensures id in Exec(st, es).pipes && Exec(st, es).pipes[id] == st.pipes[id]
    decreases es
  {
    if es != [] {
      PipesStay(st, es[0], id);
      NextWired(st, es[0]);
      hide Wired, Next, Enabled;
      RunPipes(Next(st, es[0]), es[1..], id);
    }
  }

  lemma {:induction false} RunTracked(st: State, es: seq<Event>, c: SessionId, id: nat, words: seq<Frame>,
                                      own: bool, asked: bool)
    requires Wired(st) && Tidy(st) && Run(st, es) && Tracked(st, c, id, words, own, asked)
    requires id in Exec(st, es).pipes && Exec(st, es).pipes[id].client == c
    ensures Tracked(Exec(st, es), c, id, words + Words(st, es, c, id), own || EndedItself(st, es, c, id),
                    asked || Asked(st, es, id))
    decreases es
  {
    hide Wired, Tidy, Next, Enabled, Tracked, Word, EndsItself, Asks;
    if es == [] {
      NothingAdded(words);
    } else {
      var n := Next(st, es[0]);
      NextWired(st, es[0]);
      TidyStep(st, es[0]);
      if id in n.pipes { RunPipes(n, es[1..], id); }
      TrackStep(st, es[0], c, id, words, own, asked);
      RunTracked(n, es[1..], c, id, words + Word(st, es[0], c, id), own || EndsItself(st, es[0], c, id),
                 asked || AsksNow(st, es[0], id));
      Regroup(words, Word(st, es[0], c, id), Words(n, es[1..], c, id));
    }
  }

  lemma StartTracked(c: SessionId, id: nat)
    ensures Wired(START) && Tidy(START) && Tracked(START, c, id, [], false, false)
  {
    StartWired();
  }

  // ---- once nothing of the stream is waiting ----

  predicate Concerns(p: Hub.Pipe, id: nat, a: Action) {
    match a
    case Write(_, f) => StreamOf(f) == Some(id)
    case WriteOrDrop(_, _, j) => j == id
    case DropNow(j) => j == id
    case CloseNow(s) => Hub.Touches(p, s)
  }

  /** No frame of the stream is queued either way, and no goroutine has anything to do with it or its parties' end. */
  ghost predicate Quiet(st: State, id: nat)
    requires id in st.pipes
  {
    && (forall s, f :: f in Queue(st.up, s) ==> StreamOf(f) != Some(id))
    && (forall s, f :: f in Queue(st.down, s) ==> StreamOf(f) != Some(id))
    && (forall a :: Waits(st, a) ==> !Concerns(st.pipes[id], id, a))
  }

  lemma QuietEnds(st: State, id: nat, words: seq<Frame>, own: bool, asked: bool)
    requires id in st.pipes && Quiet(st, id) && Tracked(st, st.pipes[id].client, id, words, own, asked)
    ensures asked ==> id !in st.hub.streams
    ensures var p := st.pipes[id];
            id !in st.hub.streams ==>
              && (p.daemon in st.broken || !EndOf(st, p.daemon, id).Opened?)
              && (p.client in st.broken || CloseFrame(id) in words)
    ensures Says(EndOf(st, st.pipes[id].client, id), words, own)
  {
    var p := st.pipes[id];
    hide Waits, Says;
    assert Concerns(p, id, DropNow(id)) && Concerns(p, id, CloseNow(p.client)) && Concerns(p, id, CloseNow(p.daemon));
    assert Concerns(p, id, Write(p.client, CloseFrame(id))) && Concerns(p, id, Write(p.daemon, CloseFrame(id)));
    assert StreamOf(CloseFrame(id)) == Some(id) && StreamOf(AcceptFrame(id)) == Some(id);
    NothingWaits(Queue(st.down, p.client), id);
    hide Concerns, StreamOf, WordsIn, EndOf, Quiet;
    assert words[..|words| - 0] == words;
  }

  lemma {:induction false} NothingWaits(q: seq<Frame>, id: nat)
    requires forall f :: f in q ==> StreamOf(f) != Some(id)
    ensures WordsIn(q, id) == []
  {
    if q != [] {
      assert q[0] in q && forall f :: f in q[1..] ==> f in q;
      NothingWaits(q[1..], id);
    }
  }

  /**
   * In every run of the relay: once a stream has been asked to end and nothing of it is waiting any more, it is off
   * the hub's tables, its daemon end is not open, and its client end is open only if the last word the hub wrote it
   * was the answer to its open, written after a close - unless the end in question has lost its connection.
   */
  lemma CloseReaches(es: seq<Event>, f: State, id: nat, words: seq<Frame>)
    requires Run(START, es) && f == Exec(START, es) && id in f.pipes && Quiet(f, id)
    requires words == Words(START, es, f.pipes[id].client, id)
    ensures Asked(START, es, id) ==> id !in f.hub.streams
    ensures var p := f.pipes[id];
            id !in f.hub.streams ==>
              && (p.daemon in f.broken || !EndOf(f, p.daemon, id).Opened?)
              && (p.client in f.broken || CloseFrame(id) in words)
    ensures var c := f.pipes[id].client;
            && (EndOf(f, c, id).Opened? ==> LastAccepts(words))
            && (LastAccepts(words) && !EndedItself(START, es, c, id) ==> EndOf(f, c, id).Opened?)
  {
    hide Wired, Tidy, Tracked, Exec, Run, Words, Quiet, EndedItself, Asked, EndOf, LastAccepts;
    var c := f.pipes[id].client;
    StartTracked(c, id);
    RunTracked(START, es, c, id, [], false, false);
    NothingAdded(words);
    QuietEnds(f, id, words, EndedItself(START, es, c, id), Asked(START, es, id));
  }
}
