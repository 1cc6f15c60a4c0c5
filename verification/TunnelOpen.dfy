/** How an open spreads through the relay to both ends, and what a stray frame of a stream that is gone draws. */
module TunnelOpen {
  import opened Basics
  import Hub
  import Flow
  import opened Tunnel
  import opened TunnelProof
  import opened TunnelClose

  function OpenWrite(to: SessionId, id: nat): Action {
    WriteOrDrop(to, OpenFrame(id), id)
  }

  /** What may be given up waits until it is done, or its stream goes. */
  lemma WaitsOrGoes(st: State, e: Event, a: Action)
    requires Enabled(st, e) && Tidy(st) && Waits(st, a) && a.WriteOrDrop?
    ensures || Waits(Next(st, e), a) || (e.Act? && a == st.todo[e.t][0])
            || (e.Act? && st.todo[e.t][0].WriteOrDrop? && st.todo[e.t][0].to in st.broken
                && st.todo[e.t][0].id == a.id)
  {
    var t :| a in Todo(st.todo, t);
    assert TidyThread(st.todo, t);
    if e == Act(t) {
      ActTodoAt(st, t);
      hide Next;
      var acts := st.todo[t];
      var i :| 0 <= i < |acts| && acts[i] == a;
      if i > 0 && !(acts[0].WriteOrDrop? && acts[0].to in st.broken) {
        assert acts[1..][i - 1] == a;
        assert a in Todo(Next(st, e).todo, t);
      }
    } else {
      TodoKept(st, e, t);
      assert a in Todo(Next(st, e).todo, t);
    }
  }

  /** The open on its way to a party, until it is written. */
  lemma OpenWaits(st: State, e: Event, to: SessionId, id: nat)
    requires Wired(st) && Tidy(st) && Enabled(st, e) && id in st.pipes && Waits(st, OpenWrite(to, id))
    ensures id in Next(st, e).pipes && Next(st, e).pipes[id] == st.pipes[id]
    ensures Waits(Next(st, e), OpenWrite(to, id)) || Going(Next(st, e), id) || Writes(st, e, to, id)
  {
    PipesStay(st, e, id);
    WaitsOrGoes(st, e, OpenWrite(to, id));
    hide Wired, Tidy, Waits, Next, Going;
    if e.Act? && st.todo[e.t][0].WriteOrDrop? && st.todo[e.t][0].to in st.broken && st.todo[e.t][0].id == id {
      AskedGoes(st, e, id);
    }
  }

  /** The event writes the stream's open to that session. */
  predicate Writes(st: State, e: Event, to: SessionId, id: nat) {
    e.Act? && Todo(st.todo, e.t) != [] && st.todo[e.t][0] == OpenWrite(to, id) && to !in st.broken
  }

  lemma OpenWritten(st: State, e: Event, to: SessionId, id: nat)
    requires Enabled(st, e) && Writes(st, e, to, id)
    ensures OpenFrame(id) in Queue(Next(st, e).down, to)
  {
    DownOf(st, e);
    hide Next;
  }

  /** On the tables, the daemon end has had its open, or is about to, or has lost its connection. */
  ghost predicate DaemonAsked(st: State, id: nat)
    requires id in st.pipes
  {
    var d := st.pipes[id].daemon;
    || Going(st, id) || d in st.broken || !EndOf(st, d, id).Unopened?
    || OpenFrame(id) in Queue(st.down, d) || Waits(st, OpenWrite(d, id))
  }

  lemma OpenTaken(st: State, e: Event, d: SessionId, id: nat)
    requires Wired(st) && Enabled(st, e) && id in st.pipes && d == st.pipes[id].daemon
    requires OpenFrame(id) in Queue(st.down, d)
    ensures id in Next(st, e).pipes && Next(st, e).pipes[id] == st.pipes[id]
    ensures OpenFrame(id) in Queue(Next(st, e).down, d) || Going(Next(st, e), id) || EndOf(Next(st, e), d, id).Opened?
  {
    PipesStay(st, e, id);
    DownStays(st, e, d, OpenFrame(id));
    EndMoves(st, e, d, id);
    hide Wired, Next, Going, EndOf;
    if e.Receive? && e.s == d && st.down[d][0] == OpenFrame(id) && !e.ok { AskedGoes(st, e, id); }
  }

  lemma DaemonAskedStep(st: State, e: Event, id: nat)
    requires Wired(st) && Tidy(st) && Enabled(st, e) && id in st.pipes && DaemonAsked(st, id)
    ensures id in Next(st, e).pipes && Next(st, e).pipes[id] == st.pipes[id] && DaemonAsked(Next(st, e), id)
  {
    var d := st.pipes[id].daemon;
    hide Wired, Tidy, Next, Going, EndOf, Waits, Enabled;
    PipesStay(st, e, id);
    if Going(st, id) {
      GoingStep(st, e, id);
    } else if d in st.broken {
      BrokenStays(st, e, d);
    } else if !EndOf(st, d, id).Unopened? {
      OpenedStays(st, e, d, id);
    } else if OpenFrame(id) in Queue(st.down, d) {
      OpenTaken(st, e, d, id);
    } else {
      OpenWaits(st, e, d, id);
      if Writes(st, e, d, id) { OpenWritten(st, e, d, id); }
    }
  }

  lemma OpenedStays(st: State, e: Event, x: SessionId, id: nat)
    requires Wired(st) && Enabled(st, e) && id in st.pipes && Hub.Touches(st.pipes[id], x)
    requires !EndOf(st, x, id).Unopened?
    ensures !EndOf(Next(st, e), x, id).Unopened?
  {
    EndMoves(st, e, x, id);
    hide Wired, Next, EndOf;
  }

  /** On the tables, the client has been told the stream's id, or is about to be, or has lost its connection. */
  ghost predicate ClientAsked(st: State, id: nat, written: bool)
    requires id in st.pipes
  {
    Going(st, id) || st.pipes[id].client in st.broken || written || Waits(st, OpenWrite(st.pipes[id].client, id))
  }

  lemma ClientAskedStep(st: State, e: Event, id: nat, written: bool)
    requires Wired(st) && Tidy(st) && Enabled(st, e) && id in st.pipes && ClientAsked(st, id, written)
    ensures id in Next(st, e).pipes && Next(st, e).pipes[id] == st.pipes[id]
    ensures ClientAsked(Next(st, e), id, written || Writes(st, e, st.pipes[id].client, id))
  {
    var c := st.pipes[id].client;
    hide Wired, Tidy, Next, Going, Waits, Enabled, Writes;
    PipesStay(st, e, id);
    if Going(st, id) {
      GoingStep(st, e, id);
    } else if c in st.broken {
      BrokenStays(st, e, c);
    } else if !written {
      OpenWaits(st, e, c, id);
    }
  }

  /** The section that allocates a stream leaves both opens to be written. */
  lemma BothWait(st: State, e: Event, id: nat)
    requires Wired(st) && Enabled(st, e) && id !in st.pipes && id in Next(st, e).pipes
    ensures var p := Next(st, e).pipes[id];
            Waits(Next(st, e), OpenWrite(p.daemon, id)) && Waits(Next(st, e), OpenWrite(p.client, id))
  {
    OnlyServeOpens(st, e, id);
    var n, s := Next(st, e), e.s;
    PipeServed(st, s, id);
    var p := n.pipes[id];
    hide Wired, Next;
    var acts := Todo(n.todo, Reader(s));
    assert acts == [OpenWrite(p.daemon, id), OpenWrite(p.client, id)];
    assert acts[0] == OpenWrite(p.daemon, id) && acts[1] == OpenWrite(p.client, id);
  }

  lemma PipeServed(st: State, s: SessionId, id: nat)
    requires Wired(st) && Enabled(st, Serve(s)) && id !in st.pipes && id in Serving(st, s).pipes
    ensures var p := Serving(st, s).pipes[id];
            Todo(Serving(st, s).todo, Reader(s)) == [OpenWrite(p.daemon, id), OpenWrite(p.client, id)]
  {
    assert st.up[s][0].OpenRequest? by { if !st.up[s][0].OpenRequest? { HandleFits(st, s); } }
    WiredHub(st);
    hide Wired, Hub.Inv;
    var devId := st.up[s][0].devId;
    if Hub.Opening(st.hub, s, devId).1.Opened? {
      Hub.OpenedPipe(st.hub, s, devId);
    } else {
      RefusedKeeps(st.hub, s, devId);
    }
    hide Hub.Opening;
  }

  predicate WrittenIn(st: State, es: seq<Event>, to: SessionId, id: nat)
    requires Run(st, es)
    decreases es
  {
    es != [] && (Writes(st, es[0], to, id) || WrittenIn(Next(st, es[0]), es[1..], to, id))
  }

  ghost predicate BothAsked(st: State, c: SessionId, id: nat, written: bool) {
    id in st.pipes ==> st.pipes[id].client == c && DaemonAsked(st, id) && ClientAsked(st, id, written)
  }

  lemma BothAskedStep(st: State, e: Event, c: SessionId, id: nat, written: bool)
    requires Wired(st) && Tidy(st) && Enabled(st, e) && BothAsked(st, c, id, written)
    requires id in Next(st, e).pipes ==> Next(st, e).pipes[id].client == c
    ensures BothAsked(Next(st, e), c, id, written || Writes(st, e, c, id))
  {
    hide Wired, Tidy, Next, Enabled, Writes;
    if id in st.pipes {
      hide DaemonAsked, ClientAsked;
      DaemonAskedStep(st, e, id);
      ClientAskedStep(st, e, id, written);
    } else if id in Next(st, e).pipes {
      BothWait(st, e, id);
      hide Going, Waits, EndOf;
    }
  }

  lemma {:induction false} RunAsked(st: State, es: seq<Event>, c: SessionId, id: nat, written: bool)
    requires Wired(st) && Tidy(st) && Run(st, es) && BothAsked(st, c, id, written)
    requires id in Exec(st, es).pipes && Exec(st, es).pipes[id].client == c
    ensures BothAsked(Exec(st, es), c, id, written || WrittenIn(st, es, c, id))
    decreases es
  {
    hide Wired, Tidy, Next, Enabled, BothAsked, Writes;
    if es != [] {
      var n := Next(st, es[0]);
      NextWired(st, es[0]);
      TidyStep(st, es[0]);
      if id in n.pipes { RunPipes(n, es[1..], id); }
      BothAskedStep(st, es[0], c, id, written);
      RunAsked(n, es[1..], c, id, written || Writes(st, es[0], c, id));
    }
  }

  lemma QuietToks(st: State, id: nat, from: SessionId, to: SessionId, toDaemon: bool)
    requires Wired(st) && id in st.pipes && Quiet(st, id)
    ensures Drained(st, id, from, to, toDaemon)
  {
    assert forall f :: StreamOf(f) != Some(id) ==> Tok(f, id, toDaemon) == [];
    NoToks(Queue(st.up, from), id, toDaemon);
    NoToks(Queue(st.down, to), id, toDaemon);
    QuietHand(st, id, from, to, toDaemon);
    hide Wired, Toks, Hand, Quiet;
  }

  lemma QuietHand(st: State, id: nat, from: SessionId, to: SessionId, toDaemon: bool)
    requires Wired(st) && id in st.pipes && Quiet(st, id)
    ensures Hand(Todo(st.todo, Reader(from)), to, id, toDaemon) == []
  {
    var acts := Todo(st.todo, Reader(from));
    if acts != [] {
      assert acts[0] in acts && Waits(st, acts[0]) && ThreadOk(st.pipes, st.todo, Reader(from));
      assert !Concerns(st.pipes[id], id, acts[0]) && ActFits(st.pipes, Reader(from), acts[0]);
    }
    hide Wired;
  }

  /** A stream both of whose ends are asked, once it is quiet. */
  lemma QuietAnswers(st: State, id: nat, written: bool)
    requires AllOk(st) && id in st.pipes && Quiet(st, id) && BothAsked(st, st.pipes[id].client, id, written)
    requires id in st.hub.streams && st.pipes[id].daemon !in st.broken && st.pipes[id].client !in st.broken
    ensures !EndOf(st, st.pipes[id].daemon, id).Unopened? && !EndOf(st, st.pipes[id].client, id).Unopened? && written
  {
    var p := st.pipes[id];
    QuietOpens(st, id, written);
    assert StreamOk(st, id);
    QuietToks(st, id, p.daemon, p.client, false);
    hide AllOk, Quiet, BothAsked, EndOf, BytesAt;
    AnswerTaken(FlowOf(st, id));
  }

  /** With nothing on the way back, an accepted stream has been answered. */
  lemma AnswerTaken(f: Flow.State)
    requires Flow.Inv(f) && f.live && !f.toC.broken && f.toC.up == [] && f.toC.hand == [] && f.toC.down == []
    ensures f.endC.Unopened? ==> f.endD.Unopened?
  {
  }

  lemma QuietOpens(st: State, id: nat, written: bool)
    requires id in st.pipes && Quiet(st, id) && BothAsked(st, st.pipes[id].client, id, written)
    requires id in st.hub.streams && st.pipes[id].daemon !in st.broken && st.pipes[id].client !in st.broken
    ensures !EndOf(st, st.pipes[id].daemon, id).Unopened? && written
  {
    var p := st.pipes[id];
    hide Waits, EndOf;
    assert Concerns(p, id, DropNow(id)) && Concerns(p, id, CloseNow(p.client)) && Concerns(p, id, CloseNow(p.daemon));
    assert Concerns(p, id, OpenWrite(p.client, id)) && Concerns(p, id, OpenWrite(p.daemon, id));
    assert StreamOf(CloseFrame(id)) == Some(id) && StreamOf(OpenFrame(id)) == Some(id);
    hide Concerns, StreamOf;
  }

  /**
   * In every run of the relay: a stream still on the hub's tables with nothing of it waiting and both connections up
   * has been opened at both ends, and its id was written to the client.
   */
  lemma OpenReaches(es: seq<Event>, f: State, id: nat)
    requires Run(START, es) && f == Exec(START, es) && id in f.pipes && Quiet(f, id) && id in f.hub.streams
    requires f.pipes[id].daemon !in f.broken && f.pipes[id].client !in f.broken
    ensures !EndOf(f, f.pipes[id].daemon, id).Unopened? && !EndOf(f, f.pipes[id].client, id).Unopened?
    ensures WrittenIn(START, es, f.pipes[id].client, id)
  {
    hide Wired, Tidy, Exec, Run, Quiet, EndOf, WrittenIn, AllOk;
    var c := f.pipes[id].client;
    StartTracked(c, id);
    assert BothAsked(START, c, id, false);
    hide BothAsked;
    RunAsked(START, es, c, id, false);
    ReachedOk(es);
    QuietAnswers(f, id, WrittenIn(START, es, c, id));
  }

  // ---- data for a stream that is gone ----

  /** Whoever has sent data on a stream has seen it open. */
  ghost predicate Spoken(st: State, s: SessionId, id: nat) {
    forall b :: DataFrame(id, b) in Queue(st.up, s) ==> !EndOf(st, s, id).Unopened?
  }

  lemma DataFrom(st: State, e: Event, s: SessionId, f: Frame)
    requires Enabled(st, e) && f in Queue(Next(st, e).up, s) && f.DataFrame?
    ensures f in Queue(st.up, s) || e == Send(s, f.id, f.bytes)
  {
    hide Served, PipesAfter, Hub.Section, HubAfter, TodoAfter, DownAfter, EndAfter, Taken, Gained, Filed;
  }

  lemma SpokenStep(st: State, e: Event, s: SessionId, id: nat)
    requires Wired(st) && Enabled(st, e) && Spoken(st, s, id)
    ensures Spoken(Next(st, e), s, id)
  {
    hide Wired, Next, EndOf, UpFits;
    forall b | DataFrame(id, b) in Queue(Next(st, e).up, s) ensures !EndOf(Next(st, e), s, id).Unopened? {
      DataFrom(st, e, s, DataFrame(id, b));
      if e == Send(s, id, b) { SenderOpen(st, s, id); } else { UpParty(st, s, id, b); }
      OpenedStays(st, e, s, id);
    }
  }

  lemma UpParty(st: State, s: SessionId, id: nat, b: Bytes)
    requires Wired(st) && DataFrame(id, b) in Queue(st.up, s)
    ensures id in st.pipes && Hub.Touches(st.pipes[id], s)
  {
    assert UpFits(st.pipes, s, DataFrame(id, b));
    hide HubOk, DownOk, TodoOk, EndsOk;
  }

  lemma SenderOpen(st: State, s: SessionId, id: nat)
    requires Wired(st) && !EndOf(st, s, id).Unopened?
    ensures id in st.pipes && Hub.Touches(st.pipes[id], s)
  {
    hide HubOk, UpOk, DownOk, TodoOk;
  }

  /** The hub takes in a client's data for a stream that is off its tables. */
  predicate Stray(st: State, e: Event, c: SessionId, id: nat)
    requires Enabled(st, e)
  {
    && e == Serve(c) && id in st.pipes && st.pipes[id].client == c && id !in st.hub.streams
    && st.up[c][0].DataFrame? && st.up[c][0].id == id && !Malformed(st.up[c][0])
  }

  predicate Strayed(st: State, es: seq<Event>, c: SessionId, id: nat)
    requires Run(st, es)
    decreases es
  {
    es != [] && (Stray(st, es[0], c, id) || Strayed(Next(st, es[0]), es[1..], c, id))
  }

  /** The client end has been open, and is so no longer, or will hear of the end, or has lost its connection. */
  ghost predicate Answered(st: State, id: nat)
    requires id in st.pipes
  {
    var c := st.pipes[id].client;
    && !EndOf(st, c, id).Unopened?
    && (c in st.broken || !EndOf(st, c, id).Opened? || CloseComing(st, c, id))
  }

  lemma StrayDraws(st: State, e: Event, c: SessionId, id: nat)
    requires Wired(st) && Enabled(st, e) && Stray(st, e, c, id) && Spoken(st, c, id)
    ensures id in Next(st, e).pipes && Next(st, e).pipes[id] == st.pipes[id] && Answered(Next(st, e), id)
  {
    PipesStay(st, e, id);
    assert DataFrame(id, st.up[c][0].bytes) in Queue(st.up, c);
    OpenedStays(st, e, c, id);
    var n := Next(st, e);
    CloseDrawn(st, c, id);
    hide Wired, Next, EndOf, Spoken, Queue, Waits;
  }

  lemma CloseDrawn(st: State, c: SessionId, id: nat)
    requires Enabled(st, Serve(c)) && Stray(st, Serve(c), c, id)
    ensures Waits(Next(st, Serve(c)), Write(c, CloseFrame(id)))
  {
    var n := Next(st, Serve(c));
    hide PipesAfter;
    assert n.todo[Reader(c)][0] == Write(c, CloseFrame(id));
    assert Write(c, CloseFrame(id)) in Todo(n.todo, Reader(c));
  }

  lemma {:induction false} AcceptSeen(q: seq<Frame>, id: nat)
    requires AcceptFrame(id) in q
    ensures Flow.Accept in Toks(q, id, false)
  {
    if q[0] != AcceptFrame(id) { AcceptSeen(q[1..], id); }
  }

  /** The answer to an open comes only once. */
  lemma NoSecondAnswer(f: Flow.State)
    requires Flow.Inv(f) && !f.endC.Unopened?
    ensures Flow.Accept !in f.toC.down
  {
    hide Flow.LegOk, Flow.AcceptFirst;
  }

  lemma AnsweredStep(st: State, e: Event, id: nat)
    requires AllOk(st) && Tidy(st) && Enabled(st, e) && id in st.pipes && Answered(st, id)
    ensures id in Next(st, e).pipes && Next(st, e).pipes[id] == st.pipes[id] && Answered(Next(st, e), id)
  {
    var c, n := st.pipes[id].client, Next(st, e);
    NoAnswerWaits(st, id);
    hide Wired, Next, Tidy, EndOf, CloseComing, Enabled;
    PipesStay(st, e, id);
    OpenedStays(st, e, c, id);
    if c in st.broken {
      BrokenStays(st, e, c);
    } else if EndOf(n, c, id).Opened? {
      StaysOpen(st, e, id);
      ComingStep(st, e, c, id);
    }
  }

  lemma NoAnswerWaits(st: State, id: nat)
    requires AllOk(st) && id in st.pipes && !EndOf(st, st.pipes[id].client, id).Unopened?
    ensures AcceptFrame(id) !in Queue(st.down, st.pipes[id].client)
  {
    assert StreamOk(st, id);
    hide Wired, EndOf, BytesAt, Hand;
    NoSecondAnswer(FlowOf(st, id));
    hide Flow.Inv;
    var q := Queue(st.down, st.pipes[id].client);
    if AcceptFrame(id) in q { AcceptSeen(q, id); }
  }

  /** An end open after a step was so before it, and the step took in no close for it. */
  lemma StaysOpen(st: State, e: Event, id: nat)
    requires Wired(st) && Enabled(st, e) && id in st.pipes
    requires var c := st.pipes[id].client;
             && !EndOf(st, c, id).Unopened? && AcceptFrame(id) !in Queue(st.down, c)
             && EndOf(Next(st, e), c, id).Opened?
    ensures EndOf(st, st.pipes[id].client, id).Opened?
    ensures !(e.Receive? && e.s == st.pipes[id].client && st.down[e.s][0] == CloseFrame(id))
  {
    EndMoves(st, e, st.pipes[id].client, id);
    DaemonRole(st, id);
    hide Wired, Next, EndOf;
  }

  ghost predicate Answers(st: State, c: SessionId, id: nat, stray: bool) {
    && Spoken(st, c, id)
    && (stray ==> id in st.pipes && st.pipes[id].client == c && Answered(st, id))
  }

  lemma AnswersStep(st: State, e: Event, c: SessionId, id: nat, stray: bool)
    requires AllOk(st) && Tidy(st) && Enabled(st, e) && Answers(st, c, id, stray)
    ensures Answers(Next(st, e), c, id, stray || Stray(st, e, c, id))
  {
    hide Wired, Next, Tidy, Answered, Spoken, Enabled;
    SpokenStep(st, e, c, id);
    if stray {
      AnsweredStep(st, e, id);
    } else if Stray(st, e, c, id) {
      StrayDraws(st, e, c, id);
    }
  }

  lemma {:induction false} RunAnswers(st: State, es: seq<Event>, c: SessionId, id: nat, stray: bool)
    requires AllOk(st) && Tidy(st) && Run(st, es) && Answers(st, c, id, stray)
    ensures Answers(Exec(st, es), c, id, stray || Strayed(st, es, c, id))
    decreases es
  {
    hide Wired, StreamOk, Tidy, Next, Enabled, Answers, Stray;
    if es != [] {
      var n := Next(st, es[0]);
      NextOk(st, es[0]);
      TidyStep(st, es[0]);
      AnswersStep(st, es[0], c, id, stray);
      RunAnswers(n, es[1..], c, id, stray || Stray(st, es[0], c, id));
    }
  }

  lemma StartAnswers(c: SessionId, id: nat)
    ensures AllOk(START) && Tidy(START) && Answers(START, c, id, false)
  {
    StartTracked(c, id);
    ReachedOk([]);
    hide Wired, StreamOk, Tidy;
  }

  /** In every run a client that sends on a stream that is gone does not keep it open, once the stream is quiet. */
  lemma StrayAnswered(es: seq<Event>, f: State, id: nat)
    requires Run(START, es) && f == Exec(START, es) && id in f.pipes && Quiet(f, id)
    requires Strayed(START, es, f.pipes[id].client, id) && f.pipes[id].client !in f.broken
    ensures EndOf(f, f.pipes[id].client, id).Ended?
  {
    hide AllOk, Wired, Tidy, Exec, Run, Quiet, Answers, Strayed, EndOf;
    var c := f.pipes[id].client;
    StartAnswers(c, id);
    RunAnswers(START, es, c, id, false);
    QuietClosed(f, id);
  }

  lemma QuietClosed(f: State, id: nat)
    requires id in f.pipes && Quiet(f, id) && Answers(f, f.pipes[id].client, id, true)
    requires f.pipes[id].client !in f.broken
    ensures EndOf(f, f.pipes[id].client, id).Ended?
  {
    var c := f.pipes[id].client;
    hide Waits, EndOf, Spoken;
    assert Concerns(f.pipes[id], id, Write(c, CloseFrame(id))) && StreamOf(CloseFrame(id)) == Some(id);
    hide Concerns, StreamOf;
  }

  // ---- a close that overtakes the answer to an open ----

  /** A run from the start to f, which when asked is set asks stream 1 to end. */
  ghost predicate Reached(es: seq<Event>, f: State, asked: bool) {
    Run(START, es) && Exec(START, es) == f && (asked ==> Asked(START, es, 1))
  }

  lemma {:induction false} ExecMore(st: State, es: seq<Event>, e: Event)
    requires Run(st, es) && Enabled(Exec(st, es), e)
    ensures Run(st, es + [e]) && Exec(st, es + [e]) == Next(Exec(st, es), e)
    ensures Asked(st, es + [e], 1) <==> Asked(st, es, 1) || AsksNow(Exec(st, es), e, 1)
    decreases es
  {
    hide Asks, Next, Enabled;
    if es == [] {
      assert (es + [e])[1..] == [];
    } else {
      assert (es + [e])[0] == es[0] && (es + [e])[1..] == es[1..] + [e];
      ExecMore(Next(st, es[0]), es[1..], e);
    }
  }

  lemma Then(es: seq<Event>, st: State, asked: bool, e: Event) returns (more: seq<Event>, n: State)
    requires Reached(es, st, asked) && Enabled(st, e)
    ensures more == es + [e] && n == Next(st, e) && Reached(more, n, asked)
  {
    hide Asks, Next, Enabled;
    ExecMore(START, es, e);
    more, n := es + [e], Next(st, e);
  }

  lemma ThenAsks(es: seq<Event>, st: State, e: Event) returns (more: seq<Event>, n: State)
    requires Reached(es, st, false) && Enabled(st, e) && AsksNow(st, e, 1)
    ensures more == es + [e] && n == Next(st, e) && Reached(more, n, true)
  {
    hide Asks, Next, Enabled;
    ExecMore(START, es, e);
    more, n := es + [e], Next(st, e);
  }

  const PAIR := map[1 := Hub.Session(Hub.ClientRole, "", ""), 2 := Hub.Session(Hub.DaemonRole, "d", "")]
  const PIPE := Hub.Pipe(1, 1, 2, "d")
  const PAIRED := Hub.EMPTY.(sessions := PAIR, daemons := map["d" := 2])
  const JOINED := PAIRED.(streams := map[1 := PIPE], bySess := map[1 := [1], 2 := [1]], nextId := 1)

  /** The few queues, lists and ends that stream 1 uses. */
  datatype Small = Small(hub: Hub.State, broken: set<SessionId>, up1: seq<Frame>, up2: seq<Frame>, down1: seq<Frame>,
                         down2: seq<Frame>, read1: seq<Action>, read2: seq<Action>, close: seq<Action>,
                         end1: Flow.EndState, end2: Flow.EndState)

  ghost predicate IsSmall(f: State, v: Small) {
    && f.hub == v.hub && f.broken == v.broken && f.deaf == {} && f.pipes == map[1 := PIPE]
    && f.up.Keys <= {1, 2} && Queue(f.up, 1) == v.up1 && Queue(f.up, 2) == v.up2
    && f.down.Keys <= {1, 2} && Queue(f.down, 1) == v.down1 && Queue(f.down, 2) == v.down2
    && f.todo.Keys <= {Reader(1), Reader(2), Closer(0)}
    && Todo(f.todo, Reader(1)) == v.read1 && Todo(f.todo, Reader(2)) == v.read2 && Todo(f.todo, Closer(0)) == v.close
    && EndOf(f, 1, 1) == v.end1 && EndOf(f, 2, 1) == v.end2
  }

  lemma PairUp() returns (es: seq<Event>, f: State)
    ensures Reached(es, f, false) && f == START.(hub := PAIRED)
  {
    es, f := [], START;
    assert Reached(es, f, false);
    hide Reached;
    es, f := Then(es, f, false, HubStep(Hub.Attach(1, Hub.ClientRole, "")));
    es, f := Then(es, f, false, HubStep(Hub.Attach(2, Hub.DaemonRole, "")));
    assert Hub.ValidToken("d", Hub.MAX_DEV_ID_LEN) && Hub.ValidToken("d", Hub.MAX_SIGN_LEN);
    es, f := Then(es, f, false, HubStep(Hub.Reg(2, "d", "d")));
    assert f.hub.sessions == PAIR;
  }

  lemma OpenPair()
    ensures Hub.Opening(PAIRED, 1, "d") == (JOINED, Hub.Opened(PIPE))
  {
    assert [] + [1] == [1];
  }

  lemma Allocate() returns (es: seq<Event>, f: State)
    ensures Reached(es, f, false)
    ensures IsSmall(f, Small(JOINED, {}, [], [], [], [], [OpenWrite(2, 1), OpenWrite(1, 1)], [], [],
                             Flow.Unopened, Flow.Unopened))
  {
    es, f := PairUp();
    OpenPair();
    hide Reached, Hub.Opening;
    es, f := Then(es, f, false, Request(1, "d"));
    assert f.up[1] == [OpenRequest("d")];
    es, f := Then(es, f, false, Serve(1));
    assert f.up[1] == [];
  }

  lemma FirstWritten(f: State, a: Action)
    requires Todo(f.todo, Reader(1)) != [] && f.todo[Reader(1)][0] == a && a.WriteOrDrop? && a.to !in f.broken
    ensures Next(f, Act(Reader(1)))
         == f.(todo := f.todo[Reader(1) := f.todo[Reader(1)][1..]], down := Pushed(f.down, a.to, a.frame))
  {
    NothingAdded(f.todo[Reader(1)][1..]);
  }

  lemma SmallWritten(f: State, v: Small, to: SessionId, w: Frame)
    requires IsSmall(f, v) && v.read1 != [] && to in {1, 2}
    ensures IsSmall(f.(todo := f.todo[Reader(1) := v.read1[1..]], down := Pushed(f.down, to, w)),
                    if to == 1 then v.(read1 := v.read1[1..], down1 := v.down1 + [w])
                    else v.(read1 := v.read1[1..], down2 := v.down2 + [w]))
  {
    if to == 1 {
      assert Queue(Pushed(f.down, 1, w), 1) == v.down1 + [w];
    } else {
      assert Queue(Pushed(f.down, 2, w), 2) == v.down2 + [w];
    }
  }

  /** The next action of the client's reader. */
  lemma ActFirst(es: seq<Event>, f: State, v: Small) returns (more: seq<Event>, n: State)
    requires Reached(es, f, false) && IsSmall(f, v) && v.read1 != [] && v.read1[0].WriteOrDrop?
    requires v.broken == {} && v.read1[0].to in {1, 2}
    ensures Reached(more, n, false)
    ensures IsSmall(n, if v.read1[0].to == 1 then v.(read1 := v.read1[1..], down1 := v.down1 + [v.read1[0].frame])
                       else v.(read1 := v.read1[1..], down2 := v.down2 + [v.read1[0].frame]))
  {
    assert Todo(f.todo, Reader(1)) == v.read1 && f.broken == {};
    SmallWritten(f, v, v.read1[0].to, v.read1[0].frame);
    hide Reached, IsSmall;
    FirstWritten(f, v.read1[0]);
    more, n := Then(es, f, false, Act(Reader(1)));
    hide Next, Pushed;
  }

  lemma WriteOpens() returns (es: seq<Event>, f: State)
    ensures Reached(es, f, false)
    ensures IsSmall(f, Small(JOINED, {}, [], [], [OpenFrame(1)], [OpenFrame(1)], [], [], [],
                             Flow.Unopened, Flow.Unopened))
  {
    es, f := Allocate();
    var v := Small(JOINED, {}, [], [], [], [], [OpenWrite(2, 1), OpenWrite(1, 1)], [], [],
                   Flow.Unopened, Flow.Unopened);
    hide Reached, IsSmall;
    es, f := ActFirst(es, f, v);
    assert [] + [OpenFrame(1)] == [OpenFrame(1)] && v.read1[1..] == [OpenWrite(1, 1)] && v.read1[1..][1..] == [];
    es, f := ActFirst(es, f, v.(read1 := [OpenWrite(1, 1)], down2 := [OpenFrame(1)]));
  }

  lemma DaemonTakes(f: State)
    requires f.hub == JOINED && Queue(f.down, 2) == [OpenFrame(1)] && EndOf(f, 2, 1).Unopened?
    ensures Next(f, Receive(2, true, 0))
         == f.(down := f.down[2 := []], ends := f.ends[End(2, 1) := Flow.Opened], up := Pushed(f.up, 2, AcceptFrame(1)))
  {
    assert [OpenFrame(1)][1..] == [];
    var rest := f.(down := f.down[2 := []]);
    assert Next(f, Receive(2, true, 0)) == Handed(rest, Hub.DaemonRole, End(2, 1), OpenFrame(1), true, 0);
    hide Next;
  }

  lemma DaemonOpens() returns (es: seq<Event>, f: State)
    ensures Reached(es, f, false)
    ensures IsSmall(f, Small(JOINED, {}, [], [AcceptFrame(1)], [OpenFrame(1)], [], [], [], [],
                             Flow.Unopened, Flow.Opened))
  {
    es, f := WriteOpens();
    var v := Small(JOINED, {}, [], [], [OpenFrame(1)], [OpenFrame(1)], [], [], [], Flow.Unopened, Flow.Unopened);
    SmallOpened(f, v);
    assert f.hub == JOINED && Queue(f.down, 2) == [OpenFrame(1)] && EndOf(f, 2, 1).Unopened?;
    hide Reached, IsSmall;
    DaemonTakes(f);
    es, f := Then(es, f, false, Receive(2, true, 0));
    hide Next, Pushed, EndOf;
  }

  lemma SmallOpened(f: State, v: Small)
    requires IsSmall(f, v) && v.up2 == []
    ensures IsSmall(f.(down := f.down[2 := []], ends := f.ends[End(2, 1) := Flow.Opened],
                       up := Pushed(f.up, 2, AcceptFrame(1))),
                    v.(down2 := [], end2 := Flow.Opened, up2 := [AcceptFrame(1)]))
  {
    NothingAdded([AcceptFrame(1)]);
  }

  lemma AnswerServed(f: State)
    requires f.hub == JOINED && f.pipes == map[1 := PIPE] && f.deaf == {}
    requires Queue(f.up, 2) == [AcceptFrame(1)] && Todo(f.todo, Reader(2)) == []
    ensures Enabled(f, Serve(2))
    ensures Next(f, Serve(2)) == f.(up := f.up[2 := []], todo := f.todo[Reader(2) := [Write(1, AcceptFrame(1))]])
  {
    assert [AcceptFrame(1)][1..] == [];
    assert Served(f.hub, 2, AcceptFrame(1)) == (f.hub, [Write(1, AcceptFrame(1))]);
    hide Served;
  }

  /** The daemon end's answer is about to be written. */
  lemma Accept() returns (es: seq<Event>, f: State)
    ensures Reached(es, f, false)
    ensures IsSmall(f, Small(JOINED, {}, [], [], [OpenFrame(1)], [], [], [Write(1, AcceptFrame(1))], [],
                             Flow.Unopened, Flow.Opened))
  {
    es, f := DaemonOpens();
    hide Reached;
    AnswerServed(f);
    hide Next, Enabled;
    es, f := Then(es, f, false, Serve(2));
  }

  const PARTED := JOINED.(closed := {2}, daemons := map[], streams := map[], bySess := map[1 := [1]])

  lemma ClosedPair()
    ensures Hub.Closed(JOINED, 2) == PARTED
    ensures Hub.Notices(Hub.Doomed(JOINED.streams, Hub.Ids(JOINED, 2)), 2) == [Hub.Notice(1, 1)]
    ensures CloseWrites([Hub.Notice(1, 1)]) == [Write(1, CloseFrame(1))]
  {
    assert [1][1..] == [] && [PIPE][1..] == [] && [Hub.Notice(1, 1)][1..] == [];
    assert Hub.Doomed(JOINED.streams, [1]) == [PIPE];
    assert Hub.CodesWithout(map[], "d") == map[];
  }

  lemma CloseAsked(f: State)
    requires f.hub == JOINED && f.pipes == map[1 := PIPE] && Todo(f.todo, Closer(0)) == []
    ensures Enabled(f, StartClose(0, 2)) && AsksNow(f, StartClose(0, 2), 1)
    ensures Next(f, StartClose(0, 2)) == f.(todo := f.todo[Closer(0) := [CloseNow(2)]])
  {
    assert [] + [CloseNow(2)] == [CloseNow(2)];
  }

  lemma CloseDone(f: State)
    requires f.hub == JOINED && Todo(f.todo, Closer(0)) == [CloseNow(2)]
    ensures Enabled(f, Act(Closer(0)))
    ensures Next(f, Act(Closer(0)))
         == f.(hub := PARTED, broken := f.broken + {2}, todo := f.todo[Closer(0) := [Write(1, CloseFrame(1))]])
  {
    ClosedPair();
    hide Hub.Closed, Hub.Notices, Hub.Doomed, CloseWrites;
    assert [CloseNow(2)][1..] == [];
    NothingAdded([Write(1, CloseFrame(1))]);
  }

  lemma CloseDaemon() returns (es: seq<Event>, f: State)
    ensures Reached(es, f, true)
    ensures IsSmall(f, Small(PARTED, {2}, [], [], [OpenFrame(1)], [], [], [Write(1, AcceptFrame(1))],
                             [Write(1, CloseFrame(1))], Flow.Unopened, Flow.Opened))
  {
    es, f := Accept();
    hide Reached, AsksNow, Next, Enabled;
    CloseAsked(f);
    es, f := ThenAsks(es, f, StartClose(0, 2));
    CloseDone(f);
    es, f := Then(es, f, true, Act(Closer(0)));
  }

  /** Either of the two writes to the client. */
  lemma WriteOne(es: seq<Event>, f: State, t: Thread, w: Frame) returns (more: seq<Event>, n: State)
    requires Reached(es, f, true) && Todo(f.todo, t) == [Write(1, w)] && 1 !in f.broken
    ensures Reached(more, n, true) && n == f.(todo := f.todo[t := []], down := Pushed(f.down, 1, w))
  {
    hide Reached;
    assert [Write(1, w)][1..] == [];
    more, n := Then(es, f, true, Act(t));
  }

  /** The close is written before the answer. */
  lemma Overtake() returns (es: seq<Event>, f: State)
    ensures Reached(es, f, true)
    ensures IsSmall(f, Small(PARTED, {2}, [], [], [OpenFrame(1), CloseFrame(1), AcceptFrame(1)], [], [], [], [],
                             Flow.Unopened, Flow.Opened))
  {
    es, f := CloseDaemon();
    hide Reached;
    es, f := WriteOne(es, f, Closer(0), CloseFrame(1));
    es, f := WriteOne(es, f, Reader(2), AcceptFrame(1));
    assert [OpenFrame(1)] + [CloseFrame(1)] + [AcceptFrame(1)] == [OpenFrame(1), CloseFrame(1), AcceptFrame(1)];
  }

  lemma ClientTakes(f: State, w: Frame)
    requires f.hub == PARTED && Queue(f.down, 1) != [] && f.down[1][0] == w && (w == OpenFrame(1) || IsWord(w, 1))
    ensures Next(f, Receive(1, true, 0))
         == f.(down := f.down[1 := f.down[1][1..]],
               ends := Filed(f.ends, End(1, 1), EndAfter(Hub.ClientRole, EndOf(f, 1, 1), w, true)))
  {
    var rest := f.(down := f.down[1 := f.down[1][1..]]);
    assert Next(f, Receive(1, true, 0)) == Handed(rest, Hub.ClientRole, End(1, 1), w, true, 0);
    hide Next;
    assert Reply(Hub.ClientRole, EndOf(f, 1, 1), w, true) == None && Taken(EndOf(f, 1, 1), w, true, 0) == [];
    hide Reply, Taken, EndAfter, Filed, IsWord;
  }

  lemma SmallHeard(f: State, v: Small, end: Flow.EndState)
    requires IsSmall(f, v) && v.down1 != []
    ensures IsSmall(f.(down := f.down[1 := v.down1[1..]], ends := Filed(f.ends, End(1, 1), end)),
                    v.(down1 := v.down1[1..], end1 := end))
  {
  }

  /** The client takes the next frame about stream 1. */
  lemma HearOne(es: seq<Event>, f: State, v: Small) returns (more: seq<Event>, n: State)
    requires Reached(es, f, true) && IsSmall(f, v) && v.hub == PARTED && v.down1 != []
    requires v.down1[0] == OpenFrame(1) || IsWord(v.down1[0], 1)
    ensures Reached(more, n, true)
    ensures IsSmall(n, v.(down1 := v.down1[1..], end1 := EndAfter(Hub.ClientRole, v.end1, v.down1[0], true)))
  {
    assert f.hub == PARTED && Queue(f.down, 1) == v.down1 && EndOf(f, 1, 1) == v.end1;
    SmallHeard(f, v, EndAfter(Hub.ClientRole, v.end1, v.down1[0], true));
    hide Reached, EndAfter, IsSmall, Filed, EndOf;
    ClientTakes(f, v.down1[0]);
    more, n := Then(es, f, true, Receive(1, true, 0));
    hide Next, IsWord;
  }

  lemma HearAll() returns (es: seq<Event>, f: State)
    ensures Reached(es, f, true)
    ensures IsSmall(f, Small(PARTED, {2}, [], [], [], [], [], [], [], Flow.Opened, Flow.Opened))
  {
    hide Reached, IsSmall;
    es, f := Overtake();
    var v := Small(PARTED, {2}, [], [], [OpenFrame(1), CloseFrame(1), AcceptFrame(1)], [], [], [], [],
                   Flow.Unopened, Flow.Opened);
    WordsLeft();
    es, f := HearOne(es, f, v);
    es, f := HearOne(es, f, v.(down1 := [CloseFrame(1), AcceptFrame(1)]));
    es, f := HearOne(es, f, v.(down1 := [AcceptFrame(1)]));
  }

  lemma WordsLeft()
    ensures [OpenFrame(1), CloseFrame(1), AcceptFrame(1)][1..] == [CloseFrame(1), AcceptFrame(1)]
    ensures [CloseFrame(1), AcceptFrame(1)][1..] == [AcceptFrame(1)] && [AcceptFrame(1)][1..] == []
  {
  }

  /**
   * A daemon's session is closed while the answer to an open is still to be written: the close reaches the client
   * first and means nothing to it, the answer then opens its end, and no close is on its way any more.
   */
  lemma AnswerOvertaken() returns (es: seq<Event>, f: State)
    ensures Run(START, es) && Exec(START, es) == f && Asked(START, es, 1)
    ensures 1 in f.pipes && Quiet(f, 1) && 1 !in f.hub.streams
    ensures f.pipes[1].client !in f.broken && EndOf(f, f.pipes[1].client, 1).Opened?
  {
    es, f := HearAll();
    forall s ensures Queue(f.up, s) == [] && Queue(f.down, s) == [] {}
    forall a ensures !Waits(f, a) {
      forall t ensures Todo(f.todo, t) == [] {}
    }
  }
}
