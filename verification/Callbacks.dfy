/**
 * Callbacks on the end of a session: registered from any goroutine, collected once by whoever ends the
 * session, run at once for those who come too late. The relay server's sessions set their flag and collect
 * under separate locks; the daemon's terminals do both in one section and also let a handler be cancelled.
 */
module Callbacks {
  import opened Basics

  /** A registration of its own each time, whatever function it carries. */
  type Handler = nat

  /**
   * listed: waiting for the end. todo: collected, to be run by the ending goroutine. late: one goroutine each.
   * known and removed record every registration and every cancel that came in time.
   */
  datatype State = State(
    flag: bool,
    collected: bool,
    listed: set<Handler>,
    todo: seq<Handler>,
    late: multiset<Handler>,
    fired: multiset<Handler>,
    known: set<Handler>,
    removed: set<Handler>)

  const START := State(false, false, {}, [], multiset{}, multiset{}, {}, {})

  datatype Event =
    | Register(h: Handler)
    | Cancel(h: Handler)
    | Flag                            // only the first takes effect
    | Collect(order: seq<Handler>)    // by the goroutine whose Flag took effect
    | RunNext
    | RunLate(h: Handler)

  predicate Enabled(s: State, e: Event) {
    match e
    case Register(h) => h !in s.known
    case Collect(order) => s.flag && !s.collected && multiset(order) == multiset(s.listed)
    case RunNext => s.todo != []
    case RunLate(h) => h in s.late
    case _ => true
  }

  /** The section of a registration. */
  function Registered(s: State, h: Handler): State {
    if s.flag then s.(late := s.late + multiset{h}, known := s.known + {h})
    else s.(listed := s.listed + {h}, known := s.known + {h})
  }

  function Cancelled(s: State, h: Handler): State {
    if h in s.listed then s.(listed := s.listed - {h}, removed := s.removed + {h}) else s
  }

  function Next(s: State, e: Event): State
    requires Enabled(s, e)
  {
    match e
    case Register(h) => Registered(s, h)
    case Cancel(h) => Cancelled(s, h)
    case Flag => s.(flag := true)
    case Collect(order) => s.(collected := true, todo := order, listed := {})
    case RunNext => s.(todo := s.todo[1..], fired := s.fired + multiset{s.todo[0]})
    case RunLate(h) => s.(late := s.late - multiset{h}, fired := s.fired + multiset{h})
  }

  predicate Run(s: State, es: seq<Event>)
    decreases es
  {
    es == [] || (Enabled(s, es[0]) && Run(Next(s, es[0]), es[1..]))
  }

  function Exec(s: State, es: seq<Event>): State
    requires Run(s, es)
    decreases es
  {
    if es == [] then s else Exec(Next(s, es[0]), es[1..])
  }

  /** A registration not cancelled in time is in exactly one place, and a cancelled one nowhere. */
  ghost predicate HandlerOk(s: State, h: Handler) {
    && One(h in s.listed) + multiset(s.todo)[h] + s.late[h] + s.fired[h] == One(h in s.known && h !in s.removed)
    && (h in s.removed ==> h in s.known)
  }

  ghost predicate Inv(s: State) {
    && (forall h :: HandlerOk(s, h))
    && (s.collected ==> s.flag && s.listed == {})
    && (!s.collected ==> s.todo == [])
    && (!s.flag ==> s.late == multiset{} && s.fired == multiset{})
  }

  lemma RunNextKeeps(s: State, h: Handler)
    requires HandlerOk(s, h) && s.todo != []
    ensures HandlerOk(Next(s, RunNext), h)
  {
    assert s.todo == [s.todo[0]] + s.todo[1..];
    assert multiset(s.todo) == multiset{s.todo[0]} + multiset(s.todo[1..]);
  }

  lemma HandlerKept(s: State, e: Event, h: Handler)
    requires Inv(s) && Enabled(s, e)
    ensures HandlerOk(Next(s, e), h)
  {
    assert HandlerOk(s, h);
    match e
    case Register(x) => assert HandlerOk(s, x);
    case RunNext => RunNextKeeps(s, h);
    case Collect(order) => assert multiset(order)[h] == multiset(s.listed)[h];
    case _ =>
  }

  lemma NextKeeps(s: State, e: Event)
    requires Inv(s) && Enabled(s, e)
    ensures Inv(Next(s, e))
  {
    var n := Next(s, e);
    forall h ensures HandlerOk(n, h) {
      HandlerKept(s, e, h);
    }
  }

  lemma {:induction false} RunKeeps(s: State, es: seq<Event>)
    requires Inv(s) && Run(s, es)
    ensures Inv(Exec(s, es))
    decreases es
  {
    if es != [] {
      hide Inv;
      NextKeeps(s, es[0]);
      RunKeeps(Next(s, es[0]), es[1..]);
    }
  }

  /** The session has ended and every goroutine it set off has run. */
  predicate Settled(s: State) {
    s.collected && s.todo == [] && s.late == multiset{}
  }

  /**
   * Over every interleaving a handler fires at most once and never before the end; once the session has
   * settled, exactly once, whether it registered before, during or after - unless it was cancelled in time.
   */
  lemma ExactlyOnce(es: seq<Event>, h: Handler)
    requires Run(START, es)
    ensures var f := Exec(START, es);
            && f.fired[h] <= One(h in f.known && h !in f.removed)
            && (!f.flag ==> f.fired[h] == 0)
            && (Settled(f) ==> f.fired[h] == One(h in f.known && h !in f.removed))
  {
    RunKeeps(START, es);
    assert HandlerOk(Exec(START, es), h);
  }

  /** A cancel has an effect exactly while the handler is listed, which it is not once they are collected. */
  lemma CancelInTime(es: seq<Event>, h: Handler)
    requires Run(START, es)
    ensures var s := Exec(START, es);
            && (Cancelled(s, h) != s <==> h in s.listed)
            && (h in s.listed ==> !s.collected && h in s.known && s.fired[h] == 0)
            && (s.collected ==> Cancelled(s, h) == s)
  {
    RunKeeps(START, es);
    assert HandlerOk(Exec(START, es), h);
  }

  // ---- the ending goroutine, undisturbed ----

  /** The collected handlers run to the last. */
  function RunAll(s: State): State
    decreases |s.todo|
  {
    if s.todo == [] then s else RunAll(Next(s, RunNext))
  }

  /** Flag, collect and run. */
  function Ended(s: State, order: seq<Handler>): State
    requires !s.collected && multiset(order) == multiset(s.listed)
  {
    RunAll(Next(Next(s, Flag), Collect(order)))
  }

  lemma {:induction false} RunAllFires(s: State)
    ensures RunAll(s) == s.(todo := [], fired := s.fired + multiset(s.todo))
    decreases |s.todo|
  {
    if s.todo != [] {
      var n := Next(s, RunNext);
      RunAllFires(n);
      hide RunAll, Enabled;
      assert s.todo == [s.todo[0]] + s.todo[1..];
      assert multiset(s.todo) == multiset{s.todo[0]} + multiset(n.todo);
      assert n.fired + multiset(n.todo) == s.fired + multiset(s.todo);
    }
  }

  lemma EndedFires(s: State, order: seq<Handler>)
    requires !s.collected && s.todo == [] && multiset(order) == multiset(s.listed)
    ensures Ended(s, order) == s.(flag := true, collected := true, listed := {}, fired := s.fired + multiset(order))
  {
    RunAllFires(Next(Next(s, Flag), Collect(order)));
  }

  /** Ending is a run of the machine, and it fires every handler listed at the time, each once. */
  lemma EndedRuns(s: State, order: seq<Handler>) returns (es: seq<Event>)
    requires !s.collected && s.todo == [] && multiset(order) == multiset(s.listed)
    ensures Run(s, es) && Exec(s, es) == Ended(s, order)
    ensures forall h :: Ended(s, order).fired[h] == s.fired[h] + One(h in s.listed)
  {
    var n := Next(Next(s, Flag), Collect(order));
    RunAllFires(n);
    var rest := RunAllRuns(n);
    es := [Flag, Collect(order)] + rest;
    assert es[1..] == [Collect(order)] + rest && es[1..][1..] == rest;
    forall h ensures multiset(order)[h] == One(h in s.listed) { assert multiset(order)[h] == multiset(s.listed)[h]; }
  }

  lemma {:induction false} RunAllRuns(s: State) returns (es: seq<Event>)
    ensures Run(s, es) && Exec(s, es) == RunAll(s)
    decreases |s.todo|
  {
    if s.todo == [] {
      es := [];
    } else {
      var rest := RunAllRuns(Next(s, RunNext));
      es := [RunNext] + rest;
      assert es[1..] == rest;
    }
  }

  function Elems(hs: seq<Handler>): set<Handler> {
    set h | h in hs
  }

  // ---- the server's session ----

  class Session {
    var closed: bool
    var onClose: seq<Handler>
    ghost var late: multiset<Handler>
    ghost var fired: multiset<Handler>
    ghost var known: set<Handler>

    /** Between calls: nobody is half-way through Close. */
    ghost predicate Valid()
      reads this
    {
      && (closed ==> onClose == [])
      && (forall h :: h in onClose ==> h in known)
      && (forall i, j :: 0 <= i < j < |onClose| ==> onClose[i] != onClose[j])
    }

    ghost function View(): State
      reads this
    {
      State(closed, closed, Elems(onClose), [], late, fired, known, {})
    }

    constructor ()
      ensures Valid() && View() == START
    {
      closed, onClose, late, fired, known := false, [], multiset{}, multiset{}, {};
    }

    method OnClose(fn: Handler)
      requires Valid() && fn !in known
      modifies this
      ensures Valid() && View() == Registered(old(View()), fn)
    {
      known := known + {fn};
      if closed {
        late := late + multiset{fn};
        return;
      }
      onClose := onClose + [fn];
    }

    /** All the callbacks, in registration order, the first time only. */
    method Close()
      requires Valid()
      modifies this
      ensures Valid() && closed
      ensures multiset(old(onClose)) == multiset(old(View()).listed)
      ensures View() == if old(closed) then old(View()) else Ended(old(View()), old(onClose))
    {
      OnceEach(onClose);
      if closed { return; }
      EndedFires(View(), onClose);
      hide Ended;
      closed := true;
      var cbs := onClose;
      onClose := [];
      RunCallbacks(cbs);
      assert Elems([]) == {};
    }

    method RunCallbacks(cbs: seq<Handler>)
      modifies this`fired
      ensures fired == old(fired) + multiset(cbs)
    {
      for i := 0 to |cbs|
        invariant fired == old(fired) + multiset(cbs[..i])
      {
        assert cbs[..i + 1] == cbs[..i] + [cbs[i]];
        fired := fired + multiset{cbs[i]};
      }
      assert cbs[..|cbs|] == cbs;
    }
  }

  lemma {:induction false} OnceEach(hs: seq<Handler>)
    requires forall i, j :: 0 <= i < j < |hs| ==> hs[i] != hs[j]
    ensures multiset(hs) == multiset(Elems(hs))
  {
    if hs != [] {
      OnceEach(hs[1..]);
      assert hs == [hs[0]] + hs[1..];
      assert Elems(hs) == {hs[0]} + Elems(hs[1..]);
    }
  }

  // ---- the daemon's terminal ----

  class Terminal {
    var exited: bool
    var nextSubID: nat
    var statusSubs: map<nat, Handler>
    ghost var handlerOf: map<nat, Handler>    // every key ever given out
    ghost var late: multiset<Handler>
    ghost var fired: multiset<Handler>
    ghost var known: set<Handler>
    ghost var removed: set<Handler>

    ghost predicate Valid()
      reads this
    {
      && (exited ==> statusSubs == map[])
      && (forall key :: key in handlerOf ==> key < nextSubID && handlerOf[key] in known)
      && (forall j, k :: j in handlerOf && k in handlerOf && handlerOf[j] == handlerOf[k] ==> j == k)
      && (forall key :: key in statusSubs ==> key in handlerOf && handlerOf[key] == statusSubs[key])
    }

    ghost function View(): State
      reads this
    {
      State(exited, exited, statusSubs.Values, [], late, fired, known, removed)
    }

    constructor ()
      ensures Valid() && View() == START && handlerOf == map[]
    {
      exited, nextSubID, statusSubs, handlerOf := false, 0, map[], map[];
      late, fired, known, removed := multiset{}, multiset{}, {}, {};
    }

    /** The key to cancel by, none when the handler is already on its way. */
    method SubscribeStatus(h: Handler) returns (key: Option<nat>)
      requires Valid() && h !in known
      modifies this
      ensures Valid() && View() == Registered(old(View()), h)
      ensures key.None? <==> old(exited)
      ensures key.Some? ==> key.value !in old(handlerOf) && handlerOf == old(handlerOf)[key.value := h]
      ensures key.None? ==> handlerOf == old(handlerOf)
    {
      known := known + {h};
      if exited {
        late := late + multiset{h};
        return None;
      }
      key := Some(nextSubID);
      AddedValue(statusSubs, nextSubID, h);
      handlerOf := handlerOf[nextSubID := h];
      statusSubs := statusSubs[nextSubID := h];
      nextSubID := nextSubID + 1;
    }

    /** The function returned with a key. */
    method Cancel(key: nat)
      requires Valid() && key in handlerOf
      modifies this`statusSubs, this`removed
      ensures Valid() && View() == Cancelled(old(View()), handlerOf[key])
    {
      RemovedValue(statusSubs, handlerOf, key);
      if key in statusSubs { removed := removed + {statusSubs[key]}; }
      statusSubs := statusSubs - {key};
    }

    /** Every handler still subscribed once, in some order, the first time only. */
    method Finalize() returns (ghost order: seq<Handler>)
      requires Valid()
      modifies this
      ensures Valid() && exited && multiset(order) == multiset(old(View()).listed)
      ensures View() == if old(exited) then old(View()) else Ended(old(View()), order)
    {
      hide Ended;
      assert exited ==> statusSubs.Values == {};
      if exited { return []; }
      var handlers := Handlers();
      order := handlers;
      EndedFires(View(), order);
      ghost var empty: map<nat, Handler> := map[];
      assert empty.Values == {};
      exited := true;
      statusSubs := map[];
      RunHandlers(handlers);
    }

    method RunHandlers(handlers: seq<Handler>)
      modifies this`fired
      ensures fired == old(fired) + multiset(handlers)
    {
      for i := 0 to |handlers|
        invariant fired == old(fired) + multiset(handlers[..i])
      {
        assert handlers[..i + 1] == handlers[..i] + [handlers[i]];
        fired := fired + multiset{handlers[i]};
      }
      assert handlers[..|handlers|] == handlers;
    }

    /** The subscribed handlers, copied out of the map. */
    method Handlers() returns (handlers: seq<Handler>)
      requires forall key :: key in statusSubs ==> key in handlerOf && handlerOf[key] == statusSubs[key]
      requires forall j, k :: j in handlerOf && k in handlerOf && handlerOf[j] == handlerOf[k] ==> j == k
      ensures multiset(handlers) == multiset(statusSubs.Values)
    {
      handlers := [];
      var keys := statusSubs.Keys;
      while keys != {}
        invariant keys <= statusSubs.Keys
        invariant forall h :: h in handlers <==> exists key :: key in statusSubs && key !in keys && statusSubs[key] == h
        invariant forall i, j :: 0 <= i < j < |handlers| ==> handlers[i] != handlers[j]
        decreases |keys|
      {
        var key :| key in keys;
        assert statusSubs[key] !in handlers;
        handlers := handlers + [statusSubs[key]];
        keys := keys - {key};
      }
      OnceEach(handlers);
      assert Elems(handlers) == statusSubs.Values;
    }
  }

  lemma AddedValue(m: map<nat, Handler>, key: nat, h: Handler)
    requires key !in m
    ensures m[key := h].Values == m.Values + {h}
  {
    var n := m[key := h];
    forall x | x in m.Values + {h} ensures x in n.Values {
      if x == h { assert n[key] == h; } else { var k :| k in m && m[k] == x; assert n[k] == x; }
    }
  }

  lemma RemovedValue(m: map<nat, Handler>, all: map<nat, Handler>, key: nat)
    requires key in all && (forall k :: k in m ==> k in all && all[k] == m[k])
    requires forall j, k :: j in all && k in all && all[j] == all[k] ==> j == k
    ensures (m - {key}).Values == m.Values - {all[key]} && (all[key] in m.Values <==> key in m)
  {
    var n := m - {key};
    forall x | x in m.Values && x != all[key] ensures x in n.Values { var k :| k in m && m[k] == x; assert n[k] == x; }
  }
}
