/** The order of what a viewer of module Handover gets, read off the events of a run. */
module HandoverOrder {
  import opened Basics
  import opened LogRepo
  import opened Replay
  import opened Handover

  // ---- the events alone ----

  /** The stdout chunk a notification hands over. */
  function Handed(s: State, e: Event): seq<int> {
    if e.Deliver? && IsStdout(s, e.num) then [e.num] else []
  }

  /** The chunks handed over before the release, in the order of their notifications. */
  function HeldBack(c: Config, s: State, es: seq<Event>): seq<int>
    requires Run(c, s, es)
    decreases es
  {
    if es == [] then []
    else (if s.sub.phase.Released? then [] else Handed(s, es[0])) + HeldBack(c, Next(c, s, es[0]), es[1..])
  }

  /** Those handed over after it and not filtered out. */
  function Direct(c: Config, s: State, es: seq<Event>): seq<int>
    requires Run(c, s, es)
    decreases es
  {
    if es == [] then [] else Passed(c, s, es[0]) + Direct(c, Next(c, s, es[0]), es[1..])
  }

  function Passed(c: Config, s: State, e: Event): seq<int> {
    if s.sub.phase.Released? && e.Deliver? && (c.filter.AsWritten? || e.num > s.sub.phase.top) then Handed(s, e) else []
  }

  function Drains(es: seq<Event>): nat {
    if es == [] then 0 else One(es[0].Drain?) + Drains(es[1..])
  }

  /** A live output, direct or from among the chunks held back. */
  datatype Out = Out(num: int, direct: bool)

  /** What one event sends live, k chunks held back having been gone through before. */
  function OutOf(c: Config, s: State, e: Event, held: seq<int>, k: nat): seq<Out> {
    if e.Drain? then
      (if s.sub.phase.Released? && k < |held| && held[k] > Threshold(c, s.sub.phase) then [Out(held[k], false)] else [])
    else if Passed(c, s, e) != [] then [Out(Passed(c, s, e)[0], true)]
    else []
  }

  function Outs(c: Config, s: State, es: seq<Event>, held: seq<int>, k: nat): seq<Out>
    requires Run(c, s, es)
    decreases es
  {
    if es == [] then []
    else OutOf(c, s, es[0], held, k) + Outs(c, Next(c, s, es[0]), es[1..], held, k + One(es[0].Drain?))
  }

  function NumsOf(outs: seq<Out>): seq<int> {
    seq(|outs|, i requires 0 <= i < |outs| => outs[i].num)
  }

  /** The rows of a page the viewer is shown. */
  function Shown(page: seq<Row>): seq<int> {
    if page == [] then [] else (if Displayed(page[0]) then [page[0].num] else []) + Shown(page[1..])
  }

  // ---- the shape of what was sent ----

  function AsHistory(nums: seq<int>): seq<Sent> {
    seq(|nums|, i requires 0 <= i < |nums| => History(nums[i]))
  }

  function AsLive(nums: seq<int>): seq<Sent> {
    seq(|nums|, i requires 0 <= i < |nums| => Live(nums[i]))
  }

  predicate Rising(nums: seq<int>) {
    forall i, j :: 0 <= i < j < |nums| ==> nums[i] < nums[j]
  }

  /** First the history, ascending and no further than what the pages cover, then the live output. */
  ghost predicate Shape(c: Config, s: State, history: seq<int>, live: seq<int>) {
    && s.sub.sent == AsHistory(history) + AsLive(live)
    && Rising(history) && (forall q :: q in history ==> q <= Covered(c, s.sub.phase))
    && (!s.sub.phase.Released? ==> live == [])
  }

  lemma RisingMore(a: seq<int>, b: seq<int>, bound: int)
    requires Rising(a) && Rising(b) && (forall q :: q in a ==> q <= bound) && (forall q :: q in b ==> bound < q)
    ensures Rising(a + b)
  {
    assert forall i :: 0 <= i < |a| ==> a[i] in a;
    assert forall i :: 0 <= i < |b| ==> b[i] in b;
  }

  lemma AsHistoryConcat(a: seq<int>, b: seq<int>)
    ensures AsHistory(a + b) == AsHistory(a) + AsHistory(b)
  {
  }

  lemma AsLiveMore(nums: seq<int>, num: int)
    ensures AsLive(nums + [num]) == AsLive(nums) + [Live(num)]
  {
  }

  lemma NothingLive(sent: seq<Sent>)
    ensures sent + AsLive([]) == sent
  {
  }

  lemma {:induction false} ShownFrom(page: seq<Row>, low: int, high: int)
    requires Ascending(page) && forall r :: r in page ==> low < r.num <= high
    ensures HistoryOf(page) == AsHistory(Shown(page)) && Rising(Shown(page))
    ensures forall q :: q in Shown(page) ==> low < q <= high
  {
    if page != [] {
      var first, rest := page[0], page[1..];
      assert page == [first] + rest && first in page;
      assert forall r :: r in rest ==> r in page && first.num < r.num;
      hide Rising, AsHistory, Ascending;
      ShownFrom(rest, first.num, high);
      var head := if Displayed(first) then [first.num] else [];
      assert Shown(page) == head + Shown(rest);
      assert HistoryOf(page) == (if Displayed(first) then [History(first.num)] else []) + HistoryOf(rest);
      HeadShown(first);
      hide Shown, HistoryOf, Displayed;
      AsHistoryConcat(head, Shown(rest));
      RisingMore(head, Shown(rest), first.num);
    } else {
      assert AsHistory([]) == [];
    }
  }

  lemma HeadShown(r: Row)
    ensures (if Displayed(r) then [History(r.num)] else []) == AsHistory(if Displayed(r) then [r.num] else [])
    ensures Rising(if Displayed(r) then [r.num] else [])
  {
  }

  lemma PageBounds(c: Config, s: Sub, table: seq<Row>)
    requires Ascending(table) && s.phase.Replaying?
    ensures Ascending(PageAt(c, table, s.phase.cursor))
    ensures forall r :: r in PageAt(c, table, s.phase.cursor) ==>
              s.phase.cursor - 1 < r.num <= Covered(c, OnPage(c, s, table).phase)
    ensures s.phase.cursor - 1 <= Covered(c, OnPage(c, s, table).phase)
    ensures OnPage(c, s, table).sent == s.sent + HistoryOf(PageAt(c, table, s.phase.cursor))
    ensures !OnPage(c, s, table).phase.Released?
  {
    PageMembers(c, s, table);
  }

  lemma PageShape(c: Config, s: State, history: seq<int>)
    requires Ascending(s.table) && s.sub.phase.Replaying? && Shape(c, s, history, [])
    ensures Shape(c, Next(c, s, ReadPage), history + Shown(PageAt(c, s.table, s.sub.phase.cursor)), [])
  {
    var page, cursor := PageAt(c, s.table, s.sub.phase.cursor), s.sub.phase.cursor;
    PageBounds(c, s.sub, s.table);
    ShownFrom(page, cursor - 1, Covered(c, OnPage(c, s.sub, s.table).phase));
    hide OnPage, PageAt, HistoryOf, Shown, Ascending, Rising, AsHistory, AsLive;
    var more := Shown(page);
    NothingLive(AsHistory(history));
    NothingLive(AsHistory(history + more));
    AsHistoryConcat(history, more);
    RisingMore(history, more, cursor - 1);
  }

  /** What an event adds to the history. */
  function Adds(c: Config, s: State, e: Event): seq<int>
    requires Enabled(s, e)
  {
    if e.ReadPage? then Shown(PageAt(c, s.table, s.sub.phase.cursor)) else []
  }

  lemma LiveShape(c: Config, s: State, e: Event, history: seq<int>, live: seq<int>, held: seq<int>, k: nat)
    requires Enabled(s, e) && Shape(c, s, history, live) && (e.Deliver? || e.Drain?)
    requires e.Deliver? ==> s.flights[e.num].row.num == e.num
    requires s.sub.phase.Released? ==> k <= |held| && s.sub.pending == held[k..]
    ensures Shape(c, Next(c, s, e), history, live + NumsOf(OutOf(c, s, e, held, k)))
  {
    var out := OutOf(c, s, e, held, k);
    if out == [] {
      assert live + [] == live;
    } else {
      assert out == [out[0]] && NumsOf(out) == [out[0].num];
      hide NumsOf, AsHistory, AsLive;
      AsLiveMore(live, out[0].num);
      Regroup(AsHistory(history), AsLive(live), [Live(out[0].num)]);
    }
    hide AsHistory, AsLive, Rising;
  }

  lemma StepShape(c: Config, s: State, e: Event, history: seq<int>, live: seq<int>, held: seq<int>, k: nat)
    requires Inv(c, s) && Enabled(s, e) && Shape(c, s, history, live)
    requires s.sub.phase.Released? ==> k <= |held| && s.sub.pending == held[k..]
    ensures Shape(c, Next(c, s, e), history + Adds(c, s, e), live + NumsOf(OutOf(c, s, e, held, k)))
  {
    hide HistoryOk, LiveOk, LateOk, PageAt, MoreAt, HistoryOf;
    assert history + [] == history && live + [] == live;
    if e.ReadPage? {
      PageShape(c, s, history);
    } else if e.Deliver? || e.Drain? {
      LiveShape(c, s, e, history, live, held, k);
    }
  }

  /** Held back, and gone through one by one from the release on. */
  ghost predicate Queued(c: Config, s: State, es: seq<Event>, held: seq<int>, k: nat)
    requires Run(c, s, es)
  {
    if s.sub.phase.Released? then k <= |held| && s.sub.pending == held[k..]
    else k == 0 && held == s.sub.pending + HeldBack(c, s, es)
  }

  lemma {:induction false} NoneHeld(c: Config, s: State, es: seq<Event>)
    requires Run(c, s, es) && s.sub.phase.Released?
    ensures HeldBack(c, s, es) == []
    decreases es
  {
    if es != [] { NoneHeld(c, Next(c, s, es[0]), es[1..]); }
  }

  lemma DrainQueued(c: Config, s: State, es: seq<Event>, held: seq<int>, k: nat)
    requires Run(c, s, es) && es != [] && s.sub.phase.Released? && Queued(c, s, es, held, k)
    ensures Queued(c, Next(c, s, es[0]), es[1..], held, k + One(es[0].Drain?))
  {
    hide HeldBack, PageAt, MoreAt, HistoryOf, Threshold, Inserted, Displayed;
    if es[0].Drain? { assert held[k..][1..] == held[k + 1..]; }
  }

  lemma Waits(c: Config, s: State, e: Event)
    requires TableOk(s) && Enabled(s, e) && !s.sub.phase.Released?
    ensures Next(c, s, e).sub.pending == s.sub.pending + Handed(s, e)
    ensures Next(c, s, e).sub.phase.Released? <==> e.Release?
  {
    assert s.sub.pending + [] == s.sub.pending;
    if e.Deliver? { assert s.flights[e.num].row.num == e.num; }
    hide TableOk, PageAt, MoreAt, HistoryOf, Inserted;
  }

  lemma HoldQueued(c: Config, s: State, es: seq<Event>, held: seq<int>)
    requires TableOk(s) && Run(c, s, es) && es != [] && !s.sub.phase.Released? && Queued(c, s, es, held, 0)
    ensures Queued(c, Next(c, s, es[0]), es[1..], held, One(es[0].Drain?))
  {
    var e, n := es[0], Next(c, s, es[0]);
    Waits(c, s, e);
    Regroup(s.sub.pending, Handed(s, e), HeldBack(c, n, es[1..]));
    if e.Release? {
      NoneHeld(c, n, es[1..]);
      assert n.sub.pending + [] == n.sub.pending;
    }
    hide TableOk, Handed, Next;
  }

  lemma StepQueued(c: Config, s: State, es: seq<Event>, held: seq<int>, k: nat)
    requires TableOk(s) && Run(c, s, es) && es != [] && Queued(c, s, es, held, k)
    ensures Queued(c, Next(c, s, es[0]), es[1..], held, k + One(es[0].Drain?))
  {
    hide TableOk, HeldBack, Next, Enabled;
    if s.sub.phase.Released? { DrainQueued(c, s, es, held, k); } else { HoldQueued(c, s, es, held); }
  }

  /** Where the queue stands when k of the held chunks have been gone through. */
  ghost predicate Waiting(s: State, held: seq<int>, k: nat) {
    if s.sub.phase.Released? then k <= |held| && s.sub.pending == held[k..] else k == 0 && held == s.sub.pending
  }

  lemma InvParts(c: Config, s: State)
    requires Inv(c, s)
    ensures TableOk(s)
  {
  }

  lemma QueuedRest(c: Config, s: State, es: seq<Event>, held: seq<int>, k: nat)
    requires Run(c, s, es) && Queued(c, s, es, held, k)
    ensures s.sub.phase.Released? ==> k <= |held| && s.sub.pending == held[k..]
    ensures es != [] && es[0].Drain? ==> s.sub.phase.Released? && k < |held|
  {
    hide HeldBack;
  }

  lemma Settles(c: Config, s: State, held: seq<int>, k: nat)
    requires Queued(c, s, [], held, k)
    ensures Waiting(s, held, k)
  {
    assert s.sub.pending + [] == s.sub.pending;
  }

  lemma {:induction false} RunOrder(c: Config, s: State, es: seq<Event>, history: seq<int>, live: seq<int>,
                                    held: seq<int>, k: nat)
          returns (all: seq<int>)
    requires Inv(c, s) && Run(c, s, es) && Shape(c, s, history, live) && Queued(c, s, es, held, k)
    ensures Shape(c, Exec(c, s, es), all, live + NumsOf(Outs(c, s, es, held, k)))
    ensures Waiting(Exec(c, s, es), held, k + Drains(es))
    decreases es
  {
    hide Inv, Shape, Queued, OutOf, Next, Enabled, Waiting, HeldBack;
    if es == [] {
      all := history;
      assert live + NumsOf([]) == live;
      Settles(c, s, held, k);
    } else {
      var n, out := Next(c, s, es[0]), OutOf(c, s, es[0], held, k);
      InvParts(c, s);
      QueuedRest(c, s, es, held, k);
      StepShape(c, s, es[0], history, live, held, k);
      StepQueued(c, s, es, held, k);
      NextKeeps(c, s, es[0]);
      var rest := Outs(c, n, es[1..], held, k + One(es[0].Drain?));
      all := RunOrder(c, n, es[1..], history + Adds(c, s, es[0]), live + NumsOf(out), held, k + One(es[0].Drain?));
      assert NumsOf(out + rest) == NumsOf(out) + NumsOf(rest);
      Regroup(live, NumsOf(out), NumsOf(rest));
      assert k + One(es[0].Drain?) + Drains(es[1..]) == k + Drains(es);
    }
  }

  // ---- what the viewer gets, in order ----

  lemma HistoryMember(history: seq<int>, live: seq<int>, q: int)
    ensures History(q) in AsHistory(history) + AsLive(live) <==> q in history
  {
    var all := AsHistory(history) + AsLive(live);
    if q in history {
      var i :| 0 <= i < |history| && history[i] == q;
      assert all[i] == History(q);
    }
  }

  /** The held chunks not yet gone through. */
  function StillHeld(s: State, held: seq<int>, k: nat): seq<int> {
    if s.sub.phase.Released? && k <= |held| then held[k..] else held
  }

  /**
   * In every run the viewer has been sent the rows its pages showed, ascending and each once, and after them the
   * live output in the order of its events: a chunk held back when its turn in the order of the notifications comes,
   * one handed over after the release at once. What is still held back is in that order too.
   */
  lemma ArrivalOrder(c: Config, s: State, es: seq<Event>) returns (history: seq<int>)
    requires Init(s) && Run(c, s, es)
    ensures var f, held := Exec(c, s, es), HeldBack(c, s, es);
            && f.sub.sent == AsHistory(history) + AsLive(NumsOf(Outs(c, s, es, held, 0)))
            && Rising(history) && (forall q :: q in history <==> InHistory(c, f, q))
            && f.sub.pending == StillHeld(f, held, Drains(es))
  {
    var f, held := Exec(c, s, es), HeldBack(c, s, es);
    history := FromInit(c, s, es);
    hide Init, Run, Exec, HeldBack, Outs, Drains, Shape, Waiting, Inv;
    Shaped(c, f, history, NumsOf(Outs(c, s, es, held, 0)));
    StillWaits(f, held, Drains(es));
    HistoryExact(c, f, history, NumsOf(Outs(c, s, es, held, 0)));
    hide AsHistory, AsLive, NumsOf, StillHeld, InHistory, Rising;
  }

  lemma FromInit(c: Config, s: State, es: seq<Event>) returns (history: seq<int>)
    requires Init(s) && Run(c, s, es)
    ensures Inv(c, Exec(c, s, es))
    ensures Shape(c, Exec(c, s, es), history, NumsOf(Outs(c, s, es, HeldBack(c, s, es), 0)))
    ensures Waiting(Exec(c, s, es), HeldBack(c, s, es), Drains(es))
  {
    hide Init, Outs, NumsOf, HeldBack, Queued, Shape, Waiting, Inv, Exec, Run, Drains;
    InitInv(c, s);
    InitShape(c, s);
    InitQueued(c, s, es);
    history := RunOrder(c, s, es, [], [], HeldBack(c, s, es), 0);
    NothingAdded(NumsOf(Outs(c, s, es, HeldBack(c, s, es), 0)));
    RunKeeps(c, s, es);
  }

  /** The numbers sent as history are those the counts say. */
  lemma HistoryExact(c: Config, f: State, history: seq<int>, live: seq<int>)
    requires Inv(c, f) && f.sub.sent == AsHistory(history) + AsLive(live)
    ensures forall q :: q in history <==> InHistory(c, f, q)
  {
    hide InHistory, LiveOk, LateOk, TableOk, PhaseOk, AsHistory, AsLive;
    forall q ensures q in history <==> InHistory(c, f, q) {
      HistoryMember(history, live, q);
      assert HistoryOk(c, f, q);
    }
  }

  lemma Shaped(c: Config, f: State, history: seq<int>, live: seq<int>)
    requires Shape(c, f, history, live)
    ensures f.sub.sent == AsHistory(history) + AsLive(live) && Rising(history)
  {
  }

  lemma StillWaits(f: State, held: seq<int>, k: nat)
    requires Waiting(f, held, k)
    ensures f.sub.pending == StillHeld(f, held, k)
  {
  }

  lemma InitQueued(c: Config, s: State, es: seq<Event>)
    requires Init(s) && Run(c, s, es)
    ensures Queued(c, s, es, HeldBack(c, s, es), 0)
  {
    hide HeldBack;
    assert [] + HeldBack(c, s, es) == HeldBack(c, s, es);
  }

  lemma InitShape(c: Config, s: State)
    requires Init(s)
    ensures Shape(c, s, [], []) && !s.sub.phase.Released? && s.sub.pending == []
  {
  }

  /** The chunks of a list above a bound. */
  function Above(nums: seq<int>, bound: int): seq<int> {
    if nums == [] then [] else (if nums[0] > bound then [nums[0]] else []) + Above(nums[1..], bound)
  }

  function Picked(outs: seq<Out>, direct: bool): seq<int> {
    if outs == [] then []
    else (if outs[0].direct == direct then [outs[0].num] else []) + Picked(outs[1..], direct)
  }

  /** A chunk handed over after the release goes out before one held back. */
  predicate Overtakes(outs: seq<Out>) {
    exists i, j :: 0 <= i < j < |outs| && outs[i].direct && !outs[j].direct
  }

  lemma PickedHead(a: seq<Out>, direct: bool)
    requires a != []
    ensures Picked(a, direct) == (if a[0].direct == direct then [a[0].num] else []) + Picked(a[1..], direct)
  {
  }

  lemma {:induction false} PickedConcat(a: seq<Out>, b: seq<Out>, direct: bool)
    ensures Picked(a + b, direct) == Picked(a, direct) + Picked(b, direct)
  {
    if a == [] {
      NothingAdded(b);
      NothingAdded(Picked(b, direct));
    } else {
      var head := if a[0].direct == direct then [a[0].num] else [];
      assert (a + b)[0] == a[0] && (a + b)[1..] == a[1..] + b;
      PickedConcat(a[1..], b, direct);
      PickedHead(a, direct);
      PickedHead(a + b, direct);
      Regroup(head, Picked(a[1..], direct), Picked(b, direct));
      hide Picked;
    }
  }

  lemma AboveHead(a: seq<int>, bound: int)
    requires a != []
    ensures Above(a, bound) == (if a[0] > bound then [a[0]] else []) + Above(a[1..], bound)
  {
  }

  lemma {:induction false} AboveConcat(a: seq<int>, b: seq<int>, bound: int)
    ensures Above(a + b, bound) == Above(a, bound) + Above(b, bound)
  {
    if a == [] {
      NothingAdded(b);
      NothingAdded(Above(b, bound));
    } else {
      var head := if a[0] > bound then [a[0]] else [];
      assert (a + b)[0] == a[0] && (a + b)[1..] == a[1..] + b;
      AboveConcat(a[1..], b, bound);
      AboveHead(a, bound);
      AboveHead(a + b, bound);
      Regroup(head, Above(a[1..], bound), Above(b, bound));
      hide Above;
    }
  }

  lemma OutSplit(c: Config, s: State, e: Event, held: seq<int>, k: nat)
    requires s.sub.phase.Released? ==> !e.Drain? || k < |held|
    ensures Picked(OutOf(c, s, e, held, k), true) == Passed(c, s, e)
    ensures Picked(OutOf(c, s, e, held, k), false)
         == if e.Drain? && s.sub.phase.Released? then Above([held[k]], Threshold(c, s.sub.phase)) else []
  {
    hide Threshold;
  }

  lemma ReleasedStays(c: Config, s: State, e: Event)
    requires Enabled(s, e) && s.sub.phase.Released?
    ensures Next(c, s, e).sub.phase == s.sub.phase
  {
    hide PageAt, MoreAt, HistoryOf, Inserted, Threshold;
  }

  lemma {:induction false} ReleasedFor(c: Config, s: State, es: seq<Event>)
    requires Run(c, s, es) && s.sub.phase.Released?
    ensures Exec(c, s, es).sub.phase == s.sub.phase
    decreases es
  {
    if es != [] {
      ReleasedStays(c, s, es[0]);
      hide Next, Enabled;
      ReleasedFor(c, Next(c, s, es[0]), es[1..]);
    }
  }

  lemma {:induction false} DirectPicked(c: Config, s: State, es: seq<Event>, held: seq<int>, k: nat)
    requires Inv(c, s) && Run(c, s, es) && Queued(c, s, es, held, k)
    ensures Picked(Outs(c, s, es, held, k), true) == Direct(c, s, es)
    decreases es
  {
    hide Inv, Queued, OutOf, Next, Enabled, HeldBack, Threshold, Passed, TableOk;
    if es != [] {
      var n, k' := Next(c, s, es[0]), k + One(es[0].Drain?);
      QueuedRest(c, s, es, held, k);
      OutSplit(c, s, es[0], held, k);
      InvParts(c, s);
      StepQueued(c, s, es, held, k);
      NextKeeps(c, s, es[0]);
      hide Picked;
      DirectPicked(c, n, es[1..], held, k');
      PickedConcat(OutOf(c, s, es[0], held, k), Outs(c, n, es[1..], held, k'), true);
    }
  }

  /** Gone through in their own order. */
  ghost predicate InTurn(c: Config, f: State, picked: seq<int>, held: seq<int>, k: nat, n: nat) {
    if f.sub.phase.Released? then
      k + n <= |held| && picked == Above(held[k..k + n], Threshold(c, f.sub.phase))
    else picked == []
  }

  lemma InTurnMore(c: Config, f: State, picked: seq<int>, held: seq<int>, k: nat, n: nat)
    requires f.sub.phase.Released? && k < |held| && InTurn(c, f, picked, held, k + 1, n)
    ensures InTurn(c, f, Above([held[k]], Threshold(c, f.sub.phase)) + picked, held, k, n + 1)
  {
    assert held[k..k + (n + 1)] == [held[k]] + held[k + 1..k + 1 + n];
    AboveConcat([held[k]], held[k + 1..k + 1 + n], Threshold(c, f.sub.phase));
    hide Above;
  }

  lemma {:induction false} HeldPicked(c: Config, s: State, es: seq<Event>, held: seq<int>, k: nat)
    requires Inv(c, s) && Run(c, s, es) && Queued(c, s, es, held, k)
    ensures InTurn(c, Exec(c, s, es), Picked(Outs(c, s, es, held, k), false), held, k, Drains(es))
    decreases es
  {
    hide Inv, Queued, OutOf, Next, Enabled, HeldBack, Threshold, Passed, TableOk, InTurn, Picked, Above;
    QueuedRest(c, s, es, held, k);
    if es == [] {
      NoneInTurn(c, s, held, k);
      NonePicked();
    } else {
      var n, k' := Next(c, s, es[0]), k + One(es[0].Drain?);
      InvParts(c, s);
      StepQueued(c, s, es, held, k);
      NextKeeps(c, s, es[0]);
      HeldPicked(c, n, es[1..], held, k');
      PickedConcat(OutOf(c, s, es[0], held, k), Outs(c, n, es[1..], held, k'), false);
      if es[0].Drain? { ReleasedFor(c, s, es); }
      StepInTurn(c, s, es[0], Exec(c, n, es[1..]), Picked(Outs(c, n, es[1..], held, k'), false), held, k,
                 Drains(es[1..]));
    }
  }

  lemma NonePicked()
    ensures Picked([], false) == []
  {
  }

  lemma StepInTurn(c: Config, s: State, e: Event, f: State, picked: seq<int>, held: seq<int>, k: nat, n: nat)
    requires e.Drain? ==> s.sub.phase.Released? && k < |held| && f.sub.phase == s.sub.phase
    requires InTurn(c, f, picked, held, k + One(e.Drain?), n)
    ensures InTurn(c, f, Picked(OutOf(c, s, e, held, k), false) + picked, held, k, n + One(e.Drain?))
  {
    OutSplit(c, s, e, held, k);
    hide OutOf, Picked, Threshold, InTurn, Above;
    if e.Drain? { InTurnMore(c, f, picked, held, k, n); } else { NothingAdded(picked); }
  }

  lemma NoneInTurn(c: Config, s: State, held: seq<int>, k: nat)
    requires s.sub.phase.Released? ==> k <= |held|
    ensures InTurn(c, s, [], held, k, 0)
  {
    if s.sub.phase.Released? { assert held[k..k + 0] == []; }
  }

  // ---- when the order is the order of the notifications ----

  predicate Distinct(nums: seq<int>) {
    forall i, j :: 0 <= i < j < |nums| ==> nums[i] != nums[j]
  }

  lemma {:induction false} FirstPicked(outs: seq<Out>, direct: bool) returns (i: nat)
    requires Picked(outs, direct) != []
    ensures i < |outs| && outs[i].direct == direct && outs[i].num == Picked(outs, direct)[0]
  {
    if outs[0].direct == direct {
      i := 0;
    } else {
      i := FirstPicked(outs[1..], direct);
      i := i + 1;
    }
  }

  lemma {:induction false} AllPicked(outs: seq<Out>, direct: bool)
    requires Picked(outs, !direct) == []
    ensures Picked(outs, direct) == NumsOf(outs) && forall i :: 0 <= i < |outs| ==> outs[i].direct == direct
  {
    if outs != [] {
      assert outs == [outs[0]] + outs[1..];
      AllPicked(outs[1..], direct);
      assert NumsOf(outs) == [outs[0].num] + NumsOf(outs[1..]);
    }
  }

  lemma OvertakesTail(outs: seq<Out>)
    requires outs != [] && !outs[0].direct
    ensures Overtakes(outs) <==> Overtakes(outs[1..])
  {
    var rest := outs[1..];
    if Overtakes(outs) {
      var i, j :| 0 <= i < j < |outs| && outs[i].direct && !outs[j].direct;
      assert rest[i - 1].direct && !rest[j - 1].direct;
    }
    if Overtakes(rest) {
      var i, j :| 0 <= i < j < |rest| && rest[i].direct && !rest[j].direct;
      assert outs[i + 1].direct && !outs[j + 1].direct;
    }
  }

  lemma NumsHead(outs: seq<Out>)
    requires outs != []
    ensures NumsOf(outs) == [outs[0].num] + NumsOf(outs[1..])
    ensures Distinct(NumsOf(outs)) ==> Distinct(NumsOf(outs[1..]))
  {
    assert forall i :: 0 <= i < |outs[1..]| ==> NumsOf(outs[1..])[i] == NumsOf(outs)[i + 1];
  }

  /** A direct chunk first and a held one after it: the held one would have to be first. */
  lemma NotFirst(outs: seq<Out>)
    requires Distinct(NumsOf(outs)) && outs != [] && outs[0].direct && Picked(outs[1..], false) != []
    ensures NumsOf(outs) != Picked(outs, false) + Picked(outs, true) && Overtakes(outs)
  {
    var i := FirstPicked(outs[1..], false);
    PickedHead(outs, false);
    NothingAdded(Picked(outs[1..], false));
    hide Picked;
    assert outs[i + 1] == outs[1..][i];
    assert NumsOf(outs)[0] != NumsOf(outs)[i + 1];
  }

  lemma {:induction false} SplitIff(outs: seq<Out>)
    requires Distinct(NumsOf(outs))
    ensures NumsOf(outs) == Picked(outs, false) + Picked(outs, true) <==> !Overtakes(outs)
  {
    if outs == [] {
    } else {
      var first, rest := outs[0], outs[1..];
      NumsHead(outs);
      PickedHead(outs, false);
      PickedHead(outs, true);
      NothingAdded(Picked(rest, true));
      NothingAdded(Picked(rest, false));
      if !first.direct {
        SplitIff(rest);
        OvertakesTail(outs);
        Regroup([first.num], Picked(rest, false), Picked(rest, true));
        HeadKept(first.num, NumsOf(rest), Picked(rest, false) + Picked(rest, true));
      } else if Picked(rest, false) == [] {
        AllPicked(outs, true);
        NothingAdded(NumsOf(outs));
      } else {
        NotFirst(outs);
      }
      hide NumsOf, Overtakes, Distinct, Picked;
    }
  }

  lemma HeadKept(x: int, a: seq<int>, b: seq<int>)
    ensures [x] + a == [x] + b <==> a == b
  {
    assert ([x] + a)[1..] == a && ([x] + b)[1..] == b;
  }

  lemma TwiceCounted(sent: seq<Sent>, i: nat, j: nat)
    requires i < j < |sent| && sent[i] == sent[j]
    ensures multiset(sent)[sent[i]] >= 2
  {
    assert sent == sent[..j] + sent[j..] && sent[..j][i] in sent[..j] && sent[j..][0] in sent[j..];
    assert multiset(sent) == multiset(sent[..j]) + multiset(sent[j..]);
  }

  /** A chunk is output live at most once. */
  lemma LiveOnce(c: Config, f: State, history: seq<int>, live: seq<int>)
    requires Inv(c, f) && f.sub.sent == AsHistory(history) + AsLive(live)
    ensures Distinct(live)
  {
    forall i, j | 0 <= i < j < |live| ensures live[i] != live[j] {
      if live[i] == live[j] {
        assert LiveOk(c, f, live[i]);
        hide LiveOk, HistoryOk, LateOk, TableOk, PhaseOk;
        TwiceCounted(f.sub.sent, |history| + i, |history| + j);
      }
    }
  }

  /**
   * The viewer gets first the chunks held back and then those handed over directly, all in the order of their
   * notifications, exactly when no direct one goes out before a held one has had its turn.
   */
  lemma InOrderIff(c: Config, s: State, es: seq<Event>)
    requires Init(s) && Run(c, s, es) && Joined(Exec(c, s, es))
    ensures var f, held := Exec(c, s, es), HeldBack(c, s, es);
            var outs := Outs(c, s, es, held, 0);
            NumsOf(outs) == Above(held, Threshold(c, f.sub.phase)) + Direct(c, s, es) <==> !Overtakes(outs)
  {
    var f, held := Exec(c, s, es), HeldBack(c, s, es);
    var outs := Outs(c, s, es, held, 0);
    var history := ArrivalOrder(c, s, es);
    InitInv(c, s);
    RunKeeps(c, s, es);
    LiveOnce(c, f, history, NumsOf(outs));
    InitQueued(c, s, es);
    DirectPicked(c, s, es, held, 0);
    HeldPicked(c, s, es, held, 0);
    hide Init, Inv, Run, Exec, HeldBack, Outs, Queued, Drains, AsHistory, AsLive, Above, Picked, Direct, Overtakes;
    hide NumsOf, Distinct, Threshold, InHistory, Rising;
    SplitIff(outs);
    AllGone(f, held, Drains(es));
    assert held[0..|held|] == held;
  }

  lemma AllGone(f: State, held: seq<int>, n: nat)
    requires Joined(f) && n <= |held| && f.sub.pending == StillHeld(f, held, n)
    ensures n == |held|
  {
    assert |held[n..]| == |held| - n;
  }

  const SECOND := Row(2, Stdout([]))

  /** Two rows flushed in order, the first of them held back, the second handed over just after the release. */
  lemma SecondOvertakes() returns (c: Config, es: seq<Event>, f: State)
    ensures c.filter.AsWritten? && Path(c, es, f, true)
    ensures Joined(f) && f.sub.sent == [Live(2), Live(1)]
  {
    c := Config(1, 500, AsWritten);
    es, f := FirstHeld(c);
    hide Path, PageAt, MoreAt, HistoryOf, Inserted;
    es, f := Step(c, es, f, true, Release);
    es, f := Step(c, es, f, true, Deliver(2));
    es, f := Step(c, es, f, true, Drain);
  }

  lemma FirstHeld(c: Config) returns (es: seq<Event>, f: State)
    requires c == Config(1, 500, AsWritten)
    ensures Path(c, es, f, true) && f.sub == Sub(Replayed(0, 0, false), [1], [])
    ensures At(f, 2, Notifying(false)) && f.flights[2].row == SECOND
  {
    f := FRESH;
    es := [];
    assert Path(c, es, f, true);
    assert PageAt(c, [], 1) == [] && !MoreAt(c, [], 1) && HistoryOf([]) == [];
    assert [ONE][1..] == [] && Inserted([], ONE) == [ONE] && Inserted([ONE], SECOND) == [ONE, SECOND];
    hide Path, PageAt, MoreAt, HistoryOf, Inserted;
    es, f := Step(c, es, f, true, Register);
    es, f := Step(c, es, f, true, ReadPage);
    es, f := FlushOne(c, es, f);
    es, f := Step(c, es, f, true, Deliver(1));
    es, f := Step(c, es, f, true, Alloc(SECOND.body));
    es, f := Step(c, es, f, true, Persist(2));
    es, f := Step(c, es, f, true, Snapshot(2));
  }

  lemma FlushOne(c: Config, before: seq<Event>, s: State) returns (es: seq<Event>, f: State)
    requires Path(c, before, s, true) && s == State(0, [], map[], Sub(Replayed(0, 0, false), [], []))
    ensures Path(c, es, f, true)
    ensures f == State(1, [ONE], map[1 := Flight(ONE, Notifying(false))], Sub(Replayed(0, 0, false), [], []))
  {
    assert Inserted([], ONE) == [ONE];
    hide Path, PageAt, MoreAt, HistoryOf, Inserted;
    es, f := Step(c, before, s, true, Alloc(ONE.body));
    es, f := Step(c, es, f, true, Persist(1));
    es, f := Step(c, es, f, true, Snapshot(1));
    assert f.flights == map[1 := Flight(ONE, Notifying(false))];
  }

  // ---- where the pages ended ----

  /** The number a page covers up to. */
  function PageEnd(c: Config, s: State, e: Event): seq<int>
    requires Enabled(s, e)
  {
    if e.ReadPage? then
      var page := PageAt(c, s.table, s.sub.phase.cursor);
      [if page == [] then s.sub.phase.cursor - 1 else page[|page| - 1].num]
    else []
  }

  function PageEnds(c: Config, s: State, es: seq<Event>): seq<int>
    requires Run(c, s, es)
    decreases es
  {
    if es == [] then [] else PageEnd(c, s, es[0]) + PageEnds(c, Next(c, s, es[0]), es[1..])
  }

  /** Counted from the last, the number the n-th page ended on; just below the start when there is none. */
  function FromLast(c: Config, ends: seq<int>, n: nat): int {
    if n < |ends| then ends[|ends| - 1 - n] else c.start - 1
  }

  /** Each page starts just above the one before; the replay reports where the page before the final one ended. */
  predicate Follows(c: Config, p: Phase, ends: seq<int>) {
    match p
    case Unsubscribed => ends == []
    case Replaying(cursor) => cursor == FromLast(c, ends, 0) + 1
    case Replayed(last, top, failed) =>
      last == FromLast(c, ends, if failed then 0 else 1) && top == FromLast(c, ends, 0)
    case Released(last, top, failed) =>
      last == FromLast(c, ends, if failed then 0 else 1) && top == FromLast(c, ends, 0)
  }

  lemma StepEnds(c: Config, s: State, e: Event, ends: seq<int>)
    requires Enabled(s, e) && Follows(c, s.sub.phase, ends)
    ensures Follows(c, Next(c, s, e).sub.phase, ends + PageEnd(c, s, e))
  {
    if e.ReadPage? { assert MoreAt(c, s.table, s.sub.phase.cursor) ==> PageAt(c, s.table, s.sub.phase.cursor) != []; }
    hide PageAt, MoreAt, HistoryOf, Inserted, Threshold;
    NothingAdded(ends);
  }

  lemma {:induction false} RunEnds(c: Config, s: State, es: seq<Event>, ends: seq<int>)
    requires Run(c, s, es) && Follows(c, s.sub.phase, ends)
    ensures Follows(c, Exec(c, s, es).sub.phase, ends + PageEnds(c, s, es))
    decreases es
  {
    if es == [] {
      NothingAdded(ends);
    } else {
      StepEnds(c, s, es[0], ends);
      hide Follows, PageEnd, Next, Enabled;
      RunEnds(c, Next(c, s, es[0]), es[1..], ends + PageEnd(c, s, es[0]));
      Regroup(ends, PageEnd(c, s, es[0]), PageEnds(c, Next(c, s, es[0]), es[1..]));
    }
  }

  /** In every run the number the replay reports is the last of the page before the final one. */
  lemma ReportedLast(c: Config, s: State, es: seq<Event>)
    requires Init(s) && Run(c, s, es)
    ensures Follows(c, Exec(c, s, es).sub.phase, PageEnds(c, s, es))
  {
    RunEnds(c, s, es, []);
    NothingAdded(PageEnds(c, s, es));
  }
}
