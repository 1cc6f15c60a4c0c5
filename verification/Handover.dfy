/**
 * Joining a running terminal: a subscriber registers, replays the persisted log page by page and then
 * switches to live output, while any number of flushers allocate numbers, persist rows and notify.
 */
module Handover {
  import opened Basics
  import opened LogRepo
  import opened Replay

  // ---- the subscriber ----

  /** What the viewer is sent, by number: out of a history page, or as live output. */
  datatype Sent = History(num: int) | Live(num: int)

  /**
   * `top` is the highest number a page has covered. Until the replay ends it is one below the next
   * page's start; after the final page it may lie beyond `last`, the number the replay reports.
   */
  datatype Phase =
    | Unsubscribed
    | Replaying(cursor: int)
    | Replayed(last: int, top: int, failed: bool)
    | Released(last: int, top: int, failed: bool)

  /** pending: chunks held back during the replay, then (once released) those still to be gone through. */
  datatype Sub = Sub(phase: Phase, pending: seq<int>, sent: seq<Sent>)

  /** AsWritten is the code's filtering; Intended compares both live paths with `top`. */
  datatype Filter = AsWritten | Intended

  datatype Config = Config(start: int, limit: int, filter: Filter)

  function Threshold(c: Config, p: Phase): int
    requires p.Released?
  {
    if c.filter.AsWritten? then p.last else p.top
  }

  function HistoryOf(page: seq<Row>): seq<Sent> {
    if page == [] then []
    else (if Displayed(page[0]) then [History(page[0].num)] else []) + HistoryOf(page[1..])
  }

  function OnRegister(c: Config, s: Sub): Sub {
    s.(phase := Replaying(c.start))
  }

  /** The live handler: hold back while replaying, afterwards send directly. */
  function OnChunk(c: Config, s: Sub, row: Row): Sub {
    if !row.body.Stdout? then s
    else if !s.phase.Released? then s.(pending := s.pending + [row.num])
    else if c.filter.Intended? && row.num <= s.phase.top then s
    else s.(sent := s.sent + [Live(row.num)])
  }

  function PageAt(c: Config, table: seq<Row>, cursor: int): seq<Row> {
    var ahead := From(table, cursor);
    ahead[..Min(EffectiveLimit(c.limit), |ahead|)]
  }

  predicate MoreAt(c: Config, table: seq<Row>, cursor: int) {
    |From(table, cursor)| > EffectiveLimit(c.limit)
  }

  function OnPage(c: Config, s: Sub, table: seq<Row>): Sub
    requires s.phase.Replaying?
  {
    var cursor := s.phase.cursor;
    var page := PageAt(c, table, cursor);
    var sent := s.sent + HistoryOf(page);
    if MoreAt(c, table, cursor) then
      s.(phase := Replaying(page[|page| - 1].num + 1), sent := sent)
    else
      var top := if page == [] then cursor - 1 else page[|page| - 1].num;
      s.(phase := Replayed(cursor - 1, top, false), sent := sent)
  }

  function OnReadError(s: Sub): Sub
    requires s.phase.Replaying?
  {
    s.(phase := Replayed(s.phase.cursor - 1, s.phase.cursor - 1, true))
  }

  function OnRelease(s: Sub): Sub
    requires s.phase.Replayed?
  {
    s.(phase := Released(s.phase.last, s.phase.top, s.phase.failed))
  }

  /** One turn of the loop over the chunks held back. */
  function OnDrain(c: Config, s: Sub): Sub
    requires s.phase.Released? && s.pending != []
  {
    var q := s.pending[0];
    s.(pending := s.pending[1..],
       sent := if q <= Threshold(c, s.phase) then s.sent else s.sent + [Live(q)])
  }

  // ---- the flushers and the whole machine ----

  /** `late`: the row reached the table only after a page covering its number had been read. */
  datatype Stage =
    | Allocated
    | Failed
    | Persisted(late: bool)
    | Skipped(late: bool)                   // notified before the subscriber registered
    | Notifying(late: bool)                 // the subscriber is among the handlers about to be called
    | Delivered(late: bool, held: bool)     // handler ran; `held` if that was before the release

  datatype Flight = Flight(row: Row, stage: Stage)

  datatype State = State(counter: int, table: seq<Row>, flights: map<int, Flight>, sub: Sub)

  datatype Event =
    | Alloc(body: Body)
    | Persist(num: int)
    | PersistError(num: int)
    | Snapshot(num: int)
    | Deliver(num: int)
    | Register
    | ReadPage
    | ReadError
    | Release
    | Drain

  predicate InTable(st: Stage) {
    !st.Allocated? && !st.Failed?
  }

  predicate At(s: State, q: int, st: Stage) {
    q in s.flights && s.flights[q].stage == st
  }

  predicate Enabled(s: State, e: Event) {
    match e
    case Alloc(_) => true
    case Persist(q) => At(s, q, Allocated)
    case PersistError(q) => At(s, q, Allocated)
    case Snapshot(q) => q in s.flights && s.flights[q].stage.Persisted?
    case Deliver(q) => q in s.flights && s.flights[q].stage.Notifying?
    case Register => s.sub.phase.Unsubscribed?
    case ReadPage => s.sub.phase.Replaying?
    case ReadError => s.sub.phase.Replaying?
    case Release => s.sub.phase.Replayed?
    case Drain => s.sub.phase.Released? && s.sub.pending != []
  }

  /** Numbers up to this one can no longer appear in a history page. */
  function Covered(c: Config, p: Phase): int {
    match p
    case Unsubscribed => c.start - 1
    case Replaying(cursor) => cursor - 1
    case Replayed(_, top, _) => top
    case Released(_, top, _) => top
  }

  predicate ReplayOver(p: Phase) {
    p.Replayed? || p.Released?
  }

  function Move(s: State, q: int, st: Stage): State
    requires q in s.flights
  {
    s.(flights := s.flights[q := s.flights[q].(stage := st)])
  }

  function Next(c: Config, s: State, e: Event): State
    requires Enabled(s, e)
  {
    match e
    case Alloc(body) =>
      var q := s.counter + 1;
      s.(counter := q, flights := s.flights[q := Flight(Row(q, body), Allocated)])
    case Persist(q) =>
      Move(s, q, Persisted(q <= Covered(c, s.sub.phase))).(table := Inserted(s.table, s.flights[q].row))
    case PersistError(q) => Move(s, q, Failed)
    case Snapshot(q) =>
      var late := s.flights[q].stage.late;
      Move(s, q, if s.sub.phase.Unsubscribed? then Skipped(late) else Notifying(late))
    case Deliver(q) =>
      Move(s, q, Delivered(s.flights[q].stage.late, !s.sub.phase.Released?))
        .(sub := OnChunk(c, s.sub, s.flights[q].row))
    case Register => s.(sub := OnRegister(c, s.sub))
    case ReadPage => s.(sub := OnPage(c, s.sub, s.table))
    case ReadError => s.(sub := OnReadError(s.sub))
    case Release => s.(sub := OnRelease(s.sub))
    case Drain => s.(sub := OnDrain(c, s.sub))
  }

  /** Before anyone joins: a log left by an earlier run, its counter seeded from the highest number. */
  predicate Init(s: State) {
    && Ascending(s.table)
    && (forall r :: r in s.table ==> r.num <= s.counter)
    && s.flights.Keys == Nums(s.table)
    && (forall r :: r in s.table ==> s.flights[r.num] == Flight(r, Skipped(false)))
    && s.sub == Sub(Unsubscribed, [], [])
  }

  predicate Run(c: Config, s: State, es: seq<Event>)
    decreases es {
    es == [] || (Enabled(s, es[0]) && Run(c, Next(c, s, es[0]), es[1..]))
  }

  function Exec(c: Config, s: State, es: seq<Event>): State
    requires Run(c, s, es)
    decreases es
  {
    if es == [] then s else Exec(c, Next(c, s, es[0]), es[1..])
  }

  /** Every row is persisted above all rows already in the table. */
  predicate InOrder(c: Config, s: State, es: seq<Event>)
    requires Run(c, s, es)
    decreases es
  {
    es == [] ||
    (&& (es[0].Persist? ==> forall r :: r in s.table ==> r.num < es[0].num)
     && InOrder(c, Next(c, s, es[0]), es[1..]))
  }

  /** A chunk counted in what was sent. */
  function Times(s: State, m: Sent): nat {
    multiset(s.sub.sent)[m]
  }

  function TimesSent(s: State, q: int): nat {
    Times(s, History(q)) + Times(s, Live(q))
  }

  // ---- what every step keeps ----

  /** The table is exactly the rows of the flights that were persisted. */
  ghost predicate TableOk(s: State) {
    && Ascending(s.table)
    && (forall q :: q in s.flights ==> s.flights[q].row.num == q && q <= s.counter)
    && (forall r :: r in s.table ==> r.num in s.flights && s.flights[r.num].row == r && InTable(s.flights[r.num].stage))
    && (forall q :: q in s.flights && InTable(s.flights[q].stage) ==> s.flights[q].row in s.table)
  }

  ghost predicate PhaseOk(c: Config, s: State) {
    var p := s.sub.phase;
    && c.start - 1 <= Covered(c, p)
    && (Covered(c, p) >= c.start ==> Covered(c, p) in Nums(s.table))
    && (ReplayOver(p) ==> p.last <= p.top)
  }

  predicate Readable(s: State, q: int) {
    q in s.flights && InTable(s.flights[q].stage)
  }

  predicate IsStdout(s: State, q: int) {
    q in s.flights && s.flights[q].row.body.Stdout?
  }

  /** In a page exactly when its turn came with the row there: covered, and not late. */
  predicate InHistory(c: Config, s: State, q: int) {
    c.start <= q <= Covered(c, s.sub.phase) && Readable(s, q) && Displayed(s.flights[q].row) && !s.flights[q].stage.late
  }

  predicate Held(s: State, q: int) {
    IsStdout(s, q) && s.flights[q].stage.Delivered? && s.flights[q].stage.held
  }

  predicate Direct(s: State, q: int) {
    IsStdout(s, q) && s.flights[q].stage.Delivered? && !s.flights[q].stage.held
  }

  /** Sent as live output, once the chunks held back have been gone through. */
  predicate ByLive(c: Config, s: State, q: int)
    requires s.sub.phase.Released?
  {
    || (Held(s, q) && q > Threshold(c, s.sub.phase))
    || (Direct(s, q) && (c.filter.Intended? ==> q > s.sub.phase.top))
  }

  ghost predicate HistoryOk(c: Config, s: State, q: int) {
    Times(s, History(q)) == One(InHistory(c, s, q))
  }

  ghost predicate LiveOk(c: Config, s: State, q: int) {
    var waiting := multiset(s.sub.pending)[q];
    if s.sub.phase.Released? then
      Times(s, Live(q)) + (if q > Threshold(c, s.sub.phase) then waiting else 0) == One(ByLive(c, s, q))
    else
      Times(s, Live(q)) == 0 && waiting == One(Held(s, q)) && !Direct(s, q)
  }

  ghost predicate LateOk(c: Config, s: State, q: int) {
    Readable(s, q) ==>
      var p, st := s.sub.phase, s.flights[q].stage;
      && (st.late ==> q <= Covered(c, p))
      && (st.late && q >= c.start ==> !p.Unsubscribed? && !st.Skipped?)
      && (st.Skipped? && ReplayOver(p) && !p.failed ==> q <= p.top)
  }

  ghost predicate Inv(c: Config, s: State) {
    && TableOk(s)
    && PhaseOk(c, s)
    && (forall q :: HistoryOk(c, s, q))
    && (forall q :: LiveOk(c, s, q))
    && (forall q :: LateOk(c, s, q))
  }

  lemma InitInv(c: Config, s: State)
    requires Init(s)
    ensures Inv(c, s)
  {
    forall r | r in s.table ensures r.num in s.flights && s.flights[r.num].row == r { assert r.num in Nums(s.table); }
    forall q | q in s.flights
      ensures s.flights[q].row in s.table && s.flights[q].row.num == q
      ensures s.flights[q] == Flight(s.flights[q].row, Skipped(false))
    {
      var r :| r in s.table && r.num == q;
    }
  }

  lemma {:induction false} HistoryOfTimes(page: seq<Row>, q: int)
    requires Ascending(page)
    ensures multiset(HistoryOf(page))[Live(q)] == 0
    ensures multiset(HistoryOf(page))[History(q)] == One(exists r :: r in page && Displayed(r) && r.num == q)
  {
    if page != [] {
      var head := if Displayed(page[0]) then [History(page[0].num)] else [];
      var tail := page[1..];
      assert page == [page[0]] + tail;
      HistoryOfTimes(tail, q);
      assert HistoryOf(page) == head + HistoryOf(tail);
      hide HistoryOf;
      assert multiset(HistoryOf(page)) == multiset(head) + multiset(HistoryOf(tail));
      assert forall r :: r in tail ==> r.num > page[0].num;
      assert forall r :: r in page <==> r == page[0] || r in tail;
    }
  }

  /** A page holds exactly the rows of the table between its start and the number it covers up to. */
  lemma PageMembers(c: Config, s: Sub, table: seq<Row>)
    requires Ascending(table) && s.phase.Replaying?
    ensures var page, cursor := PageAt(c, table, s.phase.cursor), s.phase.cursor;
            var covered := Covered(c, OnPage(c, s, table).phase);
            && Ascending(page)
            && (forall r :: r in page <==> r in table && cursor <= r.num <= covered)
            && (!MoreAt(c, table, cursor) ==> forall r :: r in table ==> r.num <= covered)
            && covered >= cursor - 1
            && (covered >= cursor ==> covered in Nums(table))
  {
    hide Displayed, HistoryOf;
    var cursor := s.phase.cursor;
    FromExact(table, cursor);
    var ahead, page := From(table, cursor), PageAt(c, table, cursor);
    PrefixMembers(ahead, |page|);
    if page != [] { assert page[|page| - 1] in page; }
  }

  /** The first n rows of an ascending log are those numbered up to the last of them. */
  lemma PrefixMembers(ahead: seq<Row>, n: nat)
    requires Ascending(ahead) && n <= |ahead|
    ensures Ascending(ahead[..n])
    ensures n > 0 ==> forall r :: r in ahead[..n] <==> r in ahead && r.num <= ahead[n - 1].num
    ensures n == |ahead| ==> ahead[..n] == ahead
  {
    if n > 0 {
      forall r | r in ahead && r.num <= ahead[n - 1].num ensures r in ahead[..n] {
        var i :| 0 <= i < |ahead| && ahead[i] == r;
        assert i < n;
        assert ahead[..n][i] == r;
      }
    }
  }

  lemma PageHas(c: Config, s: Sub, table: seq<Row>, r: Row)
    requires Ascending(table) && s.phase.Replaying?
    requires r in table && s.phase.cursor <= r.num <= Covered(c, OnPage(c, s, table).phase)
    ensures r in PageAt(c, table, s.phase.cursor)
  {
    PageMembers(c, s, table);
    hide *;
  }

  lemma PageKeeps(c: Config, s: State)
    requires Inv(c, s) && Enabled(s, ReadPage)
    ensures Inv(c, Next(c, s, ReadPage))
  {
    var n := Next(c, s, ReadPage);
    var cursor := s.sub.phase.cursor;
    var page := PageAt(c, s.table, cursor);
    PageMembers(c, s.sub, s.table);
    assert multiset(n.sub.sent) == multiset(s.sub.sent) + multiset(HistoryOf(page));
    forall q ensures HistoryOk(c, n, q) && LiveOk(c, n, q) && LateOk(c, n, q) {
      assert HistoryOk(c, s, q) && LiveOk(c, s, q) && LateOk(c, s, q);
      HistoryOfTimes(page, q);
      if Readable(n, q) && cursor <= q <= Covered(c, n.sub.phase) {
        PageHas(c, s.sub, s.table, n.flights[q].row);
      }
      if exists r :: r in page && Displayed(r) && r.num == q {
        var r :| r in page && Displayed(r) && r.num == q;
      }
    }
  }

  lemma FlightOne(c: Config, s: State, e: Event, q: int)
    requires TableOk(s) && Enabled(s, e) && HistoryOk(c, s, q) && LiveOk(c, s, q) && LateOk(c, s, q)
    requires e.Alloc? || e.PersistError? || e.Snapshot?
    ensures var n := Next(c, s, e); HistoryOk(c, n, q) && LiveOk(c, n, q) && LateOk(c, n, q)
  {
    hide Displayed, Threshold;
  }

  lemma FlightKeeps(c: Config, s: State, e: Event)
    requires Inv(c, s) && Enabled(s, e)
    requires e.Alloc? || e.PersistError? || e.Snapshot?
    ensures Inv(c, Next(c, s, e))
  {
    hide HistoryOk, LiveOk, LateOk;
    var n := Next(c, s, e);
    forall q ensures HistoryOk(c, n, q) && LiveOk(c, n, q) && LateOk(c, n, q) {
      FlightOne(c, s, e, q);
    }
  }

  /** The subscriber after a chunk is handed over, as far as the counts go. */
  lemma OnChunkCounts(c: Config, s: Sub, row: Row, m: Sent, q: int)
    ensures var n := OnChunk(c, s, row);
            && n.phase == s.phase
            && multiset(n.sent)[m] == multiset(s.sent)[m]
               + One(&& row.body.Stdout? && s.phase.Released? && m == Live(row.num)
                     && (c.filter.AsWritten? || row.num > s.phase.top))
            && multiset(n.pending)[q] == multiset(s.pending)[q]
               + One(row.body.Stdout? && !s.phase.Released? && q == row.num)
  {
    assert multiset(s.sent + [Live(row.num)]) == multiset(s.sent) + multiset([Live(row.num)]);
    assert multiset(s.pending + [row.num]) == multiset(s.pending) + multiset([row.num]);
  }

  lemma DeliverOne(c: Config, s: State, num: int, q: int)
    requires TableOk(s) && Enabled(s, Deliver(num)) && HistoryOk(c, s, q) && LiveOk(c, s, q) && LateOk(c, s, q)
    ensures var n := Next(c, s, Deliver(num)); HistoryOk(c, n, q) && LiveOk(c, n, q) && LateOk(c, n, q)
  {
    assert s.flights[num].row.num == num;
    hide TableOk, OnChunk, Displayed;
    OnChunkCounts(c, s.sub, s.flights[num].row, History(q), q);
    OnChunkCounts(c, s.sub, s.flights[num].row, Live(q), q);
  }

  lemma DeliverKeeps(c: Config, s: State, e: Event)
    requires Inv(c, s) && Enabled(s, e) && e.Deliver?
    ensures Inv(c, Next(c, s, e))
  {
    hide HistoryOk, LiveOk, LateOk, Displayed;
    var n := Next(c, s, e);
    forall q ensures HistoryOk(c, n, q) && LiveOk(c, n, q) && LateOk(c, n, q) {
      DeliverOne(c, s, e.num, q);
    }
  }

  lemma PersistKeeps(c: Config, s: State, e: Event)
    requires Inv(c, s) && Enabled(s, e) && e.Persist?
    ensures Inv(c, Next(c, s, e))
  {
    var n := Next(c, s, e);
    var row := s.flights[e.num].row;
    assert row.num !in Nums(s.table);
    InsertedExact(s.table, row);
    forall q ensures HistoryOk(c, n, q) && LiveOk(c, n, q) && LateOk(c, n, q) {
      assert HistoryOk(c, s, q) && LiveOk(c, s, q) && LateOk(c, s, q);
    }
  }

  lemma SubKeeps(c: Config, s: State, e: Event)
    requires Inv(c, s) && Enabled(s, e)
    requires e.Register? || e.ReadError? || e.Release?
    ensures Inv(c, Next(c, s, e))
  {
    var n := Next(c, s, e);
    forall q ensures HistoryOk(c, n, q) && LiveOk(c, n, q) && LateOk(c, n, q) {
      assert HistoryOk(c, s, q) && LiveOk(c, s, q) && LateOk(c, s, q);
    }
  }

  /** The subscriber after one turn of the drain loop, as far as the counts go. */
  lemma OnDrainCounts(c: Config, s: Sub, m: Sent, q: int)
    requires s.phase.Released? && s.pending != []
    ensures var n, head := OnDrain(c, s), s.pending[0];
            && n.phase == s.phase
            && multiset(n.sent)[m] == multiset(s.sent)[m] + One(m == Live(head) && head > Threshold(c, s.phase))
            && multiset(s.pending)[q] == multiset(n.pending)[q] + One(q == head)
  {
    hide Threshold;
    var head := s.pending[0];
    assert s.pending == [head] + s.pending[1..];
    assert multiset(s.pending) == multiset([head]) + multiset(s.pending[1..]);
    assert multiset(s.sent + [Live(head)]) == multiset(s.sent) + multiset([Live(head)]);
  }

  lemma DrainOne(c: Config, s: State, q: int)
    requires Enabled(s, Drain) && HistoryOk(c, s, q) && LiveOk(c, s, q) && LateOk(c, s, q)
    ensures var n := Next(c, s, Drain); HistoryOk(c, n, q) && LiveOk(c, n, q) && LateOk(c, n, q)
  {
    hide Displayed, OnDrain, Threshold;
    OnDrainCounts(c, s.sub, History(q), q);
    OnDrainCounts(c, s.sub, Live(q), q);
  }

  lemma DrainKeeps(c: Config, s: State, e: Event)
    requires Inv(c, s) && Enabled(s, e) && e.Drain?
    ensures Inv(c, Next(c, s, e))
  {
    hide HistoryOk, LiveOk, LateOk;
    var n := Next(c, s, e);
    forall q ensures HistoryOk(c, n, q) && LiveOk(c, n, q) && LateOk(c, n, q) {
      DrainOne(c, s, q);
    }
  }

  lemma NextKeeps(c: Config, s: State, e: Event)
    requires Inv(c, s) && Enabled(s, e)
    ensures Inv(c, Next(c, s, e))
  {
    match e
    case ReadPage => PageKeeps(c, s);
    case Persist(_) => PersistKeeps(c, s, e);
    case Alloc(_) => FlightKeeps(c, s, e);
    case PersistError(_) => FlightKeeps(c, s, e);
    case Snapshot(_) => FlightKeeps(c, s, e);
    case Deliver(_) => DeliverKeeps(c, s, e);
    case Drain => DrainKeeps(c, s, e);
    case _ => SubKeeps(c, s, e);
  }

  lemma {:induction false} RunKeeps(c: Config, s: State, es: seq<Event>)
    requires Inv(c, s) && Run(c, s, es)
    ensures Inv(c, Exec(c, s, es))
    decreases es
  {
    if es != [] {
      NextKeeps(c, s, es[0]);
      RunKeeps(c, Next(c, s, es[0]), es[1..]);
    }
  }

  // ---- what the viewer gets ----

  /** The replay is over and nothing held back is left. */
  predicate Joined(s: State) {
    s.sub.phase.Released? && s.sub.pending == []
  }

  /** A stdout chunk the subscriber asked for, whose persist-then-notify has run to its end. */
  predicate Settled(c: Config, s: State, q: int) {
    q >= c.start && IsStdout(s, q) && (s.flights[q].stage.Skipped? || s.flights[q].stage.Delivered?)
  }

  /** Never in a page and filtered out, or unread when a read failed. */
  predicate Lost(s: State, q: int)
    requires Joined(s) && q in s.flights
  {
    var p, st := s.sub.phase, s.flights[q].stage;
    || (st.Delivered? && st.late && st.held && q <= p.last)
    || (st.Skipped? && p.failed && q > p.top)
  }

  /** Read in a page although its notification reached the subscriber, in one of two ways. */
  predicate Doubled(s: State, q: int)
    requires Joined(s) && q in s.flights
  {
    var p, st := s.sub.phase, s.flights[q].stage;
    q <= p.top && st.Delivered? && !st.late && (st.held ==> q > p.last)
  }

  /** Exact count for every run of the code as written, whatever the order rows persist in. */
  lemma SentExactly(c: Config, s: State, es: seq<Event>, q: int)
    requires Init(s) && Run(c, s, es) && c.filter.AsWritten?
    requires Joined(Exec(c, s, es)) && Settled(c, Exec(c, s, es), q)
    ensures var f := Exec(c, s, es);
            TimesSent(f, q) == if Lost(f, q) then 0 else if Doubled(f, q) then 2 else 1
  {
    InitInv(c, s);
    RunKeeps(c, s, es);
    var f := Exec(c, s, es);
    assert HistoryOk(c, f, q) && LiveOk(c, f, q) && LateOk(c, f, q);
  }

  ghost predicate NoneLate(c: Config, s: State) {
    forall q :: Readable(s, q) && q >= c.start ==> !s.flights[q].stage.late
  }

  lemma {:induction false} InOrderNoneLate(c: Config, s: State, es: seq<Event>)
    requires Inv(c, s) && NoneLate(c, s) && Run(c, s, es) && InOrder(c, s, es)
    ensures NoneLate(c, Exec(c, s, es))
    decreases es
  {
    if es != [] {
      NextKeeps(c, s, es[0]);
      var n := Next(c, s, es[0]);
      forall q | Readable(n, q) && q >= c.start ensures !n.flights[q].stage.late {
        if Readable(s, q) { assert !s.flights[q].stage.late; }
      }
      InOrderNoneLate(c, n, es[1..]);
    }
  }

  /** Rows persisting in number order, no chunk is lost unless a page read fails before reaching it. */
  lemma NothingLost(c: Config, s: State, es: seq<Event>, q: int)
    requires Init(s) && Run(c, s, es) && InOrder(c, s, es) && c.filter.AsWritten?
    requires Joined(Exec(c, s, es)) && Settled(c, Exec(c, s, es), q)
    ensures var f := Exec(c, s, es);
            TimesSent(f, q) == 0 <==> f.sub.phase.failed && f.flights[q].stage.Skipped? && q > f.sub.phase.top
  {
    InitInv(c, s);
    InitNoneLate(c, s);
    InOrderNoneLate(c, s, es);
    SentExactly(c, s, es, q);
    RunKeeps(c, s, es);
    assert LateOk(c, Exec(c, s, es), q);
  }

  lemma InitNoneLate(c: Config, s: State)
    requires Init(s)
    ensures NoneLate(c, s)
  {
    forall q | Readable(s, q) ensures !s.flights[q].stage.late {
      var r :| r in s.table && r.num == q;
    }
  }

  /**
   * Comparing both live paths with the highest number replayed, nothing would ever be sent twice; in number
   * order and without a failed read every chunk would be sent exactly once.
   */
  lemma IntendedExactly(c: Config, s: State, es: seq<Event>, q: int)
    requires Init(s) && Run(c, s, es) && c.filter.Intended?
    requires Joined(Exec(c, s, es)) && Settled(c, Exec(c, s, es), q)
    ensures var f := Exec(c, s, es);
            var p, st := f.sub.phase, f.flights[q].stage;
            && TimesSent(f, q)
               == (if (st.Delivered? && st.late) || (st.Skipped? && p.failed && q > p.top) then 0 else 1)
            && (InOrder(c, s, es) && !p.failed ==> TimesSent(f, q) == 1)
  {
    InitInv(c, s);
    RunKeeps(c, s, es);
    var f := Exec(c, s, es);
    assert HistoryOk(c, f, q) && LiveOk(c, f, q) && LateOk(c, f, q);
    if InOrder(c, s, es) {
      InitNoneLate(c, s);
      InOrderNoneLate(c, s, es);
    }
  }

  /** The chunks a subscriber never hears of are exactly those already notified when it registered. */
  lemma {:induction false} HeardIff(c: Config, s: State, es: seq<Event>, q: int)
    requires Inv(c, s) && !s.sub.phase.Unsubscribed? && Run(c, s, es)
    ensures var f := Exec(c, s, es);
            (q in f.flights && f.flights[q].stage.Skipped?) <==> (q in s.flights && s.flights[q].stage.Skipped?)
    decreases es
  {
    if es != [] {
      NextKeeps(c, s, es[0]);
      HeardStep(c, s, es[0], q);
      hide Inv, Next, Enabled;
      HeardIff(c, Next(c, s, es[0]), es[1..], q);
    }
  }

  lemma HeardStep(c: Config, s: State, e: Event, q: int)
    requires TableOk(s) && !s.sub.phase.Unsubscribed? && Enabled(s, e)
    ensures var n := Next(c, s, e);
            && !n.sub.phase.Unsubscribed?
            && ((q in n.flights && n.flights[q].stage.Skipped?) <==> (q in s.flights && s.flights[q].stage.Skipped?))
  {
    hide Inserted, PageAt, MoreAt, HistoryOf, Threshold;
  }

  const FRESH := State(0, [], map[], Sub(Unsubscribed, [], []))

  /** One more event at the end of a run from the fresh state. */
  lemma {:induction false} Extend(c: Config, s: State, es: seq<Event>, e: Event)
    requires Run(c, s, es) && Enabled(Exec(c, s, es), e)
    ensures Run(c, s, es + [e]) && Exec(c, s, es + [e]) == Next(c, Exec(c, s, es), e)
    ensures InOrder(c, s, es + [e]) <==>
              InOrder(c, s, es) && (e.Persist? ==> forall r :: r in Exec(c, s, es).table ==> r.num < e.num)
    decreases es
  {
    var all := es + [e];
    if es == [] {
      assert all[1..] == [];
    } else {
      assert all[1..] == es[1..] + [e];
      Extend(c, Next(c, s, es[0]), es[1..], e);
    }
  }

  /** A run from the fresh log, to state f. */
  ghost predicate Path(c: Config, es: seq<Event>, f: State, ordered: bool) {
    Init(FRESH) && Run(c, FRESH, es) && Exec(c, FRESH, es) == f && InOrder(c, FRESH, es) == ordered
  }

  lemma Step(c: Config, es: seq<Event>, s: State, ordered: bool, e: Event) returns (more: seq<Event>, n: State)
    requires Path(c, es, s, ordered) && Enabled(s, e)
    ensures n == Next(c, s, e)
    ensures Path(c, more, n, ordered && (e.Persist? ==> forall r :: r in s.table ==> r.num < e.num))
  {
    Extend(c, FRESH, es, e);
    more, n := es + [e], Next(c, s, e);
  }

  /** A stdout row flushed just after the subscriber registered, its handler not yet called. */
  lemma FirstChunkFlushed(c: Config) returns (es: seq<Event>)
    requires c.start == 1
    ensures Path(c, es, State(1, [ONE], map[1 := Flight(ONE, Notifying(false))], Sub(Replaying(1), [], [])), true)
  {
    var f := FRESH;
    es := [];
    assert Path(c, es, f, true);
    hide Path;
    es, f := Step(c, es, f, true, Register);
    es, f := Step(c, es, f, true, Alloc(ONE.body));
    es, f := Step(c, es, f, true, Persist(1));
    es, f := Step(c, es, f, true, Snapshot(1));
    assert f == State(1, [ONE], map[1 := Flight(ONE, Notifying(false))], Sub(Replaying(1), [], []));
  }

  const ONE := Row(1, Stdout([]))
  const TWO := Row(2, Stdin([]))
  const THREE := Row(3, Stdin([]))

  function Kept(r: Row, from: int): seq<Row> {
    if r.num >= from then [r] else []
  }

  lemma ScanOne(a: Row, from: int)
    ensures From([a], from) == Kept(a, from)
    ensures HistoryOf([a]) == if Displayed(a) then [History(a.num)] else []
  {
    assert [a][1..] == [];
  }

  lemma ScanTwo(a: Row, b: Row, from: int)
    ensures From([a, b], from) == Kept(a, from) + Kept(b, from)
  {
    assert [a, b][1..] == [b];
    ScanOne(b, from);
  }

  lemma ScanThree(a: Row, b: Row, c: Row, from: int)
    ensures From([a, b, c], from) == Kept(a, from) + (Kept(b, from) + Kept(c, from))
  {
    assert [a, b, c][1..] == [b, c];
    ScanTwo(b, c, from);
  }

  /** What the small tables below read as. */
  lemma SmallScans()
    ensures var c := Config(1, 500, AsWritten);
            PageAt(c, [ONE], 1) == [ONE] && !MoreAt(c, [ONE], 1)
    ensures var c := Config(1, 1, AsWritten);
            && PageAt(c, [ONE, TWO], 1) == [ONE] && MoreAt(c, [ONE, TWO], 1)
            && PageAt(c, [ONE, TWO], 2) == [TWO] && !MoreAt(c, [ONE, TWO], 2)
            && PageAt(c, [TWO, THREE], 1) == [TWO] && MoreAt(c, [TWO, THREE], 1)
            && PageAt(c, [ONE, TWO, THREE], 3) == [THREE] && !MoreAt(c, [ONE, TWO, THREE], 3)
    ensures HistoryOf([ONE]) == [History(1)] && HistoryOf([TWO]) == HistoryOf([THREE]) == []
    ensures Inserted([ONE], TWO) == [ONE, TWO] && Inserted([], TWO) == [TWO]
    ensures Inserted([TWO], THREE) == [TWO, THREE] && Inserted([TWO, THREE], ONE) == [ONE, TWO, THREE]
  {
    SmallInserts();
    hide From, HistoryOf, Inserted;
    ScanOne(ONE, 1);
    ScanOne(TWO, 1);
    ScanOne(THREE, 1);
    ScanTwo(ONE, TWO, 1);
    ScanTwo(ONE, TWO, 2);
    ScanTwo(TWO, THREE, 1);
    ScanThree(ONE, TWO, THREE, 3);
  }

  lemma SmallInserts()
    ensures Inserted([ONE], TWO) == [ONE, TWO] && Inserted([], TWO) == [TWO]
    ensures Inserted([TWO], THREE) == [TWO, THREE] && Inserted([TWO, THREE], ONE) == [ONE, TWO, THREE]
  {
    assert [ONE][1..] == [] && [TWO][1..] == [];
  }

  /** A chunk flushed while the replay is on, before its final page, is sent twice. */
  lemma HeldChunkSentTwice() returns (c: Config, es: seq<Event>, f: State)
    ensures c.filter.AsWritten? && Path(c, es, f, true)
    ensures Joined(f) && Settled(c, f, 1) && TimesSent(f, 1) == 2
  {
    hide Path, PageAt, MoreAt, HistoryOf, Inserted;
    c := Config(1, 500, AsWritten);
    es := FirstChunkFlushed(c);
    f := State(1, [ONE], map[1 := Flight(ONE, Notifying(false))], Sub(Replaying(1), [], []));
    SmallScans();
    es, f := Step(c, es, f, true, Deliver(1));
    es, f := Step(c, es, f, true, ReadPage);
    es, f := Step(c, es, f, true, Release);
    assert f.sub == Sub(Released(0, 1, false), [1], [History(1)]);
    es, f := Step(c, es, f, true, Drain);
    assert f.sub.sent == [History(1), Live(1)];
  }

  /** A chunk of a page well before the last is sent twice when its handler runs after the release. */
  lemma DirectChunkSentTwice() returns (c: Config, es: seq<Event>, f: State)
    ensures c.filter.AsWritten? && Path(c, es, f, true)
    ensures Joined(f) && Settled(c, f, 1) && f.sub.phase.last >= 1 && TimesSent(f, 1) == 2
  {
    hide Path, PageAt, MoreAt, HistoryOf, Inserted;
    c := Config(1, 1, AsWritten);
    es, f := DirectChunkPaged(c);
    SmallScans();
    es, f := Step(c, es, f, true, ReadPage);
    es, f := Step(c, es, f, true, Release);
    assert f.sub == Sub(Released(1, 2, false), [], [History(1)]);
    es, f := Step(c, es, f, true, Deliver(1));
    assert f.sub.sent == [History(1), Live(1)];
  }

  lemma DirectChunkPaged(c: Config) returns (es: seq<Event>, f: State)
    requires c == Config(1, 1, AsWritten)
    ensures Path(c, es, f, true)
    ensures f.table == [ONE, TWO] && f.sub == Sub(Replaying(2), [], [History(1)])
    ensures 1 in f.flights && f.flights[1] == Flight(ONE, Notifying(false))
  {
    hide Path, PageAt, MoreAt, HistoryOf, Inserted;
    es := FirstChunkFlushed(c);
    f := State(1, [ONE], map[1 := Flight(ONE, Notifying(false))], Sub(Replaying(1), [], []));
    SmallScans();
    es, f := Step(c, es, f, true, Alloc(TWO.body));
    es, f := Step(c, es, f, true, Persist(2));
    es, f := Step(c, es, f, true, ReadPage);
  }

  lemma ThreeAllocated(c: Config) returns (es: seq<Event>, f: State)
    requires c == Config(1, 1, AsWritten)
    ensures Path(c, es, f, true)
    ensures f.table == [] && f.sub == Sub(Replaying(1), [], []) && f.flights.Keys == {1, 2, 3}
    ensures f.flights[1] == Flight(ONE, Allocated) && f.flights[2] == Flight(TWO, Allocated)
            && f.flights[3] == Flight(THREE, Allocated)
  {
    f := FRESH;
    es := [];
    assert Path(c, es, f, true);
    hide Path, PageAt, MoreAt, HistoryOf, Inserted;
    es, f := Step(c, es, f, true, Register);
    es, f := Step(c, es, f, true, Alloc(ONE.body));
    es, f := Step(c, es, f, true, Alloc(TWO.body));
    es, f := Step(c, es, f, true, Alloc(THREE.body));
  }

  /** Rows 2 and 3 persist first. */
  lemma TwoPersisted(c: Config) returns (es: seq<Event>, f: State)
    requires c == Config(1, 1, AsWritten)
    ensures Path(c, es, f, true)
    ensures f.table == [TWO, THREE] && f.sub == Sub(Replaying(1), [], [])
    ensures At(f, 1, Allocated) && f.flights[1].row == ONE
  {
    hide Path, PageAt, MoreAt, HistoryOf, Inserted;
    SmallScans();
    es, f := ThreeAllocated(c);
    es, f := Step(c, es, f, true, Persist(2));
    es, f := Step(c, es, f, true, Persist(3));
  }

  /** The replay reads row 2 and moves past number 1, whose row then arrives behind the cursor. */
  lemma ReplayPastOne(c: Config) returns (es: seq<Event>, f: State)
    requires c == Config(1, 1, AsWritten)
    ensures Path(c, es, f, false)
    ensures f.table == [ONE, TWO, THREE] && f.sub == Sub(Replaying(3), [], [])
    ensures At(f, 1, Persisted(true)) && f.flights[1].row == ONE
  {
    hide Path, PageAt, MoreAt, HistoryOf, Inserted;
    SmallScans();
    es, f := TwoPersisted(c);
    assert TWO in f.table;
    es, f := Step(c, es, f, true, ReadPage);
    es, f := Step(c, es, f, true, Persist(1));
  }

  /** Its chunk is handed over while the replay is still on. */
  lemma LateChunkHeld(c: Config) returns (es: seq<Event>, f: State)
    requires c == Config(1, 1, AsWritten)
    ensures Path(c, es, f, false)
    ensures f.table == [ONE, TWO, THREE] && f.sub == Sub(Replaying(3), [1], [])
    ensures At(f, 1, Delivered(true, true)) && f.flights[1].row == ONE
  {
    hide Path;
    es, f := ReplayPastOne(c);
    es, f := Step(c, es, f, false, Snapshot(1));
    es, f := Step(c, es, f, false, Deliver(1));
  }

  /** Rows persisting out of number order: a chunk notified during the replay is never sent. */
  lemma OutOfOrderChunkLost() returns (c: Config, es: seq<Event>, f: State)
    ensures c.filter.AsWritten? && Path(c, es, f, false)
    ensures Joined(f) && Settled(c, f, 1) && !f.sub.phase.failed && TimesSent(f, 1) == 0
  {
    hide Path, PageAt, MoreAt, HistoryOf, Inserted;
    c := Config(1, 1, AsWritten);
    es, f := LateChunkHeld(c);
    SmallScans();
    es, f := Step(c, es, f, false, ReadPage);
    es, f := Step(c, es, f, false, Release);
    assert f.sub == Sub(Released(2, 3, false), [1], []);
    es, f := Step(c, es, f, false, Drain);
  }
}
