/**
 * Sequence numbers of one terminal across registrations: each takes its counter from the table, hands out
 * numbers to whoever holds it, and may still be in use for a while after it was closed.
 */
module Numbering {
  import opened Basics

  /** One registration: base is the table's highest number at that time. */
  datatype Gen = Gen(base: int, counter: int)

  datatype Ticket = Ticket(gen: nat, num: int)

  /**
   * users: registrations somebody can still draw from, the current one included.
   * flights: numbers drawn whose rows have not been inserted yet.
   * issued and rejected record every draw, and every insert refused because its number was taken.
   */
  datatype State = State(
    table: set<int>,
    gens: seq<Gen>,
    current: Option<nat>,
    users: set<nat>,
    flights: set<Ticket>,
    issued: seq<Ticket>,
    rejected: set<Ticket>)

  datatype Event =
    | Register(base: int)
    | Alloc(g: nat)
    | Insert(t: Ticket, ok: bool)    // ok: the database did not fail
    | Detach                         // Close forgets the registration, then waits for its aggregators
    | Retire(g: nat)                 // Close done: everything drawn from it has been dealt with

  predicate IsMax(table: set<int>, base: int) {
    (table == {} && base == 0) || (base in table && forall n :: n in table ==> n <= base)
  }

  predicate Enabled(s: State, e: Event) {
    match e
    case Register(base) => s.current.None? ==> IsMax(s.table, base)
    case Alloc(g) => g in s.users && g < |s.gens|
    case Insert(t, _) => t in s.flights
    case Detach => s.current.Some?
    case Retire(g) => g in s.users && s.current != Some(g) && (forall t :: t in s.flights ==> t.gen != g)
  }

  function Next(s: State, e: Event): State
    requires Enabled(s, e)
  {
    match e
    case Register(base) =>
      if s.current.Some? then s
      else s.(gens := s.gens + [Gen(base, base)], current := Some(|s.gens|), users := s.users + {|s.gens|})
    case Alloc(g) =>
      var t := Ticket(g, s.gens[g].counter + 1);
      s.(gens := s.gens[g := s.gens[g].(counter := t.num)], flights := s.flights + {t}, issued := s.issued + [t])
    case Insert(t, ok) =>
      s.(flights := s.flights - {t},
         table := if ok then s.table + {t.num} else s.table,
         rejected := if ok && t.num in s.table then s.rejected + {t} else s.rejected)
    case Detach => s.(current := None)
    case Retire(g) => s.(users := s.users - {g})
  }

  function Start(table: set<int>): State {
    State(table, [], None, {}, {}, [], {})
  }

  predicate Run(s: State, es: seq<Event>)
    decreases es
  {
    es == [] || (Enabled(s, es[0]) && Run(Next(s, es[0]), es[1..]))
  }

  function Exec(s: State, es: seq<Event>): State
    requires Run(s, es)
    decreases es
  {
    if es == [] then s else Exec(Next(s, es[0]), es[1..])
  }

  /** A new registration waits until the one before it has been closed completely. */
  predicate Orderly(s: State, es: seq<Event>)
    requires Run(s, es)
    decreases es
  {
    es == [] ||
    ((es[0].Register? && s.current.None? ==> s.users == {}) && Orderly(Next(s, es[0]), es[1..]))
  }

  predicate AllInserted(es: seq<Event>) {
    forall i :: 0 <= i < |es| && es[i].Insert? ==> es[i].ok
  }

  // ---- within one registration, whatever the interleaving ----

  function DrawnFrom(issued: seq<Ticket>, g: nat): seq<int> {
    if issued == [] then []
    else DrawnFrom(issued[..|issued| - 1], g) + if issued[|issued| - 1].gen == g then [issued[|issued| - 1].num] else []
  }

  /** The numbers drawn from a registration run on from its base, none left out and none twice. */
  ghost predicate GenOk(s: State, g: nat) {
    if g < |s.gens| then
      var ns := DrawnFrom(s.issued, g);
      && s.gens[g].counter == s.gens[g].base + |ns|
      && (forall i :: 0 <= i < |ns| ==> ns[i] == s.gens[g].base + i + 1)
    else DrawnFrom(s.issued, g) == []
  }

  lemma GenKeeps(s: State, e: Event, g: nat)
    requires GenOk(s, g) && Enabled(s, e)
    ensures GenOk(Next(s, e), g)
  {
    if e.Alloc? {
      var t := Ticket(e.g, s.gens[e.g].counter + 1);
      assert (s.issued + [t])[..|s.issued|] == s.issued;
    }
  }

  /** Over every run, orderly or not. */
  lemma {:induction false} DrawnInOrder(s: State, es: seq<Event>, g: nat)
    requires GenOk(s, g) && Run(s, es)
    ensures GenOk(Exec(s, es), g)
    decreases es
  {
    if es != [] {
      GenKeeps(s, es[0], g);
      DrawnInOrder(Next(s, es[0]), es[1..], g);
    }
  }

  // ---- across registrations ----

  function Top(s: State, k: int): int {
    if s.gens == [] then k else s.gens[|s.gens| - 1].counter
  }

  /** Only the latest registration is in use, and nothing drawn from it is left once it is not. */
  ghost predicate LatestOnly(s: State) {
    && (forall g :: g in s.users ==> g == |s.gens| - 1)
    && (s.current.Some? ==> s.current.value in s.users)
    && (forall t :: t in s.flights ==> t.gen == |s.gens| - 1 && t.gen in s.users)
  }

  predicate OnItsWay(s: State, n: int) {
    |s.gens| > 0 && Ticket(|s.gens| - 1, n) in s.flights
  }

  /** In the table or on its way there: exactly the numbers 1 to the counter, each in one place. */
  ghost predicate Gapless(s: State, k: int) {
    && 0 <= k <= Top(s, k)
    && (forall n :: n in s.table || OnItsWay(s, n) <==> 1 <= n <= Top(s, k))
    && (forall n :: n in s.table ==> !OnItsWay(s, n))
    && s.rejected == {}
    && |s.issued| == Top(s, k) - k
    && (forall i :: 0 <= i < |s.issued| ==> s.issued[i].num == k + i + 1)
  }

  ghost predicate Full(table: set<int>, k: int) {
    forall n :: n in table <==> 1 <= n <= k
  }

  lemma LatestKept(s: State, e: Event)
    requires LatestOnly(s) && Enabled(s, e) && (e.Register? && s.current.None? ==> s.users == {})
    ensures LatestOnly(Next(s, e))
  {
  }

  /** A registration after a complete close starts where the last one stopped. */
  lemma RegisterGapless(s: State, base: int, k: int)
    requires LatestOnly(s) && Gapless(s, k) && Enabled(s, Register(base)) && (s.current.None? ==> s.users == {})
    ensures Gapless(Next(s, Register(base)), k) && Top(Next(s, Register(base)), k) == Top(s, k)
  {
    if s.current.None? {
      var n := Next(s, Register(base));
      assert s.flights == {};
      assert base == Top(s, k) by {
        if Top(s, k) >= 1 { assert Top(s, k) in s.table; }
        assert base in s.table || base == 0;
      }
      forall m ensures !OnItsWay(s, m) && !OnItsWay(n, m) {}
    }
  }

  lemma InsertGapless(s: State, t: Ticket, k: int)
    requires LatestOnly(s) && Gapless(s, k) && t in s.flights
    ensures Gapless(Next(s, Insert(t, true)), k)
  {
    var n := Next(s, Insert(t, true));
    assert OnItsWay(s, t.num);
    forall m ensures OnItsWay(n, m) <==> OnItsWay(s, m) && m != t.num {}
  }

  lemma AllocGapless(s: State, g: nat, k: int)
    requires LatestOnly(s) && Gapless(s, k) && Enabled(s, Alloc(g))
    ensures Gapless(Next(s, Alloc(g)), k)
  {
    var n := Next(s, Alloc(g));
    assert Top(n, k) == Top(s, k) + 1;
    forall m ensures OnItsWay(n, m) <==> OnItsWay(s, m) || m == Top(s, k) + 1 {}
  }

  lemma StepGapless(s: State, e: Event, k: int)
    requires LatestOnly(s) && Gapless(s, k) && Enabled(s, e)
    requires (e.Register? && s.current.None? ==> s.users == {}) && (e.Insert? ==> e.ok)
    ensures LatestOnly(Next(s, e)) && Gapless(Next(s, e), k)
  {
    LatestKept(s, e);
    match e
    case Register(base) => RegisterGapless(s, base, k);
    case Alloc(g) => AllocGapless(s, g, k);
    case Insert(t, _) => InsertGapless(s, t, k);
    case _ => forall m ensures OnItsWay(Next(s, e), m) <==> OnItsWay(s, m) {}
  }

  lemma {:induction false} RunGapless(s: State, es: seq<Event>, k: int)
    requires LatestOnly(s) && Gapless(s, k) && Run(s, es) && Orderly(s, es) && AllInserted(es)
    ensures LatestOnly(Exec(s, es)) && Gapless(Exec(s, es), k)
    decreases es
  {
    if es != [] {
      hide Gapless, LatestOnly;
      StepGapless(s, es[0], k);
      RunGapless(Next(s, es[0]), es[1..], k);
    }
  }

  /**
   * From a gapless table, over any number of registrations each made after a complete close: every draw is
   * one above the draw before it, no insert is ever refused, and a table nothing is on its way to is gapless.
   */
  lemma SequenceGapless(table: set<int>, es: seq<Event>, k: int)
    requires 0 <= k && Full(table, k) && Run(Start(table), es) && Orderly(Start(table), es) && AllInserted(es)
    ensures var f := Exec(Start(table), es);
            && (forall i :: 0 <= i < |f.issued| ==> f.issued[i].num == k + i + 1)
            && f.rejected == {}
            && (f.flights == {} ==> Full(f.table, k + |f.issued|))
  {
    RunGapless(Start(table), es, k);
    var f := Exec(Start(table), es);
    if f.flights == {} { forall n ensures !OnItsWay(f, n) {} }
  }

  // ---- any table ----

  predicate Rising(issued: seq<Ticket>) {
    forall i, j :: 0 <= i < j < |issued| ==> issued[i].num < issued[j].num
  }

  /** Drawn in rising order, all up to the latest counter. */
  ghost predicate Drawn(s: State) {
    && Rising(s.issued)
    && (s.gens == [] ==> s.issued == [])
    && (s.gens != [] ==> forall t :: t in s.issued ==> t.num <= s.gens[|s.gens| - 1].counter)
  }

  /** Every registration finds no number drawn so far above the table's highest. */
  predicate HighestKept(s: State, es: seq<Event>)
    requires Run(s, es)
    decreases es
  {
    es == [] ||
    (&& (es[0].Register? && s.current.None? ==> forall t :: t in s.issued ==> t.num <= es[0].base)
     && HighestKept(Next(s, es[0]), es[1..]))
  }

  lemma DrawnKept(s: State, e: Event)
    requires LatestOnly(s) && Drawn(s) && Enabled(s, e)
    requires e.Register? && s.current.None? ==> s.users == {} && forall t :: t in s.issued ==> t.num <= e.base
    ensures Drawn(Next(s, e))
  {
    assert forall i :: 0 <= i < |s.issued| ==> s.issued[i] in s.issued;
  }

  /**
   * From any table, over any number of registrations each made after a complete close: as long as every
   * registration finds the highest number drawn in the table, the numbers drawn rise over the whole run.
   */
  lemma {:induction false} DrawsRise(s: State, es: seq<Event>)
    requires LatestOnly(s) && Drawn(s) && Run(s, es) && Orderly(s, es) && HighestKept(s, es)
    ensures LatestOnly(Exec(s, es)) && Drawn(Exec(s, es))
    decreases es
  {
    if es != [] {
      LatestKept(s, es[0]);
      DrawnKept(s, es[0]);
      hide LatestOnly, Drawn;
      DrawsRise(Next(s, es[0]), es[1..]);
    }
  }

  /** Every number drawn is in the table or on its way, no number is in both, and none is above the counter. */
  ghost predicate Accounted(s: State, table: set<int>) {
    && (forall n :: n in table ==> n in s.table)
    && (s.gens != [] ==> forall n :: n in s.table ==> n <= s.gens[|s.gens| - 1].counter)
    && (forall t :: t in s.flights ==> t.num !in s.table && s.gens != [] && t.num <= s.gens[|s.gens| - 1].counter)
    && (forall t :: t in s.issued ==> t.num in s.table || t in s.flights)
    && (forall t, n :: t in s.issued && n in table ==> n < t.num)
    && s.rejected == {}
  }

  lemma AccountedKept(s: State, e: Event, table: set<int>)
    requires LatestOnly(s) && Accounted(s, table) && Enabled(s, e)
    requires (e.Register? && s.current.None? ==> s.users == {}) && (e.Insert? ==> e.ok)
    ensures Accounted(Next(s, e), table)
    ensures e.Register? && s.current.None? ==> forall t :: t in s.issued ==> t.num <= e.base
  {
    if e.Alloc? { assert forall n :: n in table ==> n in s.table; }
  }

  lemma {:induction false} AccountedRun(s: State, es: seq<Event>, table: set<int>)
    requires LatestOnly(s) && Accounted(s, table) && Run(s, es) && Orderly(s, es) && AllInserted(es)
    ensures LatestOnly(Exec(s, es)) && Accounted(Exec(s, es), table) && HighestKept(s, es)
    decreases es
  {
    if es != [] {
      LatestKept(s, es[0]);
      AccountedKept(s, es[0], table);
      hide LatestOnly, Accounted;
      AccountedRun(Next(s, es[0]), es[1..], table);
    }
  }

  /**
   * From any table, gaps or not: each registration made after a complete close and inserts succeeding, the
   * numbers drawn rise, lie above the whole table, are never refused and all reach the table.
   */
  lemma SequenceRises(table: set<int>, es: seq<Event>)
    requires Run(Start(table), es) && Orderly(Start(table), es) && AllInserted(es)
    ensures var f := Exec(Start(table), es);
            && Rising(f.issued) && f.rejected == {}
            && (forall t, n :: t in f.issued && n in table ==> n < t.num)
            && (forall t :: t in f.issued ==> t.num in f.table || t in f.flights)
  {
    AccountedRun(Start(table), es, table);
    DrawsRise(Start(table), es);
  }

  // ---- a failed insert at the top of the table ----

  predicate Distinct(issued: seq<Ticket>) {
    forall i, j :: 0 <= i < j < |issued| ==> issued[i].num != issued[j].num
  }

  /** n draws in a row from one registration. */
  function Draws(s: State, g: nat, n: nat): (f: State)
    requires g in s.users && g < |s.gens|
    ensures f.users == s.users && |f.gens| == |s.gens| && f.gens[g] == s.gens[g].(counter := s.gens[g].counter + n)
    ensures |f.issued| == |s.issued| + n && s.issued <= f.issued
    ensures forall j :: |s.issued| <= j < |f.issued| ==>
              f.issued[j] == Ticket(g, s.gens[g].counter + (j - |s.issued|) + 1)
    ensures forall k :: 0 <= k < |s.gens| && k != g ==> f.gens[k] == s.gens[k]
    ensures f.table == s.table && f.current == s.current && s.flights <= f.flights
    ensures n > 0 ==> Ticket(g, s.gens[g].counter + n) in f.flights
  {
    if n == 0 then s else Next(Draws(s, g, n - 1), Alloc(g))
  }

  lemma FreshDraws(s: State, base: int, n: nat)
    requires s.current.None? && Distinct(s.issued) && IsMax(s.table, base)
             && (forall t :: t in s.issued ==> t.num <= base)
    ensures Distinct(Draws(Next(s, Register(base)), |s.gens|, n).issued)
  {
    var f := Draws(Next(s, Register(base)), |s.gens|, n);
    assert forall i :: 0 <= i < |s.issued| ==> f.issued[i] == s.issued[i] && s.issued[i] in s.issued;
  }

  lemma RepeatedDraw(s: State, base: int, t: Ticket)
    requires s.current.None? && IsMax(s.table, base) && t in s.issued && t.num > base
    ensures !Distinct(Draws(Next(s, Register(base)), |s.gens|, t.num - base).issued)
  {
    var f := Draws(Next(s, Register(base)), |s.gens|, t.num - base);
    var i :| 0 <= i < |s.issued| && s.issued[i] == t;
    assert f.issued[i] == t && f.issued[|f.issued| - 1].num == t.num;
  }

  /**
   * After a complete close, the next registration can repeat no number exactly when the table kept the highest
   * drawn.
   */
  lemma RepeatsIff(s: State, base: int)
    requires s.current.None? && IsMax(s.table, base) && Distinct(s.issued)
    ensures (forall n: nat :: Distinct(Draws(Next(s, Register(base)), |s.gens|, n).issued)) <==>
            (forall t :: t in s.issued ==> t.num <= base)
  {
    hide Draws, Distinct;
    if t :| t in s.issued && t.num > base {
      RepeatedDraw(s, base, t);
    } else {
      forall n: nat ensures Distinct(Draws(Next(s, Register(base)), |s.gens|, n).issued) {
        FreshDraws(s, base, n);
      }
    }
  }

  lemma {:induction false} ExecMore(s: State, es: seq<Event>, e: Event)
    requires Run(s, es) && Enabled(Exec(s, es), e)
    ensures Run(s, es + [e]) && Exec(s, es + [e]) == Next(Exec(s, es), e)
    ensures Orderly(s, es + [e]) <==>
              Orderly(s, es) && (e.Register? && Exec(s, es).current.None? ==> Exec(s, es).users == {})
    decreases es
  {
    if es == [] {
      assert (es + [e])[1..] == [];
    } else {
      assert (es + [e])[1..] == es[1..] + [e];
      ExecMore(Next(s, es[0]), es[1..], e);
    }
  }

  /** Such a state is reached in good order: the first row fails to insert, and its number is drawn again. */
  lemma FailedInsertRepeats() returns (es: seq<Event>)
    ensures Run(Start({}), es) && Orderly(Start({}), es) && !Distinct(Exec(Start({}), es).issued)
  {
    var s, t := Start({}), Ticket(0, 1);
    es := [];
    es := Then(s, es, Register(0));
    es := Then(s, es, Alloc(0));
    es := Then(s, es, Insert(t, false));
    es := Then(s, es, Detach);
    es := Then(s, es, Retire(0));
    es := Then(s, es, Register(0));
    es := Then(s, es, Alloc(1));
    var issued := Exec(s, es).issued;
    assert issued == [t, Ticket(1, 1)];
    assert issued[0].num == issued[1].num;
  }

  /**
   * A marker flush that comes while Close still waits for its aggregators registers the terminal anew: both
   * draw the same number, and although the database never fails one of the two rows is refused.
   */
  lemma MarkerDuringClose() returns (es: seq<Event>)
    ensures Run(Start({}), es) && AllInserted(es)
    ensures Exec(Start({}), es).rejected == {Ticket(0, 1)} && Exec(Start({}), es).flights == {}
  {
    var s, chunk, marker := Start({}), Ticket(0, 1), Ticket(1, 1);
    es := [];
    es := Then(s, es, Register(0));
    es := Then(s, es, Detach);
    es := Then(s, es, Register(0));
    es := Then(s, es, Alloc(1));
    es := Then(s, es, Alloc(0));
    es := Then(s, es, Insert(marker, true));
    assert Exec(s, es).flights == {chunk} && Exec(s, es).table == {1};
    es := Then(s, es, Insert(chunk, true));
  }

  lemma Then(s: State, es: seq<Event>, e: Event) returns (more: seq<Event>)
    requires Run(s, es) && Enabled(Exec(s, es), e)
    ensures more == es + [e] && Run(s, more) && Exec(s, more) == Next(Exec(s, es), e)
    ensures AllInserted(es) && (e.Insert? ==> e.ok) ==> AllInserted(more)
    ensures Orderly(s, more) <==>
              Orderly(s, es) && (e.Register? && Exec(s, es).current.None? ==> Exec(s, es).users == {})
  {
    ExecMore(s, es, e);
    more := es + [e];
  }

  // ---- why the close has to be complete ----

  lemma {:induction false} DrawsRun(s: State, g: nat, n: nat) returns (es: seq<Event>)
    requires g in s.users && g < |s.gens|
    ensures Run(s, es) && Orderly(s, es) && AllInserted(es) && Exec(s, es) == Draws(s, g, n)
  {
    if n == 0 {
      es := [];
    } else {
      es := DrawsRun(s, g, n - 1);
      es := Then(s, es, Alloc(g));
    }
  }

  /** While nothing is in the table no counter is below zero. */
  ghost predicate Grounded(s: State) {
    s.table == {} ==> forall g :: 0 <= g < |s.gens| ==> s.gens[g].counter >= 0
  }

  lemma {:induction false} GroundedRun(s: State, es: seq<Event>)
    requires Grounded(s) && Run(s, es)
    ensures Grounded(Exec(s, es))
    decreases es
  {
    if es != [] { GroundedRun(Next(s, es[0]), es[1..]); }
  }

  /** Registered while an older registration is in use, a run with every insert succeeding has one refused. */
  lemma OverlapRefused(s: State, base: int, g: nat) returns (es: seq<Event>)
    requires s.current.None? && g in s.users && g < |s.gens| && IsMax(s.table, base) && Grounded(s)
    ensures var n := Next(s, Register(base));
            Run(n, es) && Orderly(n, es) && AllInserted(es) && Exec(n, es).rejected != {}
  {
    var n, newer, c := Next(s, Register(base)), |s.gens|, s.gens[g].counter;
    if base <= c {
      var f := Draws(n, newer, c + 1 - base);
      es := DrawsRun(n, newer, c + 1 - base);
      hide Draws;
      es := Then(n, es, Alloc(g));
      es := Then(n, es, Insert(Ticket(g, c + 1), true));
      es := Then(n, es, Insert(Ticket(newer, c + 1), true));
      assert Ticket(newer, c + 1) in Exec(n, es).rejected;
    } else {
      es := DrawsRun(n, g, base - c);
      hide Draws;
      es := Then(n, es, Insert(Ticket(g, base), true));
      assert Ticket(g, base) in Exec(n, es).rejected;
    }
  }

  /** No run after a registration has an insert refused exactly when the close before it was complete. */
  lemma CompleteCloseIff(table: set<int>, es: seq<Event>, base: int)
    requires Run(Start(table), es) && Orderly(Start(table), es) && AllInserted(es)
    requires Exec(Start(table), es).current.None? && IsMax(Exec(Start(table), es).table, base)
    ensures var s := Exec(Start(table), es);
            var n := Next(s, Register(base));
            (forall more :: Run(n, more) && Orderly(n, more) && AllInserted(more) ==> Exec(n, more).rejected == {})
            <==> s.users == {}
  {
    var s := Exec(Start(table), es);
    var n := Next(s, Register(base));
    AccountedRun(Start(table), es, table);
    GroundedRun(Start(table), es);
    if s.users == {} {
      LatestKept(s, Register(base));
      AccountedKept(s, Register(base), table);
      forall more | Run(n, more) && Orderly(n, more) && AllInserted(more) ensures Exec(n, more).rejected == {} {
        AccountedRun(n, more, table);
      }
    } else {
      var g :| g in s.users;
      var more := OverlapRefused(s, base, g);
    }
  }
}
