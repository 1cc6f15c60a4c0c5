/** The aggregator's own code, step by step, against the machine of module Logstore. */
module Aggregator {
  import opened Basics
  import opened LogRepo
  import opened Logstore

  // ---- one turn of the select loop, undisturbed ----

  /** Whole slices cut off a buffer until less than one is left. */
  ghost function Sliced(max: int, d: Direction, s: Store, buf: Bytes): (Store, Bytes)
    requires max > 0
    decreases |buf|
  {
    if |buf| < max then (s, buf) else Sliced(max, d, Flushed(s, d, buf[..max]), buf[max..])
  }

  /** A data message taken in: cut to size, then the timer set for what is left. */
  ghost function Absorbed(max: int, d: Direction, s: Store, a: Agg, data: Bytes): (Store, Agg)
    requires max > 0
  {
    var (n, rest) := Sliced(max, d, s, a.buf + data);
    (n, a.(buf := rest, armed := rest != []))
  }

  /** The message's turn is a run of the machine: one receive, as many slices as it takes, one settle. */
  lemma AbsorbRuns(max: int, base: int, es: seq<Event>, d: Direction, data: Bytes) returns (more: seq<Event>)
    requires max > 0 && Run(max, base, es) && Enabled(max, Exec(max, base, es), Receive(d, data))
    ensures Run(max, base, more) && es <= more
    ensures var st := Exec(max, base, es);
            var (n, a) := Absorbed(max, d, st.store, AggOf(st, d), data);
            Exec(max, base, more) == With(st, d, n, a)
  {
    var st := Exec(max, base, es);
    RunMore(max, base, es, Receive(d, data));
    more := SliceRuns(max, base, es + [Receive(d, data)], d);
    RunMore(max, base, more, Settle(d));
    more := more + [Settle(d)];
  }

  lemma RunMore(max: int, base: int, es: seq<Event>, e: Event)
    requires max > 0 && Run(max, base, es) && Enabled(max, Exec(max, base, es), e)
    ensures Run(max, base, es + [e]) && Exec(max, base, es + [e]) == Next(max, Exec(max, base, es), e)
  {
    assert (es + [e])[..|es|] == es;
  }

  lemma {:induction false} SliceRuns(max: int, base: int, es: seq<Event>, d: Direction) returns (more: seq<Event>)
    requires max > 0 && Run(max, base, es) && AggOf(Exec(max, base, es), d).busy
    ensures Run(max, base, more) && es <= more
    ensures var st := Exec(max, base, es);
            var (n, rest) := Sliced(max, d, st.store, AggOf(st, d).buf);
            |rest| < max && Exec(max, base, more) == With(st, d, n, AggOf(st, d).(buf := rest))
    decreases |AggOf(Exec(max, base, es), d).buf|
  {
    var a := AggOf(Exec(max, base, es), d);
    if |a.buf| < max {
      more := es;
    } else {
      RunMore(max, base, es, Slice(d));
      more := SliceRuns(max, base, es + [Slice(d)], d);
    }
  }

  // ---- the code ----

  /** The chunks whose insert the database does not fail. */
  ghost function Stored(chunks: seq<Row>, failing: set<int>): seq<Row> {
    if chunks == [] then []
    else
      var last := chunks[|chunks| - 1];
      Stored(chunks[..|chunks| - 1], failing) + if last.num in failing then [] else [last]
  }

  lemma StoredMore(chunks: seq<Row>, r: Row, failing: set<int>)
    ensures Stored(chunks + [r], failing) == Stored(chunks, failing) + if r.num in failing then [] else [r]
  {
    assert (chunks + [r])[..|chunks|] == chunks;
  }

  /**
   * The manager's part for one terminal. failing: the numbers whose insert the database fails. handed lists
   * everything given to the table, notified every row OnFlush was called with.
   */
  class TermLog {
    const repo: LogTable
    const failing: set<int>
    var seqNum: int
    var pending: Option<Grid>
    ghost var handed: seq<Row>
    ghost var notified: seq<Row>

    /** The counter is never behind the table, and exactly the stored rows were notified, in order. */
    ghost predicate Valid()
      reads this, repo
    {
      && repo.Valid()
      && (forall r :: r in repo.rows ==> r.num <= seqNum)
      && notified == Stored(handed, failing)
      && (forall r :: r in notified ==> r in repo.rows)
    }

    ghost function View(): Store
      reads this
    {
      Store(seqNum, pending, handed)
    }

    /** Registering: the counter starts at the highest number in the table, 0 when it is empty. */
    constructor (repo: LogTable, failing: set<int>)
      requires repo.Valid()
      ensures Valid() && this.repo == repo && this.failing == failing
      ensures View() == Store(seqNum, None, []) && (repo.rows != [] ==> seqNum in Nums(repo.rows))
              && (repo.rows == [] ==> seqNum == 0)
    {
      this.repo := repo;
      this.failing := failing;
      pending := None;
      handed := [];
      notified := [];
      new;
      seqNum := repo.MaxSeq();
    }

    /** A failed insert is only logged; a good one is notified. */
    method FlushChunk(num: int, body: Body)
      requires Valid() && num == seqNum && (forall r :: r in repo.rows ==> r.num < num)
      modifies this`handed, this`notified, repo
      ensures Valid() && handed == old(handed) + [Row(num, body)]
      ensures notified == old(notified) + (if num in failing then [] else [Row(num, body)])
      ensures forall r :: r in repo.rows <==> r in old(repo.rows) || (num !in failing && r == Row(num, body))
    {
      StoredMore(handed, Row(num, body), failing);
      handed := handed + [Row(num, body)];
      if num in failing { return; }
      var ok := repo.AppendChunk(Row(num, body));
      if ok {
        notified := notified + [Row(num, body)];
      }
    }

    method SetPendingResize(cols: int, rows: int)
      requires Valid()
      modifies this`pending
      ensures Valid() && View() == WithGrid(old(View()), Grid(cols, rows))
    {
      if cols <= 0 || rows <= 0 { return; }
      pending := Some(Grid(cols, rows));
    }

    method TakePendingResize() returns (taken: Option<Grid>)
      requires Valid()
      modifies this`pending
      ensures Valid() && taken == old(pending) && pending.None?
    {
      taken := pending;
      pending := None;
    }

    method FlushResizeMarker()
      requires Valid()
      modifies this, repo
      ensures Valid() && View() == Marked(old(View()))
    {
      var taken := TakePendingResize();
      if taken.Some? {
        seqNum := seqNum + 1;
        FlushChunk(seqNum, Resize(taken.value.cols, taken.value.rows));
      }
    }
  }

  class Aggregator {
    const store: TermLog
    const direction: Direction
    const maxChunk: int
    var buf: Bytes
    var armed: bool
    var open: bool

    ghost predicate Valid()
      reads this, store, store.repo
    {
      store.Valid() && maxChunk > 0
    }

    ghost function View(): Agg
      reads this
    {
      Agg(buf, armed, false, open)
    }

    constructor (store: TermLog, direction: Direction, maxChunkBytes: int)
      requires store.Valid()
      ensures Valid() && View() == FRESH && this.store == store && this.direction == direction
      ensures maxChunk == EffectiveMaxChunk(maxChunkBytes)
    {
      this.store := store;
      this.direction := direction;
      maxChunk := EffectiveMaxChunk(maxChunkBytes);
      buf := [];
      armed := false;
      open := true;
    }

    method Flush(data: Bytes)
      requires Valid()
      modifies store, store.repo
      ensures Valid() && store.View() == Flushed(old(store.View()), direction, data)
    {
      if direction.Output? {
        store.FlushResizeMarker();
      }
      store.seqNum := store.seqNum + 1;
      store.FlushChunk(store.seqNum, Chunk(direction, data));
    }

    method FlushRest()
      requires Valid()
      modifies this`buf, store, store.repo
      ensures Valid() && buf == [] && store.View() == FlushedRest(old(store.View()), direction, old(buf))
    {
      if |buf| == 0 { return; }
      Flush(buf);
      buf := [];
    }

    method OnData(data: Bytes)
      requires Valid()
      modifies this, store, store.repo
      ensures Valid() && (store.View(), View()) == Absorbed(maxChunk, direction, old(store.View()), old(View()), data)
    {
      buf := buf + data;
      ghost var all := Sliced(maxChunk, direction, store.View(), buf);
      while |buf| >= maxChunk
        invariant Valid() && open == old(open) && armed == old(armed)
        invariant Sliced(maxChunk, direction, store.View(), buf) == all
        decreases |buf|
      {
        Flush(buf[..maxChunk]);
        buf := buf[maxChunk..];
      }
      if |buf| > 0 {
        if !armed {
          armed := true;
        }
      } else if armed {
        armed := false;
      }
    }

    method OnTimer()
      requires Valid() && armed
      modifies this, store, store.repo
      ensures Valid() && View() == old(View()).(buf := [], armed := false)
      ensures store.View() == FlushedRest(old(store.View()), direction, old(buf))
    {
      FlushRest();
      armed := false;
    }

    /** The input channel was closed. */
    method OnClose()
      requires Valid()
      modifies this, store, store.repo
      ensures Valid() && View() == old(View()).(buf := [], open := false)
      ensures store.View() == FlushedRest(old(store.View()), direction, old(buf))
    {
      FlushRest();
      open := false;
    }
  }
}
