/** Driving a full history replay over the paged read of a log. */
module Replay {
  import opened LogRepo

  /** One terminal.history event. */
  datatype HistoryPage = HistoryPage(fromSeq: int, toSeq: int, hasMore: bool, chunks: seq<Row>)

  predicate Displayed(r: Row) {
    r.body.Stdout? || r.body.Resize?
  }

  /** What a viewer is meant to see of some rows: no stdin. */
  function Shown(t: seq<Row>): seq<Row> {
    if t == [] then [] else (if Displayed(t[0]) then [t[0]] else []) + Shown(t[1..])
  }

  function Chunks(pages: seq<HistoryPage>): seq<Row> {
    if pages == [] then [] else Chunks(pages[..|pages| - 1]) + pages[|pages| - 1].chunks
  }

  lemma {:induction false} ShownConcat(a: seq<Row>, b: seq<Row>)
    ensures Shown(a + b) == Shown(a) + Shown(b)
  {
    if a == [] {
      assert a + b == b;
    } else {
      assert (a + b)[0] == a[0] && (a + b)[1..] == a[1..] + b;
      ShownConcat(a[1..], b);
      var head := if Displayed(a[0]) then [a[0]] else [];
      assert Shown(a + b) == head + Shown(a[1..] + b) && Shown(a) == head + Shown(a[1..]);
    }
  }

  lemma {:induction false} ShownMember(t: seq<Row>, r: Row)
    ensures r in Shown(t) <==> r in t && Displayed(r)
  {
    if t != [] {
      assert t == [t[0]] + t[1..];
      ShownMember(t[1..], r);
    }
  }

  /** Pages needed for n rows: at least one, and no empty page after a full one. */
  ghost function PageCount(n: nat, limit: int): nat
    requires limit > 0
  {
    if n <= limit then 1 else 1 + PageCount(n - limit, limit)
  }

  /** Picks the displayed rows of one page, in order. */
  method RenderPage(chs: seq<Row>) returns (out: seq<Row>, toSeq: int)
    ensures out == Shown(chs)
    ensures toSeq == if chs == [] then 0 else chs[|chs| - 1].num
  {
    out, toSeq := [], 0;
    for i := 0 to |chs|
      invariant out == Shown(chs[..i])
      invariant toSeq == if i == 0 then 0 else chs[i - 1].num
    {
      toSeq := chs[i].num;
      assert chs[..i + 1] == chs[..i] + [chs[i]];
      ShownConcat(chs[..i], [chs[i]]);
      if Displayed(chs[i]) {
        out := out + [chs[i]];
      }
    }
    assert chs[..|chs|] == chs;
  }

  function NextFrom(pages: seq<HistoryPage>, start: int): int {
    if pages == [] then start else pages[|pages| - 1].toSeq + 1
  }

  /** Each page starts right after the one before it, the first at `start`. */
  ghost predicate Chained(pages: seq<HistoryPage>, start: int) {
    forall i :: 0 <= i < |pages| ==> pages[i].fromSeq == NextFrom(pages[..i], start)
  }

  /** The replay so far and the scan still ahead make up the whole scan. */
  ghost predicate Underway(t: seq<Row>, start: int, limit: int, pages: seq<HistoryPage>)
    requires limit > 0
  {
    var ahead := From(t, NextFrom(pages, start));
    && Chained(pages, start)
    && (forall i :: 0 <= i < |pages| ==> pages[i].hasMore)
    && Chunks(pages) + Shown(ahead) == Shown(From(t, start))
    && |pages| + PageCount(|ahead|, limit) == PageCount(|From(t, start)|, limit)
  }

  lemma ChainedExtends(pages: seq<HistoryPage>, start: int, page: HistoryPage)
    requires Chained(pages, start) && page.fromSeq == NextFrom(pages, start)
    ensures Chained(pages + [page], start)
  {
    var ps := pages + [page];
    forall i | 0 <= i < |ps| ensures ps[i].fromSeq == NextFrom(ps[..i], start) {
      assert i == |pages| || ps[..i] == pages[..i];
      assert ps[..|pages|] == pages;
    }
  }

  lemma ChunksAdded(pages: seq<HistoryPage>, page: HistoryPage, rest: seq<Row>)
    ensures Chunks(pages + [page]) + rest == Chunks(pages) + (page.chunks + rest)
  {
    assert (pages + [page])[..|pages|] == pages;
  }

  /** A full page and the scan after it make up the scan from its start. */
  lemma PageSplit(t: seq<Row>, from: int, limit: nat)
    requires Ascending(t) && 0 < limit < |From(t, from)|
    ensures var chs := From(t, from)[..limit];
            && From(t, chs[limit - 1].num + 1) == From(t, from)[limit..]
            && Shown(From(t, from)) == Shown(chs) + Shown(From(t, chs[limit - 1].num + 1))
  {
    hide Shown;
    var ahead := From(t, from);
    FromAfter(t, from, limit - 1);
    assert ahead == ahead[..limit] + ahead[limit..];
    ShownConcat(ahead[..limit], ahead[limit..]);
  }

  lemma PageAdded(t: seq<Row>, start: int, limit: int, pages: seq<HistoryPage>, page: HistoryPage)
    requires limit > 0 && Underway(t, start, limit, pages) && page.fromSeq == NextFrom(pages, start) && page.hasMore
    requires Shown(From(t, page.fromSeq)) == page.chunks + Shown(From(t, page.toSeq + 1))
    requires PageCount(|From(t, page.fromSeq)|, limit) == 1 + PageCount(|From(t, page.toSeq + 1)|, limit)
    ensures NextFrom(pages + [page], start) == page.toSeq + 1
    ensures Underway(t, start, limit, pages + [page])
  {
    hide From, Shown, PageCount, Chained, Chunks;
    ChunksAdded(pages, page, Shown(From(t, page.toSeq + 1)));
    ChainedExtends(pages, start, page);
  }

  /** A full page followed by a non-empty rest keeps the replay underway, with fewer rows ahead. */
  lemma FullPage(t: seq<Row>, start: int, limit: int, pages: seq<HistoryPage>)
    requires Ascending(t) && limit > 0 && Underway(t, start, limit, pages)
    requires limit < |From(t, NextFrom(pages, start))|
    ensures var from := NextFrom(pages, start);
            var chs := From(t, from)[..limit];
            var more := pages + [HistoryPage(from, chs[limit - 1].num, true, Shown(chs))];
            && Underway(t, start, limit, more)
            && |From(t, NextFrom(more, start))| < |From(t, from)|
  {
    hide From, Shown, Underway;
    var from := NextFrom(pages, start);
    var chs := From(t, from)[..limit];
    PageSplit(t, from, limit);
    PageAdded(t, start, limit, pages, HistoryPage(from, chs[limit - 1].num, true, Shown(chs)));
  }

  lemma NoPages(t: seq<Row>, start: int, limit: int)
    requires limit > 0
    ensures Underway(t, start, limit, [])
  {
  }

  /** The final page takes in whatever is left. */
  lemma LastPage(t: seq<Row>, start: int, limit: int, pages: seq<HistoryPage>, page: HistoryPage)
    requires limit > 0 && Underway(t, start, limit, pages) && page.fromSeq == NextFrom(pages, start) && !page.hasMore
    requires |From(t, page.fromSeq)| <= limit && page.chunks == Shown(From(t, page.fromSeq))
    ensures var all := pages + [page];
            && Chunks(all) == Shown(From(t, start)) && |all| == PageCount(|From(t, start)|, limit)
               && Chained(all, start)
            && forall i :: 0 <= i < |all| ==> (all[i].hasMore <==> i < |all| - 1)
  {
    hide From, Shown, Chained, Chunks;
    ChainedExtends(pages, start, page);
    ChunksAdded(pages, page, []);
    assert Chunks(pages + [page]) + [] == Chunks(pages + [page]) && page.chunks + [] == page.chunks;
  }

  /**
   * On a log that no longer grows the pages put together are one scan of the log, whatever the gaps
   * in its numbering and whatever the page size. The returned number stops short of the final page.
   */
  method ReplayHistory(log: LogTable, start: int, limit: int) returns (pages: seq<HistoryPage>, last: int)
    requires log.Valid()
    ensures Chunks(pages) == Shown(From(log.rows, start))
    ensures |pages| == PageCount(|From(log.rows, start)|, EffectiveLimit(limit))
    ensures Chained(pages, start)
    ensures forall i :: 0 <= i < |pages| ==> (pages[i].hasMore <==> i < |pages| - 1)
    ensures |pages| > 0 && last == pages[|pages| - 1].fromSeq - 1
  {
    hide From, Shown, Underway, Chained, Chunks, PageCount;
    var rowLimit := EffectiveLimit(limit);
    NoPages(log.rows, start, rowLimit);
    var fromSeq := start;
    last := start - 1;
    pages := [];
    while true
      invariant fromSeq == NextFrom(pages, start) && last == fromSeq - 1
      invariant Underway(log.rows, start, rowLimit, pages)
      decreases |From(log.rows, fromSeq)|
    {
      var chs, hasMore := log.ReadRange(fromSeq, rowLimit);
      var out, toSeq := RenderPage(chs);
      ghost var before := pages;
      pages := pages + [HistoryPage(fromSeq, toSeq, hasMore, out)];
      if |chs| == 0 || !hasMore {
        assert chs == From(log.rows, fromSeq);
        LastPage(log.rows, start, rowLimit, before, pages[|pages| - 1]);
        return;
      }
      FullPage(log.rows, start, rowLimit, before);
      last := toSeq;
      fromSeq := toSeq + 1;
    }
  }

  /** Paging loses no displayed row, invents none, repeats none and keeps the log's order. */
  lemma OneScan(t: seq<Row>, start: int, pages: seq<HistoryPage>)
    requires Ascending(t) && Chunks(pages) == Shown(From(t, start))
    ensures Ascending(Chunks(pages))
    ensures forall r :: r in Chunks(pages) <==> r in t && !r.body.Stdin? && r.num >= start
  {
    FromExact(t, start);
    ShownAscending(From(t, start));
    forall r ensures r in Chunks(pages) <==> r in t && !r.body.Stdin? && r.num >= start {
      ShownMember(From(t, start), r);
    }
  }

  lemma {:induction false} ShownAscending(t: seq<Row>)
    requires Ascending(t)
    ensures Ascending(Shown(t))
  {
    if t != [] {
      ShownAscending(t[1..]);
      forall r | r in Shown(t[1..]) ensures t[0].num < r.num {
        ShownMember(t[1..], r);
        var i :| 0 <= i < |t[1..]| && t[1..][i] == r;
        assert t[i + 1] == r;
      }
      assert forall j :: 0 <= j < |Shown(t[1..])| ==> Shown(t[1..])[j] in Shown(t[1..]);
    }
  }
}
