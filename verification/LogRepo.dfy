/** The terminal_logs table of one terminal: rows of numbered chunks, unique and ordered by number. */
module LogRepo {

  /** What a row records. A resize marker carries the grid it switches to. */
  datatype Body =
    | Stdout(bytes: seq<bv8>)
    | Stdin(bytes: seq<bv8>)
    | Resize(cols: int, rows: int)

  datatype Row = Row(num: int, body: Body)

  const DEFAULT_LIMIT := 500

  predicate Ascending(t: seq<Row>) {
    forall i, j :: 0 <= i < j < |t| ==> t[i].num < t[j].num
  }

  function Nums(t: seq<Row>): set<int> {
    set r | r in t :: r.num
  }

  /** The one-scan reading of a log: every row numbered `from` or above, in table order. */
  function From(t: seq<Row>, from: int): seq<Row> {
    if t == [] then []
    else (if t[0].num >= from then [t[0]] else []) + From(t[1..], from)
  }

  function Inserted(t: seq<Row>, row: Row): seq<Row> {
    if t == [] || row.num < t[0].num then [row] + t
    else [t[0]] + Inserted(t[1..], row)
  }

  function Min(a: int, b: int): int {
    if a <= b then a else b
  }

  function EffectiveLimit(limit: int): (n: int)
    ensures n > 0 && (limit > 0 ==> n == limit)
  {
    if limit <= 0 then DEFAULT_LIMIT else limit
  }

  lemma {:induction false} FromIsSuffix(t: seq<Row>, from: int) returns (k: nat)
    requires Ascending(t)
    ensures k <= |t| && From(t, from) == t[k..]
    ensures forall i :: 0 <= i < k ==> t[i].num < from
    ensures forall i :: k <= i < |t| ==> from <= t[i].num
  {
    if t == [] {
      k := 0;
    } else {
      assert t == [t[0]] + t[1..];
      var rest := FromIsSuffix(t[1..], from);
      if t[0].num >= from {
        assert forall i :: 0 <= i < |t[1..]| ==> t[1..][i].num >= from;
        k := 0;
      } else {
        k := rest + 1;
        assert t[k..] == t[1..][rest..];
        assert forall i :: 1 <= i < |t| ==> t[i] == t[1..][i - 1];
      }
    }
  }

  /** From keeps exactly the rows at or above the bound, ascending. */
  lemma {:induction false} FromExact(t: seq<Row>, from: int)
    requires Ascending(t)
    ensures Ascending(From(t, from))
    ensures forall r :: r in From(t, from) <==> r in t && r.num >= from
  {
    var k := FromIsSuffix(t, from);
    forall r | r in t && r.num >= from ensures r in From(t, from) {
      var i :| 0 <= i < |t| && t[i] == r;
      assert From(t, from)[i - k] == r;
    }
  }

  /** Reading on from just after row k of a scan drops exactly the first k+1 rows of that scan. */
  lemma FromAfter(t: seq<Row>, from: int, k: nat)
    requires Ascending(t) && k < |From(t, from)|
    ensures From(t, From(t, from)[k].num + 1) == From(t, from)[k + 1..]
  {
    var a := FromIsSuffix(t, from);
    var next := From(t, from)[k].num + 1;
    var b := FromIsSuffix(t, next);
    assert From(t, from)[k] == t[a + k];
    assert t[a + k].num < next;
    assert b > a + k;
    assert b <= a + k + 1 by {
      if a + k + 1 < |t| { assert t[a + k + 1].num >= next; }
    }
    assert t[b..] == t[a..][k + 1..];
  }

  lemma {:induction false} InsertedMembers(t: seq<Row>, row: Row)
    ensures forall r :: r in Inserted(t, row) <==> r in t || r == row
  {
    if t != [] {
      assert t == [t[0]] + t[1..];
      InsertedMembers(t[1..], row);
    }
  }

  lemma {:induction false} InsertedAscending(t: seq<Row>, row: Row)
    requires Ascending(t) && row.num !in Nums(t)
    ensures Ascending(Inserted(t, row))
  {
    if t != [] && row.num >= t[0].num {
      assert t[0] in t;
      var v := Inserted(t[1..], row);
      assert row.num !in Nums(t[1..]);
      InsertedAscending(t[1..], row);
      InsertedMembers(t[1..], row);
      assert forall j :: 0 <= j < |v| ==> v[j] in v;
      assert forall r :: r in t[1..] ==> t[0].num < r.num;
    }
  }

  /** Inserting keeps the order and adds exactly the one row. */
  lemma InsertedExact(t: seq<Row>, row: Row)
    requires Ascending(t) && row.num !in Nums(t)
    ensures Ascending(Inserted(t, row))
    ensures forall r :: r in Inserted(t, row) <==> r in t || r == row
    ensures Nums(Inserted(t, row)) == Nums(t) + {row.num}
  {
    InsertedAscending(t, row);
    InsertedMembers(t, row);
    assert row in Inserted(t, row);
  }

  /** The rows of one terminal; `rows` stands for the table read in seq order. */
  class LogTable {
    var rows: seq<Row>

    ghost predicate Valid() reads this { Ascending(rows) }

    constructor ()
      ensures Valid() && rows == []
    {
      rows := [];
    }

    /** Rejected exactly when the number is taken (the UNIQUE constraint). */
    method AppendChunk(row: Row) returns (ok: bool)
      requires Valid()
      modifies this
      ensures Valid()
      ensures ok <==> row.num !in Nums(old(rows))
      ensures forall r :: r in rows <==> r in old(rows) || (ok && r == row)
    {
      ok := forall i :: 0 <= i < |rows| ==> rows[i].num != row.num;
      if ok {
        InsertedExact(rows, row);
        rows := Inserted(rows, row);
      }
    }

    /** One row too many is requested so that hasMore can be told. */
    method ReadRange(fromSeq: int, limit: int) returns (out: seq<Row>, hasMore: bool)
      requires Valid()
      ensures var all, n := From(rows, fromSeq), EffectiveLimit(limit);
              hasMore == (|all| > n) && out == all[..Min(n, |all|)]
    {
      var n := EffectiveLimit(limit);
      var query := From(rows, fromSeq);
      out := [];
      var i := 0;
      while i < |query| && i < n + 1
        invariant 0 <= i <= |query| && i <= n + 1
        invariant out == query[..i]
      {
        out := out + [query[i]];
        i := i + 1;
      }
      hasMore := |out| > n;
      if hasMore {
        out := out[..n];
      }
    }

    /** The query runs newest first; the page is turned round before it is returned. */
    method Tail(limit: int) returns (out: seq<Row>)
      requires Valid()
      ensures out == rows[|rows| - Min(EffectiveLimit(limit), |rows|)..]
    {
      var n := Min(EffectiveLimit(limit), |rows|);
      var tmp := [];
      var i := 0;
      while i < n
        invariant 0 <= i <= n
        invariant |tmp| == i
        invariant forall j :: 0 <= j < i ==> tmp[j] == rows[|rows| - 1 - j]
      {
        tmp := tmp + [rows[|rows| - 1 - i]];
        i := i + 1;
      }
      if n == 0 {
        return [];
      }
      var buf := new Row[n](_ => tmp[0]);
      i := 0;
      while i < n
        invariant 0 <= i <= n
        invariant forall j :: n - i <= j < n ==> buf[j] == tmp[n - 1 - j]
      {
        buf[n - 1 - i] := tmp[i];
        i := i + 1;
      }
      out := buf[..];
    }

    /** 0 for an empty log; otherwise a number that is present and not exceeded. */
    method MaxSeq() returns (max: int)
      requires Valid()
      ensures rows == [] ==> max == 0
      ensures rows != [] ==> max in Nums(rows)
      ensures forall r :: r in rows ==> r.num <= max
    {
      max := MaxNum(rows);
      if rows != [] {
        assert rows[|rows| - 1] in rows;
      }
    }
  }

  function MaxNum(t: seq<Row>): int {
    if t == [] then 0 else t[|t| - 1].num
  }
}
