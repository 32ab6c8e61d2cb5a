/** How a republished batch is merged into a stored file: grouped by bar_time, each
    column aggregated on its own, then sorted. And what that means: an upsert. */
module Merge {
  import opened Prelude
  import opened Bars
  import Sorting

  // ----- The expression the writer evaluates --------------------------------

  function TimesOf(rows: seq<Row>): set<int> {
    set r | r in rows :: r.time
  }

  /** The distinct times, in order of first appearance. */
  function Keys(rows: seq<Row>): (ks: seq<int>)
    ensures forall t :: t in ks <==> t in TimesOf(rows)
    ensures forall i, j :: 0 <= i < j < |ks| ==> ks[i] != ks[j]
  {
    if rows == [] then []
    else
      var ks, t := Keys(rows[..|rows| - 1]), rows[|rows| - 1].time;
      assert rows == rows[..|rows| - 1] + [rows[|rows| - 1]];
      if t in ks then ks else ks + [t]
  }

  /** The last value of a column that is never null. */
  function LastValues(rows: seq<Row>, t: int): Values
    requires t in TimesOf(rows)
  {
    if rows[|rows| - 1].time == t then rows[|rows| - 1].values
    else
      assert rows == rows[..|rows| - 1] + [rows[|rows| - 1]];
      LastValues(rows[..|rows| - 1], t)
  }

  /** The last non-null value of a nullable column, null if there is none. */
  function LastNonNull(rows: seq<Row>, t: int, column: Row -> Option<real>): Option<real> {
    if rows == [] then None
    else
      var r := rows[|rows| - 1];
      if r.time == t && column(r).Some? then column(r) else LastNonNull(rows[..|rows| - 1], t, column)
  }

  function Bid(r: Row): Option<real> { r.bid }
  function Ask(r: Row): Option<real> { r.ask }
  function Ts(r: Row): Option<real> { r.ts }

  function Aggregate(rows: seq<Row>, t: int): Row
    requires t in TimesOf(rows)
  {
    Row(t, LastValues(rows, t), LastNonNull(rows, t, Bid), LastNonNull(rows, t, Ask), LastNonNull(rows, t, Ts))
  }

  function Groups(rows: seq<Row>, ks: seq<int>): (gs: seq<Row>)
    requires forall t :: t in ks ==> t in TimesOf(rows)
    ensures |gs| == |ks| && forall i :: 0 <= i < |gs| ==> gs[i] == Aggregate(rows, ks[i])
  {
    seq(|ks|, i requires 0 <= i < |ks| => Aggregate(rows, ks[i]))
  }

  function TimeOf(r: Row): int { r.time }

  function SortByTime(rows: seq<Row>): seq<Row> {
    Sorting.Sort(TimeOf, rows)
  }

  function Merged(rows: seq<Row>): seq<Row> {
    SortByTime(Groups(rows, Keys(rows)))
  }

  // ----- The simple meaning -------------------------------------------------

  function Coalesced(stored: Option<real>, incoming: Option<real>): Option<real> {
    if incoming.Some? then incoming else stored
  }

  /** A republished row keeps the stored quote and clock where it brings none. */
  function Refreshed(stored: Row, r: Row): Row {
    r.(bid := Coalesced(stored.bid, r.bid), ask := Coalesced(stored.ask, r.ask), ts := Coalesced(stored.ts, r.ts))
  }

  function Upsert(m: map<int, Row>, r: Row): map<int, Row> {
    m[r.time := if r.time in m then Refreshed(m[r.time], r) else r]
  }

  function Upserts(m: map<int, Row>, rows: seq<Row>): map<int, Row> {
    if rows == [] then m else Upsert(Upserts(m, rows[..|rows| - 1]), rows[|rows| - 1])
  }

  predicate StrictlySorted(rows: seq<Row>) {
    Sorting.Strict(TimeOf, rows)
  }

  // ----- The expression computes the meaning --------------------------------

  lemma TimesExtend(rows: seq<Row>, r: Row)
    ensures TimesOf(rows + [r]) == TimesOf(rows) + {r.time}
  {
  }

  lemma {:induction false} AggregateIsUpsert(rows: seq<Row>, t: int)
    ensures t in Upserts(map[], rows) <==> t in TimesOf(rows)
    ensures t in TimesOf(rows) ==> Upserts(map[], rows)[t] == Aggregate(rows, t)
    ensures t !in TimesOf(rows) ==> forall c :: LastNonNull(rows, t, c) == None
  {
    if rows != [] {
      var q, r := rows[..|rows| - 1], rows[|rows| - 1];
      assert rows == q + [r];
      TimesExtend(q, r);
      AggregateIsUpsert(q, t);
      if r.time == t && t !in TimesOf(q) {
        assert LastNonNull(q, t, Bid) == LastNonNull(q, t, Ask) == LastNonNull(q, t, Ts) == None;
      }
    }
  }

  /** The merged file: sorted, one row per time, exactly the times that went in, each
      row aggregated column by column. */
  lemma MergedRows(rows: seq<Row>)
    ensures StrictlySorted(Merged(rows))
    ensures TimesOf(Merged(rows)) == TimesOf(rows)
    ensures forall r :: r in Merged(rows) ==> r.time in TimesOf(rows) && r == Aggregate(rows, r.time)
  {
    var ks := Keys(rows);
    var gs := Groups(rows, ks);
    Sorting.SortSorts(TimeOf, gs);
    Sorting.SortStrict(TimeOf, gs);
    forall t | t in TimesOf(rows) ensures t in TimesOf(Merged(rows)) {
      var i :| 0 <= i < |ks| && ks[i] == t;
      assert gs[i] in gs && gs[i].time == t;
    }
  }

  lemma {:induction false} UpsertsSorted(rows: seq<Row>, r: Row)
    requires StrictlySorted(rows) && r in rows
    ensures r.time in Upserts(map[], rows) && Upserts(map[], rows)[r.time] == r
  {
    var q, x := rows[..|rows| - 1], rows[|rows| - 1];
    assert rows == q + [x];
    if r == x {
      AggregateIsUpsert(q, x.time);
    } else {
      UpsertsSorted(q, r);
    }
  }

  lemma MergedTimes(a: seq<Row>, b: seq<Row>)
    ensures TimesOf(Merged(a + b)) == TimesOf(a) + TimesOf(b)
  {
    MergedRows(a + b);
    assert TimesOf(a + b) == TimesOf(a) + TimesOf(b);
  }

  lemma {:induction false} UpsertsTimes(m: map<int, Row>, rows: seq<Row>)
    ensures Upserts(m, rows).Keys == m.Keys + TimesOf(rows)
  {
    if rows != [] {
      var q, r := rows[..|rows| - 1], rows[|rows| - 1];
      assert rows == q + [r];
      UpsertsTimes(m, q);
    }
  }

  /** Merging is upserting: read back, the merged file is the fold of the rows. */
  lemma MergedIsUpsert(rows: seq<Row>)
    ensures Upserts(map[], Merged(rows)) == Upserts(map[], rows)
  {
    MergedRows(rows);
    forall t
      ensures t in Upserts(map[], Merged(rows)) <==> t in Upserts(map[], rows)
      ensures t in Upserts(map[], rows) ==> Upserts(map[], Merged(rows))[t] == Upserts(map[], rows)[t]
    {
      AggregateIsUpsert(rows, t);
      AggregateIsUpsert(Merged(rows), t);
      if t in TimesOf(rows) {
        var r :| r in Merged(rows) && r.time == t;
        UpsertsSorted(Merged(rows), r);
      }
    }
  }

  // ----- Algebra ------------------------------------------------------------

  lemma {:induction false} UpsertsConcat(m: map<int, Row>, a: seq<Row>, b: seq<Row>)
    ensures Upserts(m, a + b) == Upserts(Upserts(m, a), b)
  {
    if b == [] {
      assert a + b == a;
    } else {
      UpsertsConcat(m, a, b[..|b| - 1]);
      assert (a + b)[..|a + b| - 1] == a + b[..|b| - 1];
    }
  }

  lemma TailMembers(a: seq<Row>, r: Row)
    requires StrictlySorted(a) && a != []
    ensures r in a[1..] <==> r in a && r.time > a[0].time
  {
    assert a == [a[0]] + a[1..];
  }

  lemma SameHead(a: seq<Row>, b: seq<Row>)
    requires StrictlySorted(a) && StrictlySorted(b) && a != [] && b != []
    requires a[0] in b && b[0] in a
    ensures a[0] == b[0]
  {
  }

  lemma SameTails(a: seq<Row>, b: seq<Row>)
    requires StrictlySorted(a) && StrictlySorted(b) && a != [] && b != []
    requires forall r :: r in a <==> r in b
    ensures a[0] == b[0] && forall r :: r in a[1..] <==> r in b[1..]
  {
    assert a[0] in a && b[0] in b;
    SameHead(a, b);
    forall r ensures r in a[1..] <==> r in b[1..] {
      TailMembers(a, r);
      TailMembers(b, r);
    }
  }

  /** A sorted file is determined by what it holds. */
  lemma {:induction false} SortedUnique(a: seq<Row>, b: seq<Row>)
    requires StrictlySorted(a) && StrictlySorted(b)
    requires forall r :: r in a <==> r in b
    ensures a == b
  {
    assert forall i :: 0 <= i < |a| ==> a[i] in b;
    assert forall i :: 0 <= i < |b| ==> b[i] in a;
    if a != [] && b != [] {
      SameTails(a, b);
      SortedUnique(a[1..], b[1..]);
      assert a == [a[0]] + a[1..] && b == [b[0]] + b[1..];
    }
  }

  /** Two lots of rows with the same upsert merge to the same file. */
  lemma MergedDetermined(a: seq<Row>, b: seq<Row>)
    requires Upserts(map[], a) == Upserts(map[], b)
    ensures Merged(a) == Merged(b)
  {
    MergedRows(a);
    MergedRows(b);
    MergedMembers(a, b);
    MergedMembers(b, a);
    SortedUnique(Merged(a), Merged(b));
  }

  lemma MergedMembers(a: seq<Row>, b: seq<Row>)
    requires Upserts(map[], a) == Upserts(map[], b)
    ensures forall r :: r in Merged(a) ==> r in Merged(b)
  {
    MergedRows(a);
    MergedRows(b);
    forall r | r in Merged(a) ensures r in Merged(b) {
      AggregateIsUpsert(a, r.time);
      AggregateIsUpsert(b, r.time);
      var s :| s in Merged(b) && s.time == r.time;
    }
  }

  /** Merging in two batches is merging the concatenation. */
  lemma MergeInTwoBatches(a: seq<Row>, b: seq<Row>)
    ensures Merged(Merged(a) + b) == Merged(a + b)
  {
    UpsertsConcat(map[], Merged(a), b);
    UpsertsConcat(map[], a, b);
    MergedIsUpsert(a);
    MergedDetermined(Merged(a) + b, a + b);
  }

  /** Merging a batch a second time changes nothing. */
  lemma MergeTwiceIsOnce(a: seq<Row>, b: seq<Row>)
    ensures Merged(Merged(a + b) + b) == Merged(a + b)
  {
    MergeInTwoBatches(a + b, b);
    forall t
      ensures t in Upserts(map[], a + b + b) <==> t in Upserts(map[], a + b)
      ensures t in Upserts(map[], a + b) ==> Upserts(map[], a + b + b)[t] == Upserts(map[], a + b)[t]
    {
      AggregateIsUpsert(a + b + b, t);
      AggregateIsUpsert(a + b, t);
      assert TimesOf(a + b + b) == TimesOf(a + b);
      if t in TimesOf(a + b) {
        RepeatedColumns(a, b, t);
      }
    }
    assert Upserts(map[], a + b + b) == Upserts(map[], a + b);
    MergedDetermined(a + b + b, a + b);
  }

  lemma RepeatedColumns(a: seq<Row>, b: seq<Row>, t: int)
    requires t in TimesOf(a + b) && t in TimesOf(a + b + b)
    ensures Aggregate(a + b + b, t) == Aggregate(a + b, t)
  {
    LastConcat(a, b, t, Bid);
    LastConcat(a, b, t, Ask);
    LastConcat(a, b, t, Ts);
    LastConcat(a + b, b, t, Bid);
    LastConcat(a + b, b, t, Ask);
    LastConcat(a + b, b, t, Ts);
    ValuesConcat(a + b, b, t);
    ValuesConcat(a, b, t);
  }

  lemma {:induction false} LastConcat(a: seq<Row>, b: seq<Row>, t: int, column: Row -> Option<real>)
    ensures LastNonNull(a + b, t, column) ==
            if LastNonNull(b, t, column).Some? then LastNonNull(b, t, column) else LastNonNull(a, t, column)
  {
    if b == [] {
      assert a + b == a;
    } else {
      assert (a + b)[..|a + b| - 1] == a + b[..|b| - 1];
      LastConcat(a, b[..|b| - 1], t, column);
    }
  }

  lemma {:induction false} ValuesConcat(a: seq<Row>, b: seq<Row>, t: int)
    requires t in TimesOf(a + b)
    ensures t in TimesOf(b) ==> LastValues(a + b, t) == LastValues(b, t)
    ensures t !in TimesOf(b) ==> t in TimesOf(a) && LastValues(a + b, t) == LastValues(a, t)
  {
    if b == [] {
      assert a + b == a;
    } else {
      var c, r := b[..|b| - 1], b[|b| - 1];
      assert (a + b)[..|a + b| - 1] == a + c;
      assert b == c + [r] && a + b == a + c + [r];
      TimesExtend(c, r);
      TimesExtend(a + c, r);
      if r.time != t {
        ValuesConcat(a, c, t);
      }
    }
  }

  /** Column laws of a republish: a later row's prices win, its missing quote or clock
      keeps the stored one, and a time it does not carry is untouched. */
  lemma RepublishColumns(stored: seq<Row>, batch: seq<Row>, r: Row)
    requires r in Merged(stored + batch)
    ensures r.time in TimesOf(batch) ==> r.values == LastValues(batch, r.time)
    ensures r.time !in TimesOf(batch) ==> r.time in TimesOf(stored) && r.values == LastValues(stored, r.time)
    ensures r.bid == Coalesced(LastNonNull(stored, r.time, Bid), LastNonNull(batch, r.time, Bid))
    ensures r.ask == Coalesced(LastNonNull(stored, r.time, Ask), LastNonNull(batch, r.time, Ask))
    ensures r.ts == Coalesced(LastNonNull(stored, r.time, Ts), LastNonNull(batch, r.time, Ts))
  {
    MergedRows(stored + batch);
    ValuesConcat(stored, batch, r.time);
    LastConcat(stored, batch, r.time, Bid);
    LastConcat(stored, batch, r.time, Ask);
    LastConcat(stored, batch, r.time, Ts);
  }
}
