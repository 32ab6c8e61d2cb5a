/** Filling missing bars: which, from what, and what survives. */
module Imputation {
  import opened Prelude
  import opened Bars
  import Merge
  import Sorting

  datatype Method = Ffill | Bfill | Interpolate

  datatype Note = Plain | NoPrev | NoNext | SkipNoReference

  /** A row of the output schema: the source columns and the `imputed` flag. */
  datatype Entry = Entry(row: Row, imputed: bool)

  function EntryTime(e: Entry): int { e.row.time }

  /** rows_before, rows_added, the log, and the new table, None when nothing was added. */
  datatype Day = Day(before: nat, added: nat, log: seq<(int, Note)>, table: Option<seq<Entry>>)

  // ----- Values -------------------------------------------------------------

  function Close(r: Row): real { r.values.close }
  function Open(r: Row): real { r.values.open }

  /** The value and its note, or None if there is no neighbour at all. */
  function Impute(t: int, prev: Option<Row>, next: Option<Row>, m: Method): Option<(real, Note)> {
    match m
    case Ffill =>
      if prev.Some? then Some((Close(prev.value), Plain))
      else if next.Some? then Some((Open(next.value), NoPrev))
      else None
    case Bfill =>
      if next.Some? then Some((Open(next.value), Plain))
      else if prev.Some? then Some((Close(prev.value), NoNext))
      else None
    case Interpolate =>
      if prev.Some? && next.Some? then
        var total := next.value.time - prev.value.time;
        var elapsed := t - prev.value.time;
        var frac := if total > 0 then elapsed as real / total as real else 0.0;
        Some((Close(prev.value) + frac * (Open(next.value) - Close(prev.value)), Plain))
      else if prev.Some? then Some((Close(prev.value), NoNext))
      else if next.Some? then Some((Open(next.value), NoPrev))
      else None
  }

  /** No trading and no quote is invented; the category is the reference row's. */
  function ImputedRow(t: int, value: real, reference: Row): Entry {
    Entry(Row(t, Values(value, value, value, value, 0, 0, 0, 0, 0, reference.values.category), None, None, None), true)
  }

  function Real(r: Row): Entry {
    Entry(r, false)
  }

  // ----- Neighbours ---------------------------------------------------------

  /** bisect_left: how many leading rows are before `t`. */
  function BisectLeft(sorted: seq<Row>, t: int): (i: nat)
    ensures i <= |sorted|
    ensures forall j :: 0 <= j < i ==> sorted[j].time < t
    ensures i < |sorted| ==> sorted[i].time >= t
  {
    if sorted == [] || sorted[0].time >= t then 0 else 1 + BisectLeft(sorted[1..], t)
  }

  function Prev(sorted: seq<Row>, t: int): Option<Row> {
    var i := BisectLeft(sorted, t);
    if i > 0 then Some(sorted[i - 1]) else None
  }

  function Next(sorted: seq<Row>, t: int): Option<Row> {
    var i := BisectLeft(sorted, t);
    if i < |sorted| then Some(sorted[i]) else None
  }

  /** The expected times that no row has. */
  function MissingTimes(rows: seq<Row>, expected: seq<int>): seq<int> {
    if expected == [] then []
    else
      var r, t := MissingTimes(rows, expected[..|expected| - 1]), expected[|expected| - 1];
      if t in Merge.TimesOf(rows) then r else r + [t]
  }

  /** What one missing time adds to the table, and its log line. */
  function Filled(sorted: seq<Row>, t: int, m: Method): (seq<Entry>, Note) {
    var prev, next := Prev(sorted, t), Next(sorted, t);
    if prev.None? && next.None? then ([], SkipNoReference)
    else
      var v := Impute(t, prev, next, m).value;
      ([ImputedRow(t, v.0, if prev.Some? then prev.value else next.value)], v.1)
  }

  function AllFilled(sorted: seq<Row>, missing: seq<int>, m: Method): (seq<Entry>, seq<(int, Note)>) {
    if missing == [] then ([], [])
    else
      var (es, log) := AllFilled(sorted, missing[..|missing| - 1], m);
      var t := missing[|missing| - 1];
      var (e, note) := Filled(sorted, t, m);
      (es + e, log + [(t, note)])
  }

  function Reals(rows: seq<Row>): (es: seq<Entry>)
    ensures |es| == |rows| && forall i :: 0 <= i < |rows| ==> es[i] == Real(rows[i])
  {
    if rows == [] then [] else Reals(rows[..|rows| - 1]) + [Real(rows[|rows| - 1])]
  }

  function DayOf(rows: seq<Row>, expected: seq<int>, m: Method): Day {
    var missing := MissingTimes(rows, expected);
    if missing == [] then Day(|rows|, 0, [], None)
    else
      var (added, log) := AllFilled(Merge.SortByTime(rows), missing, m);
      if added == [] then Day(|rows|, 0, log, None)
      else Day(|rows|, |added|, log, Some(Sorting.Sort(EntryTime, Reals(rows) + added)))
  }

  /** Flag the rows that came off the wire. */
  method FlagReal(rows: seq<Row>) returns (originals: seq<Entry>)
    ensures originals == Reals(rows)
  {
    originals := [];
    for i := 0 to |rows|
      invariant originals == Reals(rows[..i])
    {
      assert rows[..i + 1][..i] == rows[..i];
      originals := originals + [Entry(rows[i], false)];
    }
    assert rows[..|rows|] == rows;
  }

  method FillOne(sorted: seq<Row>, t: int, m: Method) returns (es: seq<Entry>, note: Note)
    ensures (es, note) == Filled(sorted, t, m)
  {
    var idx := BisectLeft(sorted, t);
    var prev := if idx > 0 then Some(sorted[idx - 1]) else None;
    var next := if idx < |sorted| then Some(sorted[idx]) else None;
    var v := Impute(t, prev, next, m);
    if v.None? {
      return [], SkipNoReference;
    }
    return [ImputedRow(t, v.value.0, if prev.Some? then prev.value else next.value)], v.value.1;
  }

  method FillAll(sorted: seq<Row>, missing: seq<int>, m: Method) returns (added: seq<Entry>, log: seq<(int, Note)>)
    ensures (added, log) == AllFilled(sorted, missing, m)
  {
    added, log := [], [];
    for i := 0 to |missing|
      invariant (added, log) == AllFilled(sorted, missing[..i], m)
    {
      assert missing[..i + 1][..i] == missing[..i];
      var es, note := FillOne(sorted, missing[i], m);
      added := added + es;
      log := log + [(missing[i], note)];
    }
    assert missing[..|missing|] == missing;
  }

  method ImputeDay(rows: seq<Row>, expected: seq<int>, m: Method) returns (day: Day)
    ensures day == DayOf(rows, expected, m)
  {
    var originals := FlagReal(rows);
    var missing := MissingTimes(rows, expected);
    if missing == [] {
      return Day(|rows|, 0, [], None);
    }
    var added, log := FillAll(Merge.SortByTime(rows), missing, m);
    if added == [] {
      return Day(|rows|, 0, log, None);
    }
    return Day(|rows|, |added|, log, Some(Sorting.Sort(EntryTime, originals + added)));
  }

  // ----- What is invented ---------------------------------------------------

  /** Each expected time that no row has is missing as often as it is expected. */
  lemma {:induction false} MissingCounts(rows: seq<Row>, expected: seq<int>, t: int)
    ensures multiset(MissingTimes(rows, expected))[t] ==
            if exists r :: r in rows && r.time == t then 0 else multiset(expected)[t]
  {
    if expected != [] {
      var q, x := expected[..|expected| - 1], expected[|expected| - 1];
      assert expected == q + [x];
      MissingCounts(rows, q, t);
    }
  }

  lemma {:induction false} MissingExactly(rows: seq<Row>, expected: seq<int>)
    ensures forall t :: t in MissingTimes(rows, expected) <==> t in expected && t !in Merge.TimesOf(rows)
  {
    if expected != [] {
      var q, t := expected[..|expected| - 1], expected[|expected| - 1];
      assert expected == q + [t];
      MissingExactly(rows, q);
    }
  }

  /** `p` is a latest row before `t`, or there is none. */
  ghost predicate NearestBefore(rows: seq<Row>, t: int, p: Option<Row>) {
    if p.None? then forall r :: r in rows ==> r.time >= t
    else p.value in rows && p.value.time < t && forall r :: r in rows && r.time < t ==> r.time <= p.value.time
  }

  /** `n` is an earliest row after `t`, or there is none. */
  ghost predicate NearestAfter(rows: seq<Row>, t: int, n: Option<Row>) {
    if n.None? then forall r :: r in rows ==> r.time <= t
    else n.value in rows && n.value.time > t && forall r :: r in rows && r.time > t ==> r.time >= n.value.time
  }

  lemma NeighbourBefore(sorted: seq<Row>, t: int)
    requires Sorting.Sorted(Merge.TimeOf, sorted)
    ensures NearestBefore(sorted, t, Prev(sorted, t))
  {
    var i := BisectLeft(sorted, t);
    forall r | r in sorted && r.time < t ensures i > 0 && r.time <= sorted[i - 1].time {
      var j :| 0 <= j < |sorted| && sorted[j] == r;
      assert j >= i ==> Merge.TimeOf(sorted[j]) >= Merge.TimeOf(sorted[i]);
      assert Merge.TimeOf(sorted[j]) <= Merge.TimeOf(sorted[i - 1]);
    }
  }

  lemma NeighbourAfter(sorted: seq<Row>, t: int)
    requires Sorting.Sorted(Merge.TimeOf, sorted) && forall r :: r in sorted ==> r.time != t
    ensures NearestAfter(sorted, t, Next(sorted, t))
  {
    var i := BisectLeft(sorted, t);
    forall r | r in sorted && r.time > t ensures i < |sorted| && r.time >= sorted[i].time {
      var j :| 0 <= j < |sorted| && sorted[j] == r;
      assert Merge.TimeOf(sorted[j]) >= Merge.TimeOf(sorted[i]);
    }
  }

  lemma Neighbours(rows: seq<Row>, t: int)
    requires t !in Merge.TimesOf(rows)
    ensures var sorted := Merge.SortByTime(rows);
            NearestBefore(rows, t, Prev(sorted, t)) && NearestAfter(rows, t, Next(sorted, t))
  {
    var sorted := Merge.SortByTime(rows);
    Sorting.SortSorts(Merge.TimeOf, rows);
    NeighbourBefore(sorted, t);
    NeighbourAfter(sorted, t);
  }

  lemma ScaledBounds(f: real, d: real)
    requires 0.0 <= f <= 1.0
    ensures d >= 0.0 ==> 0.0 <= f * d <= d
    ensures d <= 0.0 ==> d <= f * d <= 0.0
  {
  }

  lemma FractionBounds(a: int, b: int)
    requires 0 < a < b
    ensures 0.0 <= a as real / b as real <= 1.0
  {
  }

  lemma Swapped(a: real, b: real, c: real)
    ensures a * b * c == a * c * b
  {
  }

  /** A fraction of a distance, scaled back. */
  lemma ScaledBack(elapsed: real, total: real, d: real)
    requires total != 0.0
    ensures (elapsed / total) * d * total == elapsed * d
  {
    var f := elapsed / total;
    assert f * total == elapsed;
    Swapped(f, d, total);
  }

  lemma PointOnLine(a: real, f: real, d: real, elapsed: real, total: real)
    requires f * d * total == elapsed * d
    ensures (a + f * d - a) * total == elapsed * d
  {
    assert a + f * d - a == f * d;
  }

  /** An interpolated value divides the way from the previous close to the next open as
      its time divides the time between, and so lies between the two. */
  lemma InterpolatedBetween(t: int, prev: Row, next: Row)
    requires prev.time < t < next.time
    ensures var v := Impute(t, Some(prev), Some(next), Interpolate).value.0;
            && OnTheLine(prev, next, t, v)
            && Between(prev.values.close, v, next.values.open)
  {
    var elapsed, total := (t - prev.time) as real, (next.time - prev.time) as real;
    var f, d := elapsed / total, Open(next) - Close(prev);
    var v := Impute(t, Some(prev), Some(next), Interpolate).value.0;
    assert v == Close(prev) + f * d;
    FractionBounds(t - prev.time, next.time - prev.time);
    ScaledBounds(f, d);
    ScaledBack(elapsed, total, d);
    PointOnLine(Close(prev), f, d, elapsed, total);
  }

  predicate OnTheLine(prev: Row, next: Row, t: int, v: real) {
    (v - prev.values.close) * (next.time - prev.time) as real ==
    (t - prev.time) as real * (next.values.open - prev.values.close)
  }

  predicate Between(a: real, v: real, b: real) {
    a <= v <= b || b <= v <= a
  }

  /** What a method makes of these neighbours, not both missing: forward fill takes the
      previous close, backward fill the next open, each the other's for want of its own;
      interpolation takes the point on the line between the two, or the one there is. */
  predicate Valued(m: Method, prev: Option<Row>, next: Option<Row>, t: int, v: real) {
    && (prev.Some? || next.Some?)
    && (m == Ffill ==> v == if prev.Some? then prev.value.values.close else next.value.values.open)
    && (m == Bfill ==> v == if next.Some? then next.value.values.open else prev.value.values.close)
    && (m == Interpolate ==>
          if prev.Some? && next.Some?
          then OnTheLine(prev.value, next.value, t, v) && Between(prev.value.values.close, v, next.value.values.open)
          else v == if prev.Some? then prev.value.values.close else next.value.values.open)
  }

  /** A row without trading: one price, no quantity, no quote, no clock. */
  predicate Flat(r: Row, category: int) {
    && r.values.high == r.values.open && r.values.low == r.values.open && r.values.close == r.values.open
    && r.values.elVolume == 0 && r.values.elTicks == 0 && r.values.elUpticks == 0
    && r.values.elDownticks == 0 && r.values.elOpenInterest == 0
    && r.values.category == category
    && r.bid == None && r.ask == None && r.ts == None
  }

  /** What an invented row is: flagged, flat, at a missing time, of the category of the
      nearest original before it, or after it if there is none before, and valued from its
      nearest original neighbours. */
  ghost predicate Invented(rows: seq<Row>, expected: seq<int>, m: Method, e: Entry) {
    && e.imputed
    && e.row.time in expected && e.row.time !in Merge.TimesOf(rows)
    && exists prev, next ::
         && NearestBefore(rows, e.row.time, prev) && NearestAfter(rows, e.row.time, next)
         && Valued(m, prev, next, e.row.time, e.row.values.open)
         && Flat(e.row, (if prev.Some? then prev.value else next.value).values.category)
  }

  /** How a missing time is noted in the log: plainly, or as filled from the other side
      for want of a row on its own. */
  ghost predicate NotedAs(rows: seq<Row>, t: int, m: Method, note: Note) {
    var before, after := (exists r :: r in rows && r.time < t), (exists r :: r in rows && r.time > t);
    match m
    case Ffill => note == if before then Plain else NoPrev
    case Bfill => note == if after then Plain else NoNext
    case Interpolate => note == if before && after then Plain else if before then NoNext else NoPrev
  }

  lemma FilledIsInvented(rows: seq<Row>, expected: seq<int>, t: int, m: Method)
    requires rows != [] && t in expected && t !in Merge.TimesOf(rows)
    ensures var (es, note) := Filled(Merge.SortByTime(rows), t, m);
            |es| == 1 && Fills(rows, expected, m, t, es[0]) && NotedAs(rows, t, m, note)
  {
    Neighbours(rows, t);
    var sorted := Merge.SortByTime(rows);
    var prev, next := Prev(sorted, t), Next(sorted, t);
    assert rows[0] in rows;
    assert prev.Some? || next.Some?;
    if prev.Some? && next.Some? {
      InterpolatedBetween(t, prev.value, next.value);
    }
    var e := Filled(sorted, t, m).0[0];
    assert Valued(m, prev, next, t, e.row.values.open);
    assert Flat(e.row, (if prev.Some? then prev.value else next.value).values.category);
  }

  /** `e` fills the missing time `t`. */
  ghost predicate Fills(rows: seq<Row>, expected: seq<int>, m: Method, t: int, e: Entry) {
    e.row.time == t && e.imputed && Invented(rows, expected, m, e)
  }

  /** With at least one row, every missing time adds exactly one entry. */
  lemma {:induction false} OneEntryEach(sorted: seq<Row>, missing: seq<int>, m: Method)
    requires sorted != []
    ensures var es := AllFilled(sorted, missing, m).0;
            && |es| == |missing|
            && (forall i :: 0 <= i < |es| ==> Filled(sorted, missing[i], m).0 == [es[i]])
    ensures var log := AllFilled(sorted, missing, m).1;
            && |log| == |missing|
            && forall i :: 0 <= i < |log| ==> log[i] == (missing[i], Filled(sorted, missing[i], m).1)
  {
    if missing != [] {
      var q, t := missing[..|missing| - 1], missing[|missing| - 1];
      OneEntryEach(sorted, q, m);
      assert |Filled(sorted, t, m).0| == 1;
    }
  }

  lemma AllFilledAreInvented(rows: seq<Row>, expected: seq<int>, missing: seq<int>, m: Method)
    requires rows != [] && forall t :: t in missing ==> t in expected && t !in Merge.TimesOf(rows)
    ensures var es := AllFilled(Merge.SortByTime(rows), missing, m).0;
            |es| == |missing| && forall i :: 0 <= i < |es| ==> Fills(rows, expected, m, missing[i], es[i])
    ensures var log := AllFilled(Merge.SortByTime(rows), missing, m).1;
            && |log| == |missing|
            && forall i :: 0 <= i < |log| ==> log[i].0 == missing[i] && NotedAs(rows, missing[i], m, log[i].1)
  {
    var sorted := Merge.SortByTime(rows);
    Sorting.SortSorts(Merge.TimeOf, rows);
    SameSize(sorted, rows);
    OneEntryEach(sorted, missing, m);
    var es := AllFilled(sorted, missing, m).0;
    forall i | 0 <= i < |missing|
      ensures Fills(rows, expected, m, missing[i], es[i])
      ensures NotedAs(rows, missing[i], m, Filled(sorted, missing[i], m).1)
    {
      FilledIsInvented(rows, expected, missing[i], m);
    }
  }

  lemma {:induction false} RealsCount(rows: seq<Row>, r: Row)
    ensures multiset(Reals(rows))[Real(r)] == multiset(rows)[r]
  {
    if rows != [] {
      var q, x := rows[..|rows| - 1], rows[|rows| - 1];
      assert rows == q + [x];
      RealsCount(q, r);
    }
  }

  lemma DayIsLogged(rows: seq<Row>, expected: seq<int>, m: Method)
    requires rows != []
    ensures var d := DayOf(rows, expected, m);
            && d.before == |rows|
            && d.added == |MissingTimes(rows, expected)|
            && (d.table.None? <==> forall t :: t in expected ==> t in Merge.TimesOf(rows))
            && |d.log| == |MissingTimes(rows, expected)|
            && forall i :: 0 <= i < |d.log| ==>
                 d.log[i].0 == MissingTimes(rows, expected)[i] && NotedAs(rows, d.log[i].0, m, d.log[i].1)
  {
    var missing := MissingTimes(rows, expected);
    MissingExactly(rows, expected);
    AllFilledAreInvented(rows, expected, missing, m);
    if missing != [] {
      assert missing[0] in missing;
    }
  }

  /** What the table of a day is. */
  ghost predicate FilledTable(rows: seq<Row>, expected: seq<int>, m: Method, table: seq<Entry>) {
    Sorting.Sorted(EntryTime, table) && FilledRows(rows, expected, m, table)
  }

  ghost predicate FilledRows(rows: seq<Row>, expected: seq<int>, m: Method, table: seq<Entry>) {
    && |table| == |rows| + |MissingTimes(rows, expected)|
    && (forall t :: (exists e :: e in table && e.row.time == t) <==> t in Merge.TimesOf(rows) || t in expected)
    && (forall r :: multiset(table)[Entry(r, false)] == multiset(rows)[r])
    && (forall e :: e in table && e.imputed ==> Invented(rows, expected, m, e))
  }

  /** A day that has any row: it yields a table exactly when an expected time is
      missing. The table is sorted; its times are the existing ones and the expected
      ones; every original row survives, as often as it was there, flagged as real; and
      every other row is an invented one, flagged so. */
  lemma DayIsFilled(rows: seq<Row>, expected: seq<int>, m: Method)
    requires rows != []
    ensures var d := DayOf(rows, expected, m);
            && d.before == |rows|
            && d.added == |MissingTimes(rows, expected)|
            && (d.table.None? <==> forall t :: t in expected ==> t in Merge.TimesOf(rows))
            && |d.log| == |MissingTimes(rows, expected)|
            && forall i :: 0 <= i < |d.log| ==>
                 d.log[i].0 == MissingTimes(rows, expected)[i] && NotedAs(rows, d.log[i].0, m, d.log[i].1)
    ensures var d := DayOf(rows, expected, m); d.table.Some? ==> FilledTable(rows, expected, m, d.table.value)
  {
    DayIsLogged(rows, expected, m);
    var missing := MissingTimes(rows, expected);
    if missing != [] {
      MissingExactly(rows, expected);
      AllFilledAreInvented(rows, expected, missing, m);
      TableIsFilled(rows, expected, AllFilled(Merge.SortByTime(rows), missing, m).0, m);
    }
  }

  lemma TableIsFilled(rows: seq<Row>, expected: seq<int>, added: seq<Entry>, m: Method)
    requires added != []
    requires |added| == |MissingTimes(rows, expected)|
    requires forall i :: 0 <= i < |added| ==> Fills(rows, expected, m, MissingTimes(rows, expected)[i], added[i])
    ensures FilledTable(rows, expected, m, Sorting.Sort(EntryTime, Reals(rows) + added))
  {
    var all := Reals(rows) + added;
    assert forall e :: e in added ==> e.imputed;
    RealsSurvive(rows, added);
    TableTimes(rows, expected, added);
    OnlyInvented(rows, expected, added, m);
    assert FilledRows(rows, expected, m, all);
    Sorting.SortSorts(EntryTime, all);
    SameRows(rows, expected, m, all, Sorting.Sort(EntryTime, all));
  }

  lemma SameRows(rows: seq<Row>, expected: seq<int>, m: Method, all: seq<Entry>, table: seq<Entry>)
    requires FilledRows(rows, expected, m, all) && multiset(table) == multiset(all)
    requires forall e :: e in table <==> e in all
    ensures FilledRows(rows, expected, m, table)
  {
    SameSize(table, all);
  }

  lemma OnlyInvented(rows: seq<Row>, expected: seq<int>, added: seq<Entry>, m: Method)
    requires |added| == |MissingTimes(rows, expected)|
    requires forall i :: 0 <= i < |added| ==> Fills(rows, expected, m, MissingTimes(rows, expected)[i], added[i])
    ensures forall e :: e in Reals(rows) + added && e.imputed ==> Invented(rows, expected, m, e)
  {
    forall e | e in Reals(rows) + added && e.imputed ensures Invented(rows, expected, m, e) {
      assert e in Reals(rows) || e in added;
      var i :| 0 <= i < |added| && added[i] == e;
      assert Fills(rows, expected, m, MissingTimes(rows, expected)[i], added[i]);
    }
  }

  lemma SameSize<T>(a: seq<T>, b: seq<T>)
    requires multiset(a) == multiset(b)
    ensures |a| == |b|
  {
    assert |multiset(a)| == |multiset(b)|;
  }

  lemma RealsSurvive(rows: seq<Row>, added: seq<Entry>)
    requires forall e :: e in added ==> e.imputed
    ensures forall r :: multiset(Reals(rows) + added)[Real(r)] == multiset(rows)[r]
  {
    forall r ensures multiset(Reals(rows) + added)[Real(r)] == multiset(rows)[r] {
      RealsCount(rows, r);
      assert Real(r) !in added;
    }
  }

  lemma TableTimes(rows: seq<Row>, expected: seq<int>, added: seq<Entry>)
    requires |added| == |MissingTimes(rows, expected)|
    requires forall i :: 0 <= i < |added| ==> added[i].row.time == MissingTimes(rows, expected)[i]
    ensures forall t :: (exists e :: e in Reals(rows) + added && e.row.time == t) <==>
                        t in Merge.TimesOf(rows) || t in expected
  {
    MissingExactly(rows, expected);
    var all, missing := Reals(rows) + added, MissingTimes(rows, expected);
    forall t ensures (exists e :: e in all && e.row.time == t) <==> t in Merge.TimesOf(rows) || t in expected {
      if t in Merge.TimesOf(rows) {
        var i :| 0 <= i < |rows| && rows[i].time == t;
        assert all[i] == Real(rows[i]);
      } else if t in expected {
        var i :| 0 <= i < |missing| && missing[i] == t;
        assert all[|rows| + i] == added[i];
      }
      if e :| e in all && e.row.time == t {
        var i :| 0 <= i < |all| && all[i] == e;
        if i < |rows| {
          assert rows[i] in rows;
        } else {
          assert missing[i - |rows|] in missing;
        }
      }
    }
  }

  /** A day with no row at all is left alone, whatever is expected of it. */
  lemma EmptyDayStaysEmpty(expected: seq<int>, m: Method)
    ensures DayOf([], expected, m).table == None && DayOf([], expected, m).added == 0
  {
    NothingFilled(MissingTimes([], expected), m);
  }

  lemma {:induction false} NothingFilled(missing: seq<int>, m: Method)
    ensures AllFilled([], missing, m).0 == []
  {
    if missing != [] {
      NothingFilled(missing[..|missing| - 1], m);
    }
  }
}
