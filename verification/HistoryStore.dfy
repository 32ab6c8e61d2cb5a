/** The read side: choose partitions by their path alone, read them, filter by time. */
module HistoryStore {
  import opened Prelude
  import opened Bars
  import opened Store
  import Merge
  import Sorting

  /** A directory under a symbol: one this store's writer makes, or something else. */
  datatype Dir = Dated(day: int) | Stray(name: string)
  datatype Partition = Partition(dir: Dir, file: File)

  /** The files of one chart. Daily charts (bar type 2) keep one file and no date level. */
  datatype Chart = Daily(file: File) | Intraday(partitions: seq<Partition>)

  datatype Answer = Rows(rows: seq<Row>) | Raised

  /** What reading a list of files together can do: succeed, refuse a schema that is not
      this store's, or fail on a file it cannot read. */
  datatype Collected = Got(rows: seq<Row>) | NotOurs | Broken

  predicate InRange(r: Row, lo: int, hi: int) {
    lo <= r.time <= hi
  }

  function Selected(rows: seq<Row>, lo: int, hi: int): seq<Row> {
    if rows == [] then []
    else
      var s, r := Selected(rows[..|rows| - 1], lo, hi), rows[|rows| - 1];
      if InRange(r, lo, hi) then s + [r] else s
  }

  /** Every stored row in range, with no pruning at all. */
  function PlainFilter(ps: seq<Partition>, lo: int, hi: int): seq<Row> {
    if ps == [] then []
    else PlainFilter(ps[..|ps| - 1], lo, hi) + Selected(RowsOf(ps[|ps| - 1].file), lo, hi)
  }

  /** The one-day widening: the ET dates of the bounds, a day further on either side. */
  predicate Keeps(zone: Zone, lo: int, hi: int, dir: Dir) {
    dir.Dated? ==> EtDate(zone, lo) - 1 <= dir.day <= EtDate(zone, hi) + 1
  }

  function Kept(zone: Zone, ps: seq<Partition>, lo: int, hi: int): seq<Partition> {
    if ps == [] then []
    else
      var ks, p := Kept(zone, ps[..|ps| - 1], lo, hi), ps[|ps| - 1];
      if p.file != Absent && Keeps(zone, lo, hi, p.dir) then ks + [p] else ks
  }

  class Reader {
    const zone: Zone

    constructor (zone: Zone)
      ensures this.zone == zone
    {
      this.zone := zone;
    }

    /** A loop over the directories, in order. */
    method FilesInRange(ps: seq<Partition>, lo: int, hi: int) returns (kept: seq<Partition>)
      ensures kept == Kept(zone, ps, lo, hi)
    {
      var loDay, hiDay := EtDate(zone, lo) - 1, EtDate(zone, hi) + 1;
      kept := [];
      for i := 0 to |ps|
        invariant kept == Kept(zone, ps[..i], lo, hi)
      {
        assert ps[..i + 1][..i] == ps[..i];
        if ps[i].file == Absent {
          continue;
        }
        match ps[i].dir
        case Stray(_) => kept := kept + [ps[i]];
        case Dated(day) =>
          if loDay <= day <= hiDay {
            kept := kept + [ps[i]];
          }
      }
      assert ps[..|ps|] == ps;
    }

    /** The schema is taken from the first file; any other file that disagrees with it,
        or cannot be read, makes the whole read fail. */
    method Collect(ps: seq<Partition>, lo: int, hi: int) returns (c: Collected)
      requires ps != [] && forall p :: p in ps ==> p.file != Absent
      ensures c.Got? <==> forall p :: p in ps ==> p.file.Complete?
      ensures c.Got? ==> Sorting.Sorted(Merge.TimeOf, c.rows) && multiset(c.rows) == multiset(PlainFilter(ps, lo, hi))
      ensures c.NotOurs? <==> ps[0].file == Foreign
    {
      if ps[0].file == Foreign {
        return NotOurs;
      }
      var ok, rows := Scan(ps, lo, hi);
      if !ok {
        return Broken;
      }
      Sorting.SortSorts(Merge.TimeOf, rows);
      return Got(Merge.SortByTime(rows));
    }

    method Scan(ps: seq<Partition>, lo: int, hi: int) returns (ok: bool, rows: seq<Row>)
      ensures ok <==> forall p :: p in ps ==> p.file.Complete?
      ensures ok ==> rows == PlainFilter(ps, lo, hi)
    {
      rows := [];
      for i := 0 to |ps|
        invariant rows == PlainFilter(ps[..i], lo, hi)
        invariant forall j :: 0 <= j < i ==> ps[j].file.Complete?
      {
        assert ps[..i + 1][..i] == ps[..i];
        if !ps[i].file.Complete? {
          return false, [];
        }
        rows := rows + Selected(ps[i].file.rows, lo, hi);
      }
      assert ps[..|ps|] == ps;
      return true, rows;
    }

    method Read(paths: seq<Partition>, lo: int, hi: int) returns (a: Answer)
      requires forall p :: p in paths ==> p.file != Absent
      ensures a.Raised? <==> exists p :: p in paths && p.file == Foreign
      ensures a.Rows? ==> Sorting.Sorted(Merge.TimeOf, a.rows) && multiset(a.rows) == multiset(PlainFilter(paths, lo, hi))
    {
      if paths == [] {
        return Rows([]);
      }
      var c := Collect(paths, lo, hi);
      match c
      case Got(rows) => return Rows(rows);
      case NotOurs => return Raised;
      case Broken =>
        var readable := Readable(paths);
        ReadableKeepsRows(paths, lo, hi);
        if readable == [] {
          assert forall p :: p in paths ==> p.file != Foreign;
          return Rows([]);
        }
        var again := Collect(readable, lo, hi);
        return if again.Got? then Rows(again.rows) else Raised;
    }

    method LoadBars(chart: Chart, lo: int, hi: int) returns (a: Answer)
      ensures a.Raised? <==> exists p :: p in Paths(zone, chart, lo, hi) && p.file == Foreign
      ensures a.Rows? ==>
                Sorting.Sorted(Merge.TimeOf, a.rows) && multiset(a.rows) == multiset(PlainFilter(Paths(zone, chart, lo, hi), lo, hi))
      ensures a.Rows? ==>
                forall r :: multiset(a.rows)[r] == if lo <= r.time <= hi then LookedAt(zone, chart, lo, hi, r) else 0
      ensures EasternOffsets(zone) && WellPlaced(zone, chart) && a.Rows? ==>
                && multiset(a.rows) == multiset(AllSelected(chart, lo, hi))
                && forall r :: multiset(a.rows)[r] == if lo <= r.time <= hi then Standing(chart, r) else 0
    {
      PathsHold(zone, chart, lo, hi);
      if EasternOffsets(zone) && WellPlaced(zone, chart) {
        PrunedReadIsPlainFilter(zone, chart, lo, hi);
      }
      a := ReadChart(chart, lo, hi);
    }

    method ReadChart(chart: Chart, lo: int, hi: int) returns (a: Answer)
      ensures a.Raised? <==> exists p :: p in Paths(zone, chart, lo, hi) && p.file == Foreign
      ensures a.Rows? ==>
                Sorting.Sorted(Merge.TimeOf, a.rows) && multiset(a.rows) == multiset(PlainFilter(Paths(zone, chart, lo, hi), lo, hi))
    {
      match chart
      case Daily(file) =>
        if file == Absent {
          return Rows([]);
        }
        a := Read([Partition(Stray(""), file)], lo, hi);
      case Intraday(ps) =>
        var paths := FilesInRange(ps, lo, hi);
        KeptPresent(zone, ps, lo, hi);
        a := Read(paths, lo, hi);
    }
  }

  /** The files a query looks at. */
  function Paths(zone: Zone, chart: Chart, lo: int, hi: int): seq<Partition> {
    match chart
    case Daily(file) => if file == Absent then [] else [Partition(Stray(""), file)]
    case Intraday(ps) => Kept(zone, ps, lo, hi)
  }

  function Readable(ps: seq<Partition>): (r: seq<Partition>)
    ensures forall p :: p in r <==> p in ps && p.file != Footerless
  {
    if ps == [] then []
    else
      var r, p := Readable(ps[..|ps| - 1]), ps[|ps| - 1];
      assert ps == ps[..|ps| - 1] + [p];
      if p.file != Footerless then r + [p] else r
  }

  lemma {:induction false} ReadableKeepsRows(ps: seq<Partition>, lo: int, hi: int)
    ensures PlainFilter(Readable(ps), lo, hi) == PlainFilter(ps, lo, hi)
  {
    if ps != [] {
      var q, p := ps[..|ps| - 1], ps[|ps| - 1];
      ReadableKeepsRows(q, lo, hi);
      if p.file != Footerless {
        assert (Readable(q) + [p])[..|Readable(q)|] == Readable(q);
      }
    }
  }

  lemma {:induction false} KeptPresent(zone: Zone, ps: seq<Partition>, lo: int, hi: int)
    ensures forall p :: p in Kept(zone, ps, lo, hi) <==> p in ps && p.file != Absent && Keeps(zone, lo, hi, p.dir)
  {
    if ps != [] {
      var q, p := ps[..|ps| - 1], ps[|ps| - 1];
      assert ps == q + [p];
      KeptPresent(zone, q, lo, hi);
    }
  }

  // ----- Counting rows ------------------------------------------------------

  /** How often a row stands in a file that can be read. */
  function InFile(f: File, r: Row): nat {
    match f
    case Complete(rows) => multiset(rows)[r]
    case _ => 0
  }

  /** How often a row stands in the files of a chart. */
  function Standing(chart: Chart, r: Row): nat {
    match chart
    case Daily(f) => InFile(f, r)
    case Intraday(ps) => StandingIn(ps, r)
  }

  function StandingIn(ps: seq<Partition>, r: Row): nat {
    if ps == [] then 0 else StandingIn(ps[..|ps| - 1], r) + InFile(ps[|ps| - 1].file, r)
  }

  /** How often it stands in those a query looks at: all of a daily chart, and of another
      the directories that are no date, or one from the day before the first instant's to
      the day after the last's. */
  function LookedAt(zone: Zone, chart: Chart, lo: int, hi: int, r: Row): nat {
    match chart
    case Daily(f) => InFile(f, r)
    case Intraday(ps) => LookedAtIn(zone, ps, lo, hi, r)
  }

  function LookedAtIn(zone: Zone, ps: seq<Partition>, lo: int, hi: int, r: Row): nat {
    if ps == [] then 0
    else
      var n, p := LookedAtIn(zone, ps[..|ps| - 1], lo, hi, r), ps[|ps| - 1];
      if p.dir.Dated? && !(EtDate(zone, lo) - 1 <= p.dir.day <= EtDate(zone, hi) + 1) then n
      else n + InFile(p.file, r)
  }

  lemma {:induction false} SelectedCounts(rows: seq<Row>, lo: int, hi: int, r: Row)
    ensures multiset(Selected(rows, lo, hi))[r] == if lo <= r.time <= hi then multiset(rows)[r] else 0
  {
    if rows != [] {
      var q, x := rows[..|rows| - 1], rows[|rows| - 1];
      assert rows == q + [x];
      SelectedCounts(q, lo, hi, r);
    }
  }

  lemma {:induction false} PlainCounts(ps: seq<Partition>, lo: int, hi: int, r: Row)
    ensures multiset(PlainFilter(ps, lo, hi))[r] == if lo <= r.time <= hi then StandingIn(ps, r) else 0
  {
    if ps != [] {
      PlainCounts(ps[..|ps| - 1], lo, hi, r);
      SelectedCounts(RowsOf(ps[|ps| - 1].file), lo, hi, r);
    }
  }

  lemma {:induction false} KeptCounts(zone: Zone, ps: seq<Partition>, lo: int, hi: int, r: Row)
    ensures StandingIn(Kept(zone, ps, lo, hi), r) == LookedAtIn(zone, ps, lo, hi, r)
  {
    if ps != [] {
      var q, p := ps[..|ps| - 1], ps[|ps| - 1];
      KeptCounts(zone, q, lo, hi, r);
      var ks := Kept(zone, q, lo, hi);
      assert (ks + [p])[..|ks|] == ks;
    }
  }

  lemma PathsHold(zone: Zone, chart: Chart, lo: int, hi: int)
    ensures forall r :: multiset(PlainFilter(Paths(zone, chart, lo, hi), lo, hi))[r] ==
                        if lo <= r.time <= hi then LookedAt(zone, chart, lo, hi, r) else 0
    ensures forall r :: multiset(AllSelected(chart, lo, hi))[r] == if lo <= r.time <= hi then Standing(chart, r) else 0
  {
    forall r
      ensures multiset(PlainFilter(Paths(zone, chart, lo, hi), lo, hi))[r] ==
              if lo <= r.time <= hi then LookedAt(zone, chart, lo, hi, r) else 0
      ensures multiset(AllSelected(chart, lo, hi))[r] == if lo <= r.time <= hi then Standing(chart, r) else 0
    {
      PlainCounts(Paths(zone, chart, lo, hi), lo, hi, r);
      match chart
      case Daily(f) =>
        SelectedCounts(RowsOf(f), lo, hi, r);
        var ps := [Partition(Stray(""), f)];
        assert ps[..0] == [];
      case Intraday(ps) =>
        KeptCounts(zone, ps, lo, hi, r);
        PlainCounts(ps, lo, hi, r);
    }
  }

  // ----- Pruning is invisible -----------------------------------------------

  /** Every row sits in the partition of its own ET date. */
  ghost predicate Placed(zone: Zone, ps: seq<Partition>) {
    forall p, r :: p in ps && p.dir.Dated? && r in RowsOf(p.file) ==> EtDate(zone, r.time) == p.dir.day
  }

  ghost predicate WellPlaced(zone: Zone, chart: Chart) {
    chart.Intraday? ==> Placed(zone, chart.partitions)
  }

  /** However the offset moves within its bounds, an instant in range never falls
      outside the widened dates. */
  lemma WideningIsEnough(zone: Zone, lo: int, t: int, hi: int)
    requires EasternOffsets(zone) && lo <= t <= hi
    ensures EtDate(zone, lo) - 1 <= EtDate(zone, t) <= EtDate(zone, hi) + 1
  {
    assert -5 * HOUR <= zone(lo) <= -4 * HOUR;
    assert -5 * HOUR <= zone(t) <= -4 * HOUR;
    assert -5 * HOUR <= zone(hi) <= -4 * HOUR;
  }

  lemma {:induction false} SelectedEmpty(rows: seq<Row>, lo: int, hi: int)
    requires forall r :: r in rows ==> !InRange(r, lo, hi)
    ensures Selected(rows, lo, hi) == []
  {
    if rows != [] {
      SelectedEmpty(rows[..|rows| - 1], lo, hi);
    }
  }

  /** A dropped partition holds no row in range. */
  lemma {:induction false} PruningLosesNothing(zone: Zone, ps: seq<Partition>, lo: int, hi: int)
    requires EasternOffsets(zone) && Placed(zone, ps)
    ensures PlainFilter(Kept(zone, ps, lo, hi), lo, hi) == PlainFilter(ps, lo, hi)
  {
    if ps != [] {
      var q, p := ps[..|ps| - 1], ps[|ps| - 1];
      assert ps == q + [p];
      PruningLosesNothing(zone, q, lo, hi);
      var ks := Kept(zone, q, lo, hi);
      if p.file != Absent && Keeps(zone, lo, hi, p.dir) {
        assert (ks + [p])[..|ks|] == ks;
      } else {
        forall r | r in RowsOf(p.file) ensures !InRange(r, lo, hi) {
          if InRange(r, lo, hi) {
            WideningIsEnough(zone, lo, r.time, hi);
          }
        }
        SelectedEmpty(RowsOf(p.file), lo, hi);
      }
    }
  }

  /** Every row of the chart in range, whatever the layout. */
  function AllSelected(chart: Chart, lo: int, hi: int): seq<Row> {
    match chart
    case Daily(file) => Selected(RowsOf(file), lo, hi)
    case Intraday(ps) => PlainFilter(ps, lo, hi)
  }

  /** Over a well-placed store the files a query looks at hold exactly the rows in range
      that any file holds, so load_bars is the plain filter; and it raises exactly when
      a foreign file lies in a directory it looks at. A file without a footer costs only
      itself, and one outside the range costs nothing. */
  lemma PrunedReadIsPlainFilter(zone: Zone, chart: Chart, lo: int, hi: int)
    requires EasternOffsets(zone) && WellPlaced(zone, chart)
    ensures PlainFilter(Paths(zone, chart, lo, hi), lo, hi) == AllSelected(chart, lo, hi)
    ensures (exists p :: p in Paths(zone, chart, lo, hi) && p.file == Foreign) <==>
            match chart
            case Daily(file) => file == Foreign
            case Intraday(ps) =>
              exists p :: p in ps && p.file == Foreign &&
                (p.dir.Dated? ==> EtDate(zone, lo) - 1 <= p.dir.day <= EtDate(zone, hi) + 1)
  {
    match chart
    case Daily(file) =>
      var ps := [Partition(Stray(""), file)];
      assert ps[..0] == [];
      assert PlainFilter(ps, lo, hi) == Selected(RowsOf(file), lo, hi);
      assert file == Foreign ==> ps[0] in Paths(zone, chart, lo, hi);
    case Intraday(ps) =>
      KeptPresent(zone, ps, lo, hi);
      PruningLosesNothing(zone, ps, lo, hi);
  }

  /** An instant's second of its ET day. */
  function SecondOfDay(zone: Zone, t: int): int {
    (t + zone(t)) % DAY
  }

  /** The clock never falls back across midnight. New York's falls back an hour at 02:00. */
  ghost predicate NoMidnightFallback(zone: Zone) {
    forall t :: SecondOfDay(zone, t) + 1 + zone(t + 1) - zone(t) >= 0
  }

  lemma DayStep(a: int, d: int)
    ensures (a + d) / DAY >= a / DAY <==> a % DAY + d >= 0
  {
  }

  lemma StepForward(zone: Zone, t: int)
    ensures EtDate(zone, t) <= EtDate(zone, t + 1) <==> SecondOfDay(zone, t) + 1 + zone(t + 1) - zone(t) >= 0
  {
    DayStep(t + zone(t), 1 + zone(t + 1) - zone(t));
    assert t + zone(t) + (1 + zone(t + 1) - zone(t)) == t + 1 + zone(t + 1);
  }

  lemma {:induction false} NoFallbackForward(zone: Zone, t: int, u: int)
    requires NoMidnightFallback(zone) && t <= u
    ensures EtDate(zone, t) <= EtDate(zone, u)
    decreases u - t
  {
    if t < u {
      NoFallbackForward(zone, t, u - 1);
      StepForward(zone, u - 1);
    }
  }

  /** The dates of the bounds themselves would do. */
  ghost predicate WithinDates(zone: Zone, lo: int, t: int, hi: int) {
    EtDate(zone, lo) <= EtDate(zone, t) <= EtDate(zone, hi)
  }

  ghost predicate NeedsNoWidening(zone: Zone) {
    forall lo, t, hi :: lo <= t <= hi ==> WithinDates(zone, lo, t, hi)
  }

  lemma ForwardNeedsNoWidening(zone: Zone)
    requires NoMidnightFallback(zone)
    ensures NeedsNoWidening(zone)
  {
    forall lo, t, hi | lo <= t <= hi ensures WithinDates(zone, lo, t, hi) {
      NoFallbackForward(zone, lo, t);
      NoFallbackForward(zone, t, hi);
    }
  }

  /** What the one-day widening is for: an instant in range keeps its ET date within the
      dates of the bounds themselves, for every range, exactly if the clock never falls
      back across midnight. So for New York it is a margin, and for the bounds on the
      offset alone it is needed. */
  lemma WideningIsMargin(zone: Zone)
    ensures NeedsNoWidening(zone) <==> NoMidnightFallback(zone)
  {
    if NoMidnightFallback(zone) {
      ForwardNeedsNoWidening(zone);
    } else if NeedsNoWidening(zone) {
      forall t ensures SecondOfDay(zone, t) + 1 + zone(t + 1) - zone(t) >= 0 {
        assert WithinDates(zone, t, t + 1, t + 1);
        StepForward(zone, t);
      }
    }
  }

}
