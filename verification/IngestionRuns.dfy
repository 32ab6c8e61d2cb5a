/** Runs of the ingestion runtime: each series lives its own life, every closed bar is
    the last word of its bucket, and every frame is accounted for. The runtime is shown to
    be, for each series, the simple life of that series alone. */
module IngestionRuns {
  import opened Prelude
  import opened Bars
  import opened Ingestion

  datatype Signal = Frame(bar: Bar) | Sweep(now: int) | Stop

  function Exec(r: Runtime, c: Config, s: Signal): Runtime
    requires BufferOk(r)
  {
    match s
    case Frame(b) => Handled(r, c, b)
    case Sweep(now) => Advanced(r, c, now)
    case Stop => Drained(r)
  }

  // ----- The simple life of one series --------------------------------------

  datatype Life = Life(buffered: Option<Bar>, last: Option<int>, log: seq<Delivery>)

  const UNBORN := Life(None, None, [])

  function OnFrame(l: Life, b: Bar): Life {
    if b.barType == 0 then l.(log := l.log + [Closed(b)])
    else if l.last.Some? && b.row.time <= l.last.value then l
    else if l.buffered.None? then l.(buffered := Some(b), log := l.log + [Partial(b)])
    else if b.row.time == l.buffered.value.row.time then l.(buffered := Some(b), log := l.log + [Partial(b)])
    else if b.row.time > l.buffered.value.row.time then
      Life(Some(b), Some(l.buffered.value.row.time), l.log + [Closed(l.buffered.value), Partial(b)])
    else l
  }

  function OnClose(l: Life): Life {
    if l.buffered.None? then l
    else Life(None, Some(l.buffered.value.row.time), l.log + [Closed(l.buffered.value)])
  }

  function Lived(l: Life, c: Config, s: Signal): Life {
    match s
    case Frame(b) => OnFrame(l, b)
    case Sweep(now) => if l.buffered.Some? && Due(c, l.buffered.value, now) then OnClose(l) else l
    case Stop => OnClose(l)
  }

  function LifeOf(c: Config, ss: seq<Signal>): Life {
    if ss == [] then UNBORN else Lived(LifeOf(c, ss[..|ss| - 1]), c, ss[|ss| - 1])
  }

  /** What concerns one series: its own frames, every sweep, and the final drain. */
  function Relevant(ss: seq<Signal>, k: Series): seq<Signal> {
    if ss == [] then []
    else
      var r, s := Relevant(ss[..|ss| - 1], k), ss[|ss| - 1];
      if s.Frame? && SeriesOf(s.bar) != k then r else r + [s]
  }

  // ----- The runtime seen from one series -----------------------------------

  function LogOf(log: seq<Delivery>, k: Series): seq<Delivery> {
    if log == [] then []
    else
      var l, d := LogOf(log[..|log| - 1], k), log[|log| - 1];
      if SeriesOf(d.bar) == k then l + [d] else l
  }

  function View(r: Runtime, k: Series): Life {
    Life(if k in r.current then Some(r.current[k]) else None,
         if k in r.last then Some(r.last[k]) else None,
         LogOf(r.log, k))
  }

  lemma LogExtend(log: seq<Delivery>, d: Delivery, k: Series)
    ensures LogOf(log + [d], k) == LogOf(log, k) + if SeriesOf(d.bar) == k then [d] else []
  {
    assert (log + [d])[..|log|] == log;
  }

  lemma OnPartialView(r: Runtime, c: Config, b: Bar, k: Series)
    ensures View(OnPartial(r, c, b), k) ==
            View(r, k).(log := LogOf(r.log, k) + if SeriesOf(b) == k then [Partial(b)] else [])
  {
    LogExtend(r.log, Partial(b), k);
  }

  lemma OnClosedView(r: Runtime, b: Bar, k: Series)
    ensures View(OnClosed(r, b), k) ==
            View(r, k).(log := LogOf(r.log, k) + if SeriesOf(b) == k then [Closed(b)] else [])
  {
    LogExtend(r.log, Closed(b), k);
  }

  /** A newer bucket: the held bar is closed, then the new one shown. */
  lemma RolledView(r: Runtime, c: Config, b: Bar, held: Bar, k: Series)
    requires SeriesOf(held) == SeriesOf(b)
    ensures var n := Installed(r, b).(counters := r.counters.(directIn := r.counters.directIn + 1),
                                      last := r.last[SeriesOf(b) := held.row.time]);
            View(OnPartial(OnClosed(n, held), c, b), k) ==
            if SeriesOf(b) == k
            then Life(Some(b), Some(held.row.time), LogOf(r.log, k) + [Closed(held), Partial(b)])
            else View(r, k)
  {
    var n := Installed(r, b).(counters := r.counters.(directIn := r.counters.directIn + 1),
                              last := r.last[SeriesOf(b) := held.row.time]);
    OnClosedView(n, held, k);
    OnPartialView(OnClosed(n, held), c, b, k);
    assert LogOf(r.log, k) + [Closed(held)] + [Partial(b)] == LogOf(r.log, k) + [Closed(held), Partial(b)];
  }

  ghost predicate Follows(r: Runtime, c: Config, b: Bar, k: Series) {
    View(Handled(r, c, b), k) == if SeriesOf(b) == k then OnFrame(View(r, k), b) else View(r, k)
  }

  lemma TickView(r: Runtime, c: Config, b: Bar, k: Series)
    requires b.barType == 0
    ensures Follows(r, c, b, k)
  {
    OnClosedView(r.(counters := r.counters.(directIn := r.counters.directIn + 1)), b, k);
  }

  lemma OpenedView(r: Runtime, c: Config, b: Bar, k: Series)
    requires b.barType != 0 && !Stale(r, b) && SeriesOf(b) !in r.current
    ensures Follows(r, c, b, k)
  {
    OnPartialView(Installed(r, b), c, b, k);
  }

  lemma ReplacedView(r: Runtime, c: Config, b: Bar, k: Series)
    requires b.barType != 0 && !Stale(r, b) && SeriesOf(b) in r.current
    requires b.row.time == r.current[SeriesOf(b)].row.time
    ensures Follows(r, c, b, k)
  {
    var held := r.current[SeriesOf(b)];
    var s := if Contradicts(b, held) then r.counters.subminute + 1 else r.counters.subminute;
    OnPartialView(Installed(r, b).(counters := r.counters.(subminute := s, updated := r.counters.updated + 1)), c, b, k);
  }

  lemma NewerView(r: Runtime, c: Config, b: Bar, k: Series)
    requires b.barType != 0 && !Stale(r, b) && SeriesOf(b) in r.current
    requires b.row.time > r.current[SeriesOf(b)].row.time
    requires SeriesOf(r.current[SeriesOf(b)]) == SeriesOf(b)
    ensures Follows(r, c, b, k)
  {
    RolledView(r, c, b, r.current[SeriesOf(b)], k);
  }

  lemma HandledView(r: Runtime, c: Config, b: Bar, k: Series)
    requires SeriesOf(b) in r.current ==> SeriesOf(r.current[SeriesOf(b)]) == SeriesOf(b)
    ensures Follows(r, c, b, k)
  {
    if b.barType == 0 {
      TickView(r, c, b, k);
    } else if !Stale(r, b) {
      if SeriesOf(b) !in r.current {
        OpenedView(r, c, b, k);
      } else if b.row.time == r.current[SeriesOf(b)].row.time {
        ReplacedView(r, c, b, k);
      } else if b.row.time > r.current[SeriesOf(b)].row.time {
        NewerView(r, c, b, k);
      }
    }
  }

  // ----- Sweeps -------------------------------------------------------------

  function BarsOf(bars: seq<Bar>, k: Series): seq<Bar> {
    if bars == [] then []
    else
      var r, b := BarsOf(bars[..|bars| - 1], k), bars[|bars| - 1];
      if SeriesOf(b) == k then r + [b] else r
  }

  function Closings(bars: seq<Bar>): seq<Delivery> {
    if bars == [] then [] else Closings(bars[..|bars| - 1]) + [Closed(bars[|bars| - 1])]
  }

  lemma ClosingsExtend(bars: seq<Bar>, b: Bar)
    ensures Closings(bars + [b]) == Closings(bars) + [Closed(b)]
  {
    assert (bars + [b])[..|bars|] == bars;
  }

  lemma {:induction false} AllClosedView(r: Runtime, bars: seq<Bar>, k: Series)
    ensures var q := AllClosed(r, bars);
            && q == r.(counters := q.counters, log := q.log)
            && LogOf(q.log, k) == LogOf(r.log, k) + Closings(BarsOf(bars, k))
  {
    if bars != [] {
      var rest, b := bars[..|bars| - 1], bars[|bars| - 1];
      AllClosedView(r, rest, k);
      LogExtend(AllClosed(r, rest).log, Closed(b), k);
      ClosingsExtend(BarsOf(rest, k), b);
    }
  }

  lemma {:induction false} SweptView(r: Runtime, c: Config, ks: seq<Series>, now: int, k: Series)
    requires BufferOk(r) && forall i, j :: 0 <= i < j < |ks| ==> ks[i] != ks[j]
    ensures var (q, ready) := Swept(r, c, ks, now);
            && BufferOk(q) && q.log == r.log
            && if k in ks && k in r.current && Due(c, r.current[k], now)
               then && k !in q.current && k in q.last && q.last[k] == r.current[k].row.time
                    && BarsOf(ready, k) == [r.current[k]]
               else && (k in q.current <==> k in r.current) && (k in q.current ==> q.current[k] == r.current[k])
                    && (k in q.last <==> k in r.last) && (k in q.last ==> q.last[k] == r.last[k])
                    && BarsOf(ready, k) == []
  {
    if ks != [] {
      var rest, j := ks[..|ks| - 1], ks[|ks| - 1];
      assert ks == rest + [j];
      SweptView(r, c, rest, now, k);
      var (q, ready) := Swept(r, c, rest, now);
      if j in q.current && Due(c, q.current[j], now) {
        ReleasedOk(q, j);
        assert (ready + [q.current[j]])[..|ready|] == ready;
      }
    }
  }

  lemma ClosingsOne(b: Bar)
    ensures Closings([b]) == [Closed(b)] && Closings([]) == []
  {
    assert [b][..0] == [];
  }

  lemma AdvancedView(r: Runtime, c: Config, now: int, k: Series)
    requires BufferOk(r)
    ensures View(Advanced(r, c, now), k) == Lived(View(r, k), c, Sweep(now))
    ensures BufferOk(Advanced(r, c, now))
  {
    var (q, ready) := Swept(r, c, r.order, now);
    SweptView(r, c, r.order, now, k);
    AllClosedView(q, ready, k);
    if k in r.current {
      ClosingsOne(r.current[k]);
    }
  }

  // ----- The final drain ----------------------------------------------------

  lemma {:induction false} CountedView(r: Runtime, bars: seq<Bar>, k: Series)
    ensures var q := Counted(r, bars);
            && q == r.(counters := q.counters, last := q.last)
            && (if BarsOf(bars, k) == [] then (k in q.last <==> k in r.last) && (k in q.last ==> q.last[k] == r.last[k])
                else k in q.last && q.last[k] == BarsOf(bars, k)[|BarsOf(bars, k)| - 1].row.time)
  {
    if bars != [] {
      CountedView(r, bars[..|bars| - 1], k);
    }
  }

  lemma HeldExtend(r: Runtime, ks: seq<Series>, j: Series)
    requires forall k :: k in ks + [j] ==> k in r.current
    requires j in r.current && SeriesOf(r.current[j]) == j
    ensures forall k :: k in ks ==> k in ks + [j]
    ensures forall k :: BarsOf(Held(r, ks + [j]), k) == BarsOf(Held(r, ks), k) + if j == k then [r.current[j]] else []
  {
    var all := Held(r, ks + [j]);
    assert all[..|ks|] == Held(r, ks);
    assert (ks + [j])[|ks|] == j;
  }

  lemma {:induction false} HeldView(r: Runtime, ks: seq<Series>, k: Series)
    requires BufferOk(r) && forall j :: j in ks ==> j in r.current
    requires forall i, j :: 0 <= i < j < |ks| ==> ks[i] != ks[j]
    ensures BarsOf(Held(r, ks), k) == if k in ks then [r.current[k]] else []
  {
    if ks != [] {
      var rest, j := ks[..|ks| - 1], ks[|ks| - 1];
      assert ks == rest + [j];
      HeldView(r, rest, k);
      HeldExtend(r, rest, j);
    }
  }

  lemma DrainedView(r: Runtime, k: Series)
    requires BufferOk(r)
    ensures View(Drained(r), k) == OnClose(View(r, k))
    ensures BufferOk(Drained(r))
    ensures Drained(r).current == map[]
  {
    var bars := Held(r, r.order);
    var e := r.(current := map[], order := []);
    HeldView(r, r.order, k);
    CountedView(e, bars, k);
    AllClosedView(Counted(e, bars), bars, k);
    if k in r.current {
      ClosingsOne(r.current[k]);
    }
  }

  // ----- Refinement ---------------------------------------------------------

  lemma ExecView(r: Runtime, c: Config, s: Signal, k: Series)
    requires BufferOk(r)
    ensures BufferOk(Exec(r, c, s))
    ensures View(Exec(r, c, s), k) ==
            if s.Frame? && SeriesOf(s.bar) != k then View(r, k) else Lived(View(r, k), c, s)
  {
    match s
    case Frame(b) =>
      HandledView(r, c, b, k);
      HandledOk(r, c, b);
    case Sweep(now) => AdvancedView(r, c, now, k);
    case Stop => DrainedView(r, k);
  }

  function Run(c: Config, ss: seq<Signal>): (r: Runtime)
    ensures BufferOk(r)
  {
    if ss == [] then STARTED
    else
      var q := Run(c, ss[..|ss| - 1]);
      ExecView(q, c, ss[|ss| - 1], Series("", 0, 0));
      Exec(q, c, ss[|ss| - 1])
  }

  /** The runtime refines the per-series life: what a series' consumers see, and what is
      buffered for it, depends on that series' own frames and the sweeps alone. */
  lemma {:induction false} SeriesAreIndependent(c: Config, ss: seq<Signal>, k: Series)
    ensures View(Run(c, ss), k) == LifeOf(c, Relevant(ss, k))
  {
    if ss != [] {
      var rest, s := ss[..|ss| - 1], ss[|ss| - 1];
      SeriesAreIndependent(c, rest, k);
      ExecView(Run(c, rest), c, s, k);
      var r := Relevant(rest, k);
      assert (r + [s])[..|r|] == r;
    }
  }
}
