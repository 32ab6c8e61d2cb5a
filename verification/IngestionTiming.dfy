/** What the sweep releases and what the sub-minute counter means. */
module IngestionTiming {
  import opened Prelude
  import opened Bars
  import opened Ingestion
  import opened IngestionRuns
  import opened IngestionGuarantees

  /** A sweep closes exactly the buffered bars whose own close, corrected by the symbol's
      clock shift, lies at least two seconds back, and leaves the others buffered. */
  lemma SweepReleasesExactly(c: Config, ss: seq<Signal>, now: int, k: Series)
    ensures var before, after := Run(c, ss), Run(c, ss + [Sweep(now)]);
            && (k in after.current <==>
                k in before.current && before.current[k].row.time + c.shift(k.symbol) + 2 > now)
            && (k in after.current ==> after.current[k] == before.current[k])
            && LogOf(after.log, k) ==
               LogOf(before.log, k) +
               if k in before.current && k !in after.current then [Closed(before.current[k])] else []
  {
    var all := ss + [Sweep(now)];
    assert all[..|ss|] == ss;
    var before := Run(c, ss);
    AdvancedView(before, c, now, k);
    assert View(Run(c, all), k) == Lived(View(before, k), c, Sweep(now));
    assert LogOf(before.log, k) + [] == LogOf(before.log, k);
  }

  // ----- The sub-minute counter ---------------------------------------------

  /** `b` cannot be a later frame of the bar that showed `a`. */
  predicate Narrows(a: Bar, b: Bar) {
    a.row.time == b.row.time &&
    (b.row.values.high < a.row.values.high || b.row.values.low > a.row.values.low)
  }

  ghost predicate NarrowedIn(ps: seq<Bar>) {
    exists i :: 0 < i < |ps| && Narrows(ps[i - 1], ps[i])
  }

  lemma NarrowedExtend(ps: seq<Bar>, b: Bar)
    ensures NarrowedIn(ps + [b]) <==> NarrowedIn(ps) || (ps != [] && Narrows(ps[|ps| - 1], b))
  {
    var qs := ps + [b];
    assert forall i :: 0 <= i < |ps| ==> qs[i] == ps[i];
    if NarrowedIn(ps) {
      NarrowedEarlier(ps, b);
    } else if ps != [] {
      assert qs[|ps| - 1] == ps[|ps| - 1] && qs[|ps|] == b;
    }
  }

  lemma NarrowedEarlier(ps: seq<Bar>, b: Bar)
    requires NarrowedIn(ps)
    ensures NarrowedIn(ps + [b])
  {
    var i :| 0 < i < |ps| && Narrows(ps[i - 1], ps[i]);
    assert (ps + [b])[i - 1] == ps[i - 1] && (ps + [b])[i] == ps[i];
  }

  /** This frame replaces a buffered one it cannot refresh. */
  predicate Clashes(l: Life, b: Bar) {
    && b.barType != 0 && l.buffered.Some? && Narrows(l.buffered.value, b)
    && !(l.last.Some? && b.row.time <= l.last.value)
  }

  /** A bucket that opens a series again is a later one than any shown. */
  lemma ReopensLater(l: Life, b: Bar)
    requires LifeOk(l) && l.buffered.None? && (l.last.Some? ==> b.row.time > l.last.value)
    ensures var ps := Partials(l.log); ps != [] ==> ps[|ps| - 1].row.time < b.row.time
  {
    var ps, cs := Partials(l.log), Closeds(l.log);
    assert LastPerBucket(ps) == cs;
  }

  lemma FrameNarrows(l: Life, b: Bar)
    requires LifeOk(l) && b.barType != 0
    ensures NarrowedIn(Partials(OnFrame(l, b).log)) <==> NarrowedIn(Partials(l.log)) || Clashes(l, b)
  {
    if l.last.Some? && b.row.time <= l.last.value {
    } else if l.buffered.None? {
      ReopensLater(l, b);
      DeliveryExtend(l.log, Partial(b));
      NarrowedExtend(Partials(l.log), b);
    } else if b.row.time == l.buffered.value.row.time {
      DeliveryExtend(l.log, Partial(b));
      NarrowedExtend(Partials(l.log), b);
    } else if b.row.time > l.buffered.value.row.time {
      RollNarrows(l, b);
    }
  }

  lemma RollNarrows(l: Life, b: Bar)
    requires LifeOk(l) && b.barType != 0 && l.buffered.Some? && b.row.time > l.buffered.value.row.time
    requires l.last.Some? ==> b.row.time > l.last.value
    ensures NarrowedIn(Partials(OnFrame(l, b).log)) <==> NarrowedIn(Partials(l.log))
  {
    RollOver(l, b);
    CloseShowsNothing(l);
    DeliveryExtend(OnClose(l).log, Partial(b));
    NarrowedExtend(Partials(l.log), b);
  }

  /** Some series other than a tick chart has shown a bar narrowing. */
  ghost predicate Suspicious(r: Runtime) {
    exists k: Series :: k.barType != 0 && NarrowedIn(Partials(View(r, k).log))
  }

  lemma SubminuteCounts(r: Runtime, c: Config, b: Bar)
    requires BufferOk(r)
    ensures Handled(r, c, b).counters.subminute ==
            r.counters.subminute + if Clashes(View(r, SeriesOf(b)), b) then 1 else 0
  {
  }

  lemma FrameSuspicion(r: Runtime, c: Config, b: Bar)
    requires BufferOk(r) && forall k: Series :: k.barType != 0 ==> LifeOk(View(r, k))
    ensures Suspicious(Handled(r, c, b)) <==> Suspicious(r) || Clashes(View(r, SeriesOf(b)), b)
  {
    var q, j := Handled(r, c, b), SeriesOf(b);
    forall k: Series | k.barType != 0
      ensures NarrowedIn(Partials(View(q, k).log)) <==>
              NarrowedIn(Partials(View(r, k).log)) || (k == j && Clashes(View(r, j), b))
    {
      HandledView(r, c, b, k);
      if k == j {
        FrameNarrows(View(r, j), b);
      }
    }
  }

  lemma QuietSuspicion(r: Runtime, c: Config, s: Signal)
    requires BufferOk(r) && !s.Frame?
    ensures Suspicious(Exec(r, c, s)) <==> Suspicious(r)
    ensures Exec(r, c, s).counters.subminute == r.counters.subminute
  {
    forall k: Series ensures Partials(View(Exec(r, c, s), k).log) == Partials(View(r, k).log) {
      ExecView(r, c, s, k);
      CloseShowsNothing(View(r, k));
    }
    QuietCounter(r, c, s);
  }

  lemma QuietCounter(r: Runtime, c: Config, s: Signal)
    requires BufferOk(r) && !s.Frame?
    ensures Exec(r, c, s).counters.subminute == r.counters.subminute
  {
    match s
    case Sweep(now) =>
      SweptCounters(r, c, r.order, now);
      AllClosedCounters(Swept(r, c, r.order, now).0, Swept(r, c, r.order, now).1);
    case Stop =>
      var bars, e := Held(r, r.order), r.(current := map[], order := []);
      CountedCounters(e, bars);
      AllClosedCounters(Counted(e, bars), bars);
  }

  /** In every run: the sub-minute counter has moved exactly when some series has shown,
      under one bar_time, a high that fell or a low that rose. */
  lemma {:induction false} SubminuteMeansNarrowing(c: Config, ss: seq<Signal>)
    ensures Run(c, ss).counters.subminute >= 0
    ensures Run(c, ss).counters.subminute > 0 <==> Suspicious(Run(c, ss))
  {
    if ss == [] {
      assert forall k :: View(STARTED, k) == UNBORN;
    } else {
      var q, s := ss[..|ss| - 1], ss[|ss| - 1];
      SubminuteMeansNarrowing(c, q);
      var r := Run(c, q);
      if s.Frame? {
        AllLivesOk(c, q);
        SubminuteCounts(r, c, s.bar);
        FrameSuspicion(r, c, s.bar);
      } else {
        QuietSuspicion(r, c, s);
      }
    }
  }

  lemma AllLivesOk(c: Config, ss: seq<Signal>)
    ensures forall k: Series :: k.barType != 0 ==> LifeOk(View(Run(c, ss), k))
  {
    forall k: Series | k.barType != 0 ensures LifeOk(View(Run(c, ss), k)) {
      SeriesAreIndependent(c, ss, k);
      LifeAlwaysOk(c, ss, k);
    }
  }

  // ----- Series and order ---------------------------------------------------

  /** Two bars are of one series exactly if symbol, type and interval all agree. */
  lemma SameSeriesExactly(a: Bar, b: Bar)
    ensures SeriesOf(a) == SeriesOf(b) <==>
            a.symbol == b.symbol && a.barType == b.barType && a.barInterval == b.barInterval
  {
  }

  /** The buffered bars of these series that a sweep at `now` closes, in this order. */
  function ToClose(r: Runtime, c: Config, ks: seq<Series>, now: int): seq<Bar> {
    if ks == [] then []
    else
      var bars, k := ToClose(r, c, ks[..|ks| - 1], now), ks[|ks| - 1];
      if k in r.current && r.current[k].row.time + c.shift(r.current[k].symbol) + 2 <= now
      then bars + [r.current[k]] else bars
  }

  lemma {:induction false} SweptInOrder(r: Runtime, c: Config, ks: seq<Series>, now: int)
    requires BufferOk(r) && forall i, j :: 0 <= i < j < |ks| ==> ks[i] != ks[j]
    ensures Swept(r, c, ks, now).1 == ToClose(r, c, ks, now)
  {
    if ks != [] {
      var rest, k := ks[..|ks| - 1], ks[|ks| - 1];
      SweptInOrder(r, c, rest, now);
      SweptView(r, c, rest, now, k);
    }
  }

  lemma {:induction false} AllClosedLog(r: Runtime, bars: seq<Bar>)
    ensures AllClosed(r, bars).log == r.log + Closings(bars)
  {
    if bars != [] {
      AllClosedLog(r, bars[..|bars| - 1]);
    }
  }

  lemma {:induction false} CountedLog(r: Runtime, bars: seq<Bar>)
    ensures Counted(r, bars).log == r.log
  {
    if bars != [] {
      CountedLog(r, bars[..|bars| - 1]);
    }
  }

  lemma DrainDelivers(r: Runtime)
    requires BufferOk(r)
    ensures Drained(r).log == r.log + Closings(Held(r, r.order))
  {
    var bars, e := Held(r, r.order), r.(current := map[], order := []);
    CountedLog(e, bars);
    AllClosedLog(Counted(e, bars), bars);
  }

  lemma SweepDelivers(r: Runtime, c: Config, now: int)
    requires BufferOk(r)
    ensures Advanced(r, c, now).log == r.log + Closings(ToClose(r, c, r.order, now))
  {
    SweptInOrder(r, c, r.order, now);
    SweptCounters(r, c, r.order, now);
    AllClosedLog(Swept(r, c, r.order, now).0, Swept(r, c, r.order, now).1);
  }

  lemma EntersAtEnd(r: Runtime, c: Config, b: Bar)
    ensures var q := Handled(r, c, b);
            q.order == if SeriesOf(b) in q.current && SeriesOf(b) !in r.current then r.order + [SeriesOf(b)] else r.order
  {
  }

  /** Across series too, a sweep and the final drain deliver in the order of the buffer,
      which is the order in which series last entered it: a first frame enters at the
      end, a later one of its series keeps the place. */
  lemma DeliveredInBufferOrder(r: Runtime, c: Config, now: int, b: Bar)
    requires BufferOk(r)
    ensures Advanced(r, c, now).log == r.log + Closings(ToClose(r, c, r.order, now))
    ensures Drained(r).log == r.log + Closings(Held(r, r.order))
    ensures var q := Handled(r, c, b);
            q.order == if SeriesOf(b) in q.current && SeriesOf(b) !in r.current then r.order + [SeriesOf(b)] else r.order
  {
    SweepDelivers(r, c, now);
    DrainDelivers(r);
    EntersAtEnd(r, c, b);
  }
}
