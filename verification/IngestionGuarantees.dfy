/** What a consumer of the ingestion runtime can rely on. */
module IngestionGuarantees {
  import opened Prelude
  import opened Bars
  import opened Ingestion
  import opened IngestionRuns

  function Partials(log: seq<Delivery>): seq<Bar> {
    if log == [] then []
    else
      var r, d := Partials(log[..|log| - 1]), log[|log| - 1];
      if d.Partial? then r + [d.bar] else r
  }

  function Closeds(log: seq<Delivery>): seq<Bar> {
    if log == [] then []
    else
      var r, d := Closeds(log[..|log| - 1]), log[|log| - 1];
      if d.Closed? then r + [d.bar] else r
  }

  /** The last bar of each run of equal times. */
  function LastPerBucket(bars: seq<Bar>): (r: seq<Bar>)
    ensures |r| <= |bars|
    ensures bars != [] ==> r != [] && r[|r| - 1] == bars[|bars| - 1]
  {
    if bars == [] then []
    else
      var r, b := LastPerBucket(bars[..|bars| - 1]), bars[|bars| - 1];
      if r != [] && r[|r| - 1].row.time == b.row.time then r[..|r| - 1] + [b] else r + [b]
  }

  predicate NonDecreasing(bars: seq<Bar>) {
    forall i, j :: 0 <= i < j < |bars| ==> bars[i].row.time <= bars[j].row.time
  }

  predicate StrictlyIncreasing(bars: seq<Bar>) {
    forall i, j :: 0 <= i < j < |bars| ==> bars[i].row.time < bars[j].row.time
  }

  /** Every closed bar is identical to the latest partial before it. */
  predicate ClosedIsLatest(log: seq<Delivery>) {
    if log == [] then true
    else
      var rest, d := log[..|log| - 1], log[|log| - 1];
      && ClosedIsLatest(rest)
      && (d.Closed? ==> Partials(rest) != [] && Partials(rest)[|Partials(rest)| - 1] == d.bar)
  }

  function Buffered(l: Life): seq<Bar> {
    if l.buffered.Some? then [l.buffered.value] else []
  }

  /** The invariant of one series: what was closed, with what is still buffered, is the
      last of each bucket of what was shown as developing. */
  ghost predicate LifeOk(l: Life) {
    var ps, cs := Partials(l.log), Closeds(l.log);
    && LastPerBucket(ps) == cs + Buffered(l)
    && NonDecreasing(ps)
    && ClosedIsLatest(l.log)
    && l.last == (if cs == [] then None else Some(cs[|cs| - 1].row.time))
    && (l.buffered.Some? ==> ps != [] && ps[|ps| - 1] == l.buffered.value)
  }

  lemma DeliveryExtend(log: seq<Delivery>, d: Delivery)
    ensures Partials(log + [d]) == Partials(log) + if d.Partial? then [d.bar] else []
    ensures Closeds(log + [d]) == Closeds(log) + if d.Closed? then [d.bar] else []
    ensures ClosedIsLatest(log + [d]) <==>
            ClosedIsLatest(log) &&
            (d.Closed? ==> Partials(log) != [] && Partials(log)[|Partials(log)| - 1] == d.bar)
  {
    assert (log + [d])[..|log|] == log;
  }

  lemma BucketExtend(ps: seq<Bar>, b: Bar)
    ensures LastPerBucket(ps + [b]) ==
            var r := LastPerBucket(ps);
            if ps != [] && ps[|ps| - 1].row.time == b.row.time then r[..|r| - 1] + [b] else r + [b]
  {
    assert (ps + [b])[..|ps|] == ps;
  }

  lemma OrderExtend(ps: seq<Bar>, b: Bar)
    requires NonDecreasing(ps) && (ps != [] ==> ps[|ps| - 1].row.time <= b.row.time)
    ensures NonDecreasing(ps + [b])
  {
    assert forall i :: 0 <= i < |ps| ==> ps[i].row.time <= ps[|ps| - 1].row.time;
  }

  lemma OpenedOk(l: Life, b: Bar)
    requires LifeOk(l) && l.buffered.None? && (l.last.Some? ==> b.row.time > l.last.value)
    ensures LifeOk(l.(buffered := Some(b), log := l.log + [Partial(b)]))
  {
    DeliveryExtend(l.log, Partial(b));
    BucketExtend(Partials(l.log), b);
    assert Closeds(l.log) + [] == Closeds(l.log);
    OrderExtend(Partials(l.log), b);
  }

  lemma ReplacedOk(l: Life, b: Bar)
    requires LifeOk(l) && l.buffered.Some? && b.row.time == l.buffered.value.row.time
    ensures LifeOk(l.(buffered := Some(b), log := l.log + [Partial(b)]))
  {
    var ps, cs := Partials(l.log), Closeds(l.log);
    DeliveryExtend(l.log, Partial(b));
    BucketExtend(ps, b);
    OrderExtend(ps, b);
    assert cs + [] == cs;
    assert LastPerBucket(ps)[..|LastPerBucket(ps)| - 1] == cs;
  }

  lemma ClosedOk(l: Life)
    requires LifeOk(l)
    ensures LifeOk(OnClose(l)) && OnClose(l).buffered.None?
  {
    if l.buffered.Some? {
      DeliveryExtend(l.log, Closed(l.buffered.value));
      var cs := Closeds(l.log);
      assert cs + [l.buffered.value] + [] == cs + [l.buffered.value];
    }
  }

  /** A newer bucket is a close, then an opening. */
  lemma RollOver(l: Life, b: Bar)
    requires b.barType != 0 && l.buffered.Some? && b.row.time > l.buffered.value.row.time
    requires l.last.Some? ==> b.row.time > l.last.value
    ensures OnFrame(l, b) == OnClose(l).(buffered := Some(b), log := OnClose(l).log + [Partial(b)])
  {
    assert l.log + [Closed(l.buffered.value)] + [Partial(b)] == l.log + [Closed(l.buffered.value), Partial(b)];
  }

  lemma FrameOk(l: Life, b: Bar)
    requires LifeOk(l) && b.barType != 0
    ensures LifeOk(OnFrame(l, b))
  {
    if l.last.Some? && b.row.time <= l.last.value {
    } else if l.buffered.None? {
      OpenedOk(l, b);
    } else if b.row.time == l.buffered.value.row.time {
      ReplacedOk(l, b);
    } else if b.row.time > l.buffered.value.row.time {
      RollOver(l, b);
      ClosedOk(l);
      OpenedOk(OnClose(l), b);
    }
  }

  lemma LivedOk(l: Life, c: Config, s: Signal)
    requires LifeOk(l) && (s.Frame? ==> s.bar.barType != 0)
    ensures LifeOk(Lived(l, c, s))
  {
    match s
    case Frame(b) => FrameOk(l, b);
    case Sweep(now) => ClosedOk(l);
    case Stop => ClosedOk(l);
  }

  lemma {:induction false} LifeAlwaysOk(c: Config, ss: seq<Signal>, k: Series)
    requires k.barType != 0
    ensures LifeOk(LifeOf(c, Relevant(ss, k)))
  {
    if ss != [] {
      var rest, s := ss[..|ss| - 1], ss[|ss| - 1];
      LifeAlwaysOk(c, rest, k);
      var r := Relevant(rest, k);
      assert (r + [s])[..|r|] == r;
      if !(s.Frame? && SeriesOf(s.bar) != k) {
        LivedOk(LifeOf(c, r), c, s);
      }
    }
  }

  lemma {:induction false} BucketsIncrease(bars: seq<Bar>)
    requires NonDecreasing(bars)
    ensures StrictlyIncreasing(LastPerBucket(bars))
  {
    if |bars| > 1 {
      var q, b := bars[..|bars| - 1], bars[|bars| - 1];
      BucketsIncrease(q);
      var r := LastPerBucket(q);
      assert q[|q| - 1].row.time <= b.row.time;
      assert forall i :: 0 <= i < |r| - 1 ==> r[i].row.time < r[|r| - 1].row.time;
    }
  }

  /** What the last-of-each-bucket stream is: every member the last frame with its time,
      and no bucket missing. */
  lemma {:induction false} BucketsMeaning(bars: seq<Bar>, x: Bar)
    requires NonDecreasing(bars)
    ensures x in LastPerBucket(bars) <==> IsLastOfBucket(bars, x)
  {
    if bars != [] {
      var q, b := bars[..|bars| - 1], bars[|bars| - 1];
      assert bars == q + [b];
      BucketsMeaning(q, x);
      LastExtend(q, b, x);
      BucketsIncrease(q);
      AddedBucket(LastPerBucket(q), b, x);
    }
  }

  lemma AddedBucket(r: seq<Bar>, b: Bar, x: Bar)
    requires StrictlyIncreasing(r) && (r != [] ==> r[|r| - 1].row.time <= b.row.time)
    ensures var s := if r != [] && r[|r| - 1].row.time == b.row.time then r[..|r| - 1] + [b] else r + [b];
            x in s <==> x == b || (x in r && x.row.time != b.row.time)
  {
    if r != [] {
      var init, y := r[..|r| - 1], r[|r| - 1];
      assert r == init + [y];
      assert x in init ==> x.row.time < y.row.time;
    }
  }

  ghost predicate IsLastOfBucket(bars: seq<Bar>, x: Bar) {
    exists i :: 0 <= i < |bars| && bars[i] == x && forall j :: i < j < |bars| ==> bars[j].row.time != x.row.time
  }

  lemma LastExtend(q: seq<Bar>, b: Bar, x: Bar)
    ensures IsLastOfBucket(q + [b], x) <==> x == b || (IsLastOfBucket(q, x) && x.row.time != b.row.time)
  {
    var bars := q + [b];
    assert bars[|q|] == b;
    if IsLastOfBucket(q, x) && x.row.time != b.row.time {
      var i :| 0 <= i < |q| && q[i] == x && forall j :: i < j < |q| ==> q[j].row.time != x.row.time;
      assert bars[i] == x;
      assert forall j :: i < j < |bars| ==> bars[j].row.time != x.row.time;
    }
    if IsLastOfBucket(bars, x) && x != b {
      var i :| 0 <= i < |bars| && bars[i] == x && forall j :: i < j < |bars| ==> bars[j].row.time != x.row.time;
      assert i < |q| && q[i] == x;
      assert forall j :: i < j < |q| ==> q[j] == bars[j];
    }
  }

  /** For every trace: what is shown as developing is exactly the frames received that
      were not overtaken on arrival; the closed bars of a non-tick series have strictly
      increasing times, each is the last such frame of its bucket, and was the latest
      partial when it closed; and nothing shown is lost, it is closed or still buffered. */
  lemma ClosedStream(c: Config, ss: seq<Signal>, k: Series)
    requires k.barType != 0
    ensures var log := LogOf(Run(c, ss).log, k);
            var ps, cs := Partials(log), Closeds(log);
            var buffered := if k in Run(c, ss).current then [Run(c, ss).current[k]] else [];
            && NonDecreasing(ps)
            && StrictlyIncreasing(cs + buffered)
            && ps == Admitted(c, ss, k)
            && (forall x :: x in cs + buffered <==> IsLastOfBucket(ps, x))
            && cs + buffered == LastPerBucket(ps)
            && ClosedIsLatest(log)
  {
    PartialsAreAdmitted(c, ss, k);
    SeriesAreIndependent(c, ss, k);
    LifeAlwaysOk(c, ss, k);
    var l := LifeOf(c, Relevant(ss, k));
    assert l == View(Run(c, ss), k);
    BucketsIncrease(Partials(l.log));
    forall x ensures x in LastPerBucket(Partials(l.log)) <==> IsLastOfBucket(Partials(l.log), x) {
      BucketsMeaning(Partials(l.log), x);
    }
  }

  /** After the final drain nothing is held back. */
  lemma DrainedStream(c: Config, ss: seq<Signal>, k: Series)
    requires k.barType != 0
    ensures var log := LogOf(Run(c, ss + [Stop]).log, k); Closeds(log) == LastPerBucket(Partials(log))
  {
    var all := ss + [Stop];
    assert all[..|ss|] == ss;
    ClosedStream(c, all, k);
    DrainedView(Run(c, ss), k);
    assert k !in Run(c, all).current;
  }

  /** A frame is turned away exactly when its bucket is already closed, or a later one
      has been shown. */
  lemma DroppedIff(c: Config, ss: seq<Signal>, b: Bar)
    requires b.barType != 0
    ensures var k := SeriesOf(b);
            var log := LogOf(Run(c, ss).log, k);
            View(Run(c, ss + [Frame(b)]), k) == View(Run(c, ss), k) <==> Overtaken(log, b)
  {
    var k := SeriesOf(b);
    assert (ss + [Frame(b)])[..|ss|] == ss;
    HandledView(Run(c, ss), c, b, k);
    ClosedStream(c, ss, k);
    SeriesAreIndependent(c, ss, k);
    LifeAlwaysOk(c, ss, k);
    DropRule(View(Run(c, ss), k), b);
  }

  /** The last of a non-decreasing stream bounds it. */
  lemma ReachedIffLast(bars: seq<Bar>, t: int)
    requires NonDecreasing(bars)
    ensures (exists x :: x in bars && x.row.time >= t) <==> bars != [] && bars[|bars| - 1].row.time >= t
    ensures (exists x :: x in bars && x.row.time > t) <==> bars != [] && bars[|bars| - 1].row.time > t
  {
    if bars != [] {
      assert bars[|bars| - 1] in bars;
      assert forall i :: 0 <= i < |bars| ==> bars[i].row.time <= bars[|bars| - 1].row.time;
    }
  }

  lemma DropRule(l: Life, b: Bar)
    requires LifeOk(l) && b.barType != 0 && StrictlyIncreasing(Closeds(l.log) + Buffered(l))
    ensures OnFrame(l, b) == l <==> Overtaken(l.log, b)
  {
    var ps, cs := Partials(l.log), Closeds(l.log);
    var all := cs + Buffered(l);
    assert forall i :: 0 <= i < |cs| ==> cs[i] == all[i];
    ReachedIffLast(cs, b.row.time);
    ReachedIffLast(ps, b.row.time);
    assert ps != [] ==> ps[|ps| - 1] == all[|all| - 1];
    DropGuard(l, b);
  }

  /** The guards of the branches that turn a frame away. */
  lemma DropGuard(l: Life, b: Bar)
    requires b.barType != 0
    ensures OnFrame(l, b) == l <==>
            || (l.last.Some? && b.row.time <= l.last.value)
            || (l.buffered.Some? && b.row.time < l.buffered.value.row.time)
  {
    assert |OnFrame(l, b).log| == |l.log| ==> OnFrame(l, b) == l;
  }

  // ----- Frames received ----------------------------------------------------

  /** Its bucket or a later one has been closed, or a later one has been shown. */
  ghost predicate Overtaken(log: seq<Delivery>, b: Bar) {
    || (exists x :: x in Closeds(log) && x.row.time >= b.row.time)
    || (exists x :: x in Partials(log) && x.row.time > b.row.time)
  }

  /** The frames of a series that were not overtaken when they arrived. */
  ghost function Admitted(c: Config, ss: seq<Signal>, k: Series): seq<Bar> {
    if ss == [] then []
    else
      var rest, s := ss[..|ss| - 1], ss[|ss| - 1];
      var r := Admitted(c, rest, k);
      if s.Frame? && SeriesOf(s.bar) == k && !Overtaken(LogOf(Run(c, rest).log, k), s.bar) then r + [s.bar] else r
  }

  lemma FrameShows(l: Life, b: Bar)
    requires LifeOk(l) && b.barType != 0
    ensures Partials(OnFrame(l, b).log) == Partials(l.log) + if OnFrame(l, b) == l then [] else [b]
  {
    DropGuard(l, b);
    if OnFrame(l, b) == l {
      assert Partials(l.log) + [] == Partials(l.log);
    } else if l.buffered.Some? && b.row.time > l.buffered.value.row.time {
      RollOver(l, b);
      CloseShowsNothing(l);
      DeliveryExtend(OnClose(l).log, Partial(b));
    } else {
      DeliveryExtend(l.log, Partial(b));
    }
  }

  lemma CloseShowsNothing(l: Life)
    ensures Partials(OnClose(l).log) == Partials(l.log)
  {
    if l.buffered.Some? {
      DeliveryExtend(l.log, Closed(l.buffered.value));
    }
  }

  lemma LivedShows(l: Life, c: Config, s: Signal)
    requires LifeOk(l) && (s.Frame? ==> s.bar.barType != 0)
    ensures Partials(Lived(l, c, s).log) ==
            Partials(l.log) + if s.Frame? && !Overtaken(l.log, s.bar) then [s.bar] else []
  {
    CloseShowsNothing(l);
    assert Partials(l.log) + [] == Partials(l.log);
    if s.Frame? {
      FrameShows(l, s.bar);
      BucketsIncrease(Partials(l.log));
      DropRule(l, s.bar);
    }
  }

  lemma {:induction false} PartialsAreAdmitted(c: Config, ss: seq<Signal>, k: Series)
    requires k.barType != 0
    ensures Partials(LogOf(Run(c, ss).log, k)) == Admitted(c, ss, k)
  {
    if ss != [] {
      var rest, s := ss[..|ss| - 1], ss[|ss| - 1];
      PartialsAreAdmitted(c, rest, k);
      SeriesAreIndependent(c, rest, k);
      LifeAlwaysOk(c, rest, k);
      ShownStep(c, Run(c, rest), s, k);
    }
  }

  lemma ShownStep(c: Config, r: Runtime, s: Signal, k: Series)
    requires BufferOk(r) && LifeOk(View(r, k)) && k.barType != 0
    ensures Partials(LogOf(Exec(r, c, s).log, k)) ==
            Partials(LogOf(r.log, k)) +
            if s.Frame? && SeriesOf(s.bar) == k && !Overtaken(LogOf(r.log, k), s.bar) then [s.bar] else []
  {
    ExecView(r, c, s, k);
    var l := View(r, k);
    assert View(Exec(r, c, s), k).log == LogOf(Exec(r, c, s).log, k) && l.log == LogOf(r.log, k);
    if s.Frame? && SeriesOf(s.bar) != k {
      assert Partials(l.log) + [] == Partials(l.log);
    } else {
      LivedShows(l, c, s);
    }
  }

  // ----- Tick charts --------------------------------------------------------

  /** Frames of a series, in order of arrival. */
  function FramesOf(ss: seq<Signal>, k: Series): seq<Bar> {
    if ss == [] then []
    else
      var r, s := FramesOf(ss[..|ss| - 1], k), ss[|ss| - 1];
      if s.Frame? && SeriesOf(s.bar) == k then r + [s.bar] else r
  }

  lemma {:induction false} TickLife(c: Config, ss: seq<Signal>, k: Series)
    requires k.barType == 0
    ensures LifeOf(c, Relevant(ss, k)) == Life(None, None, Closings(FramesOf(ss, k)))
  {
    if ss != [] {
      var rest, s := ss[..|ss| - 1], ss[|ss| - 1];
      TickLife(c, rest, k);
      var r := Relevant(rest, k);
      assert (r + [s])[..|r|] == r;
      var fs := FramesOf(rest, k);
      if s.Frame? && SeriesOf(s.bar) == k {
        assert (fs + [s.bar])[..|fs|] == fs;
      }
    }
  }

  /** On a tick chart every frame is delivered as closed, at once, none lost, merged or
      deduplicated, and no partial is ever shown. */
  lemma TicksPassThrough(c: Config, ss: seq<Signal>, k: Series)
    requires k.barType == 0
    ensures LogOf(Run(c, ss).log, k) == Closings(FramesOf(ss, k))
  {
    SeriesAreIndependent(c, ss, k);
    TickLife(c, ss, k);
  }

  // ----- Conservation -------------------------------------------------------

  function FrameCount(ss: seq<Signal>): nat {
    if ss == [] then 0 else FrameCount(ss[..|ss| - 1]) + if ss[|ss| - 1].Frame? then 1 else 0
  }

  ghost predicate CountersOk(r: Runtime, c: Config, frames: nat) {
    && frames == r.counters.directIn + r.counters.updated + r.counters.duplicates + |r.order|
    && r.counters.barsOut == r.counters.directIn == |Closeds(r.log)|
    && r.counters.partialOut == (if c.listening then |Partials(r.log)| else 0)
    && 0 <= r.counters.subminute <= r.counters.updated
    && r.counters.duplicates >= 0
  }

  lemma {:induction false} WithoutSize(ks: seq<Series>, k: Series)
    requires forall i, j :: 0 <= i < j < |ks| ==> ks[i] != ks[j]
    ensures |Without(ks, k)| == |ks| - if k in ks then 1 else 0
  {
    if ks != [] {
      var q, x := ks[..|ks| - 1], ks[|ks| - 1];
      assert ks == q + [x];
      WithoutSize(q, k);
      assert x !in q;
    }
  }

  lemma HandledCounters(r: Runtime, c: Config, b: Bar, n: nat)
    requires BufferOk(r) && CountersOk(r, c, n)
    ensures CountersOk(Handled(r, c, b), c, n + 1)
  {
    if b.barType == 0 {
      DeliveryExtend(r.log, Closed(b));
    } else if SeriesOf(b) in r.current && b.row.time > r.current[SeriesOf(b)].row.time {
      RolledCounters(r, c, b, n);
    } else {
      DeliveryExtend(r.log, Partial(b));
    }
  }

  lemma RolledCounters(r: Runtime, c: Config, b: Bar, n: nat)
    requires BufferOk(r) && CountersOk(r, c, n)
    requires b.barType != 0 && SeriesOf(b) in r.current && b.row.time > r.current[SeriesOf(b)].row.time
    ensures CountersOk(Handled(r, c, b), c, n + 1)
  {
    RolledLog(r.log, r.current[SeriesOf(b)], b);
  }

  lemma RolledLog(log: seq<Delivery>, held: Bar, b: Bar)
    ensures Partials(log + [Closed(held)]) == Partials(log)
    ensures |Closeds(log + [Closed(held)])| == |Closeds(log)| + 1
    ensures Partials(log + [Closed(held)] + [Partial(b)]) == Partials(log) + [b]
    ensures |Closeds(log + [Closed(held)] + [Partial(b)])| == |Closeds(log)| + 1
  {
    DeliveryExtend(log, Closed(held));
    DeliveryExtend(log + [Closed(held)], Partial(b));
  }

  lemma {:induction false} AllClosedCounters(r: Runtime, bars: seq<Bar>)
    ensures var q := AllClosed(r, bars);
            && q == r.(log := q.log, counters := r.counters.(barsOut := r.counters.barsOut + |bars|))
            && |Closeds(q.log)| == |Closeds(r.log)| + |bars|
            && Partials(q.log) == Partials(r.log)
  {
    if bars != [] {
      AllClosedCounters(r, bars[..|bars| - 1]);
      DeliveryExtend(AllClosed(r, bars[..|bars| - 1]).log, Closed(bars[|bars| - 1]));
    }
  }

  lemma {:induction false} SweptCounters(r: Runtime, c: Config, ks: seq<Series>, now: int)
    requires BufferOk(r)
    requires forall i, j :: 0 <= i < j < |ks| ==> ks[i] != ks[j]
    ensures var (q, ready) := Swept(r, c, ks, now);
            && q.log == r.log
            && q.counters == r.counters.(directIn := r.counters.directIn + |ready|)
            && |q.order| == |r.order| - |ready|
  {
    if ks != [] {
      var rest, k := ks[..|ks| - 1], ks[|ks| - 1];
      SweptCounters(r, c, rest, now);
      SweptView(r, c, rest, now, k);
      var q := Swept(r, c, rest, now).0;
      WithoutSize(q.order, k);
    }
  }

  lemma {:induction false} CountedCounters(r: Runtime, bars: seq<Bar>)
    ensures Counted(r, bars) ==
            r.(counters := r.counters.(directIn := r.counters.directIn + |bars|), last := Counted(r, bars).last)
  {
    if bars != [] {
      CountedCounters(r, bars[..|bars| - 1]);
    }
  }

  lemma ExecCounters(r: Runtime, c: Config, s: Signal, n: nat)
    requires BufferOk(r) && CountersOk(r, c, n)
    ensures CountersOk(Exec(r, c, s), c, n + if s.Frame? then 1 else 0)
  {
    match s
    case Frame(b) => HandledCounters(r, c, b, n);
    case Sweep(now) =>
      SweptCounters(r, c, r.order, now);
      var (q, ready) := Swept(r, c, r.order, now);
      AllClosedCounters(q, ready);
    case Stop =>
      var bars := Held(r, r.order);
      var e := r.(current := map[], order := []);
      CountedCounters(e, bars);
      AllClosedCounters(Counted(e, bars), bars);
  }

  /** In every reachable state each frame received is closed, replaced, dropped, or still
      buffered, and the published counters say so. */
  lemma {:induction false} FramesConserved(c: Config, ss: seq<Signal>)
    ensures CountersOk(Run(c, ss), c, FrameCount(ss))
  {
    if ss != [] {
      FramesConserved(c, ss[..|ss| - 1]);
      ExecCounters(Run(c, ss[..|ss| - 1]), c, ss[|ss| - 1], FrameCount(ss[..|ss| - 1]));
    }
  }
}
