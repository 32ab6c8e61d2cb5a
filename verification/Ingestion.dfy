/** The ingestion runtime: one replace-last buffer per series, deduplication, and the
    three ways a buffered bar is closed: by a frame of a later bucket, by the wall-clock
    sweep, and by the final drain. Callbacks, snapshot and sinks are represented by the
    log of what is delivered to them, in order. */
module Ingestion {
  import opened Prelude
  import opened Bars

  /** Grace past a bar's own close before a sweep releases it, in seconds. */
  const CLOSE_GRACE := 2

  datatype Series = Series(symbol: string, barType: int, barInterval: int)

  function SeriesOf(b: Bar): Series {
    Series(b.symbol, b.barType, b.barInterval)
  }

  /** `Partial`: installed as the series' developing bar. `Closed`: final. */
  datatype Delivery = Partial(bar: Bar) | Closed(bar: Bar)

  datatype Counters = Counters(
    barsOut: int,
    directIn: int,
    updated: int,
    duplicates: int,
    subminute: int,
    partialOut: int)

  /** `order` is the insertion order of the buffer. */
  datatype Runtime = Runtime(
    current: map<Series, Bar>,
    order: seq<Series>,
    last: map<Series, int>,
    counters: Counters,
    log: seq<Delivery>)

  const STARTED := Runtime(map[], [], map[], Counters(0, 0, 0, 0, 0, 0), [])

  /** How far a symbol's wire clock runs from real time, in seconds; and whether anyone
      listens for partial bars. */
  datatype Config = Config(shift: string -> int, listening: bool)

  // ----- Deliveries ---------------------------------------------------------

  function OnClosed(r: Runtime, b: Bar): Runtime {
    r.(counters := r.counters.(barsOut := r.counters.barsOut + 1), log := r.log + [Closed(b)])
  }

  function OnPartial(r: Runtime, c: Config, b: Bar): Runtime {
    r.(counters := if c.listening then r.counters.(partialOut := r.counters.partialOut + 1) else r.counters,
       log := r.log + [Partial(b)])
  }

  function AllClosed(r: Runtime, bars: seq<Bar>): Runtime {
    if bars == [] then r else OnClosed(AllClosed(r, bars[..|bars| - 1]), bars[|bars| - 1])
  }

  // ----- Frames -------------------------------------------------------------

  predicate Stale(r: Runtime, b: Bar) {
    SeriesOf(b) in r.last && b.row.time <= r.last[SeriesOf(b)]
  }

  /** Two frames of one bar only ever widen it; this one cannot belong to it. */
  predicate Contradicts(b: Bar, held: Bar) {
    b.row.values.high < held.row.values.high || b.row.values.low > held.row.values.low
  }

  function Installed(r: Runtime, b: Bar): Runtime {
    var k := SeriesOf(b);
    r.(current := r.current[k := b], order := if k in r.current then r.order else r.order + [k])
  }

  function Dropped(r: Runtime): Runtime {
    r.(counters := r.counters.(duplicates := r.counters.duplicates + 1))
  }

  function RolledOver(r: Runtime, c: Config, held: Bar, b: Bar): Runtime {
    var n := Installed(r, b).(counters := r.counters.(directIn := r.counters.directIn + 1),
                              last := r.last[SeriesOf(b) := held.row.time]);
    OnPartial(OnClosed(n, held), c, b)
  }

  /** One frame from the provider. */
  function Handled(r: Runtime, c: Config, b: Bar): Runtime {
    var k := SeriesOf(b);
    if b.barType == 0 then OnClosed(r.(counters := r.counters.(directIn := r.counters.directIn + 1)), b)
    else if Stale(r, b) then Dropped(r)
    else if k !in r.current then OnPartial(Installed(r, b), c, b)
    else
      var held := r.current[k];
      if b.row.time == held.row.time then
        var s := if Contradicts(b, held) then r.counters.subminute + 1 else r.counters.subminute;
        OnPartial(Installed(r, b).(counters := r.counters.(subminute := s, updated := r.counters.updated + 1)), c, b)
      else if b.row.time > held.row.time then RolledOver(r, c, held, b)
      else Dropped(r)
  }

  // ----- Sweeps and the final drain -----------------------------------------

  function Without(ks: seq<Series>, k: Series): seq<Series> {
    if ks == [] then []
    else if ks[|ks| - 1] == k then Without(ks[..|ks| - 1], k)
    else Without(ks[..|ks| - 1], k) + [ks[|ks| - 1]]
  }

  predicate Due(c: Config, b: Bar, now: int) {
    b.row.time + c.shift(b.symbol) + CLOSE_GRACE <= now
  }

  /** Taking one bar out of the buffer for closing. */
  function Released(r: Runtime, k: Series): Runtime
    requires k in r.current
  {
    r.(current := r.current - {k},
       order := Without(r.order, k),
       last := r.last[k := r.current[k].row.time],
       counters := r.counters.(directIn := r.counters.directIn + 1))
  }

  /** The sweep over these series: the new state, and the bars to close, in order. */
  function Swept(r: Runtime, c: Config, ks: seq<Series>, now: int): (Runtime, seq<Bar>) {
    if ks == [] then (r, [])
    else
      var (q, ready) := Swept(r, c, ks[..|ks| - 1], now);
      var k := ks[|ks| - 1];
      if k in q.current && Due(c, q.current[k], now) then (Released(q, k), ready + [q.current[k]])
      else (q, ready)
  }

  /** Every buffered bar, in order. */
  function Held(r: Runtime, ks: seq<Series>): (bars: seq<Bar>)
    requires forall k :: k in ks ==> k in r.current
    ensures |bars| == |ks| && forall i :: 0 <= i < |ks| ==> bars[i] == r.current[ks[i]]
  {
    seq(|ks|, i requires 0 <= i < |ks| => assert ks[i] in ks; r.current[ks[i]])
  }

  function Counted(r: Runtime, bars: seq<Bar>): Runtime {
    if bars == [] then r
    else
      var q, b := Counted(r, bars[..|bars| - 1]), bars[|bars| - 1];
      q.(counters := q.counters.(directIn := q.counters.directIn + 1), last := q.last[SeriesOf(b) := b.row.time])
  }

  ghost predicate BufferOk(r: Runtime) {
    && (forall k :: k in r.order <==> k in r.current)
    && (forall i, j :: 0 <= i < j < |r.order| ==> r.order[i] != r.order[j])
    && (forall k :: k in r.current ==> SeriesOf(r.current[k]) == k && k.barType != 0)
  }

  lemma InstalledOk(r: Runtime, b: Bar)
    requires BufferOk(r) && b.barType != 0
    ensures BufferOk(Installed(r, b))
  {
    assert forall k :: k in r.order + [SeriesOf(b)] <==> k in r.order || k == SeriesOf(b);
  }

  lemma HandledOk(r: Runtime, c: Config, b: Bar)
    requires BufferOk(r)
    ensures BufferOk(Handled(r, c, b))
  {
    if b.barType != 0 {
      InstalledOk(r, b);
      var h := Handled(r, c, b);
      assert (h.current, h.order) == (r.current, r.order)
          || (h.current, h.order) == (Installed(r, b).current, Installed(r, b).order);
    }
  }

  lemma {:induction false} WithoutMembers(ks: seq<Series>, k: Series)
    requires forall i, j :: 0 <= i < j < |ks| ==> ks[i] != ks[j]
    ensures forall j :: j in Without(ks, k) <==> j in ks && j != k
    ensures forall i, j :: 0 <= i < j < |Without(ks, k)| ==> Without(ks, k)[i] != Without(ks, k)[j]
  {
    if ks != [] {
      var q, x := ks[..|ks| - 1], ks[|ks| - 1];
      assert ks == q + [x];
      WithoutMembers(q, k);
      assert x !in q;
      assert forall i :: 0 <= i < |Without(q, k)| ==> Without(q, k)[i] in q;
    }
  }

  lemma ReleasedOk(r: Runtime, k: Series)
    requires BufferOk(r) && k in r.current
    ensures BufferOk(Released(r, k))
  {
    WithoutMembers(r.order, k);
  }

  function Drained(r: Runtime): Runtime
    requires BufferOk(r)
  {
    var bars := Held(r, r.order);
    AllClosed(Counted(r.(current := map[], order := []), bars), bars)
  }

  function Advanced(r: Runtime, c: Config, now: int): Runtime {
    var (q, ready) := Swept(r, c, r.order, now);
    AllClosed(q, ready)
  }

  lemma {:induction false} SweptOk(r: Runtime, c: Config, ks: seq<Series>, now: int)
    requires BufferOk(r)
    ensures BufferOk(Swept(r, c, ks, now).0)
  {
    if ks != [] {
      SweptOk(r, c, ks[..|ks| - 1], now);
      var q, k := Swept(r, c, ks[..|ks| - 1], now).0, ks[|ks| - 1];
      if k in q.current && Due(c, q.current[k], now) {
        ReleasedOk(q, k);
      }
    }
  }

  lemma {:induction false} AllClosedBuffer(r: Runtime, bars: seq<Bar>)
    ensures AllClosed(r, bars).current == r.current && AllClosed(r, bars).order == r.order
  {
    if bars != [] {
      AllClosedBuffer(r, bars[..|bars| - 1]);
    }
  }

  lemma {:induction false} CountedBuffer(r: Runtime, bars: seq<Bar>)
    ensures Counted(r, bars).current == r.current && Counted(r, bars).order == r.order
  {
    if bars != [] {
      CountedBuffer(r, bars[..|bars| - 1]);
    }
  }

  /** A sweep and a drain keep the buffer a table of its series. */
  lemma AdvancedOk(r: Runtime, c: Config, now: int)
    requires BufferOk(r)
    ensures BufferOk(Advanced(r, c, now))
  {
    SweptOk(r, c, r.order, now);
    AllClosedBuffer(Swept(r, c, r.order, now).0, Swept(r, c, r.order, now).1);
  }

  lemma DrainedOk(r: Runtime)
    requires BufferOk(r)
    ensures BufferOk(Drained(r)) && Drained(r).current == map[]
  {
    var bars, e := Held(r, r.order), r.(current := map[], order := []);
    CountedBuffer(e, bars);
    AllClosedBuffer(Counted(e, bars), bars);
  }

  // ----- The runtime as an object -------------------------------------------

  class IngestionRuntime {
    const config: Config
    var currentDirectBars: map<Series, Bar>
    var order: seq<Series>
    var lastEmitted: map<Series, int>
    var counters: Counters
    var log: seq<Delivery>

    ghost function State(): Runtime
      reads this
    {
      Runtime(currentDirectBars, order, lastEmitted, counters, log)
    }

    constructor (config: Config)
      ensures State() == STARTED && this.config == config && BufferOk(State())
    {
      this.config := config;
      currentDirectBars, order, lastEmitted := map[], [], map[];
      counters, log := Counters(0, 0, 0, 0, 0, 0), [];
    }

    method OnClosedBar(b: Bar)
      modifies this`counters, this`log
      ensures State() == OnClosed(old(State()), b)
    {
      counters := counters.(barsOut := counters.barsOut + 1);
      log := log + [Closed(b)];
    }

    method OnPartialBar(b: Bar)
      modifies this`counters, this`log
      ensures State() == OnPartial(old(State()), config, b)
    {
      log := log + [Partial(b)];
      if !config.listening {
        return;
      }
      counters := counters.(partialOut := counters.partialOut + 1);
    }

    method Install(b: Bar)
      modifies this`currentDirectBars, this`order
      ensures State() == Installed(old(State()), b)
    {
      if SeriesOf(b) !in currentDirectBars {
        order := order + [SeriesOf(b)];
      }
      currentDirectBars := currentDirectBars[SeriesOf(b) := b];
    }

    /** The next bucket: the held bar is told closed before this one is shown. */
    method RollOver(held: Bar, b: Bar)
      modifies this
      ensures State() == RolledOver(old(State()), config, held, b)
    {
      Install(b);
      counters := counters.(directIn := counters.directIn + 1);
      lastEmitted := lastEmitted[SeriesOf(b) := held.row.time];
      OnClosedBar(held);
      OnPartialBar(b);
    }

    method HandleProviderBar(b: Bar)
      requires BufferOk(State())
      modifies this
      ensures State() == Handled(old(State()), config, b) && BufferOk(State())
    {
      HandledOk(State(), config, b);
      if b.barType == 0 {
        counters := counters.(directIn := counters.directIn + 1);
        OnClosedBar(b);
        return;
      }
      var k := SeriesOf(b);
      if k in lastEmitted && b.row.time <= lastEmitted[k] {
        counters := counters.(duplicates := counters.duplicates + 1);
        return;
      }
      if k !in currentDirectBars {
        Install(b);
        OnPartialBar(b);
        return;
      }
      var held := currentDirectBars[k];
      if b.row.time == held.row.time {
        if Contradicts(b, held) {
          counters := counters.(subminute := counters.subminute + 1);
        }
        Install(b);
        counters := counters.(updated := counters.updated + 1);
        OnPartialBar(b);
        return;
      }
      if b.row.time > held.row.time {
        RollOver(held, b);
        return;
      }
      counters := counters.(duplicates := counters.duplicates + 1);
    }

    /** Takes one bar out of the buffer for closing. */
    method Release(k: Series)
      requires k in currentDirectBars
      modifies this
      ensures State() == Released(old(State()), k)
    {
      var b := currentDirectBars[k];
      currentDirectBars := currentDirectBars - {k};
      order := Without(order, k);
      counters := counters.(directIn := counters.directIn + 1);
      lastEmitted := lastEmitted[k := b.row.time];
    }

    /** Deletes while sweeping, over a copy of the keys. */
    method AdvanceDirectBars(now: int) returns (ready: seq<Bar>)
      modifies this
      ensures (State(), ready) == Swept(old(State()), config, old(order), now)
    {
      ghost var r := State();
      var keys := order;
      ready := [];
      for i := 0 to |keys|
        invariant (State(), ready) == Swept(r, config, keys[..i], now)
      {
        assert keys[..i + 1][..i] == keys[..i];
        var k := keys[i];
        if k in currentDirectBars {
          var b := currentDirectBars[k];
          if b.row.time + config.shift(b.symbol) + CLOSE_GRACE <= now {
            ready := ready + [b];
            Release(k);
          }
        }
      }
      assert keys[..|keys|] == keys;
    }

    method CloseAll(bars: seq<Bar>)
      modifies this`counters, this`log
      ensures State() == AllClosed(old(State()), bars)
    {
      for i := 0 to |bars|
        invariant State() == AllClosed(old(State()), bars[..i])
      {
        assert bars[..i + 1][..i] == bars[..i];
        OnClosedBar(bars[i]);
      }
      assert bars[..|bars|] == bars;
    }

    /** One turn of the wall-clock loop. */
    method Advance(now: int)
      requires BufferOk(State())
      modifies this
      ensures State() == Advanced(old(State()), config, now) && BufferOk(State())
    {
      AdvancedOk(State(), config, now);
      var ready := AdvanceDirectBars(now);
      CloseAll(ready);
    }

    /** Empties the buffer; the bars are final from here on. */
    method DrainDirectBars() returns (drained: seq<Bar>)
      requires BufferOk(State())
      modifies this
      ensures drained == Held(old(State()), old(order))
      ensures State() == Counted(old(State()).(current := map[], order := []), drained)
    {
      drained := Held(Runtime(currentDirectBars, order, lastEmitted, counters, log), order);
      currentDirectBars, order := map[], [];
      Count(drained);
    }

    method Count(bars: seq<Bar>)
      modifies this`counters, this`lastEmitted
      ensures State() == Counted(old(State()), bars)
    {
      for i := 0 to |bars|
        invariant State() == Counted(old(State()), bars[..i])
      {
        assert bars[..i + 1][..i] == bars[..i];
        counters := counters.(directIn := counters.directIn + 1);
        lastEmitted := lastEmitted[SeriesOf(bars[i]) := bars[i].row.time];
      }
      assert bars[..|bars|] == bars;
    }

    /** Shutdown: everything still buffered is emitted. */
    method Drain()
      requires BufferOk(State())
      modifies this
      ensures State() == Drained(old(State())) && BufferOk(State())
    {
      DrainedOk(State());
      var drained := DrainDirectBars();
      CloseAll(drained);
    }
  }
}
