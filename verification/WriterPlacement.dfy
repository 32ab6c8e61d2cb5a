/** The writer and the reader agree on where a row lives: every run keeps every row in
    the partition of its own ET date, which is all the reader's pruning relies on, so a
    pruned read of what any run has left on disk misses nothing. */
module WriterPlacement {
  import opened Prelude
  import opened Bars
  import opened Store
  import opened Merge
  import opened BarWriter
  import opened WriterRuns
  import History = HistoryStore

  ghost predicate Belong(zone: Zone, k: Key, times: set<int>) {
    k.day.Some? ==> forall t :: t in times ==> EtDate(zone, t) == k.day.value
  }

  ghost predicate PartPlaced(zone: Zone, k: Key, p: Part) {
    && Belong(zone, k, TimesOf(p.buffer))
    && (p.writer.Some? ==> Belong(zone, k, TimesOf(p.writer.value)))
  }

  ghost predicate DiskPlaced(zone: Zone, disk: Disk) {
    forall k :: Belong(zone, k, TimesOf(RowsOf(FileAt(disk, k))))
  }

  ghost predicate AllPlaced(zone: Zone, w: Writer) {
    DiskPlaced(zone, w.disk) && forall k :: k in w.parts ==> PartPlaced(zone, k, w.parts[k])
  }

  lemma FlushedPartPlaced(zone: Zone, k: Key, p: Part, f: File, today: int, fault: Fault)
    requires PartPlaced(zone, k, p) && Belong(zone, k, TimesOf(RowsOf(f)))
    ensures var (q, g, _) := FlushedPart(k, p, f, today, fault);
            PartPlaced(zone, k, q) && Belong(zone, k, TimesOf(RowsOf(g)))
  {
    RewrittenPlaced(zone, k, p, f, fault);
    StreamedPlaced(zone, k, p, f, fault);
  }

  lemma RewrittenPlaced(zone: Zone, k: Key, p: Part, f: File, fault: Fault)
    requires PartPlaced(zone, k, p) && Belong(zone, k, TimesOf(RowsOf(f)))
    ensures var (q, g, _) := RewrittenPart(p, f, fault);
            PartPlaced(zone, k, q) && Belong(zone, k, TimesOf(RowsOf(g)))
  {
    var f1 := if p.writer.Some? then Complete(p.writer.value) else f;
    MergedBelongs(zone, k, RowsOf(f1), p.buffer);
  }

  lemma StreamedPlaced(zone: Zone, k: Key, p: Part, f: File, fault: Fault)
    requires PartPlaced(zone, k, p) && Belong(zone, k, TimesOf(RowsOf(f)))
    ensures var (q, g, _) := StreamedPart(p, f, fault);
            PartPlaced(zone, k, q) && Belong(zone, k, TimesOf(RowsOf(g)))
  {
    JoinBelongs(zone, k, if p.writer.Some? then p.writer.value else [], p.buffer);
  }

  lemma MergedBelongs(zone: Zone, k: Key, a: seq<Row>, b: seq<Row>)
    requires Belong(zone, k, TimesOf(a)) && Belong(zone, k, TimesOf(b))
    ensures Belong(zone, k, TimesOf(Merged(a + b)))
  {
    MergedTimes(a, b);
  }

  lemma JoinBelongs(zone: Zone, k: Key, a: seq<Row>, b: seq<Row>)
    requires Belong(zone, k, TimesOf(a)) && Belong(zone, k, TimesOf(b))
    ensures Belong(zone, k, TimesOf(a + b))
  {
    assert TimesOf(a + b) == TimesOf(a) + TimesOf(b);
  }

  lemma FlushKeyPlaced(zone: Zone, w: Writer, k: Key, today: int, fault: Fault)
    requires AllPlaced(zone, w) && k in w.parts
    ensures AllPlaced(zone, FlushKey(w, k, today, fault))
  {
    FlushedPartPlaced(zone, k, w.parts[k], FileAt(w.disk, k), today, fault);
  }

  lemma CloseKeyPlaced(zone: Zone, w: Writer, k: Key)
    requires AllPlaced(zone, w) && k in w.parts
    ensures AllPlaced(zone, CloseKey(w, k))
  {
    assert PartPlaced(zone, k, w.parts[k]);
  }

  lemma SealKeyPlaced(zone: Zone, w: Writer, k: Key, today: int, fault: Fault)
    requires AllPlaced(zone, w) && k in w.parts
    ensures AllPlaced(zone, SealKey(w, k, today, fault))
  {
    FlushKeyPlaced(zone, w, k, today, fault);
    CloseKeyPlaced(zone, FlushKey(w, k, today, fault), k);
  }

  lemma {:induction false} FlushKeysPlaced(zone: Zone, w: Writer, ks: seq<Key>, today: int, faults: Faults)
    requires AllPlaced(zone, w) && Listed(w, ks)
    ensures AllPlaced(zone, FlushKeys(w, ks, today, faults))
  {
    if ks != [] {
      var q, j := ks[..|ks| - 1], ks[|ks| - 1];
      assert forall k :: k in q ==> k in ks;
      FlushKeysPlaced(zone, w, q, today, faults);
      FlushKeyPlaced(zone, FlushKeys(w, q, today, faults), j, today, faults(j));
    }
  }

  lemma {:induction false} CloseKeysPlaced(zone: Zone, w: Writer, ks: seq<Key>)
    requires AllPlaced(zone, w) && Listed(w, ks)
    ensures AllPlaced(zone, CloseKeys(w, ks))
  {
    if ks != [] {
      var q, j := ks[..|ks| - 1], ks[|ks| - 1];
      assert forall k :: k in q ==> k in ks;
      CloseKeysPlaced(zone, w, q);
      CloseKeyPlaced(zone, CloseKeys(w, q), j);
    }
  }

  lemma {:induction false} SealElapsedPlaced(zone: Zone, w: Writer, ks: seq<Key>, c: Clock, limits: Limits, faults: Faults)
    requires AllPlaced(zone, w) && Listed(w, ks)
    ensures AllPlaced(zone, SealElapsed(w, ks, c, limits, faults))
  {
    if ks != [] {
      var q, j := ks[..|ks| - 1], ks[|ks| - 1];
      assert forall k :: k in q ==> k in ks;
      SealElapsedPlaced(zone, w, q, c, limits, faults);
      SealKeyPlaced(zone, SealElapsed(w, q, c, limits, faults), j, c.today, faults(j));
    }
  }

  lemma {:induction false} SealEarlierPlaced(zone: Zone, w: Writer, ks: seq<Key>, than: Key, today: int, faults: Faults)
    requires AllPlaced(zone, w) && Listed(w, ks)
    ensures AllPlaced(zone, SealEarlier(w, ks, than, today, faults))
  {
    if ks != [] {
      var q, j := ks[..|ks| - 1], ks[|ks| - 1];
      assert forall k :: k in q ==> k in ks;
      SealEarlierPlaced(zone, w, q, than, today, faults);
      SealKeyPlaced(zone, SealEarlier(w, q, than, today, faults), j, today, faults(j));
    }
  }

  lemma AddBarPlaced(zone: Zone, w: Writer, bar: Bar, now: int)
    requires AllPlaced(zone, w) && KeyOf(zone, bar) in w.parts
    ensures AllPlaced(zone, AddBar(w, KeyOf(zone, bar), bar.row, now))
  {
    var k := KeyOf(zone, bar);
    assert TimesOf(w.parts[k].buffer + [bar.row]) == TimesOf(w.parts[k].buffer) + {bar.row.time};
  }

  lemma FlushedPlaced(zone: Zone, w: Writer, c: Clock, limits: Limits, faults: Faults)
    requires AllPlaced(zone, w) && TableOk(w)
    ensures AllPlaced(zone, Flushed(w, c, limits, faults))
  {
    SealElapsedPlaced(zone, w, w.order, c, limits, faults);
    FlushKeysPlaced(zone, SealElapsed(w, w.order, c, limits, faults), w.order, c.today, faults);
  }

  lemma ClosedPlaced(zone: Zone, w: Writer, c: Clock, limits: Limits, faults: Faults)
    requires AllPlaced(zone, w) && TableOk(w)
    ensures AllPlaced(zone, ClosedAll(w, c, limits, faults))
  {
    var v := w.(closed := true);
    FlushedPlaced(zone, v, c, limits, faults);
    FlushKeepsTable(v, c, limits, faults);
    CloseKeysPlaced(zone, Flushed(v, c, limits, faults), w.order);
  }

  lemma ExecPlaced(s: Setup, w: Writer, op: Op)
    requires AllPlaced(s.zone, w) && TableOk(w)
    ensures AllPlaced(s.zone, Exec(s, w, op))
  {
    match op
    case WriteOp(bar, c, faults) =>
      var k := KeyOf(s.zone, bar);
      if k !in w.parts {
        SealEarlierPlaced(s.zone, w, w.order, k, c.today, faults);
        AddBarPlaced(s.zone, WithPart(w, k, c.today, faults), bar, c.now);
      } else {
        AddBarPlaced(s.zone, w, bar, c.now);
      }
    case FlushOp(c, faults) => FlushedPlaced(s.zone, w, c, s.limits, faults);
    case CloseOp(c, faults) => ClosedPlaced(s.zone, w, c, s.limits, faults);
    case RestartOp(c, faults) => ClosedPlaced(s.zone, w, c, s.limits, faults);
  }

  lemma {:induction false} RunPlaced(s: Setup, disk: Disk, ops: seq<Op>)
    requires DiskPlaced(s.zone, disk)
    ensures AllPlaced(s.zone, Run(s, Opened(disk), ops))
  {
    if ops != [] {
      RunPlaced(s, disk, ops[..|ops| - 1]);
      ExecPlaced(s, Run(s, Opened(disk), ops[..|ops| - 1]), ops[|ops| - 1]);
    }
  }

  /** A chart's files as the reader's directory listing shows them. */
  function Listing(disk: Disk, barType: int, barInterval: int, symbol: string, days: seq<int>): seq<History.Partition> {
    if days == [] then []
    else
      var d := days[|days| - 1];
      Listing(disk, barType, barInterval, symbol, days[..|days| - 1])
      + [History.Partition(History.Dated(d), FileAt(disk, Key(barType, barInterval, symbol, Some(d))))]
  }

  lemma {:induction false} ListingPlaced(
    zone: Zone, disk: Disk, barType: int, barInterval: int, symbol: string, days: seq<int>)
    requires DiskPlaced(zone, disk)
    ensures History.Placed(zone, Listing(disk, barType, barInterval, symbol, days))
  {
    if days != [] {
      ListingPlaced(zone, disk, barType, barInterval, symbol, days[..|days| - 1]);
      var d := days[|days| - 1];
      var k := Key(barType, barInterval, symbol, Some(d));
      assert Belong(zone, k, TimesOf(RowsOf(FileAt(disk, k))));
    }
  }

  /** Written, then read: whatever a run of the writer leaves on disk, faults and open
      files included, a pruned read of any chart returns what a plain filter over all
      its listed files would. */
  lemma WrittenStoreReadsPlainly(
    s: Setup, disk: Disk, ops: seq<Op>, barType: int, barInterval: int, symbol: string, days: seq<int>, lo: int, hi: int)
    requires DiskPlaced(s.zone, disk) && EasternOffsets(s.zone)
    ensures var ps := Listing(Run(s, Opened(disk), ops).disk, barType, barInterval, symbol, days);
            History.PlainFilter(History.Kept(s.zone, ps, lo, hi), lo, hi) == History.PlainFilter(ps, lo, hi)
  {
    RunPlaced(s, disk, ops);
    var end := Run(s, Opened(disk), ops).disk;
    ListingPlaced(s.zone, end, barType, barInterval, symbol, days);
    History.PruningLosesNothing(s.zone, Listing(end, barType, barInterval, symbol, days), lo, hi);
  }

  // ----- Partitions ---------------------------------------------------------

  /** An ET date is a day of 86400 seconds of local time. */
  lemma EtDateExactly(zone: Zone, t: int, d: int)
    ensures EtDate(zone, t) == d <==> d * 86400 <= t + zone(t) < (d + 1) * 86400
  {
  }

  /** Two bars share a file exactly if they are of one chart, type, interval and symbol,
      and, unless it is a daily chart, of one ET date. */
  lemma SameFileExactly(zone: Zone, a: Bar, b: Bar)
    ensures KeyOf(zone, a) == KeyOf(zone, b) <==>
            && a.barType == b.barType && a.barInterval == b.barInterval && a.symbol == b.symbol
            && (a.barType == 2 || EtDate(zone, a.row.time) == EtDate(zone, b.row.time))
    ensures KeyOf(zone, a).day == if a.barType == 2 then None else Some(EtDate(zone, a.row.time))
  {
  }
}
