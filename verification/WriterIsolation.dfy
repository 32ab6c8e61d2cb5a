/** One partition's fate over whole runs depends on its own file alone: other files may
    differ, and fail differently. */
module WriterIsolation {
  import opened Prelude
  import opened Bars
  import opened Store
  import opened BarWriter
  import opened WriterRuns
  import opened WriterOutcomes

  predicate Distinct(ks: seq<Key>) {
    forall i, j :: 0 <= i < j < |ks| ==> ks[i] != ks[j]
  }

  // ----- A partition the writer does not have -------------------------------

  lemma {:induction false} FlushKeysElsewhere(w: Writer, ks: seq<Key>, today: int, faults: Faults, k: Key)
    requires Listed(w, ks) && k !in w.parts
    ensures FileAt(FlushKeys(w, ks, today, faults).disk, k) == FileAt(w.disk, k)
  {
    if ks != [] {
      var q := ks[..|ks| - 1];
      assert forall j :: j in q ==> j in ks;
      FlushKeysElsewhere(w, q, today, faults, k);
    }
  }

  lemma {:induction false} SealElapsedElsewhere(
    w: Writer, ks: seq<Key>, c: Clock, limits: Limits, faults: Faults, k: Key)
    requires Listed(w, ks) && k !in w.parts
    ensures FileAt(SealElapsed(w, ks, c, limits, faults).disk, k) == FileAt(w.disk, k)
  {
    if ks != [] {
      var q := ks[..|ks| - 1];
      assert forall j :: j in q ==> j in ks;
      SealElapsedElsewhere(w, q, c, limits, faults, k);
    }
  }

  lemma {:induction false} SealEarlierElsewhere(w: Writer, ks: seq<Key>, than: Key, today: int, faults: Faults, k: Key)
    requires Listed(w, ks) && k !in w.parts
    ensures FileAt(SealEarlier(w, ks, than, today, faults).disk, k) == FileAt(w.disk, k)
  {
    if ks != [] {
      var q := ks[..|ks| - 1];
      assert forall j :: j in q ==> j in ks;
      SealEarlierElsewhere(w, q, than, today, faults, k);
    }
  }

  lemma {:induction false} CloseKeysElsewhere(w: Writer, ks: seq<Key>, k: Key)
    requires Listed(w, ks) && k !in w.parts
    ensures FileAt(CloseKeys(w, ks).disk, k) == FileAt(w.disk, k)
  {
    if ks != [] {
      var q := ks[..|ks| - 1];
      assert forall j :: j in q ==> j in ks;
      CloseKeysElsewhere(w, q, k);
    }
  }

  /** Closing writers, seen from one partition. */
  lemma {:induction false} CloseKeysPart(w: Writer, ks: seq<Key>, k: Key)
    requires Listed(w, ks) && k in w.parts && Distinct(ks)
    ensures var r := CloseKeys(w, ks);
            if k in ks then (r.parts[k], FileAt(r.disk, k)) == ClosedPart(w.parts[k], FileAt(w.disk, k))
            else SameView(r, w, k)
  {
    if ks != [] {
      var q, j := ks[..|ks| - 1], ks[|ks| - 1];
      assert ks == q + [j];
      CloseKeysPart(w, q, k);
    }
  }

  // ----- Two writers alike for one partition --------------------------------

  /** The same table, and the same partition and file at `k`. */
  ghost predicate Alike(v: Writer, w: Writer, k: Key) {
    && TableOk(v) && TableOk(w)
    && v.parts.Keys == w.parts.Keys && v.order == w.order && v.closed == w.closed
    && SameView(v, w, k)
  }

  lemma AlikeFlush(v: Writer, w: Writer, c: Clock, limits: Limits, f: Faults, g: Faults, k: Key)
    requires Alike(v, w, k) && f(k) == g(k)
    ensures Alike(Flushed(v, c, limits, f), Flushed(w, c, limits, g), k)
  {
    FlushView(v, c, limits, f, k);
    FlushView(w, c, limits, g, k);
    FlushKeepsTable(v, c, limits, f);
    FlushKeepsTable(w, c, limits, g);
  }

  /** What a whole flush does to one partition and its file. */
  function FlushedView(k: Key, p: Part, f: File, c: Clock, limits: Limits, fault: Fault): (Part, File) {
    var (p1, f1) := if Finished(k, p, c, limits) then SealedPart(k, p, f, c.today, fault) else (p, f);
    var (p2, f2, _) := FlushedPart(k, p1, f1, c.today, fault);
    (p2, f2)
  }

  lemma FlushView(w: Writer, c: Clock, limits: Limits, faults: Faults, k: Key)
    requires TableOk(w)
    ensures var r := Flushed(w, c, limits, faults);
            && r.parts.Keys == w.parts.Keys && r.order == w.order && r.closed == w.closed
            && (if k in w.parts
                then (r.parts[k], FileAt(r.disk, k)) == FlushedView(k, w.parts[k], FileAt(w.disk, k), c, limits, faults(k))
                else FileAt(r.disk, k) == FileAt(w.disk, k))
  {
    var v := SealElapsed(w, w.order, c, limits, faults);
    if k in w.parts {
      SealElapsedView(w, w.order, c, limits, faults, k);
      FlushKeysView(v, w.order, c.today, faults, k);
    } else {
      SealElapsedElsewhere(w, w.order, c, limits, faults, k);
      FlushKeysElsewhere(v, w.order, c.today, faults, k);
    }
  }

  lemma CloseView(w: Writer, k: Key)
    requires TableOk(w)
    ensures var r := CloseKeys(w, w.order);
            && TableOk(r) && r.parts.Keys == w.parts.Keys && r.order == w.order && r.closed == w.closed
            && (if k in w.parts then (r.parts[k], FileAt(r.disk, k)) == ClosedPart(w.parts[k], FileAt(w.disk, k))
                else FileAt(r.disk, k) == FileAt(w.disk, k))
  {
    if k in w.parts {
      CloseKeysPart(w, w.order, k);
    } else {
      CloseKeysElsewhere(w, w.order, k);
    }
  }

  lemma AlikeCloseKeys(v: Writer, w: Writer, k: Key)
    requires Alike(v, w, k)
    ensures Alike(CloseKeys(v, v.order), CloseKeys(w, w.order), k)
  {
    CloseView(v, k);
    CloseView(w, k);
  }

  lemma AlikeClose(v: Writer, w: Writer, c: Clock, limits: Limits, f: Faults, g: Faults, k: Key)
    requires Alike(v, w, k) && f(k) == g(k)
    ensures Alike(ClosedAll(v, c, limits, f), ClosedAll(w, c, limits, g), k)
  {
    if !v.closed {
      var v1, w1 := v.(closed := true), w.(closed := true);
      AlikeFlush(v1, w1, c, limits, f, g, k);
      AlikeCloseKeys(Flushed(v1, c, limits, f), Flushed(w1, c, limits, g), k);
    }
  }

  lemma SealView(w: Writer, than: Key, today: int, faults: Faults, k: Key)
    requires TableOk(w)
    ensures var r := SealEarlier(w, w.order, than, today, faults);
            && TableOk(r) && r.parts.Keys == w.parts.Keys && r.order == w.order && r.closed == w.closed
            && (if k in w.parts
                then (r.parts[k], FileAt(r.disk, k)) ==
                     if EarlierDay(k, w.parts[k], than) then SealedPart(k, w.parts[k], FileAt(w.disk, k), today, faults(k))
                     else (w.parts[k], FileAt(w.disk, k))
                else FileAt(r.disk, k) == FileAt(w.disk, k))
  {
    if k in w.parts {
      SealEarlierView(w, w.order, than, today, faults, k);
    } else {
      SealEarlierElsewhere(w, w.order, than, today, faults, k);
    }
  }

  lemma AlikeSealEarlier(v: Writer, w: Writer, than: Key, today: int, f: Faults, g: Faults, k: Key)
    requires Alike(v, w, k) && f(k) == g(k)
    ensures Alike(SealEarlier(v, v.order, than, today, f), SealEarlier(w, w.order, than, today, g), k)
  {
    SealView(v, than, today, f, k);
    SealView(w, than, today, g, k);
  }

  lemma AlikeNewPart(v: Writer, w: Writer, j: Key, k: Key)
    requires Alike(v, w, k) && j !in v.parts
    ensures Alike(v.(parts := v.parts[j := NEW_PART], order := v.order + [j]),
                  w.(parts := w.parts[j := NEW_PART], order := w.order + [j]), k)
  {
    assert forall i :: i in v.order + [j] <==> i in v.order || i == j;
  }

  lemma AlikeWithPart(v: Writer, w: Writer, j: Key, today: int, f: Faults, g: Faults, k: Key)
    requires Alike(v, w, k) && f(k) == g(k) && j !in v.parts
    ensures Alike(WithPart(v, j, today, f), WithPart(w, j, today, g), k)
  {
    if j.day.Some? {
      AlikeSealEarlier(v, w, j, today, f, g, k);
      AlikeNewPart(SealEarlier(v, v.order, j, today, f), SealEarlier(w, w.order, j, today, g), j, k);
    } else {
      AlikeNewPart(v, w, j, k);
    }
  }

  lemma AlikeAddBar(v: Writer, w: Writer, j: Key, row: Row, now: int, k: Key)
    requires Alike(v, w, k) && j in v.parts
    ensures Alike(AddBar(v, j, row, now), AddBar(w, j, row, now), k)
  {
  }

  /** A bar of another partition changes nothing for `k`. */
  lemma OtherBar(w: Writer, j: Key, row: Row, now: int, k: Key)
    requires TableOk(w) && j in w.parts && j != k
    ensures Alike(AddBar(w, j, row, now), w, k)
  {
  }

  lemma AlikeTwice(u: Writer, v: Writer, w: Writer, k: Key)
    requires Alike(u, v, k) && Alike(v, w, k)
    ensures Alike(u, w, k) && Alike(w, u, k)
  {
  }

  /** The same bar, for a partition both writers have. */
  function Offer(w: Writer, j: Key, row: Row, c: Clock): Writer
    requires j in w.parts
  {
    if Refuses(j, w.parts[j], c.today) then w else AddBar(w, j, row, c.now)
  }

  lemma OtherOffer(w: Writer, j: Key, row: Row, c: Clock, k: Key)
    requires TableOk(w) && j in w.parts && j != k
    ensures Alike(Offer(w, j, row, c), w, k)
  {
    OtherBar(w, j, row, c.now, k);
  }

  lemma AlikeOffer(v: Writer, w: Writer, j: Key, row: Row, c: Clock, k: Key)
    requires Alike(v, w, k) && j in v.parts
    ensures Alike(Offer(v, j, row, c), Offer(w, j, row, c), k)
  {
    if j == k {
      AlikeAddBar(v, w, j, row, c.now, k);
    } else {
      OtherOffer(v, j, row, c, k);
      OtherOffer(w, j, row, c, k);
      AlikeTwice(Offer(v, j, row, c), v, w, k);
      AlikeTwice(Offer(w, j, row, c), w, w, k);
      AlikeTwice(Offer(v, j, row, c), w, Offer(w, j, row, c), k);
    }
  }

  lemma AlikeNewBar(v: Writer, w: Writer, j: Key, row: Row, c: Clock, f: Faults, g: Faults, k: Key)
    requires Alike(v, w, k) && f(k) == g(k) && j !in v.parts
    ensures Alike(AddBar(WithPart(v, j, c.today, f), j, row, c.now), AddBar(WithPart(w, j, c.today, g), j, row, c.now), k)
  {
    AlikeWithPart(v, w, j, c.today, f, g, k);
    AlikeAddBar(WithPart(v, j, c.today, f), WithPart(w, j, c.today, g), j, row, c.now, k);
  }

  lemma WriteIs(s: Setup, w: Writer, bar: Bar, c: Clock, faults: Faults)
    requires TableOk(w)
    ensures var j := KeyOf(s.zone, bar);
            Exec(s, w, WriteOp(bar, c, faults)) ==
            if w.closed then w
            else if j in w.parts then Offer(w, j, bar.row, c)
            else AddBar(WithPart(w, j, c.today, faults), j, bar.row, c.now)
  {
  }

  lemma AlikeWrite(s: Setup, v: Writer, w: Writer, bar: Bar, c: Clock, f: Faults, g: Faults, k: Key)
    requires Alike(v, w, k) && f(k) == g(k)
    ensures Alike(Exec(s, v, WriteOp(bar, c, f)), Exec(s, w, WriteOp(bar, c, g)), k)
  {
    var j := KeyOf(s.zone, bar);
    WriteIs(s, v, bar, c, f);
    WriteIs(s, w, bar, c, g);
    if !v.closed {
      if j in v.parts {
        AlikeOffer(v, w, j, bar.row, c, k);
      } else {
        AlikeNewBar(v, w, j, bar.row, c, f, g, k);
      }
    }
  }

  /** The same call, with the same luck at `k`. */
  ghost predicate SameFor(a: Op, b: Op, k: Key) {
    b == a.(faults := b.faults) && a.faults(k) == b.faults(k)
  }

  lemma AlikeExec(s: Setup, v: Writer, w: Writer, a: Op, b: Op, k: Key)
    requires Alike(v, w, k) && SameFor(a, b, k)
    ensures Alike(Exec(s, v, a), Exec(s, w, b), k)
  {
    match a
    case WriteOp(bar, c, f) => AlikeWrite(s, v, w, bar, c, f, b.faults, k);
    case FlushOp(c, f) => AlikeFlush(v, w, c, s.limits, f, b.faults, k);
    case CloseOp(c, f) => AlikeClose(v, w, c, s.limits, f, b.faults, k);
    case RestartOp(c, f) => AlikeClose(v, w, c, s.limits, f, b.faults, k);
  }

  /** A failure is confined to its partition in every run: two runs of the same calls that
      differ in the other files they found, and in which of those fail and how, end with
      the same table, the same partition and the same file at `k`. */
  lemma {:induction false} RunsAreConfined(s: Setup, disk: Disk, other: Disk, a: seq<Op>, b: seq<Op>, k: Key)
    requires FileAt(disk, k) == FileAt(other, k)
    requires |a| == |b| && forall i :: 0 <= i < |a| ==> SameFor(a[i], b[i], k)
    ensures Alike(Run(s, Opened(disk), a), Run(s, Opened(other), b), k)
  {
    if a != [] {
      var n := |a| - 1;
      RunsAreConfined(s, disk, other, a[..n], b[..n], k);
      AlikeExec(s, Run(s, Opened(disk), a[..n]), Run(s, Opened(other), b[..n]), a[n], b[n], k);
    }
  }
}
