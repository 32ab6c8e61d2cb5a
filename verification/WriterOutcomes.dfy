/** When a day's file is finished, and what a failed write costs. */
module WriterOutcomes {
  import opened Prelude
  import opened Bars
  import opened Store
  import opened BarWriter
  import opened WriterRuns

  /** The ET day of this partition has passed and it has been quiet for a whole flush
      interval. */
  predicate Elapsed(k: Key, p: Part, c: Clock, limits: Limits) {
    && k.day.Some? && k.day.value < c.today
    && p.lastWrite.Some? && c.now - p.lastWrite.value >= limits.maxSeconds
  }

  lemma SealedPartFacts(k: Key, p: Part, f: File, today: int, fault: Fault)
    ensures var (q, g) := SealedPart(k, p, f, today, fault);
            q.sealed && q.writer.None? && (p.writer.Some? ==> g.Complete?)
            && (q.buffer == [] || q.poisoned)
  {
  }

  lemma SettledStays(k: Key, p: Part, f: File, today: int, fault: Fault)
    requires p.buffer == [] || p.poisoned
    ensures FlushedPart(k, p, f, today, fault) == (p, f, 0)
  {
  }

  /** A flush seals exactly the days that are over and quiet, never today's; and a file
      it was streaming to then has its footer, even if its last write failed. */
  lemma FlushSealsElapsedDays(w: Writer, c: Clock, limits: Limits, faults: Faults, k: Key)
    requires TableOk(w) && k in w.parts
    ensures var r, p := Flushed(w, c, limits, faults), w.parts[k];
            && k in r.parts
            && (r.parts[k].sealed <==> p.sealed || Elapsed(k, p, c, limits))
            && (!p.sealed && Elapsed(k, p, c, limits) ==> r.parts[k].writer.None?)
            && (!p.sealed && Elapsed(k, p, c, limits) && p.writer.Some? ==> FileAt(r.disk, k).Complete?)
  {
    var v, p := SealElapsed(w, w.order, c, limits, faults), w.parts[k];
    SealElapsedView(w, w.order, c, limits, faults, k);
    FlushKeysView(v, w.order, c.today, faults, k);
    if Finished(k, p, c, limits) {
      SealedPartFacts(k, p, FileAt(w.disk, k), c.today, faults(k));
      SettledStays(k, v.parts[k], FileAt(v.disk, k), c.today, faults(k));
    } else {
      FlushKeepsSeal(k, v.parts[k], FileAt(v.disk, k), c.today, faults(k));
    }
  }

  lemma {:induction false} SealEarlierView(
    w: Writer, ks: seq<Key>, than: Key, today: int, faults: Faults, k: Key)
    requires Listed(w, ks) && k in w.parts && forall i, j :: 0 <= i < j < |ks| ==> ks[i] != ks[j]
    ensures var r := SealEarlier(w, ks, than, today, faults);
            if k in ks && EarlierDay(k, w.parts[k], than)
            then (r.parts[k], FileAt(r.disk, k)) == SealedPart(k, w.parts[k], FileAt(w.disk, k), today, faults(k))
            else SameView(r, w, k)
  {
    if ks != [] {
      var q, j := ks[..|ks| - 1], ks[|ks| - 1];
      assert ks == q + [j];
      SealEarlierView(w, q, than, today, faults, k);
      SealKeyView(SealEarlier(w, q, than, today, faults), j, today, faults(j), k);
    }
  }

  predicate SameChart(j: Key, k: Key) {
    j.barType == k.barType && j.barInterval == k.barInterval && j.symbol == k.symbol
  }

  /** The first bar of a new partition finishes exactly the earlier days of its own
      chart, and leaves every other partition and file as they were. */
  lemma NewDaySealsEarlierDays(w: Writer, zone: Zone, bar: Bar, c: Clock, faults: Faults, k: Key)
    requires TableOk(w) && !w.closed && KeyOf(zone, bar) !in w.parts && k in w.parts
    ensures var j, r := KeyOf(zone, bar), Wrote(w, zone, bar, c, faults).value;
            var earlier := SameChart(j, k) && j.day.Some? && k.day.Some? && k.day.value < j.day.value;
            && k in r.parts
            && (r.parts[k].sealed <==> w.parts[k].sealed || earlier)
            && (!earlier || w.parts[k].sealed ==> SameView(r, w, k))
            && (earlier && !w.parts[k].sealed ==> r.parts[k].writer.None?)
  {
    var j := KeyOf(zone, bar);
    if j.day.Some? {
      SealEarlierView(w, w.order, j, c.today, faults, k);
      SealedPartFacts(k, w.parts[k], FileAt(w.disk, k), c.today, faults(k));
    }
  }

  /** An attempt to write fails exactly when an operation it makes does: making the
      directory, reading back a file that is there or finding another schema in it,
      opening a streaming writer, or writing. It then poisons, writes nothing, and leaves
      a file that was to be rewritten holding what it held; otherwise it writes all. */
  lemma FailureExactly(k: Key, p: Part, f: File, today: int, fault: Fault)
    requires p.buffer != [] && !p.poisoned
    ensures var (q, g, n) := FlushedPart(k, p, f, today, fault);
            var rewriting := k.day.None? || (k.barType != 0 && k.day.value < today);
            var held := if p.writer.Some? then Complete(p.writer.value) else f;
            var failed :=
              || fault == MkdirFault || fault == WriteFault
              || (rewriting && ((fault == ReadFault && held != Absent) || held == Foreign))
              || (!rewriting && fault == OpenFault && p.writer.None?);
            && (q.poisoned <==> failed) && q.buffer == []
            && (failed ==> n == 0 && q.landed == p.landed)
            && (!failed ==> n == |p.buffer| && q.landed == p.landed + p.buffer)
            && (fault == MkdirFault ==> g == f && q.writer == p.writer)
            && (failed && rewriting && fault != MkdirFault ==> g == held)
            && (failed && !rewriting && p.writer.None? && fault == OpenFault ==> g == f)
  {
  }

  /** A partition that was given up on, with nothing left open. */
  ghost predicate GivenUp(w: Writer, k: Key) {
    k in w.parts && w.parts[k].poisoned && w.parts[k].buffer == [] && w.parts[k].writer.None?
  }

  lemma {:induction false} CloseKeysView(w: Writer, ks: seq<Key>, k: Key)
    requires Listed(w, ks) && k in w.parts && w.parts[k].writer.None?
    ensures SameView(CloseKeys(w, ks), w, k)
  {
    if ks != [] {
      var q, j := ks[..|ks| - 1], ks[|ks| - 1];
      assert ks == q + [j];
      CloseKeysView(w, q, k);
    }
  }

  lemma FlushedGivenUp(w: Writer, c: Clock, limits: Limits, faults: Faults, k: Key)
    requires TableOk(w) && GivenUp(w, k)
    ensures GivenUp(Flushed(w, c, limits, faults), k)
    ensures FileAt(Flushed(w, c, limits, faults).disk, k) == FileAt(w.disk, k)
  {
    var v := SealElapsed(w, w.order, c, limits, faults);
    SealElapsedView(w, w.order, c, limits, faults, k);
    FlushKeysView(v, w.order, c.today, faults, k);
    SettledStays(k, w.parts[k], FileAt(w.disk, k), c.today, faults(k));
    SettledStays(k, v.parts[k], FileAt(v.disk, k), c.today, faults(k));
  }

  lemma ClosedGivenUp(w: Writer, c: Clock, limits: Limits, faults: Faults, k: Key)
    requires TableOk(w) && GivenUp(w, k)
    ensures GivenUp(ClosedAll(w, c, limits, faults), k)
    ensures FileAt(ClosedAll(w, c, limits, faults).disk, k) == FileAt(w.disk, k)
  {
    if !w.closed {
      var v := w.(closed := true);
      FlushedGivenUp(v, c, limits, faults, k);
      FlushKeepsTable(v, c, limits, faults);
      CloseKeysView(Flushed(v, c, limits, faults), w.order, k);
    }
  }

  lemma WriteGivenUp(s: Setup, w: Writer, bar: Bar, c: Clock, faults: Faults, k: Key)
    requires TableOk(w) && GivenUp(w, k)
    ensures var r := Exec(s, w, WriteOp(bar, c, faults));
            GivenUp(r, k) && FileAt(r.disk, k) == FileAt(w.disk, k)
  {
    var j := KeyOf(s.zone, bar);
    if !w.closed && j !in w.parts {
      SealEarlierView(w, w.order, j, c.today, faults, k);
      SettledStays(k, w.parts[k], FileAt(w.disk, k), c.today, faults(k));
    }
  }

  lemma ExecGivenUp(s: Setup, w: Writer, op: Op, k: Key)
    requires TableOk(w) && GivenUp(w, k) && !op.RestartOp?
    ensures GivenUp(Exec(s, w, op), k)
    ensures FileAt(Exec(s, w, op).disk, k) == FileAt(w.disk, k)
  {
    match op
    case WriteOp(bar, c, faults) => WriteGivenUp(s, w, bar, c, faults, k);
    case FlushOp(c, faults) => FlushedGivenUp(w, c, s.limits, faults, k);
    case CloseOp(c, faults) => ClosedGivenUp(w, c, s.limits, faults, k);
  }

  /** Given up is for good: until a restart, whatever is written, flushed or closed, the
      partition buffers nothing more and its file is not touched again. */
  lemma {:induction false} GivenUpForGood(s: Setup, w: Writer, ops: seq<Op>, k: Key)
    requires TableOk(w) && GivenUp(w, k) && forall op :: op in ops ==> !op.RestartOp?
    ensures GivenUp(Run(s, w, ops), k)
    ensures FileAt(Run(s, w, ops).disk, k) == FileAt(w.disk, k)
  {
    if ops != [] {
      var q, op := ops[..|ops| - 1], ops[|ops| - 1];
      assert ops == q + [op];
      GivenUpForGood(s, w, q, k);
      ExecGivenUp(s, Run(s, w, q), op, k);
    }
  }
}
