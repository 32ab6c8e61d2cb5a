/** Tick charts in storage: prints that share a minute are never merged. */
module WriterTicks {
  import opened Prelude
  import opened Bars
  import opened Store
  import opened BarWriter
  import opened WriterRuns
  import opened WriterOutcomes
  import opened WriterIsolation
  import opened WriterAccepted
  import opened WriterLifecycle

  /** A dated partition of a tick chart. */
  predicate TickKey(k: Key) {
    k.barType == 0 && k.day.Some?
  }

  /** The life of such a partition: it streams, into a file opened once, row by row. */
  predicate TickOk(p: Part, f: File, f0: File, closed: bool) {
    && (p.poisoned || p.sealed ==> p.buffer == [])
    && (p.sealed ==> p.writer.None?)
    && (p.opens == 0 ==> p.writer.None? && p.landed == [] && f == f0)
    && (p.opens > 0 && p.writer.Some? ==> p.writer.value == p.landed)
    && (p.opens > 0 && p.writer.None? ==> f == Complete(p.landed) && (p.sealed || closed) && p.buffer == [])
  }

  predicate TickLife(w: Writer, k: Key, f0: File) {
    if k in w.parts then TickOk(w.parts[k], FileAt(w.disk, k), f0, w.closed) else FileAt(w.disk, k) == f0
  }

  lemma FlushedTick(k: Key, p: Part, f: File, today: int, fault: Fault, f0: File, closed: bool)
    requires TickKey(k) && TickOk(p, f, f0, closed)
    ensures var (q, g, _) := FlushedPart(k, p, f, today, fault); TickOk(q, g, f0, closed) && q.buffer == []
  {
    assert [] + p.buffer == p.buffer;
  }

  lemma SealedTick(k: Key, p: Part, f: File, today: int, fault: Fault, f0: File, closed: bool)
    requires TickKey(k) && TickOk(p, f, f0, closed)
    ensures var (q, g) := SealedPart(k, p, f, today, fault); TickOk(q, g, f0, closed)
  {
    FlushedTick(k, p, f, today, fault, f0, closed);
  }

  lemma FlushTick(w: Writer, c: Clock, limits: Limits, faults: Faults, k: Key, f0: File)
    requires TickKey(k) && TableOk(w) && TickLife(w, k, f0)
    ensures TickLife(Flushed(w, c, limits, faults), k, f0)
    ensures k in w.parts ==> Flushed(w, c, limits, faults).parts[k].buffer == []
  {
    FlushView(w, c, limits, faults, k);
    if k in w.parts {
      var p, f := w.parts[k], FileAt(w.disk, k);
      SealedTick(k, p, f, c.today, faults(k), f0, w.closed);
      var (p1, f1) := if Finished(k, p, c, limits) then SealedPart(k, p, f, c.today, faults(k)) else (p, f);
      FlushedTick(k, p1, f1, c.today, faults(k), f0, w.closed);
    }
  }

  lemma CloseKeysTick(v: Writer, k: Key, f0: File)
    requires TickKey(k) && TableOk(v) && v.closed && TickLife(v, k, f0)
    requires k in v.parts ==> v.parts[k].buffer == []
    ensures TickLife(CloseKeys(v, v.order), k, f0)
  {
    CloseView(v, k);
  }

  lemma CloseTick(w: Writer, c: Clock, limits: Limits, faults: Faults, k: Key, f0: File)
    requires TickKey(k) && TableOk(w) && TickLife(w, k, f0)
    ensures TickLife(ClosedAll(w, c, limits, faults), k, f0)
  {
    if !w.closed {
      var v := w.(closed := true);
      FlushTick(v, c, limits, faults, k, f0);
      FlushKeepsTable(v, c, limits, faults);
      CloseKeysTick(Flushed(v, c, limits, faults), k, f0);
    }
  }

  lemma NewPartTick(w: Writer, j: Key, today: int, faults: Faults, k: Key, f0: File)
    requires TickKey(k) && TableOk(w) && j !in w.parts && TickLife(w, k, f0)
    ensures TickLife(WithPart(w, j, today, faults), k, f0)
  {
    if j.day.Some? {
      SealView(w, j, today, faults, k);
      if k in w.parts {
        SealedTick(k, w.parts[k], FileAt(w.disk, k), today, faults(k), f0, w.closed);
      }
    }
  }

  lemma AddBarTick(w: Writer, j: Key, row: Row, now: int, k: Key, f0: File)
    requires TickKey(k) && TickLife(w, k, f0) && !w.closed && j in w.parts
    requires !w.parts[j].poisoned && (j == k ==> !w.parts[j].sealed)
    ensures TickLife(AddBar(w, j, row, now), k, f0)
  {
  }

  lemma WriteTick(s: Setup, w: Writer, bar: Bar, c: Clock, faults: Faults, k: Key, f0: File)
    requires TickKey(k) && TableOk(w) && TickLife(w, k, f0)
    ensures TickLife(Exec(s, w, WriteOp(bar, c, faults)), k, f0)
  {
    var j := KeyOf(s.zone, bar);
    WriteIs(s, w, bar, c, faults);
    if !w.closed {
      if j !in w.parts {
        NewPartTick(w, j, c.today, faults, k, f0);
        AddBarTick(WithPart(w, j, c.today, faults), j, bar.row, c.now, k, f0);
      } else if !Refuses(j, w.parts[j], c.today) {
        AddBarTick(w, j, bar.row, c.now, k, f0);
      }
    }
  }

  lemma {:induction false} RunTick(s: Setup, disk: Disk, ops: seq<Op>, k: Key)
    requires TickKey(k)
    ensures TickLife(Run(s, Opened(disk), ops), k, FileAt(FoundDisk(s, disk, ops), k))
  {
    if ops != [] {
      var rest, op := ops[..|ops| - 1], ops[|ops| - 1];
      var w, f0 := Run(s, Opened(disk), rest), FileAt(FoundDisk(s, disk, rest), k);
      RunTick(s, disk, rest, k);
      match op
      case WriteOp(bar, c, faults) => WriteTick(s, w, bar, c, faults, k, f0);
      case FlushOp(c, faults) => FlushTick(w, c, s.limits, faults, k, f0);
      case CloseOp(c, faults) => CloseTick(w, c, s.limits, faults, k, f0);
      case RestartOp(c, faults) =>
    }
  }

  /** Every tick stands for itself, whatever the day and whatever fails: once its file has
      been opened, a tick partition holds exactly the rows written to it, in order,
      repeated bar_times included. Once the writer is closed its file, unless it was given
      up on, is exactly the accepted rows in order. */
  lemma TicksAreNeverMerged(s: Setup, disk: Disk, ops: seq<Op>, k: Key)
    requires k.barType == 0 && k.day.Some?
    ensures var w := Run(s, Opened(disk), ops);
            k in w.parts && w.parts[k].opens > 0 ==>
              Stored(w.parts[k], FileAt(w.disk, k)) == w.parts[k].landed
    ensures var w, accepted := Run(s, Opened(disk), ops), Accepted(s, disk, ops, k);
            k in w.parts && w.closed && !w.parts[k].poisoned ==>
              if w.parts[k].opens > 0 then FileAt(w.disk, k) == Complete(accepted)
              else accepted == [] && FileAt(w.disk, k) == FileAt(FoundDisk(s, disk, ops), k)
  {
    RunTick(s, disk, ops, k);
    AcceptedIsHeld(s, disk, ops, k);
    ClosedIsShut(s, disk, ops, k);
    var w := Run(s, Opened(disk), ops);
    if k in w.parts {
      assert w.parts[k].landed + [] == w.parts[k].landed;
    }
  }
}
