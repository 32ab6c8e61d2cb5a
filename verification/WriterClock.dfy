/** When the writer says it should be flushed, from the calls that were made. */
module WriterClock {
  import opened Prelude
  import opened Bars
  import opened Store
  import opened BarWriter
  import opened WriterRuns
  import opened WriterOutcomes
  import opened WriterIsolation
  import opened WriterAccepted

  predicate IsAccepted(s: Setup, disk: Disk, ops: seq<Op>)
    requires ops != []
  {
    var rest, op := ops[..|ops| - 1], ops[|ops| - 1];
    op.WriteOp? && Accepts(Run(s, Opened(disk), rest), s.zone, op.bar, op.c.today)
  }

  // ----- The last bar of a partition ----------------------------------------

  /** When a bar was last accepted for this partition, since the last restart. */
  function LastAccepted(s: Setup, disk: Disk, ops: seq<Op>, k: Key): Option<int> {
    if ops == [] || ops[|ops| - 1].RestartOp? then None
    else if IsAccepted(s, disk, ops) && KeyOf(s.zone, ops[|ops| - 1].bar) == k then Some(ops[|ops| - 1].c.now)
    else LastAccepted(s, disk, ops[..|ops| - 1], k)
  }

  predicate Stamped(w: Writer, k: Key, at: Option<int>) {
    if k in w.parts then w.parts[k].lastWrite == at else at == None
  }

  lemma FlushStamp(w: Writer, c: Clock, limits: Limits, faults: Faults, k: Key, at: Option<int>)
    requires TableOk(w) && Stamped(w, k, at)
    ensures Stamped(Flushed(w, c, limits, faults), k, at)
  {
    FlushView(w, c, limits, faults, k);
    if k in w.parts {
      var p, f := w.parts[k], FileAt(w.disk, k);
      FlushKeepsSeal(k, p, f, c.today, faults(k));
      var (p1, f1) := if Finished(k, p, c, limits) then SealedPart(k, p, f, c.today, faults(k)) else (p, f);
      FlushKeepsSeal(k, p1, f1, c.today, faults(k));
    }
  }

  lemma CloseStamp(w: Writer, c: Clock, limits: Limits, faults: Faults, k: Key, at: Option<int>)
    requires TableOk(w) && Stamped(w, k, at)
    ensures Stamped(ClosedAll(w, c, limits, faults), k, at)
  {
    if !w.closed {
      var v := w.(closed := true);
      FlushStamp(v, c, limits, faults, k, at);
      FlushKeepsTable(v, c, limits, faults);
      CloseKeysStamp(Flushed(v, c, limits, faults), k, at);
    }
  }

  lemma CloseKeysStamp(v: Writer, k: Key, at: Option<int>)
    requires TableOk(v) && Stamped(v, k, at)
    ensures Stamped(CloseKeys(v, v.order), k, at)
  {
    CloseView(v, k);
  }

  lemma NewPartStamp(w: Writer, j: Key, today: int, faults: Faults, k: Key, at: Option<int>)
    requires TableOk(w) && j !in w.parts && Stamped(w, k, at)
    ensures Stamped(WithPart(w, j, today, faults), k, at)
  {
    if j.day.Some? {
      SealView(w, j, today, faults, k);
      if k in w.parts {
        FlushKeepsSeal(k, w.parts[k], FileAt(w.disk, k), today, faults(k));
      }
    }
  }

  lemma AddBarStamp(w: Writer, j: Key, row: Row, now: int, k: Key, at: Option<int>)
    requires j in w.parts && Stamped(w, k, at)
    ensures Stamped(AddBar(w, j, row, now), k, if j == k then Some(now) else at)
  {
  }

  lemma WriteStamp(s: Setup, w: Writer, bar: Bar, c: Clock, faults: Faults, k: Key, at: Option<int>)
    requires TableOk(w) && Stamped(w, k, at)
    ensures Stamped(Exec(s, w, WriteOp(bar, c, faults)), k,
                    if Accepts(w, s.zone, bar, c.today) && KeyOf(s.zone, bar) == k then Some(c.now) else at)
  {
    var j := KeyOf(s.zone, bar);
    WriteIs(s, w, bar, c, faults);
    if Accepts(w, s.zone, bar, c.today) {
      if j in w.parts {
        AddBarStamp(w, j, bar.row, c.now, k, at);
      } else {
        NewPartStamp(w, j, c.today, faults, k, at);
        AddBarStamp(WithPart(w, j, c.today, faults), j, bar.row, c.now, k, at);
      }
    }
  }

  lemma {:induction false} LastWriteIsLastAccepted(s: Setup, disk: Disk, ops: seq<Op>, k: Key)
    ensures Stamped(Run(s, Opened(disk), ops), k, LastAccepted(s, disk, ops, k))
  {
    if ops != [] {
      var rest, op := ops[..|ops| - 1], ops[|ops| - 1];
      var w, at := Run(s, Opened(disk), rest), LastAccepted(s, disk, rest, k);
      LastWriteIsLastAccepted(s, disk, rest, k);
      match op
      case WriteOp(bar, c, faults) => WriteStamp(s, w, bar, c, faults, k, at);
      case FlushOp(c, faults) => FlushStamp(w, c, s.limits, faults, k, at);
      case CloseOp(c, faults) => CloseStamp(w, c, s.limits, faults, k, at);
      case RestartOp(c, faults) =>
    }
  }

  // ----- The oldest buffered bar --------------------------------------------

  /** How many bars are buffered, over all partitions. */
  function Total(w: Writer): nat {
    Buffered(w.parts, w.order)
  }

  /** When the first of the bars was accepted that have been buffered ever since the
      buffers were last all empty. */
  function FirstBuffered(s: Setup, disk: Disk, ops: seq<Op>): Option<int> {
    if ops == [] || Total(Run(s, Opened(disk), ops)) == 0 then None
    else if IsAccepted(s, disk, ops) && Total(Run(s, Opened(disk), ops)) == 1 then Some(ops[|ops| - 1].c.now)
    else FirstBuffered(s, disk, ops[..|ops| - 1])
  }

  /** Writing out never makes the oldest stamp later; it can only clear it. */
  predicate NoNewer(v: Writer, w: Writer) {
    v.oldest == w.oldest || v.oldest == None
  }

  lemma {:induction false} FlushKeysNoNewer(w: Writer, ks: seq<Key>, today: int, faults: Faults)
    requires Listed(w, ks)
    ensures NoNewer(FlushKeys(w, ks, today, faults), w)
  {
    if ks != [] {
      assert forall k :: k in ks[..|ks| - 1] ==> k in ks;
      FlushKeysNoNewer(w, ks[..|ks| - 1], today, faults);
    }
  }

  lemma {:induction false} SealElapsedNoNewer(w: Writer, ks: seq<Key>, c: Clock, limits: Limits, faults: Faults)
    requires Listed(w, ks)
    ensures NoNewer(SealElapsed(w, ks, c, limits, faults), w)
  {
    if ks != [] {
      assert forall k :: k in ks[..|ks| - 1] ==> k in ks;
      SealElapsedNoNewer(w, ks[..|ks| - 1], c, limits, faults);
    }
  }

  lemma {:induction false} SealEarlierNoNewer(w: Writer, ks: seq<Key>, than: Key, today: int, faults: Faults)
    requires Listed(w, ks)
    ensures NoNewer(SealEarlier(w, ks, than, today, faults), w)
  {
    if ks != [] {
      assert forall k :: k in ks[..|ks| - 1] ==> k in ks;
      SealEarlierNoNewer(w, ks[..|ks| - 1], than, today, faults);
    }
  }

  lemma ClosedNoNewer(w: Writer, c: Clock, limits: Limits, faults: Faults)
    requires TableOk(w)
    ensures NoNewer(ClosedAll(w, c, limits, faults), w)
  {
    if !w.closed {
      var v := w.(closed := true);
      SealElapsedNoNewer(v, v.order, c, limits, faults);
      FlushKeysNoNewer(SealElapsed(v, v.order, c, limits, faults), v.order, c.today, faults);
      FlushKeepsTable(v, c, limits, faults);
    }
  }

  lemma AddedStamp(v: Writer, j: Key, row: Row, now: int)
    requires BooksOk(v) && j in v.parts && !v.parts[j].poisoned
    ensures var r := AddBar(v, j, row, now);
            Total(r) == Total(v) + 1 && r.oldest == if Total(v) == 0 then Some(now) else v.oldest
    ensures Total(v) > 0 ==> v.oldest.Some?
  {
    AddBarBooks(v, j, row, now);
  }

  lemma NewPartNoNewer(w: Writer, j: Key, today: int, faults: Faults)
    requires TableOk(w) && j !in w.parts
    ensures var v := WithPart(w, j, today, faults); NoNewer(v, w) && j in v.parts && !v.parts[j].poisoned
  {
    if j.day.Some? {
      SealEarlierNoNewer(w, w.order, j, today, faults);
    }
  }

  /** An accepted bar: the stamp is its own if it is the only one buffered. */
  lemma AcceptedStamp(s: Setup, w: Writer, bar: Bar, c: Clock, faults: Faults)
    requires BooksOk(w) && Accepts(w, s.zone, bar, c.today)
    ensures var r := Exec(s, w, WriteOp(bar, c, faults));
            Total(r) >= 1 && r.oldest == if Total(r) == 1 then Some(c.now) else w.oldest
  {
    var j := KeyOf(s.zone, bar);
    WriteIs(s, w, bar, c, faults);
    if j in w.parts {
      AddedStamp(w, j, bar.row, c.now);
    } else {
      WithPartBooks(w, j, c.today, faults);
      NewPartNoNewer(w, j, c.today, faults);
      AddedStamp(WithPart(w, j, c.today, faults), j, bar.row, c.now);
    }
  }

  /** Any other call: the stamp is cleared exactly if nothing is buffered any more. */
  lemma OtherStamp(s: Setup, w: Writer, op: Op)
    requires BooksOk(w) && !op.RestartOp?
    requires op.WriteOp? ==> !Accepts(w, s.zone, op.bar, op.c.today)
    ensures var r := Exec(s, w, op); r.oldest == if Total(r) == 0 then None else w.oldest
  {
    ExecBooks(s, w, op);
    match op
    case WriteOp(bar, c, faults) => WriteIs(s, w, bar, c, faults);
    case FlushOp(c, faults) =>
      SealElapsedNoNewer(w, w.order, c, s.limits, faults);
      FlushKeysNoNewer(SealElapsed(w, w.order, c, s.limits, faults), w.order, c.today, faults);
    case CloseOp(c, faults) => ClosedNoNewer(w, c, s.limits, faults);
  }

  lemma {:induction false} OldestIsFirstBuffered(s: Setup, disk: Disk, ops: seq<Op>)
    ensures Run(s, Opened(disk), ops).oldest == FirstBuffered(s, disk, ops)
  {
    if ops != [] {
      var rest, op := ops[..|ops| - 1], ops[|ops| - 1];
      var w := Run(s, Opened(disk), rest);
      OldestIsFirstBuffered(s, disk, rest);
      BooksBalance(s, disk, rest);
      if op.RestartOp? {
        RestartBooks(s, w, op.c, op.faults);
      } else if IsAccepted(s, disk, ops) {
        AcceptedStamp(s, w, op.bar, op.c, op.faults);
      } else {
        OtherStamp(s, w, op);
      }
    }
  }

  // ----- The question -------------------------------------------------------

  /** This partition's day is over, it is not sealed, and it has been quiet for long. */
  ghost predicate Quiet(s: Setup, disk: Disk, ops: seq<Op>, k: Key, c: Clock) {
    var w, last := Run(s, Opened(disk), ops), LastAccepted(s, disk, ops, k);
    && k in w.parts && !w.parts[k].sealed && k.day.Some? && k.day.value < c.today
    && last.Some? && c.now - last.value >= s.limits.maxSeconds
  }

  /** In every run a flush is called for exactly when some past day has been quiet for a
      flush interval and is not sealed, or something is buffered and either there is as
      much of it as the limit or the first of it has waited for a flush interval. */
  lemma ShouldFlushExactly(s: Setup, disk: Disk, ops: seq<Op>, c: Clock)
    ensures var w := Run(s, Opened(disk), ops);
            var first := FirstBuffered(s, disk, ops);
            && (Total(w) > 0 ==> first.Some?)
            && (ShouldFlush(w, c, s.limits) <==>
                || (exists k :: Quiet(s, disk, ops, k, c))
                || (Total(w) > 0 && (Total(w) >= s.limits.maxBars || c.now - first.value >= s.limits.maxSeconds)))
  {
    var w := Run(s, Opened(disk), ops);
    BooksBalance(s, disk, ops);
    OldestIsFirstBuffered(s, disk, ops);
    forall k ensures k in w.parts && Finished(k, w.parts[k], c, s.limits) <==> Quiet(s, disk, ops, k, c) {
      LastWriteIsLastAccepted(s, disk, ops, k);
    }
  }
}
