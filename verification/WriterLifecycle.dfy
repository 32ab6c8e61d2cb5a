/** The life of a partition within one run of the writer. */
module WriterLifecycle {
  import opened Prelude
  import opened Bars
  import opened Store
  import opened Merge
  import opened BarWriter
  import opened WriterRuns
  import opened WriterOutcomes
  import opened WriterAccepted

  /** The rows a partition holds: in its open writer, or in its closed file. */
  function Stored(p: Part, f: File): seq<Row> {
    if p.writer.Some? then p.writer.value else RowsOf(f)
  }

  /** What a partition's file stood for before this run wrote to it: the rows found there,
      or nothing once it has been opened for streaming, which truncates. */
  function Base(p: Part, f0: File): map<int, Row> {
    if p.opens == 0 then Upserts(map[], RowsOf(f0)) else map[]
  }

  /** The partition holds exactly what has landed, as upserts over its base. */
  predicate Built(p: Part, f: File, f0: File) {
    Upserts(map[], Stored(p, f)) == Upserts(Base(p, f0), p.landed)
  }

  predicate PartOk(k: Key, p: Part, f: File, today: int, closed: bool) {
    && (p.poisoned ==> p.buffer == [])
    && (p.sealed ==> p.writer.None?)
    && (p.writer.Some? ==> f == Footerless && p.opens == 1)
    && p.opens <= 1
    && (p.sealed && !Rewrites(k, today) ==> p.buffer == [])
    && (p.writer.None? && !p.poisoned && !Rewrites(k, today) ==>
          if p.opens == 0 then p.landed == [] else (p.sealed || closed) && p.buffer == [])
  }

  /** Rows added behind what a file stands for, merged into it or not. */
  lemma MoreBuilt(rows: seq<Row>, base: map<int, Row>, landed: seq<Row>, more: seq<Row>)
    requires Upserts(map[], rows) == Upserts(base, landed)
    ensures Upserts(map[], rows + more) == Upserts(base, landed + more)
    ensures Upserts(map[], Merged(rows + more)) == Upserts(base, landed + more)
  {
    UpsertsConcat(map[], rows, more);
    UpsertsConcat(base, landed, more);
    MergedIsUpsert(rows + more);
  }

  lemma RewritingBuilt(p: Part, f: File, fault: Fault, f0: File)
    requires Built(p, f, f0)
    ensures var (q, g, _) := RewrittenPart(p, f, fault); Built(q, g, f0)
  {
    var f1 := if p.writer.Some? then Complete(p.writer.value) else f;
    assert RowsOf(f1) == Stored(p, f);
    MoreBuilt(RowsOf(f1), Base(p, f0), p.landed, p.buffer);
  }

  lemma StreamingBuilt(p: Part, f: File, fault: Fault, f0: File)
    requires Built(p, f, f0)
    requires if p.writer.None? then p.opens == 0 && p.landed == [] else p.opens == 1
    ensures var (q, g, _) := StreamedPart(p, f, fault); Built(q, g, f0)
  {
    if p.writer.Some? {
      MoreBuilt(p.writer.value, map[], p.landed, p.buffer);
    } else {
      MoreBuilt([], map[], [], p.buffer);
    }
  }

  lemma FlushedPartBuilt(k: Key, p: Part, f: File, today: int, fault: Fault, closed: bool, f0: File)
    requires PartOk(k, p, f, today, closed) && Built(p, f, f0)
    ensures var (q, g, _) := FlushedPart(k, p, f, today, fault); Built(q, g, f0)
  {
    if p.buffer != [] && !p.poisoned && fault != MkdirFault {
      if Rewrites(k, today) {
        RewritingBuilt(p, f, fault, f0);
      } else {
        StreamingBuilt(p, f, fault, f0);
      }
    }
  }

  lemma FlushedPartOk(k: Key, p: Part, f: File, before: int, today: int, fault: Fault, closed: bool)
    requires PartOk(k, p, f, before, closed) && before <= today
    ensures var (q, g, _) := FlushedPart(k, p, f, today, fault);
            PartOk(k, q, g, today, closed) && q.buffer == []
  {
  }

  /** A closed writer's rows are exactly the file it leaves. */
  lemma ClosedPartOk(k: Key, p: Part, f: File, today: int, closed: bool)
    requires PartOk(k, p, f, today, closed) && p.buffer == []
    ensures var (q, g) := ClosedPart(p, f);
            && Stored(q, g) == Stored(p, f) && q.writer.None?
            && PartOk(k, q.(sealed := true), g, today, closed)
            && (closed ==> PartOk(k, q, g, today, closed))
  {
  }

  predicate PartLife(k: Key, p: Part, f: File, today: int, closed: bool, f0: File) {
    PartOk(k, p, f, today, closed) && Built(p, f, f0)
  }

  /** `d0` is the disk this run of the writer found. */
  ghost predicate LifeOk(w: Writer, today: int, d0: Disk) {
    && (forall k :: k in w.parts ==>
          PartLife(k, w.parts[k], FileAt(w.disk, k), today, w.closed, FileAt(d0, k)))
    && (forall k :: k !in w.parts ==> FileAt(w.disk, k) == FileAt(d0, k))
  }

  /** The clock only ever makes more partitions rewrite. */
  lemma LaterIsFine(w: Writer, before: int, today: int, d0: Disk)
    requires LifeOk(w, before, d0) && before <= today
    ensures LifeOk(w, today, d0)
  {
    forall k | k in w.parts ensures PartLife(k, w.parts[k], FileAt(w.disk, k), today, w.closed, FileAt(d0, k)) {
      assert PartLife(k, w.parts[k], FileAt(w.disk, k), before, w.closed, FileAt(d0, k));
      assert Rewrites(k, before) ==> Rewrites(k, today);
    }
  }

  lemma FlushKeyLife(w: Writer, k: Key, today: int, fault: Fault, d0: Disk)
    requires LifeOk(w, today, d0) && k in w.parts
    ensures LifeOk(FlushKey(w, k, today, fault), today, d0)
  {
    FlushedPartOk(k, w.parts[k], FileAt(w.disk, k), today, today, fault, w.closed);
    FlushedPartBuilt(k, w.parts[k], FileAt(w.disk, k), today, fault, w.closed, FileAt(d0, k));
  }

  ghost predicate Emptied(w: Writer) {
    forall k :: k in w.parts ==> w.parts[k].buffer == []
  }

  lemma CloseKeyLife(w: Writer, k: Key, today: int, d0: Disk)
    requires LifeOk(w, today, d0) && k in w.parts && w.parts[k].buffer == [] && w.closed
    ensures LifeOk(CloseKey(w, k), today, d0)
  {
    ClosedPartOk(k, w.parts[k], FileAt(w.disk, k), today, true);
  }

  lemma FlushKeyEmpties(w: Writer, k: Key, today: int, fault: Fault, d0: Disk)
    requires LifeOk(w, today, d0) && k in w.parts
    ensures FlushKey(w, k, today, fault).parts[k].buffer == []
  {
    assert PartLife(k, w.parts[k], FileAt(w.disk, k), today, w.closed, FileAt(d0, k));
  }

  lemma SealFlushed(v: Writer, k: Key, today: int, d0: Disk)
    requires LifeOk(v, today, d0) && k in v.parts && v.parts[k].buffer == []
    ensures var c := CloseKey(v, k); LifeOk(c.(parts := c.parts[k := c.parts[k].(sealed := true)]), today, d0)
  {
    ClosedPartOk(k, v.parts[k], FileAt(v.disk, k), today, v.closed);
  }

  lemma SealKeyLife(w: Writer, k: Key, today: int, fault: Fault, d0: Disk)
    requires LifeOk(w, today, d0) && k in w.parts
    ensures LifeOk(SealKey(w, k, today, fault), today, d0)
  {
    FlushKeyLife(w, k, today, fault, d0);
    FlushKeyEmpties(w, k, today, fault, d0);
    SealFlushed(FlushKey(w, k, today, fault), k, today, d0);
  }

  lemma FlushKeysLast(w: Writer, q: seq<Key>, j: Key, ks: seq<Key>, today: int, faults: Faults, d0: Disk)
    requires Listed(w, ks) && ks != [] && q == ks[..|ks| - 1] && j == ks[|ks| - 1] && Listed(w, q)
    requires LifeOk(FlushKeys(w, q, today, faults), today, d0)
    ensures LifeOk(FlushKeys(w, ks, today, faults), today, d0)
  {
    FlushKeyLife(FlushKeys(w, q, today, faults), j, today, faults(j), d0);
  }

  lemma {:induction false} FlushKeysLife(w: Writer, ks: seq<Key>, today: int, faults: Faults, d0: Disk)
    requires LifeOk(w, today, d0) && Listed(w, ks)
    ensures LifeOk(FlushKeys(w, ks, today, faults), today, d0)
  {
    if ks != [] {
      var q, j := ks[..|ks| - 1], ks[|ks| - 1];
      assert forall k :: k in q ==> k in ks;
      FlushKeysLife(w, q, today, faults, d0);
      FlushKeysLast(w, q, j, ks, today, faults, d0);
    }
  }

  lemma {:induction false} CloseKeysEmptied(w: Writer, ks: seq<Key>)
    requires Emptied(w) && Listed(w, ks)
    ensures Emptied(CloseKeys(w, ks))
  {
    if ks != [] {
      var q, j := ks[..|ks| - 1], ks[|ks| - 1];
      assert ks == q + [j];
      CloseKeysEmptied(w, q);
    }
  }

  lemma {:induction false} CloseKeysClosed(w: Writer, ks: seq<Key>, k: Key)
    requires Listed(w, ks) && k in ks
    ensures CloseKeys(w, ks).parts[k].writer.None?
  {
    var q, j := ks[..|ks| - 1], ks[|ks| - 1];
    assert ks == q + [j];
    if k != j {
      CloseKeysClosed(w, q, k);
    }
  }

  lemma {:induction false} CloseKeysLife(w: Writer, ks: seq<Key>, today: int, d0: Disk)
    requires LifeOk(w, today, d0) && Listed(w, ks) && w.closed && Emptied(w)
    ensures LifeOk(CloseKeys(w, ks), today, d0)
  {
    if ks != [] {
      var q, j := ks[..|ks| - 1], ks[|ks| - 1];
      assert forall k :: k in q ==> k in ks;
      CloseKeysLife(w, q, today, d0);
      CloseKeysEmptied(w, q);
      CloseKeyLife(CloseKeys(w, q), j, today, d0);
    }
  }

  lemma {:induction false} SealElapsedLife(w: Writer, ks: seq<Key>, c: Clock, limits: Limits, faults: Faults, d0: Disk)
    requires LifeOk(w, c.today, d0) && Listed(w, ks)
    ensures LifeOk(SealElapsed(w, ks, c, limits, faults), c.today, d0)
  {
    if ks != [] {
      var q, j := ks[..|ks| - 1], ks[|ks| - 1];
      assert forall k :: k in q ==> k in ks;
      var v := SealElapsed(w, q, c, limits, faults);
      SealElapsedLife(w, q, c, limits, faults, d0);
      SealKeyLife(v, j, c.today, faults(j), d0);
      assert SealElapsed(w, ks, c, limits, faults) ==
        if Finished(j, v.parts[j], c, limits) then SealKey(v, j, c.today, faults(j)) else v;
    }
  }

  lemma {:induction false} SealEarlierLife(w: Writer, ks: seq<Key>, than: Key, today: int, faults: Faults, d0: Disk)
    requires LifeOk(w, today, d0) && Listed(w, ks)
    ensures LifeOk(SealEarlier(w, ks, than, today, faults), today, d0)
  {
    if ks != [] {
      var q, j := ks[..|ks| - 1], ks[|ks| - 1];
      assert forall k :: k in q ==> k in ks;
      var v := SealEarlier(w, q, than, today, faults);
      SealEarlierLife(w, q, than, today, faults, d0);
      SealKeyLife(v, j, today, faults(j), d0);
      assert SealEarlier(w, ks, than, today, faults) ==
        if EarlierDay(j, v.parts[j], than) then SealKey(v, j, today, faults(j)) else v;
    }
  }

  lemma NewPartLife(v: Writer, k: Key, today: int, d0: Disk)
    requires LifeOk(v, today, d0) && k !in v.parts
    ensures LifeOk(v.(parts := v.parts[k := NEW_PART], order := v.order + [k]), today, d0)
  {
    assert PartLife(k, NEW_PART, FileAt(v.disk, k), today, v.closed, FileAt(d0, k));
  }

  lemma WithPartLife(w: Writer, k: Key, today: int, faults: Faults, d0: Disk)
    requires LifeOk(w, today, d0) && TableOk(w) && k !in w.parts
    ensures LifeOk(WithPart(w, k, today, faults), today, d0)
  {
    if k.day.Some? {
      SealEarlierLife(w, w.order, k, today, faults, d0);
      NewPartLife(SealEarlier(w, w.order, k, today, faults), k, today, d0);
    } else {
      NewPartLife(w, k, today, d0);
    }
  }

  lemma AddBarLife(w: Writer, k: Key, row: Row, c: Clock, d0: Disk)
    requires LifeOk(w, c.today, d0) && k in w.parts && !w.closed && !Refuses(k, w.parts[k], c.today)
    ensures LifeOk(AddBar(w, k, row, c.now), c.today, d0)
  {
    assert PartLife(k, w.parts[k], FileAt(w.disk, k), c.today, w.closed, FileAt(d0, k));
  }

  lemma FlushedLife(w: Writer, c: Clock, limits: Limits, faults: Faults, d0: Disk)
    requires LifeOk(w, c.today, d0) && TableOk(w)
    ensures LifeOk(Flushed(w, c, limits, faults), c.today, d0)
    ensures Emptied(Flushed(w, c, limits, faults))
  {
    SealElapsedLife(w, w.order, c, limits, faults, d0);
    FlushKeysLife(SealElapsed(w, w.order, c, limits, faults), w.order, c.today, faults, d0);
    var r := Flushed(w, c, limits, faults);
    forall k | k in r.parts ensures r.parts[k].buffer == [] {
      assert PartLife(k, w.parts[k], FileAt(w.disk, k), c.today, w.closed, FileAt(d0, k));
      FlushedPartSettles(w, c, limits, faults, k);
    }
  }

  function ClockOf(op: Op): Clock {
    match op
    case WriteOp(_, c, _) => c
    case FlushOp(c, _) => c
    case CloseOp(c, _) => c
    case RestartOp(c, _) => c
  }

  lemma ExecLife(s: Setup, w: Writer, op: Op, d0: Disk)
    requires LifeOk(w, ClockOf(op).today, d0) && TableOk(w)
    ensures LifeOk(Exec(s, w, op), ClockOf(op).today, if op.RestartOp? then Exec(s, w, op).disk else d0)
  {
    ExecTable(s, w, op);
    match op
    case WriteOp(bar, c, faults) =>
      var k := KeyOf(s.zone, bar);
      if !w.closed && k !in w.parts {
        WithPartLife(w, k, c.today, faults, d0);
        AddBarLife(WithPart(w, k, c.today, faults), k, bar.row, c, d0);
      } else if !w.closed && !Refuses(k, w.parts[k], c.today) {
        AddBarLife(w, k, bar.row, c, d0);
      }
    case FlushOp(c, faults) => FlushedLife(w, c, s.limits, faults, d0);
    case CloseOp(c, faults) =>
      if !w.closed {
        ClosingLife(w, c, d0);
        FlushedLife(w.(closed := true), c, s.limits, faults, d0);
        CloseKeysLife(Flushed(w.(closed := true), c, s.limits, faults), w.order, c.today, d0);
      }
    case RestartOp(c, faults) =>
  }

  lemma ClosingLife(w: Writer, c: Clock, d0: Disk)
    requires LifeOk(w, c.today, d0)
    ensures LifeOk(w.(closed := true), c.today, d0)
  {
    forall k | k in w.parts ensures PartLife(k, w.parts[k], FileAt(w.disk, k), c.today, true, FileAt(d0, k)) {
      assert PartLife(k, w.parts[k], FileAt(w.disk, k), c.today, w.closed, FileAt(d0, k));
    }
  }

  /** ET dates read by successive calls never go back. */
  ghost predicate ClockForward(ops: seq<Op>) {
    forall i, j :: 0 <= i < j < |ops| ==> ClockOf(ops[i]).today <= ClockOf(ops[j]).today
  }

  /** The disk the writer in use was opened on: the one it was left by the last restart. */
  function FoundDisk(s: Setup, disk: Disk, ops: seq<Op>): Disk {
    if ops == [] then disk
    else if ops[|ops| - 1].RestartOp? then Run(s, Opened(disk), ops).disk
    else FoundDisk(s, disk, ops[..|ops| - 1])
  }

  /** In every state a run can reach, whatever fails: a sealed partition has no open
      writer; its file has been opened for streaming, and so truncated, at most once; an
      open writer's file is the one being streamed; a partition holds exactly the rows
      this run has written, streaming or rewriting, as upserts over the rows it found, or
      over nothing once it has streamed; no other file has been touched; and what it has
      written and still buffers is what write() accepted. */
  lemma {:induction false} RunLife(s: Setup, disk: Disk, ops: seq<Op>, today: int)
    requires ClockForward(ops)
    requires forall op :: op in ops ==> ClockOf(op).today <= today
    ensures LifeOk(Run(s, Opened(disk), ops), today, FoundDisk(s, disk, ops))
    ensures forall k :: Holds(Run(s, Opened(disk), ops), k, Accepted(s, disk, ops, k))
  {
    if ops != [] {
      var q, op := ops[..|ops| - 1], ops[|ops| - 1];
      assert ops == q + [op];
      var t := ClockOf(op).today;
      forall o | o in q ensures ClockOf(o).today <= t {
        var i :| 0 <= i < |q| && q[i] == o;
        assert ops[i] == o;
      }
      RunLife(s, disk, q, t);
      ExecLife(s, Run(s, Opened(disk), q), op, FoundDisk(s, disk, q));
      LaterIsFine(Run(s, Opened(disk), ops), t, today, FoundDisk(s, disk, ops));
    }
    forall k ensures Holds(Run(s, Opened(disk), ops), k, Accepted(s, disk, ops, k)) {
      AcceptedIsHeld(s, disk, ops, k);
    }
  }

  /** The life of one partition, at the end of a run. */
  lemma PartLives(s: Setup, disk: Disk, ops: seq<Op>, k: Key)
    requires ClockForward(ops)
    ensures var w, f0 := Run(s, Opened(disk), ops), FileAt(FoundDisk(s, disk, ops), k);
            k in w.parts ==>
              && Built(w.parts[k], FileAt(w.disk, k), f0)
              && PartHolds(w.parts[k], Accepted(s, disk, ops, k))
  {
    var w, f0 := Run(s, Opened(disk), ops), FileAt(FoundDisk(s, disk, ops), k);
    var last := if ops == [] then 0 else ClockOf(ops[|ops| - 1]).today;
    forall op | op in ops ensures ClockOf(op).today <= last {
      var i :| 0 <= i < |ops| && ops[i] == op;
    }
    RunLife(s, disk, ops, last);
    if k in w.parts {
      assert PartLife(k, w.parts[k], FileAt(w.disk, k), last, w.closed, f0);
      assert Holds(w, k, Accepted(s, disk, ops, k));
    }
  }

  /** What of the accepted rows a partition answers for: all of them, or, once it was
      given up on, those written before. */
  function Kept(p: Part, accepted: seq<Row>): seq<Row> {
    if p.poisoned then p.landed else accepted
  }

  /** No accepted bar is lost, streaming partitions included: at every moment what a
      partition holds, and what it buffers on top, is the upsert fold of everything
      accepted over its base. One that was given up on stands for the first of it. */
  lemma NothingIsLost(s: Setup, disk: Disk, ops: seq<Op>, k: Key)
    requires ClockForward(ops)
    ensures var w, f0 := Run(s, Opened(disk), ops), FileAt(FoundDisk(s, disk, ops), k);
            var accepted := Accepted(s, disk, ops, k);
            k in w.parts ==>
              var p := w.parts[k];
              var held := Stored(p, FileAt(w.disk, k)) + p.buffer;
              && Upserts(map[], held) == Upserts(Base(p, f0), Kept(p, accepted))
              && TimesOf(held) == TimesOf(Kept(p, accepted)) + (if p.opens == 0 then TimesOf(RowsOf(f0)) else {})
              && Kept(p, accepted) <= accepted
  {
    PartLives(s, disk, ops, k);
    var w := Run(s, Opened(disk), ops);
    if k in w.parts {
      HeldStandsFor(w.parts[k], FileAt(w.disk, k), FileAt(FoundDisk(s, disk, ops), k), Accepted(s, disk, ops, k));
    }
  }

  lemma HeldStandsFor(p: Part, f: File, f0: File, accepted: seq<Row>)
    requires Built(p, f, f0) && PartHolds(p, accepted)
    ensures var held := Stored(p, f) + p.buffer;
            && Upserts(map[], held) == Upserts(Base(p, f0), Kept(p, accepted))
            && TimesOf(held) == TimesOf(Kept(p, accepted)) + (if p.opens == 0 then TimesOf(RowsOf(f0)) else {})
            && Kept(p, accepted) <= accepted
  {
    MoreBuilt(Stored(p, f), Base(p, f0), p.landed, p.buffer);
    assert p.landed + [] == p.landed;
    assert p.landed + p.buffer == Kept(p, accepted);
    UpsertsTimes(map[], Stored(p, f) + p.buffer);
    UpsertsTimes(map[], RowsOf(f0));
    UpsertsTimes(Base(p, f0), Kept(p, accepted));
  }

  /** A closed writer has nothing open and nothing buffered. */
  predicate Shut(w: Writer, k: Key) {
    w.closed && k in w.parts ==> w.parts[k].writer.None? && w.parts[k].buffer == []
  }

  lemma ShutFlush(w: Writer, c: Clock, limits: Limits, faults: Faults, k: Key)
    requires TableOk(w) && Shut(w, k)
    ensures Shut(Flushed(w, c, limits, faults), k)
  {
    if w.closed && k in w.parts {
      var v := SealElapsed(w, w.order, c, limits, faults);
      SealElapsedView(w, w.order, c, limits, faults, k);
      SettledStays(k, w.parts[k], FileAt(w.disk, k), c.today, faults(k));
      FlushKeysView(v, w.order, c.today, faults, k);
      SettledStays(k, v.parts[k], FileAt(v.disk, k), c.today, faults(k));
    }
  }

  lemma ShutClose(w: Writer, c: Clock, limits: Limits, faults: Faults, k: Key, accepted: seq<Row>)
    requires TableOk(w) && Shut(w, k) && Holds(w, k, accepted)
    ensures Shut(ClosedAll(w, c, limits, faults), k)
  {
    if !w.closed && k in w.parts {
      CloseHolds(w, c, limits, faults, k, accepted);
      var v := w.(closed := true);
      FlushKeepsTable(v, c, limits, faults);
      CloseKeysClosed(Flushed(v, c, limits, faults), w.order, k);
    }
  }

  lemma {:induction false} ClosedIsShut(s: Setup, disk: Disk, ops: seq<Op>, k: Key)
    ensures Shut(Run(s, Opened(disk), ops), k)
  {
    if ops != [] {
      var rest, op := ops[..|ops| - 1], ops[|ops| - 1];
      var w := Run(s, Opened(disk), rest);
      ClosedIsShut(s, disk, rest, k);
      AcceptedIsHeld(s, disk, rest, k);
      match op
      case WriteOp(_, _, _) =>
      case FlushOp(c, faults) => ShutFlush(w, c, s.limits, faults, k);
      case CloseOp(c, faults) => ShutClose(w, c, s.limits, faults, k, Accepted(s, disk, rest, k));
      case RestartOp(_, _) =>
    }
  }

  /** After close() no partition has an open writer, so every file it streamed has a
      footer, and the file of each is the upsert fold of every bar it accepted over its
      base, streamed or rewritten; of one that was given up on, of the bars written
      before. */
  lemma CloseFinishesFiles(s: Setup, disk: Disk, ops: seq<Op>, k: Key)
    requires ClockForward(ops)
    ensures var w, f0 := Run(s, Opened(disk), ops), FileAt(FoundDisk(s, disk, ops), k);
            var accepted := Accepted(s, disk, ops, k);
            w.closed && k in w.parts ==>
              var p := w.parts[k];
              && p.writer.None? && p.buffer == []
              && Upserts(map[], RowsOf(FileAt(w.disk, k))) == Upserts(Base(p, f0), Kept(p, accepted))
              && Kept(p, accepted) <= accepted
  {
    var w := Run(s, Opened(disk), ops);
    NothingIsLost(s, disk, ops, k);
    ClosedIsShut(s, disk, ops, k);
    if w.closed && k in w.parts {
      var rows := RowsOf(FileAt(w.disk, k));
      assert rows + [] == rows;
    }
  }
}
