/** Flush-schedule independence, for partitions that always rewrite. */
module WriterSchedules {
  import opened Prelude
  import opened Bars
  import opened Store
  import opened Merge
  import opened BarWriter
  import opened WriterRuns
  import opened WriterLifecycle

  /** The rows a run offers to one partition, in order. */
  function Offered(s: Setup, ops: seq<Op>, k: Key): seq<Row> {
    if ops == [] then []
    else
      var r, op := Offered(s, ops[..|ops| - 1], k), ops[|ops| - 1];
      if op.WriteOp? && KeyOf(s.zone, op.bar) == k then r + [op.bar.row] else r
  }

  /** The file after these rows have been merged into it; untouched if there are none. */
  function FileAfter(f: File, rows: seq<Row>): File {
    if rows == [] then f else Complete(Merged(RowsOf(f) + rows))
  }

  lemma RowsAfter(f: File, rows: seq<Row>)
    requires rows != []
    ensures RowsOf(FileAfter(f, rows)) == Merged(RowsOf(f) + rows)
  {
  }

  lemma FileAfterTwice(f: File, a: seq<Row>, b: seq<Row>)
    requires b != []
    ensures Complete(Merged(RowsOf(FileAfter(f, a)) + b)) == FileAfter(f, a + b)
  {
    if a == [] {
      assert a + b == b;
    } else {
      var all := RowsOf(f) + a;
      assert all + b == RowsOf(f) + (a + b);
      MergeInTwoBatches(all, b);
      RowsAfter(f, a);
    }
  }

  /** The partition's part and file stand for these accepted rows over that file: some
      of the rows merged, the rest buffered. */
  ghost predicate PartTracks(p: Part, f: File, f0: File, rows: seq<Row>) {
    && p.writer.None? && !p.poisoned
    && |p.buffer| <= |rows|
    && p.buffer == rows[|rows| - |p.buffer|..]
    && f == FileAfter(f0, rows[..|rows| - |p.buffer|])
  }

  ghost predicate Tracks(w: Writer, k: Key, f0: File, rows: seq<Row>) {
    && f0 != Foreign
    && if k in w.parts then PartTracks(w.parts[k], FileAt(w.disk, k), f0, rows)
       else FileAt(w.disk, k) == FileAfter(f0, rows)
  }

  /** The conditions of the theorem, at one call: the partition rewrites, and its own
      file can be written. Other files may fail. */
  ghost predicate Healthy(k: Key, today: int, faults: Faults) {
    (k.day.None? || (k.barType != 0 && k.day.value < today)) && faults(k) == NoFault
  }

  lemma RewritesAll(k: Key, p: Part, f: File, today: int)
    requires p.buffer != [] && !p.poisoned && p.writer.None? && f != Foreign && Rewrites(k, today)
    ensures FlushedPart(k, p, f, today, NoFault) == (Land(p), Complete(Merged(RowsOf(f) + p.buffer)), |p.buffer|)
  {
  }

  /** Merging the buffered tail completes the file. */
  lemma TailCompletes(f0: File, rows: seq<Row>, n: nat)
    requires n < |rows|
    ensures Complete(Merged(RowsOf(FileAfter(f0, rows[..n])) + rows[n..])) == FileAfter(f0, rows)
  {
    FileAfterTwice(f0, rows[..n], rows[n..]);
    assert rows[..n] + rows[n..] == rows;
  }

  lemma SettledTracks(p: Part, f: File, f0: File, rows: seq<Row>)
    requires p.writer.None? && !p.poisoned && p.buffer == [] && f == FileAfter(f0, rows)
    ensures PartTracks(p, f, f0, rows)
  {
    assert rows[..|rows| - |p.buffer|] == rows;
  }

  lemma LandTracks(p: Part, f: File, f0: File, rows: seq<Row>, g: File)
    requires PartTracks(p, f, f0, rows) && p.buffer != [] && g == Complete(Merged(RowsOf(f) + p.buffer))
    ensures PartTracks(Land(p), g, f0, rows)
  {
    TailCompletes(f0, rows, |rows| - |p.buffer|);
    SettledTracks(Land(p), g, f0, rows);
  }

  lemma FlushTracks(k: Key, p: Part, f: File, f0: File, rows: seq<Row>, today: int)
    requires f0 != Foreign && PartTracks(p, f, f0, rows) && Rewrites(k, today)
    ensures var (q, g, _) := FlushedPart(k, p, f, today, NoFault); PartTracks(q, g, f0, rows) && q.buffer == []
  {
    if p.buffer != [] {
      RewritesAll(k, p, f, today);
      LandTracks(p, f, f0, rows, Complete(Merged(RowsOf(f) + p.buffer)));
    }
  }

  lemma FlushKeyTracks(w: Writer, j: Key, k: Key, f0: File, rows: seq<Row>, today: int, faults: Faults)
    requires Tracks(w, k, f0, rows) && j in w.parts && Healthy(k, today, faults)
    ensures Tracks(FlushKey(w, j, today, faults(j)), k, f0, rows)
    ensures j == k ==> FlushKey(w, j, today, faults(j)).parts[k].buffer == []
  {
    if j == k {
      FlushTracks(k, w.parts[k], FileAt(w.disk, k), f0, rows, today);
    }
  }

  lemma SealFlushedTracks(v: Writer, j: Key, k: Key, f0: File, rows: seq<Row>)
    requires Tracks(v, k, f0, rows) && j in v.parts
    ensures var c := CloseKey(v, j);
            Tracks(c.(parts := c.parts[j := c.parts[j].(sealed := true)]), k, f0, rows)
  {
  }

  lemma SealKeyTracks(w: Writer, j: Key, k: Key, f0: File, rows: seq<Row>, today: int, faults: Faults)
    requires Tracks(w, k, f0, rows) && j in w.parts && Healthy(k, today, faults)
    ensures Tracks(SealKey(w, j, today, faults(j)), k, f0, rows)
  {
    FlushKeyTracks(w, j, k, f0, rows, today, faults);
    SealFlushedTracks(FlushKey(w, j, today, faults(j)), j, k, f0, rows);
  }

  lemma {:induction false} FlushKeysTracks(
    w: Writer, ks: seq<Key>, k: Key, f0: File, rows: seq<Row>, today: int, faults: Faults)
    requires Tracks(w, k, f0, rows) && Listed(w, ks) && Healthy(k, today, faults)
    ensures Tracks(FlushKeys(w, ks, today, faults), k, f0, rows)
    ensures k in ks ==> FlushKeys(w, ks, today, faults).parts[k].buffer == []
  {
    if ks != [] {
      var q, j := ks[..|ks| - 1], ks[|ks| - 1];
      assert ks == q + [j];
      FlushKeysTracks(w, q, k, f0, rows, today, faults);
      FlushKeyTracks(FlushKeys(w, q, today, faults), j, k, f0, rows, today, faults);
    }
  }

  lemma {:induction false} SealElapsedTracks(
    w: Writer, ks: seq<Key>, k: Key, f0: File, rows: seq<Row>, c: Clock, limits: Limits, faults: Faults)
    requires Tracks(w, k, f0, rows) && Listed(w, ks) && Healthy(k, c.today, faults)
    ensures Tracks(SealElapsed(w, ks, c, limits, faults), k, f0, rows)
  {
    if ks != [] {
      var q, j := ks[..|ks| - 1], ks[|ks| - 1];
      assert ks == q + [j];
      SealElapsedTracks(w, q, k, f0, rows, c, limits, faults);
      SealKeyTracks(SealElapsed(w, q, c, limits, faults), j, k, f0, rows, c.today, faults);
    }
  }

  lemma {:induction false} SealEarlierTracks(
    w: Writer, ks: seq<Key>, than: Key, k: Key, f0: File, rows: seq<Row>, today: int, faults: Faults)
    requires Tracks(w, k, f0, rows) && Listed(w, ks) && Healthy(k, today, faults)
    ensures Tracks(SealEarlier(w, ks, than, today, faults), k, f0, rows)
  {
    if ks != [] {
      var q, j := ks[..|ks| - 1], ks[|ks| - 1];
      assert ks == q + [j];
      SealEarlierTracks(w, q, than, k, f0, rows, today, faults);
      SealKeyTracks(SealEarlier(w, q, than, today, faults), j, k, f0, rows, today, faults);
    }
  }

  lemma {:induction false} CloseKeysTracks(w: Writer, ks: seq<Key>, k: Key, f0: File, rows: seq<Row>)
    requires Tracks(w, k, f0, rows) && Listed(w, ks)
    ensures Tracks(CloseKeys(w, ks), k, f0, rows)
    ensures k in w.parts ==> CloseKeys(w, ks).parts[k] == w.parts[k]
  {
    if ks != [] {
      var q, j := ks[..|ks| - 1], ks[|ks| - 1];
      assert ks == q + [j];
      CloseKeysTracks(w, q, k, f0, rows);
    }
  }

  lemma WithPartTracks(w: Writer, j: Key, k: Key, f0: File, rows: seq<Row>, today: int, faults: Faults)
    requires TableOk(w) && j !in w.parts && Tracks(w, k, f0, rows) && Healthy(k, today, faults)
    ensures Tracks(WithPart(w, j, today, faults), k, f0, rows)
  {
    if j.day.Some? {
      SealEarlierTracks(w, w.order, j, k, f0, rows, today, faults);
    }
    assert rows[|rows|..] == [] && rows[..|rows|] == rows;
  }

  lemma AddBarTracks(w: Writer, j: Key, k: Key, f0: File, rows: seq<Row>, row: Row, now: int)
    requires j in w.parts && Tracks(w, k, f0, rows)
    ensures Tracks(AddBar(w, j, row, now), k, f0, if j == k then rows + [row] else rows)
  {
    if j == k {
      OneMoreBuffered(w.parts[k].buffer, rows, row);
    }
  }

  lemma OneMoreBuffered(b: seq<Row>, rows: seq<Row>, row: Row)
    requires |b| <= |rows| && b == rows[|rows| - |b|..]
    ensures var all := rows + [row];
            all[|all| - |b| - 1..] == b + [row] && all[..|all| - |b| - 1] == rows[..|rows| - |b|]
  {
  }

  lemma FlushedTracks(w: Writer, k: Key, f0: File, rows: seq<Row>, c: Clock, limits: Limits, faults: Faults)
    requires TableOk(w) && Tracks(w, k, f0, rows) && Healthy(k, c.today, faults)
    ensures Tracks(Flushed(w, c, limits, faults), k, f0, rows)
    ensures k in w.parts ==> Flushed(w, c, limits, faults).parts[k].buffer == []
  {
    SealElapsedTracks(w, w.order, k, f0, rows, c, limits, faults);
    FlushKeysTracks(SealElapsed(w, w.order, c, limits, faults), w.order, k, f0, rows, c.today, faults);
  }

  /** With nothing buffered the file stands for all the rows. */
  lemma SettledFile(v: Writer, k: Key, f0: File, rows: seq<Row>)
    requires Tracks(v, k, f0, rows) && (k in v.parts ==> v.parts[k].buffer == [])
    ensures FileAt(v.disk, k) == FileAfter(f0, rows)
  {
    assert rows[..|rows|] == rows;
  }

  lemma ClosedKeysTrack(v: Writer, k: Key, f0: File, rows: seq<Row>)
    requires Tracks(v, k, f0, rows) && Listed(v, v.order) && (k in v.parts ==> v.parts[k].buffer == [])
    ensures FileAt(CloseKeys(v, v.order).disk, k) == FileAfter(f0, rows)
  {
    CloseKeysTracks(v, v.order, k, f0, rows);
    SettledFile(CloseKeys(v, v.order), k, f0, rows);
  }

  /** Closing merges what was left: the file is the file after all the rows. */
  lemma ClosedTracks(w: Writer, k: Key, f0: File, rows: seq<Row>, c: Clock, limits: Limits, faults: Faults)
    requires TableOk(w) && !w.closed && Tracks(w, k, f0, rows) && Healthy(k, c.today, faults)
    ensures FileAt(ClosedAll(w, c, limits, faults).disk, k) == FileAfter(f0, rows)
  {
    var v := w.(closed := true);
    FlushedTracks(v, k, f0, rows, c, limits, faults);
    FlushKeepsTable(v, c, limits, faults);
    ClosedKeysTrack(Flushed(v, c, limits, faults), k, f0, rows);
  }

  function FaultsOf(op: Op): Faults {
    match op
    case WriteOp(_, _, faults) => faults
    case FlushOp(_, faults) => faults
    case CloseOp(_, faults) => faults
    case RestartOp(_, faults) => faults
  }

  /** Writes, flushes and restarts, all healthy for this partition. */
  ghost predicate HealthyRun(ops: seq<Op>, k: Key) {
    forall op :: op in ops ==> !op.CloseOp? && Healthy(k, ClockOf(op).today, FaultsOf(op))
  }

  lemma ExecTracks(s: Setup, w: Writer, op: Op, k: Key, f0: File, rows: seq<Row>)
    requires TableOk(w) && !w.closed && Tracks(w, k, f0, rows)
    requires !op.CloseOp? && Healthy(k, ClockOf(op).today, FaultsOf(op))
    ensures !Exec(s, w, op).closed
    ensures Tracks(Exec(s, w, op), k, f0,
                   if op.WriteOp? && KeyOf(s.zone, op.bar) == k then rows + [op.bar.row] else rows)
  {
    match op
    case WriteOp(bar, c, faults) =>
      var j := KeyOf(s.zone, bar);
      if j !in w.parts {
        WithPartTracks(w, j, k, f0, rows, c.today, faults);
        AddBarTracks(WithPart(w, j, c.today, faults), j, k, f0, rows, bar.row, c.now);
      } else if !Refuses(j, w.parts[j], c.today) {
        AddBarTracks(w, j, k, f0, rows, bar.row, c.now);
      }
    case FlushOp(c, faults) => FlushedTracks(w, k, f0, rows, c, s.limits, faults);
    case RestartOp(c, faults) => ClosedTracks(w, k, f0, rows, c, s.limits, faults);
  }

  lemma {:induction false} RunTracks(s: Setup, disk: Disk, ops: seq<Op>, k: Key)
    requires HealthyRun(ops, k) && FileAt(disk, k) != Foreign
    ensures !Run(s, Opened(disk), ops).closed
    ensures Tracks(Run(s, Opened(disk), ops), k, FileAt(disk, k), Offered(s, ops, k))
  {
    if ops != [] {
      var q, op := ops[..|ops| - 1], ops[|ops| - 1];
      assert ops == q + [op];
      RunTracks(s, disk, q, k);
      ExecTracks(s, Run(s, Opened(disk), q), op, k, FileAt(disk, k), Offered(s, q, k));
    }
  }

  /** The file after the run and a final close depends on the initial file and the rows
      offered, and on nothing else: not on flushes, seals, restarts, or other files'
      faults. */
  lemma FinalFile(s: Setup, disk: Disk, ops: seq<Op>, k: Key, c: Clock, faults: Faults)
    requires HealthyRun(ops, k) && FileAt(disk, k) != Foreign && Healthy(k, c.today, faults)
    ensures FileAt(ClosedAll(Run(s, Opened(disk), ops), c, s.limits, faults).disk, k)
            == FileAfter(FileAt(disk, k), Offered(s, ops, k))
  {
    RunTracks(s, disk, ops, k);
    ClosedTracks(Run(s, Opened(disk), ops), k, FileAt(disk, k), Offered(s, ops, k), c, s.limits, faults);
  }

  /** Two schedules of the same bars leave the same file. */
  lemma SchedulesAgree(s: Setup, disk: Disk, a: seq<Op>, b: seq<Op>, k: Key, c: Clock, faults: Faults, c': Clock, faults': Faults)
    requires HealthyRun(a, k) && HealthyRun(b, k) && FileAt(disk, k) != Foreign
    requires Healthy(k, c.today, faults) && Healthy(k, c'.today, faults')
    requires Offered(s, a, k) == Offered(s, b, k)
    ensures FileAt(ClosedAll(Run(s, Opened(disk), a), c, s.limits, faults).disk, k)
            == FileAt(ClosedAll(Run(s, Opened(disk), b), c', s.limits, faults').disk, k)
  {
    FinalFile(s, disk, a, k, c, faults);
    FinalFile(s, disk, b, k, c', faults');
  }

  lemma FileAfterMeaning(f: File, rows: seq<Row>)
    ensures var after := RowsOf(FileAfter(f, rows));
            && Upserts(map[], after) == Upserts(Upserts(map[], RowsOf(f)), rows)
            && TimesOf(after) == TimesOf(RowsOf(f)) + TimesOf(rows)
            && (rows != [] ==> StrictlySorted(after))
  {
    if rows != [] {
      MergedIsUpsert(RowsOf(f) + rows);
      MergedTimes(RowsOf(f), rows);
      MergedRows(RowsOf(f) + rows);
      UpsertsConcat(map[], RowsOf(f), rows);
    }
  }

  /** What that file holds: the fold of the offered rows, as upserts, over the initial
      rows. No stored bar_time is ever lost by a republish, and none appears that was
      neither stored nor offered. */
  lemma FinalFileIsUpsert(s: Setup, disk: Disk, ops: seq<Op>, k: Key, c: Clock, faults: Faults)
    requires HealthyRun(ops, k) && FileAt(disk, k) != Foreign && Healthy(k, c.today, faults)
    ensures var rows := RowsOf(FileAt(ClosedAll(Run(s, Opened(disk), ops), c, s.limits, faults).disk, k));
            var initial := RowsOf(FileAt(disk, k));
            && Upserts(map[], rows) == Upserts(Upserts(map[], initial), Offered(s, ops, k))
            && TimesOf(rows) == TimesOf(initial) + TimesOf(Offered(s, ops, k))
            && (Offered(s, ops, k) != [] ==> StrictlySorted(rows))
  {
    FinalFile(s, disk, ops, k, c, faults);
    FileAfterMeaning(FileAt(disk, k), Offered(s, ops, k));
  }

  // ----- Killed writers -----------------------------------------------------

  /** Of these rows, those before the ones the partition still buffers. */
  function Unbuffered(w: Writer, k: Key, rows: seq<Row>): seq<Row> {
    if k !in w.parts then rows
    else if |w.parts[k].buffer| <= |rows| then rows[..|rows| - |w.parts[k].buffer|]
    else []
  }

  lemma UnbufferedFile(w: Writer, k: Key, f0: File, rows: seq<Row>)
    requires Tracks(w, k, f0, rows)
    ensures FileAt(w.disk, k) == FileAfter(f0, Unbuffered(w, k, rows))
  {
  }

  /** Of the rows a run offers to a partition, those not in its buffer at the end. */
  function Survived(s: Setup, disk: Disk, ops: seq<Op>, k: Key): seq<Row> {
    Unbuffered(Run(s, Opened(disk), ops), k, Offered(s, ops, k))
  }

  /** A writer killed between two calls leaves the file as merged so far: exactly its
      buffer is lost. */
  lemma KilledFile(s: Setup, disk: Disk, ops: seq<Op>, k: Key)
    requires HealthyRun(ops, k) && FileAt(disk, k) != Foreign
    ensures FileAt(Run(s, Opened(disk), ops).disk, k) == FileAfter(FileAt(disk, k), Survived(s, disk, ops, k))
  {
    RunTracks(s, disk, ops, k);
    UnbufferedFile(Run(s, Opened(disk), ops), k, FileAt(disk, k), Offered(s, ops, k));
  }

  /** The disk after these sessions, every one killed. */
  function KilledDisk(s: Setup, disk: Disk, sessions: seq<seq<Op>>): Disk {
    if sessions == [] then disk
    else
      var n := |sessions| - 1;
      Run(s, Opened(KilledDisk(s, disk, sessions[..n])), sessions[n]).disk
  }

  function AllSurvived(s: Setup, disk: Disk, sessions: seq<seq<Op>>, k: Key): seq<Row> {
    if sessions == [] then []
    else
      var n := |sessions| - 1;
      AllSurvived(s, disk, sessions[..n], k) + Survived(s, KilledDisk(s, disk, sessions[..n]), sessions[n], k)
  }

  /** The file is the upsert fold of `more` over these first rows, and holds just their
      times. */
  ghost predicate StandsFor(f: File, first: seq<Row>, more: seq<Row>) {
    && f != Foreign
    && Upserts(map[], RowsOf(f)) == Upserts(Upserts(map[], first), more)
    && TimesOf(RowsOf(f)) == TimesOf(first) + TimesOf(more)
  }

  lemma {:induction false} SessionsStandFor(s: Setup, disk: Disk, sessions: seq<seq<Op>>, k: Key)
    requires FileAt(disk, k) != Foreign && forall i :: 0 <= i < |sessions| ==> HealthyRun(sessions[i], k)
    ensures StandsFor(FileAt(KilledDisk(s, disk, sessions), k), RowsOf(FileAt(disk, k)), AllSurvived(s, disk, sessions, k))
  {
    if sessions != [] {
      var n := |sessions| - 1;
      SessionsStandFor(s, disk, sessions[..n], k);
      SessionKilled(s, KilledDisk(s, disk, sessions[..n]), sessions[n], k,
                    RowsOf(FileAt(disk, k)), AllSurvived(s, disk, sessions[..n], k));
    }
  }

  lemma SessionKilled(s: Setup, disk: Disk, ops: seq<Op>, k: Key, first: seq<Row>, so: seq<Row>)
    requires HealthyRun(ops, k) && StandsFor(FileAt(disk, k), first, so)
    ensures StandsFor(FileAt(Run(s, Opened(disk), ops).disk, k), first, so + Survived(s, disk, ops, k))
  {
    KilledFile(s, disk, ops, k);
    MoreStandsFor(FileAt(disk, k), first, so, Survived(s, disk, ops, k));
  }

  lemma MoreStandsFor(f: File, first: seq<Row>, so: seq<Row>, more: seq<Row>)
    requires StandsFor(f, first, so)
    ensures StandsFor(FileAfter(f, more), first, so + more)
  {
    FileAfterMeaning(f, more);
    UpsertsConcat(Upserts(map[], first), so, more);
    assert TimesOf(so + more) == TimesOf(so) + TimesOf(more);
  }

  /** However often the writer is killed, a rewriting partition's file is the upsert fold
      of what survived over what was there; no stored bar_time is ever lost. */
  lemma KillsLoseNoStored(s: Setup, disk: Disk, sessions: seq<seq<Op>>, k: Key)
    requires FileAt(disk, k) != Foreign && forall i :: 0 <= i < |sessions| ==> HealthyRun(sessions[i], k)
    ensures var f, g := FileAt(disk, k), FileAt(KilledDisk(s, disk, sessions), k);
            && g != Foreign
            && Upserts(map[], RowsOf(g)) == Upserts(Upserts(map[], RowsOf(f)), AllSurvived(s, disk, sessions, k))
            && TimesOf(RowsOf(f)) <= TimesOf(RowsOf(g))
  {
    SessionsStandFor(s, disk, sessions, k);
  }
}
