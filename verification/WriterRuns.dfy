/** Runs of the bar writer: the calls, and bookkeeping in every reachable state, whatever
    the placement of flushes and the faults of other files; and what sweeps over the
    partition table do, seen from one partition. */
module WriterRuns {
  import opened Prelude
  import opened Bars
  import opened Store
  import opened Merge
  import opened BarWriter

  datatype Op =
    | WriteOp(bar: Bar, c: Clock, faults: Faults)
    | FlushOp(c: Clock, faults: Faults)
    | CloseOp(c: Clock, faults: Faults)
    | RestartOp(c: Clock, faults: Faults)

  datatype Setup = Setup(zone: Zone, limits: Limits)

  /** One call; a write on a closed writer raises and changes nothing. A restart is a
      close, then a new writer over the files that are there. */
  function Exec(s: Setup, w: Writer, op: Op): Writer
    requires TableOk(w)
  {
    match op
    case WriteOp(bar, c, faults) =>
      var r := Wrote(w, s.zone, bar, c, faults); if r.Some? then r.value else w
    case FlushOp(c, faults) => Flushed(w, c, s.limits, faults)
    case CloseOp(c, faults) => ClosedAll(w, c, s.limits, faults)
    case RestartOp(c, faults) => Opened(ClosedAll(w, c, s.limits, faults).disk)
  }

  lemma ExecTable(s: Setup, w: Writer, op: Op)
    requires TableOk(w)
    ensures TableOk(Exec(s, w, op))
  {
    match op
    case WriteOp(bar, c, faults) => WriteKeepsTable(w, s.zone, bar, c, faults);
    case FlushOp(c, faults) => FlushKeepsTable(w, c, s.limits, faults);
    case CloseOp(c, faults) => FlushKeepsTable(w.(closed := true), c, s.limits, faults);
    case RestartOp(c, faults) =>
  }

  function Run(s: Setup, w: Writer, ops: seq<Op>): (r: Writer)
    requires TableOk(w)
    ensures TableOk(r)
  {
    if ops == [] then w
    else
      var v := Run(s, w, ops[..|ops| - 1]);
      ExecTable(s, v, ops[|ops| - 1]);
      Exec(s, v, ops[|ops| - 1])
  }

  // ----- Bookkeeping --------------------------------------------------------

  function Buffered(parts: map<Key, Part>, ks: seq<Key>): nat {
    if ks == [] then 0
    else
      var k := ks[|ks| - 1];
      Buffered(parts, ks[..|ks| - 1]) + if k in parts then |parts[k].buffer| else 0
  }

  lemma {:induction false} BufferedUpdate(parts: map<Key, Part>, ks: seq<Key>, k: Key, p: Part)
    requires k in parts && forall i, j :: 0 <= i < j < |ks| ==> ks[i] != ks[j]
    ensures Buffered(parts[k := p], ks) == Buffered(parts, ks) + if k in ks then |p.buffer| - |parts[k].buffer| else 0
  {
    if ks != [] {
      var q, j := ks[..|ks| - 1], ks[|ks| - 1];
      assert ks == q + [j];
      BufferedUpdate(parts, q, k, p);
    }
  }

  lemma {:induction false} BufferedNew(parts: map<Key, Part>, ks: seq<Key>, k: Key, p: Part)
    requires k !in ks
    ensures Buffered(parts[k := p], ks) == Buffered(parts, ks)
  {
    if ks != [] {
      var q, j := ks[..|ks| - 1], ks[|ks| - 1];
      assert ks == q + [j];
      BufferedNew(parts, q, k, p);
    }
  }

  lemma {:induction false} BufferedAtLeast(parts: map<Key, Part>, ks: seq<Key>, k: Key)
    requires k in parts && k in ks
    ensures Buffered(parts, ks) >= |parts[k].buffer|
  {
    var q, j := ks[..|ks| - 1], ks[|ks| - 1];
    assert ks == q + [j];
    if k != j {
      BufferedAtLeast(parts, q, k);
    }
  }

  ghost predicate BooksOk(w: Writer) {
    && TableOk(w)
    && w.buffered == Buffered(w.parts, w.order)
    && (w.oldest.None? <==> w.buffered == 0)
    && w.accepted == w.written + w.dropped + w.buffered
    && w.written >= 0 && w.dropped >= 0
    && forall k :: k in w.parts && w.parts[k].poisoned ==> w.parts[k].buffer == []
  }

  lemma FlushKeyBooks(w: Writer, k: Key, today: int, fault: Fault)
    requires BooksOk(w) && k in w.parts
    ensures BooksOk(FlushKey(w, k, today, fault))
  {
    if w.parts[k].buffer == [] || w.parts[k].poisoned {
      FlushNothing(w, k, today, fault);
    } else {
      FlushSomething(w, k, today, fault);
      var (p, f, n) := FlushedPart(k, w.parts[k], FileAt(w.disk, k), today, fault);
      FlushedCount(k, w.parts[k], FileAt(w.disk, k), today, fault);
      EmptiedBooks(w, k, p, f, n);
    }
  }

  /** The bookkeeping of one attempt, whatever it did to partition and file. */
  lemma EmptiedBooks(w: Writer, k: Key, p: Part, f: File, n: nat)
    requires BooksOk(w) && k in w.parts && w.parts[k].buffer != [] && p.buffer == [] && n <= |w.parts[k].buffer|
    ensures var size := |w.parts[k].buffer|;
            BooksOk(Writer(w.parts[k := p], w.order, w.buffered - size,
                           if w.buffered - size == 0 then None else w.oldest, w.closed, WithFile(w.disk, k, f),
                           w.accepted, w.written + n, w.dropped + size - n))
  {
    BufferedUpdate(w.parts, w.order, k, p);
    BufferedAtLeast(w.parts, w.order, k);
  }

  lemma FlushedCount(k: Key, p: Part, f: File, today: int, fault: Fault)
    ensures FlushedPart(k, p, f, today, fault).2 <= |p.buffer|
    ensures p.poisoned ==> FlushedPart(k, p, f, today, fault) == (p, f, 0)
  {
  }

  lemma CloseKeyBooks(w: Writer, k: Key)
    requires BooksOk(w) && k in w.parts
    ensures BooksOk(CloseKey(w, k))
    ensures CloseKey(w, k).buffered == w.buffered
  {
    BufferedUpdate(w.parts, w.order, k, ClosedPart(w.parts[k], FileAt(w.disk, k)).0);
  }

  lemma SealKeyBooks(w: Writer, k: Key, today: int, fault: Fault)
    requires BooksOk(w) && k in w.parts
    ensures BooksOk(SealKey(w, k, today, fault))
  {
    FlushKeyBooks(w, k, today, fault);
    var v := FlushKey(w, k, today, fault);
    CloseKeyBooks(v, k);
    SealedBooks(CloseKey(v, k), k);
  }

  lemma SealedBooks(c: Writer, k: Key)
    requires BooksOk(c) && k in c.parts
    ensures BooksOk(c.(parts := c.parts[k := c.parts[k].(sealed := true)]))
  {
    BufferedUpdate(c.parts, c.order, k, c.parts[k].(sealed := true));
  }

  lemma {:induction false} FlushKeysBooks(w: Writer, ks: seq<Key>, today: int, faults: Faults)
    requires BooksOk(w) && Listed(w, ks)
    ensures BooksOk(FlushKeys(w, ks, today, faults))
  {
    if ks != [] {
      assert forall k :: k in ks[..|ks| - 1] ==> k in ks;
      FlushKeysBooks(w, ks[..|ks| - 1], today, faults);
      FlushKeyBooks(FlushKeys(w, ks[..|ks| - 1], today, faults), ks[|ks| - 1], today, faults(ks[|ks| - 1]));
    }
  }

  lemma {:induction false} CloseKeysBooks(w: Writer, ks: seq<Key>)
    requires BooksOk(w) && Listed(w, ks)
    ensures BooksOk(CloseKeys(w, ks))
  {
    if ks != [] {
      assert forall k :: k in ks[..|ks| - 1] ==> k in ks;
      CloseKeysBooks(w, ks[..|ks| - 1]);
      CloseKeyBooks(CloseKeys(w, ks[..|ks| - 1]), ks[|ks| - 1]);
    }
  }

  lemma {:induction false} SealElapsedBooks(w: Writer, ks: seq<Key>, c: Clock, limits: Limits, faults: Faults)
    requires BooksOk(w) && Listed(w, ks)
    ensures BooksOk(SealElapsed(w, ks, c, limits, faults))
  {
    if ks != [] {
      assert forall k :: k in ks[..|ks| - 1] ==> k in ks;
      SealElapsedBooks(w, ks[..|ks| - 1], c, limits, faults);
      var v, k := SealElapsed(w, ks[..|ks| - 1], c, limits, faults), ks[|ks| - 1];
      SealKeyBooks(v, k, c.today, faults(k));
      assert SealElapsed(w, ks, c, limits, faults) ==
        if Finished(k, v.parts[k], c, limits) then SealKey(v, k, c.today, faults(k)) else v;
    }
  }

  lemma {:induction false} SealEarlierBooks(w: Writer, ks: seq<Key>, than: Key, today: int, faults: Faults)
    requires BooksOk(w) && Listed(w, ks)
    ensures BooksOk(SealEarlier(w, ks, than, today, faults))
  {
    if ks != [] {
      assert forall k :: k in ks[..|ks| - 1] ==> k in ks;
      SealEarlierBooks(w, ks[..|ks| - 1], than, today, faults);
      var v, k := SealEarlier(w, ks[..|ks| - 1], than, today, faults), ks[|ks| - 1];
      SealKeyBooks(v, k, today, faults(k));
      assert SealEarlier(w, ks, than, today, faults) ==
        if EarlierDay(k, v.parts[k], than) then SealKey(v, k, today, faults(k)) else v;
    }
  }

  lemma NewPartBooks(v: Writer, k: Key)
    requires BooksOk(v) && k !in v.parts && k !in v.order
    requires TableOk(v.(parts := v.parts[k := NEW_PART], order := v.order + [k]))
    ensures BooksOk(v.(parts := v.parts[k := NEW_PART], order := v.order + [k]))
  {
    BufferedNew(v.parts, v.order, k, NEW_PART);
    assert (v.order + [k])[..|v.order|] == v.order;
  }

  lemma WithPartBooks(w: Writer, k: Key, today: int, faults: Faults)
    requires BooksOk(w) && k !in w.parts
    ensures BooksOk(WithPart(w, k, today, faults))
  {
    WithPartTable(w, k, today, faults);
    if k.day.Some? {
      SealEarlierBooks(w, w.order, k, today, faults);
      NewPartBooks(SealEarlier(w, w.order, k, today, faults), k);
    } else {
      NewPartBooks(w, k);
    }
  }

  lemma AddBarBooks(w: Writer, k: Key, row: Row, now: int)
    requires BooksOk(w) && k in w.parts && !w.parts[k].poisoned
    ensures BooksOk(AddBar(w, k, row, now))
  {
    BufferedUpdate(w.parts, w.order, k, w.parts[k].(buffer := w.parts[k].buffer + [row], lastWrite := Some(now)));
  }

  lemma WriteBooks(s: Setup, w: Writer, bar: Bar, c: Clock, faults: Faults)
    requires BooksOk(w)
    ensures BooksOk(Exec(s, w, WriteOp(bar, c, faults)))
  {
    var k := KeyOf(s.zone, bar);
    if !w.closed && k !in w.parts {
      WithPartBooks(w, k, c.today, faults);
      AddBarBooks(WithPart(w, k, c.today, faults), k, bar.row, c.now);
    } else if !w.closed && !Refuses(k, w.parts[k], c.today) {
      AddBarBooks(w, k, bar.row, c.now);
    }
  }

  lemma ExecBooks(s: Setup, w: Writer, op: Op)
    requires BooksOk(w)
    ensures BooksOk(Exec(s, w, op))
  {
    match op
    case WriteOp(bar, c, faults) => WriteBooks(s, w, bar, c, faults);
    case FlushOp(c, faults) => FlushedBooks(w, c, s.limits, faults);
    case CloseOp(c, faults) => ClosedBooks(w, c, s.limits, faults);
    case RestartOp(c, faults) => RestartBooks(s, w, c, faults);
  }

  lemma RestartBooks(s: Setup, w: Writer, c: Clock, faults: Faults)
    requires TableOk(w)
    ensures BooksOk(Exec(s, w, RestartOp(c, faults)))
  {
    var r := Exec(s, w, RestartOp(c, faults));
    assert r == Opened(r.disk);
    FreshBooks(r.disk);
  }

  lemma FreshBooks(disk: Disk)
    ensures BooksOk(Opened(disk))
  {
  }

  lemma ClosedBooks(w: Writer, c: Clock, limits: Limits, faults: Faults)
    requires BooksOk(w)
    ensures BooksOk(ClosedAll(w, c, limits, faults))
  {
    if !w.closed {
      FlushedBooks(w.(closed := true), c, limits, faults);
      CloseKeysBooks(Flushed(w.(closed := true), c, limits, faults), w.order);
    }
  }

  lemma FlushedBooks(w: Writer, c: Clock, limits: Limits, faults: Faults)
    requires BooksOk(w)
    ensures BooksOk(Flushed(w, c, limits, faults))
  {
    SealElapsedBooks(w, w.order, c, limits, faults);
    FlushKeysBooks(SealElapsed(w, w.order, c, limits, faults), w.order, c.today, faults);
  }

  /** In every reachable state the counters are the contents, and every accepted bar is
      written, dropped by a poisoning, or still buffered. */
  lemma {:induction false} BooksBalance(s: Setup, disk: Disk, ops: seq<Op>)
    ensures BooksOk(Run(s, Opened(disk), ops))
  {
    if ops != [] {
      BooksBalance(s, disk, ops[..|ops| - 1]);
      ExecBooks(s, Run(s, Opened(disk), ops[..|ops| - 1]), ops[|ops| - 1]);
    }
  }

  // ----- One partition seen through a sweep ---------------------------------

  ghost predicate SameView(v: Writer, w: Writer, k: Key) {
    && (k in v.parts <==> k in w.parts)
    && (k in v.parts ==> v.parts[k] == w.parts[k])
    && FileAt(v.disk, k) == FileAt(w.disk, k)
  }

  lemma {:induction false} FlushKeysView(w: Writer, ks: seq<Key>, today: int, faults: Faults, k: Key)
    requires Listed(w, ks) && k in w.parts && forall i, j :: 0 <= i < j < |ks| ==> ks[i] != ks[j]
    ensures var r := FlushKeys(w, ks, today, faults);
            var (p, f, _) := FlushedPart(k, w.parts[k], FileAt(w.disk, k), today, faults(k));
            if k in ks then r.parts[k] == p && FileAt(r.disk, k) == f else SameView(r, w, k)
  {
    if ks != [] {
      var q, j := ks[..|ks| - 1], ks[|ks| - 1];
      assert ks == q + [j];
      FlushKeysView(w, q, today, faults, k);
    }
  }

  function SealedPart(k: Key, p: Part, f: File, today: int, fault: Fault): (Part, File) {
    var (p1, f1, _) := FlushedPart(k, p, f, today, fault);
    var (p2, f2) := ClosedPart(p1, f1);
    (p2.(sealed := true), f2)
  }

  /** Sealing one partition, seen from any other and from itself. */
  lemma SealKeyView(v: Writer, j: Key, today: int, fault: Fault, k: Key)
    requires j in v.parts && k in v.parts
    ensures var r := SealKey(v, j, today, fault);
            if j == k then (r.parts[k], FileAt(r.disk, k)) == SealedPart(k, v.parts[k], FileAt(v.disk, k), today, fault)
            else SameView(r, v, k)
  {
  }

  lemma {:induction false} SealElapsedView(w: Writer, ks: seq<Key>, c: Clock, limits: Limits, faults: Faults, k: Key)
    requires Listed(w, ks) && k in w.parts && forall i, j :: 0 <= i < j < |ks| ==> ks[i] != ks[j]
    ensures var r := SealElapsed(w, ks, c, limits, faults);
            if k in ks && Finished(k, w.parts[k], c, limits)
            then (r.parts[k], FileAt(r.disk, k)) == SealedPart(k, w.parts[k], FileAt(w.disk, k), c.today, faults(k))
            else SameView(r, w, k)
  {
    if ks != [] {
      var q, j := ks[..|ks| - 1], ks[|ks| - 1];
      assert ks == q + [j];
      SealElapsedView(w, q, c, limits, faults, k);
      SealKeyView(SealElapsed(w, q, c, limits, faults), j, c.today, faults(j), k);
    }
  }

  lemma {:induction false} NothingBuffered(parts: map<Key, Part>, ks: seq<Key>)
    requires forall k :: k in ks && k in parts ==> parts[k].buffer == []
    ensures Buffered(parts, ks) == 0
  {
    if ks != [] {
      assert forall k :: k in ks[..|ks| - 1] ==> k in ks;
      NothingBuffered(parts, ks[..|ks| - 1]);
    }
  }

  /** What a whole flush does to one partition: nothing stays buffered, and a finished
      day ends sealed. */
  lemma FlushedPartSettles(w: Writer, c: Clock, limits: Limits, faults: Faults, k: Key)
    requires TableOk(w) && k in w.parts
    requires w.parts[k].poisoned ==> w.parts[k].buffer == []
    ensures var r := Flushed(w, c, limits, faults);
            k in r.parts && r.parts[k].buffer == [] && !Finished(k, r.parts[k], c, limits)
  {
    var v := SealElapsed(w, w.order, c, limits, faults);
    ElapsedEndsSealed(w, c, limits, faults, k);
    FlushKeysView(v, w.order, c.today, faults, k);
    FlushKeepsSeal(k, v.parts[k], FileAt(v.disk, k), c.today, faults(k));
  }

  lemma ElapsedEndsSealed(w: Writer, c: Clock, limits: Limits, faults: Faults, k: Key)
    requires TableOk(w) && k in w.parts
    requires w.parts[k].poisoned ==> w.parts[k].buffer == []
    ensures var p := SealElapsed(w, w.order, c, limits, faults).parts[k];
            !Finished(k, p, c, limits) && (p.poisoned ==> p.buffer == [])
  {
    SealElapsedView(w, w.order, c, limits, faults, k);
    FlushKeepsSeal(k, w.parts[k], FileAt(w.disk, k), c.today, faults(k));
  }

  /** A flush leaves nothing buffered and nothing to do at the same clock reading,
      whichever files could not be written. */
  lemma FlushSettles(w: Writer, c: Clock, limits: Limits, faults: Faults)
    requires BooksOk(w)
    ensures var r := Flushed(w, c, limits, faults);
            && (forall k :: k in r.parts ==> r.parts[k].buffer == [])
            && r.buffered == 0 && r.oldest == None
            && !ShouldFlush(r, c, limits)
  {
    var r := Flushed(w, c, limits, faults);
    FlushedBooks(w, c, limits, faults);
    forall k | k in r.parts
      ensures r.parts[k].buffer == [] && !Finished(k, r.parts[k], c, limits)
    {
      assert k in w.parts;
      FlushedPartSettles(w, c, limits, faults, k);
    }
    NothingBuffered(r.parts, r.order);
  }

  lemma FlushKeepsSeal(k: Key, p: Part, f: File, today: int, fault: Fault)
    ensures var q := FlushedPart(k, p, f, today, fault).0;
            && q.sealed == p.sealed && q.lastWrite == p.lastWrite
            && (!p.poisoned || p.buffer == [] ==> q.buffer == [])
            && (q.poisoned && (p.poisoned ==> p.buffer == []) ==> q.buffer == [])
  {
  }
}
