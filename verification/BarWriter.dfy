/** The bar cache writer: partitions that buffer, stream, rewrite, seal and poison. Each
    operation is a specification function on the whole writer, and a method of the class
    proved against it. A fault is chosen per partition and operation; the fields that are
    history say so. */
module BarWriter {
  import opened Prelude
  import opened Bars
  import opened Store
  import opened Merge

  /** How the one file operation of a flush can go wrong. */
  datatype Fault = NoFault | MkdirFault | OpenFault | ReadFault | WriteFault
  type Faults = Key -> Fault

  /** `writer` is an open streaming writer and the rows it has taken. `opens` and
      `landed` are history: how often this run has opened (and so truncated) the file,
      and the rows this run has successfully written to it, in order. */
  datatype Part = Part(
    buffer: seq<Row>,
    writer: Option<seq<Row>>,
    sealed: bool,
    poisoned: bool,
    lastWrite: Option<int>,
    opens: nat,
    landed: seq<Row>)

  const NEW_PART := Part([], None, false, false, None, 0, [])

  /** The writer; `order` is the insertion order of its partition table. The last three
      fields are history. */
  datatype Writer = Writer(
    parts: map<Key, Part>,
    order: seq<Key>,
    buffered: int,
    oldest: Option<int>,
    closed: bool,
    disk: Disk,
    accepted: int,
    written: int,
    dropped: int)

  function Opened(disk: Disk): Writer {
    Writer(map[], [], 0, None, false, disk, 0, 0, 0)
  }

  /** A clock reading: today's ET date, and a monotonic instant in seconds. */
  datatype Clock = Clock(today: int, now: int)

  datatype Limits = Limits(maxBars: int, maxSeconds: int)

  // ----- One partition ------------------------------------------------------

  predicate Rewrites(k: Key, today: int) {
    k.day.None? || (k.barType != 0 && k.day.value < today)
  }

  function Poison(p: Part): Part {
    p.(buffer := [], poisoned := true)
  }

  function Land(p: Part): Part {
    p.(buffer := [], landed := p.landed + p.buffer)
  }

  /** Closing the streaming writer if there is one, then merging the buffer into the
      whole file. */
  function RewrittenPart(p: Part, f: File, fault: Fault): (r: (Part, File, nat))
    ensures r.0.buffer == []
  {
    var f1 := if p.writer.Some? then Complete(p.writer.value) else f;
    var p1 := p.(writer := None);
    if (fault == ReadFault && f1 != Absent) || f1 == Foreign || fault == WriteFault then (Poison(p1), f1, 0)
    else (Land(p1), Complete(Merged(RowsOf(f1) + p.buffer)), |p.buffer|)
  }

  /** Opening the streaming writer, which truncates, if there is none; then appending. */
  function StreamedPart(p: Part, f: File, fault: Fault): (r: (Part, File, nat))
    ensures r.0.buffer == []
  {
    if p.writer.None? && fault == OpenFault then (Poison(p), f, 0)
    else
      var p1 := if p.writer.None? then p.(writer := Some([]), opens := p.opens + 1) else p;
      if fault == WriteFault then (Poison(p1), Footerless, 0)
      else (Land(p1).(writer := Some(p1.writer.value + p.buffer)), Footerless, |p.buffer|)
  }

  /** One attempt to write a partition's buffer: the partition, its file, and how many
      bars were written. */
  function FlushedPart(k: Key, p: Part, f: File, today: int, fault: Fault): (r: (Part, File, nat))
    ensures p.buffer != [] && !p.poisoned ==> r.0.buffer == []
  {
    if p.buffer == [] || p.poisoned then (p, f, 0)
    else if fault == MkdirFault then (Poison(p), f, 0)
    else if Rewrites(k, today) then RewrittenPart(p, f, fault)
    else StreamedPart(p, f, fault)
  }

  /** Closing a streaming writer gives its file a footer. */
  function ClosedPart(p: Part, f: File): (Part, File) {
    if p.writer.Some? then (p.(writer := None), Complete(p.writer.value)) else (p, f)
  }

  predicate Finished(k: Key, p: Part, c: Clock, limits: Limits) {
    && !p.sealed && k.day.Some? && k.day.value < c.today
    && p.lastWrite.Some? && c.now - p.lastWrite.value >= limits.maxSeconds
  }

  predicate EarlierDay(k: Key, p: Part, than: Key) {
    && !p.sealed && k.day.Some? && than.day.Some?
    && k.barType == than.barType && k.barInterval == than.barInterval && k.symbol == than.symbol
    && k.day.value < than.day.value
  }

  // ----- The table ----------------------------------------------------------

  function FlushKey(w: Writer, k: Key, today: int, fault: Fault): Writer
    requires k in w.parts
  {
    var (p, f, n) := FlushedPart(k, w.parts[k], FileAt(w.disk, k), today, fault);
    var gone := |w.parts[k].buffer| - |p.buffer|;
    w.(parts := w.parts[k := p],
       disk := WithFile(w.disk, k, f),
       buffered := w.buffered - gone,
       oldest := if gone > 0 && w.buffered == gone then None else w.oldest,
       written := w.written + n,
       dropped := w.dropped + gone - n)
  }

  /** Nothing buffered, or nothing writable: nothing happens. */
  lemma FlushNothing(w: Writer, k: Key, today: int, fault: Fault)
    requires k in w.parts && (w.parts[k].buffer == [] || w.parts[k].poisoned)
    ensures FlushKey(w, k, today, fault) == w
  {
    assert w.parts[k := w.parts[k]] == w.parts;
  }

  /** A successful or failed attempt alike empties the buffer. */
  lemma FlushSomething(w: Writer, k: Key, today: int, fault: Fault)
    requires k in w.parts && w.parts[k].buffer != [] && !w.parts[k].poisoned
    ensures var (p, f, n) := FlushedPart(k, w.parts[k], FileAt(w.disk, k), today, fault);
            var size := |w.parts[k].buffer|;
            FlushKey(w, k, today, fault) ==
            Writer(w.parts[k := p], w.order, w.buffered - size,
                   if w.buffered - size == 0 then None else w.oldest, w.closed, WithFile(w.disk, k, f),
                   w.accepted, w.written + n, w.dropped + size - n)
  {
  }

  function CloseKey(w: Writer, k: Key): Writer
    requires k in w.parts
  {
    var (p, f) := ClosedPart(w.parts[k], FileAt(w.disk, k));
    w.(parts := w.parts[k := p], disk := WithFile(w.disk, k, f))
  }

  function SealKey(w: Writer, k: Key, today: int, fault: Fault): Writer
    requires k in w.parts
  {
    var c := CloseKey(FlushKey(w, k, today, fault), k);
    c.(parts := c.parts[k := c.parts[k].(sealed := true)])
  }

  predicate Listed(w: Writer, ks: seq<Key>) {
    forall k :: k in ks ==> k in w.parts
  }

  function FlushKeys(w: Writer, ks: seq<Key>, today: int, faults: Faults): (r: Writer)
    requires Listed(w, ks)
    ensures r.parts.Keys == w.parts.Keys && r.order == w.order && r.closed == w.closed && r.accepted == w.accepted
  {
    if ks == [] then w
    else
      assert forall k :: k in ks[..|ks| - 1] ==> k in ks;
      FlushKey(FlushKeys(w, ks[..|ks| - 1], today, faults), ks[|ks| - 1], today, faults(ks[|ks| - 1]))
  }

  function CloseKeys(w: Writer, ks: seq<Key>): (r: Writer)
    requires Listed(w, ks)
    ensures r == w.(parts := r.parts, disk := r.disk) && r.parts.Keys == w.parts.Keys
  {
    if ks == [] then w
    else
      assert forall k :: k in ks[..|ks| - 1] ==> k in ks;
      CloseKey(CloseKeys(w, ks[..|ks| - 1]), ks[|ks| - 1])
  }

  function SealElapsed(w: Writer, ks: seq<Key>, c: Clock, limits: Limits, faults: Faults): (r: Writer)
    requires Listed(w, ks)
    ensures r.parts.Keys == w.parts.Keys && r.order == w.order && r.closed == w.closed && r.accepted == w.accepted
  {
    if ks == [] then w
    else
      assert forall k :: k in ks[..|ks| - 1] ==> k in ks;
      var v, k := SealElapsed(w, ks[..|ks| - 1], c, limits, faults), ks[|ks| - 1];
      if Finished(k, v.parts[k], c, limits) then SealKey(v, k, c.today, faults(k)) else v
  }

  function SealEarlier(w: Writer, ks: seq<Key>, than: Key, today: int, faults: Faults): (r: Writer)
    requires Listed(w, ks)
    ensures r.parts.Keys == w.parts.Keys && r.order == w.order && r.closed == w.closed && r.accepted == w.accepted
  {
    if ks == [] then w
    else
      assert forall k :: k in ks[..|ks| - 1] ==> k in ks;
      var v, k := SealEarlier(w, ks[..|ks| - 1], than, today, faults), ks[|ks| - 1];
      if EarlierDay(k, v.parts[k], than) then SealKey(v, k, today, faults(k)) else v
  }

  lemma SealEarlierStep(w: Writer, i: nat, than: Key, today: int, faults: Faults)
    requires Listed(w, w.order) && i < |w.order|
    ensures Listed(w, w.order[..i]) && Listed(w, w.order[..i + 1])
    ensures var v, k := SealEarlier(w, w.order[..i], than, today, faults), w.order[i];
            SealEarlier(w, w.order[..i + 1], than, today, faults) ==
            if EarlierDay(k, v.parts[k], than) then SealKey(v, k, today, faults(k)) else v
  {
    assert w.order[..i + 1][..i] == w.order[..i];
  }

  lemma SealElapsedStep(w: Writer, i: nat, c: Clock, limits: Limits, faults: Faults)
    requires Listed(w, w.order) && i < |w.order|
    ensures Listed(w, w.order[..i]) && Listed(w, w.order[..i + 1])
    ensures var v, k := SealElapsed(w, w.order[..i], c, limits, faults), w.order[i];
            SealElapsed(w, w.order[..i + 1], c, limits, faults) ==
            if Finished(k, v.parts[k], c, limits) then SealKey(v, k, c.today, faults(k)) else v
  {
    assert w.order[..i + 1][..i] == w.order[..i];
  }

  lemma FlushStep(w: Writer, i: nat, today: int, faults: Faults)
    requires Listed(w, w.order) && i < |w.order|
    ensures Listed(w, w.order[..i]) && Listed(w, w.order[..i + 1])
    ensures FlushKeys(w, w.order[..i + 1], today, faults) ==
            FlushKey(FlushKeys(w, w.order[..i], today, faults), w.order[i], today, faults(w.order[i]))
  {
    assert w.order[..i + 1][..i] == w.order[..i];
  }

  lemma CloseStep(w: Writer, i: nat)
    requires Listed(w, w.order) && i < |w.order|
    ensures Listed(w, w.order[..i]) && Listed(w, w.order[..i + 1])
    ensures CloseKeys(w, w.order[..i + 1]) == CloseKey(CloseKeys(w, w.order[..i]), w.order[i])
  {
    assert w.order[..i + 1][..i] == w.order[..i];
  }

  // ----- The operations -----------------------------------------------------

  /** Whether a bar for this existing partition is turned away. */
  predicate Refuses(k: Key, p: Part, today: int) {
    (p.sealed && !Rewrites(k, today)) || p.poisoned
  }

  function AddBar(w: Writer, k: Key, row: Row, now: int): Writer
    requires k in w.parts
  {
    w.(parts := w.parts[k := w.parts[k].(buffer := w.parts[k].buffer + [row], lastWrite := Some(now))],
       buffered := w.buffered + 1,
       oldest := if w.oldest.None? then Some(now) else w.oldest,
       accepted := w.accepted + 1)
  }

  /** The partition table must list exactly its keys, once each. */
  ghost predicate TableOk(w: Writer) {
    && (forall k :: k in w.order <==> k in w.parts)
    && (forall i, j :: 0 <= i < j < |w.order| ==> w.order[i] != w.order[j])
  }

  /** Opening a partition first seals the earlier days of its chart. */
  function WithPart(w: Writer, k: Key, today: int, faults: Faults): Writer
    requires TableOk(w) && k !in w.parts
  {
    var v := if k.day.Some? then SealEarlier(w, w.order, k, today, faults) else w;
    v.(parts := v.parts[k := NEW_PART], order := v.order + [k])
  }

  /** None: the writer is closed, and the call raises. */
  function Wrote(w: Writer, zone: Zone, bar: Bar, c: Clock, faults: Faults): Option<Writer>
    requires TableOk(w)
  {
    var k := KeyOf(zone, bar);
    if w.closed then None
    else if k !in w.parts then Some(AddBar(WithPart(w, k, c.today, faults), k, bar.row, c.now))
    else if Refuses(k, w.parts[k], c.today) then Some(w)
    else Some(AddBar(w, k, bar.row, c.now))
  }

  function Flushed(w: Writer, c: Clock, limits: Limits, faults: Faults): Writer
    requires TableOk(w)
  {
    var v := SealElapsed(w, w.order, c, limits, faults);
    FlushKeys(v, w.order, c.today, faults)
  }

  function ClosedAll(w: Writer, c: Clock, limits: Limits, faults: Faults): Writer
    requires TableOk(w)
  {
    if w.closed then w
    else
      var v := Flushed(w.(closed := true), c, limits, faults);
      CloseKeys(v, w.order)
  }

  lemma FlushKeepsTable(w: Writer, c: Clock, limits: Limits, faults: Faults)
    requires TableOk(w)
    ensures TableOk(Flushed(w, c, limits, faults)) && Flushed(w, c, limits, faults).order == w.order
  {
  }

  lemma WithPartTable(w: Writer, k: Key, today: int, faults: Faults)
    requires TableOk(w) && k !in w.parts
    ensures TableOk(WithPart(w, k, today, faults))
  {
    var v := if k.day.Some? then SealEarlier(w, w.order, k, today, faults) else w;
    assert v.parts.Keys == w.parts.Keys;
    assert forall j :: j in v.order + [k] <==> j in v.order || j == k;
  }

  /** Whatever a write does, the table stays a table. */
  lemma WriteKeepsTable(w: Writer, zone: Zone, bar: Bar, c: Clock, faults: Faults)
    requires TableOk(w)
    ensures Wrote(w, zone, bar, c, faults).Some? ==> TableOk(Wrote(w, zone, bar, c, faults).value)
  {
    var k := KeyOf(zone, bar);
    if k !in w.parts {
      WithPartTable(w, k, c.today, faults);
    }
  }

  ghost predicate ShouldFlush(w: Writer, c: Clock, limits: Limits) {
    || (exists k :: k in w.parts && Finished(k, w.parts[k], c, limits))
    || (w.buffered != 0 &&
        (w.buffered >= limits.maxBars || (w.oldest.Some? && c.now - w.oldest.value >= limits.maxSeconds)))
  }

  // ----- The writer as an object --------------------------------------------

  class ParquetBarWriter {
    const zone: Zone
    const limits: Limits
    var partitions: map<Key, Part>
    var order: seq<Key>
    var bufferedBars: int
    var oldestBuffer: Option<int>
    var closed: bool
    var disk: Disk
    ghost var accepted: int
    ghost var written: int
    ghost var dropped: int

    ghost function State(): Writer
      reads this
    {
      Writer(partitions, order, bufferedBars, oldestBuffer, closed, disk, accepted, written, dropped)
    }

    constructor (zone: Zone, limits: Limits, disk: Disk)
      ensures State() == Opened(disk) && this.zone == zone && this.limits == limits
      ensures TableOk(State())
    {
      this.zone, this.limits := zone, limits;
      partitions, order, bufferedBars, oldestBuffer, closed := map[], [], 0, None, false;
      this.disk := disk;
      accepted, written, dropped := 0, 0, 0;
    }

    /** The file operations of one flush attempt, on the file at the partition's path. */
    method WriteOut(k: Key, p: Part, f: File, today: int, fault: Fault)
      returns (part: Part, file: File, n: nat)
      requires p.buffer != [] && !p.poisoned
      ensures (part, file, n) == FlushedPart(k, p, f, today, fault)
    {
      part, file := p, f;
      var failed := fault == MkdirFault;
      if !failed {
        if Rewrites(k, today) {
          if part.writer.Some? {
            file := Complete(part.writer.value);
            part := part.(writer := None);
          }
          failed, file := Rewrite(file, part.buffer, fault);
        } else if part.writer.None? && fault == OpenFault {
          failed := true;
        } else {
          if part.writer.None? {
            part := part.(writer := Some([]), opens := part.opens + 1);
          }
          file := Footerless;
          if fault == WriteFault {
            failed := true;
          } else {
            part := part.(writer := Some(part.writer.value + part.buffer));
          }
        }
      }
      n := if failed then 0 else |p.buffer|;
      part := if failed then Poison(part) else Land(part);
    }

    method FlushPartition(k: Key, today: int, fault: Fault) returns (n: nat)
      requires k in partitions
      modifies this
      ensures State() == FlushKey(old(State()), k, today, fault)
      ensures n == written - old(written)
    {
      var part := partitions[k];
      if part.buffer == [] || part.poisoned {
        FlushNothing(State(), k, today, fault);
        return 0;
      }
      n := FlushBuffered(k, today, fault);
    }

    method FlushBuffered(k: Key, today: int, fault: Fault) returns (n: nat)
      requires k in partitions && partitions[k].buffer != [] && !partitions[k].poisoned
      modifies this
      ensures State() == FlushKey(old(State()), k, today, fault)
      ensures n == written - old(written)
    {
      var part := partitions[k];
      FlushSomething(State(), k, today, fault);
      var size := |part.buffer|;
      var p, file;
      p, file, n := WriteOut(k, part, FileAt(disk, k), today, fault);
      partitions := partitions[k := p];
      disk := WithFile(disk, k, file);
      bufferedBars := bufferedBars - size;
      if bufferedBars == 0 {
        oldestBuffer := None;
      }
      written := written + n;
      dropped := dropped + size - n;
    }

    /** Reads the whole file back, merges, and replaces it; a failure leaves the file
        as it was. */
    method Rewrite(f: File, rows: seq<Row>, fault: Fault) returns (failed: bool, file: File)
      ensures failed == ((fault == ReadFault && f != Absent) || f == Foreign || fault == WriteFault)
      ensures file == if failed then f else Complete(Merged(RowsOf(f) + rows))
    {
      var existing := [];
      if f != Absent {
        if fault == ReadFault || f == Foreign {
          return true, f;
        }
        if f.Complete? {
          existing := f.rows;
        }
      }
      var merged := Merged(existing + rows);
      if fault == WriteFault {
        return true, f;
      }
      return false, Complete(merged);
    }

    method CloseWriter(k: Key)
      requires k in partitions
      modifies this
      ensures State() == CloseKey(old(State()), k)
    {
      var part := partitions[k];
      if part.writer.Some? {
        disk := WithFile(disk, k, Complete(part.writer.value));
        part := part.(writer := None);
      }
      partitions := partitions[k := part];
    }

    method Seal(k: Key, today: int, fault: Fault) returns (n: nat)
      requires k in partitions
      modifies this
      ensures State() == SealKey(old(State()), k, today, fault)
      ensures n == written - old(written)
    {
      n := FlushPartition(k, today, fault);
      CloseWriter(k);
      partitions := partitions[k := partitions[k].(sealed := true)];
    }

    method SealEarlierDays(than: Key, today: int, faults: Faults)
      requires TableOk(State())
      modifies this
      ensures State() == SealEarlier(old(State()), old(order), than, today, faults)
    {
      ghost var w := State();
      for i := 0 to |order|
        invariant order == w.order && partitions.Keys == w.parts.Keys
        invariant State() == SealEarlier(w, w.order[..i], than, today, faults)
      {
        SealEarlierStep(w, i, than, today, faults);
        if EarlierDay(order[i], partitions[order[i]], than) {
          var _ := Seal(order[i], today, faults(order[i]));
        }
      }
      assert w.order[..|w.order|] == w.order;
    }

    method SealElapsedDays(c: Clock, faults: Faults) returns (n: int)
      requires TableOk(State())
      modifies this
      ensures State() == SealElapsed(old(State()), old(order), c, limits, faults)
      ensures n == written - old(written)
    {
      ghost var w := State();
      n := 0;
      for i := 0 to |order|
        invariant order == w.order && partitions.Keys == w.parts.Keys
        invariant State() == SealElapsed(w, w.order[..i], c, limits, faults)
        invariant n == written - w.written
      {
        SealElapsedStep(w, i, c, limits, faults);
        if Finished(order[i], partitions[order[i]], c, limits) {
          var m := Seal(order[i], c.today, faults(order[i]));
          n := n + m;
        }
      }
      assert w.order[..|w.order|] == w.order;
    }

    /** True: the writer was closed and the call raised. */
    method Write(bar: Bar, c: Clock, faults: Faults) returns (raised: bool)
      requires TableOk(State())
      modifies this
      ensures var r := Wrote(old(State()), zone, bar, c, faults);
              raised == r.None? && State() == if r.Some? then r.value else old(State())
      ensures TableOk(State())
    {
      WriteKeepsTable(State(), zone, bar, c, faults);
      if closed {
        return true;
      }
      raised := false;
      var k := KeyOf(zone, bar);
      if k !in partitions {
        OpenPartition(k, c.today, faults);
      } else if partitions[k].sealed && !Rewrites(k, c.today) {
        return;
      } else if partitions[k].poisoned {
        return;
      }
      Buffer(k, bar.row, c.now);
    }

    method OpenPartition(k: Key, today: int, faults: Faults)
      requires TableOk(State()) && k !in partitions
      modifies this
      ensures State() == WithPart(old(State()), k, today, faults)
    {
      if k.day.Some? {
        SealEarlierDays(k, today, faults);
      }
      partitions := partitions[k := NEW_PART];
      order := order + [k];
    }

    method Buffer(k: Key, row: Row, now: int)
      requires k in partitions
      modifies this
      ensures State() == AddBar(old(State()), k, row, now)
    {
      partitions := partitions[k := partitions[k].(buffer := partitions[k].buffer + [row], lastWrite := Some(now))];
      bufferedBars := bufferedBars + 1;
      if oldestBuffer.None? {
        oldestBuffer := Some(now);
      }
      accepted := accepted + 1;
    }

    method NeedsFlush(c: Clock) returns (b: bool)
      requires TableOk(State())
      ensures b == ShouldFlush(State(), c, limits)
    {
      for i := 0 to |order|
        invariant forall j :: 0 <= j < i ==> !Finished(order[j], partitions[order[j]], c, limits)
      {
        if Finished(order[i], partitions[order[i]], c, limits) {
          return true;
        }
      }
      assert forall k :: k in partitions ==> k in order;
      if bufferedBars == 0 {
        return false;
      }
      if bufferedBars >= limits.maxBars {
        return true;
      }
      if oldestBuffer.None? {
        return false;
      }
      return c.now - oldestBuffer.value >= limits.maxSeconds;
    }

    /** Returns how many bars were written. */
    method Flush(c: Clock, faults: Faults) returns (total: int)
      requires TableOk(State())
      modifies this
      ensures State() == Flushed(old(State()), c, limits, faults)
      ensures total == written - old(written)
      ensures TableOk(State())
    {
      FlushKeepsTable(State(), c, limits, faults);
      var sealed := SealElapsedDays(c, faults);
      var rest := FlushPartitions(c.today, faults);
      return sealed + rest;
    }

    method FlushPartitions(today: int, faults: Faults) returns (total: int)
      requires TableOk(State())
      modifies this
      ensures State() == FlushKeys(old(State()), old(order), today, faults)
      ensures total == written - old(written)
    {
      ghost var w := State();
      total := 0;
      for i := 0 to |order|
        invariant order == w.order && partitions.Keys == w.parts.Keys
        invariant State() == FlushKeys(w, w.order[..i], today, faults)
        invariant total == written - w.written
      {
        FlushStep(w, i, today, faults);
        var n := FlushPartition(order[i], today, faults(order[i]));
        total := total + n;
      }
      assert w.order[..|w.order|] == w.order;
    }

    method Close(c: Clock, faults: Faults)
      requires TableOk(State())
      modifies this
      ensures State() == ClosedAll(old(State()), c, limits, faults)
      ensures TableOk(State())
    {
      if closed {
        return;
      }
      closed := true;
      var _ := Flush(c, faults);
      FlushKeepsTable(old(State()).(closed := true), c, limits, faults);
      CloseWriters();
    }

    method CloseWriters()
      requires TableOk(State())
      modifies this
      ensures State() == CloseKeys(old(State()), old(order))
    {
      ghost var w := State();
      for i := 0 to |order|
        invariant order == w.order && partitions.Keys == w.parts.Keys
        invariant State() == CloseKeys(w, w.order[..i])
      {
        CloseStep(w, i);
        CloseWriter(order[i]);
      }
      assert w.order[..|w.order|] == w.order;
    }
  }
}
