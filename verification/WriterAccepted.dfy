/** What becomes of the bars write() accepts. */
module WriterAccepted {
  import opened Prelude
  import opened Bars
  import opened Store
  import opened BarWriter
  import opened WriterRuns
  import opened WriterOutcomes

  /** Whether write() takes this bar in: the writer is open, and the bar's partition is
      new, or neither given up on nor sealed on a day that does not rewrite. */
  predicate Accepts(w: Writer, zone: Zone, bar: Bar, today: int) {
    var k := KeyOf(zone, bar);
    && !w.closed
    && (k in w.parts ==>
          && !w.parts[k].poisoned
          && (w.parts[k].sealed ==> k.day.None? || (k.barType != 0 && k.day.value < today)))
  }

  /** The rows accepted for a partition by the writer in use, in order of arrival. */
  function Accepted(s: Setup, disk: Disk, ops: seq<Op>, k: Key): seq<Row> {
    if ops == [] then []
    else
      var rest, op := ops[..|ops| - 1], ops[|ops| - 1];
      var r := Accepted(s, disk, rest, k);
      match op
      case WriteOp(bar, c, _) =>
        if KeyOf(s.zone, bar) == k && Accepts(Run(s, Opened(disk), rest), s.zone, bar, c.today) then r + [bar.row] else r
      case RestartOp(_, _) => []
      case _ => r
  }

  /** What was written, then what is buffered, is all that was accepted; a partition that
      was given up on keeps what was written before. */
  predicate PartHolds(p: Part, accepted: seq<Row>) {
    if p.poisoned then p.buffer == [] && p.landed <= accepted else p.landed + p.buffer == accepted
  }

  predicate Holds(w: Writer, k: Key, accepted: seq<Row>) {
    if k in w.parts then PartHolds(w.parts[k], accepted) else accepted == []
  }

  /** One attempt records what it wrote: the whole buffer, or nothing. */
  lemma FlushRecords(k: Key, p: Part, f: File, today: int, fault: Fault)
    ensures var (q, _, n) := FlushedPart(k, p, f, today, fault);
            && q.landed == p.landed + (if n > 0 then p.buffer else [])
            && (n > 0 ==> n == |p.buffer| && q.poisoned == p.poisoned)
            && (p.buffer != [] && !p.poisoned ==> (q.poisoned <==> n == 0))
  {
    assert p.landed + [] == p.landed;
  }

  lemma FlushedPartHolds(k: Key, p: Part, f: File, today: int, fault: Fault, accepted: seq<Row>)
    requires PartHolds(p, accepted)
    ensures var q := FlushedPart(k, p, f, today, fault).0; PartHolds(q, accepted) && q.buffer == []
  {
    FlushRecords(k, p, f, today, fault);
    var q := FlushedPart(k, p, f, today, fault).0;
    assert q.landed + [] == q.landed;
  }

  lemma SealedPartHolds(k: Key, p: Part, f: File, today: int, fault: Fault, accepted: seq<Row>)
    requires PartHolds(p, accepted)
    ensures PartHolds(SealedPart(k, p, f, today, fault).0, accepted)
  {
    FlushedPartHolds(k, p, f, today, fault, accepted);
  }

  lemma FlushHolds(w: Writer, c: Clock, limits: Limits, faults: Faults, k: Key, accepted: seq<Row>)
    requires TableOk(w) && k in w.parts && PartHolds(w.parts[k], accepted)
    ensures var r := Flushed(w, c, limits, faults);
            k in r.parts && PartHolds(r.parts[k], accepted) && r.parts[k].buffer == []
  {
    var v := SealElapsed(w, w.order, c, limits, faults);
    SealElapsedView(w, w.order, c, limits, faults, k);
    SealedPartHolds(k, w.parts[k], FileAt(w.disk, k), c.today, faults(k), accepted);
    FlushKeysView(v, w.order, c.today, faults, k);
    FlushedPartHolds(k, v.parts[k], FileAt(v.disk, k), c.today, faults(k), accepted);
  }

  /** Closing writers changes nothing but the writers. */
  lemma {:induction false} CloseKeysKeeps(w: Writer, ks: seq<Key>, k: Key)
    requires Listed(w, ks) && k in w.parts
    ensures k in CloseKeys(w, ks).parts
    ensures CloseKeys(w, ks).parts[k] == w.parts[k].(writer := CloseKeys(w, ks).parts[k].writer)
  {
    if ks != [] {
      var q, j := ks[..|ks| - 1], ks[|ks| - 1];
      assert ks == q + [j];
      CloseKeysKeeps(w, q, k);
    }
  }

  lemma CloseHolds(w: Writer, c: Clock, limits: Limits, faults: Faults, k: Key, accepted: seq<Row>)
    requires TableOk(w) && k in w.parts && PartHolds(w.parts[k], accepted)
    ensures var r := ClosedAll(w, c, limits, faults);
            k in r.parts && PartHolds(r.parts[k], accepted) && (!w.closed ==> r.parts[k].buffer == [])
  {
    if !w.closed {
      var v := w.(closed := true);
      FlushHolds(v, c, limits, faults, k, accepted);
      FlushKeepsTable(v, c, limits, faults);
      CloseKeysKeeps(Flushed(v, c, limits, faults), w.order, k);
    }
  }

  lemma NewPartHolds(w: Writer, j: Key, today: int, faults: Faults, k: Key, accepted: seq<Row>)
    requires TableOk(w) && j !in w.parts && Holds(w, k, accepted)
    ensures Holds(WithPart(w, j, today, faults), k, accepted)
  {
    if j.day.Some? && k in w.parts {
      SealEarlierView(w, w.order, j, today, faults, k);
      SealedPartHolds(k, w.parts[k], FileAt(w.disk, k), today, faults(k), accepted);
    }
    assert [] + NEW_PART.buffer == [];
  }

  lemma AddBarHolds(w: Writer, j: Key, row: Row, now: int, k: Key, accepted: seq<Row>)
    requires j in w.parts && !w.parts[j].poisoned && Holds(w, k, accepted)
    ensures Holds(AddBar(w, j, row, now), k, if j == k then accepted + [row] else accepted)
  {
    if j == k {
      assert w.parts[k].landed + (w.parts[k].buffer + [row]) == accepted + [row];
    }
  }

  lemma WriteHolds(s: Setup, w: Writer, bar: Bar, c: Clock, faults: Faults, k: Key, accepted: seq<Row>)
    requires TableOk(w) && Holds(w, k, accepted)
    ensures Holds(Exec(s, w, WriteOp(bar, c, faults)), k,
                  if KeyOf(s.zone, bar) == k && Accepts(w, s.zone, bar, c.today) then accepted + [bar.row] else accepted)
  {
    var j := KeyOf(s.zone, bar);
    if Accepts(w, s.zone, bar, c.today) {
      if j in w.parts {
        AddBarHolds(w, j, bar.row, c.now, k, accepted);
      } else {
        NewPartHolds(w, j, c.today, faults, k, accepted);
        AddBarHolds(WithPart(w, j, c.today, faults), j, bar.row, c.now, k, accepted);
      }
    }
  }

  /** In every run, whatever fails: what a partition has written, then what it buffers, is
      exactly what write() accepted for it since the last restart; of a partition that
      was given up on, what it has written is the first of that, and it buffers nothing. */
  lemma {:induction false} AcceptedIsHeld(s: Setup, disk: Disk, ops: seq<Op>, k: Key)
    ensures Holds(Run(s, Opened(disk), ops), k, Accepted(s, disk, ops, k))
  {
    if ops != [] {
      var rest, op := ops[..|ops| - 1], ops[|ops| - 1];
      var w, accepted := Run(s, Opened(disk), rest), Accepted(s, disk, rest, k);
      AcceptedIsHeld(s, disk, rest, k);
      match op
      case WriteOp(bar, c, faults) => WriteHolds(s, w, bar, c, faults, k, accepted);
      case FlushOp(c, faults) =>
        if k in w.parts {
          FlushHolds(w, c, s.limits, faults, k, accepted);
        }
      case CloseOp(c, faults) =>
        if k in w.parts {
          CloseHolds(w, c, s.limits, faults, k, accepted);
        }
      case RestartOp(c, faults) =>
    }
  }
}
