/** The Parquet store as both sides see it: one file per partition. */
module Store {
  import opened Prelude
  import opened Bars

  /** A partition, which is also a path. `day` is None for daily charts, whose files
      have no date level. */
  datatype Key = Key(barType: int, barInterval: int, symbol: string, day: Option<int>)

  /** A file still held open by a streaming writer, or left by one that was killed, has
      no footer and cannot be read. A foreign file is readable Parquet of another
      schema. */
  datatype File = Absent | Footerless | Foreign | Complete(rows: seq<Row>)

  type Disk = map<Key, File>

  function FileAt(disk: Disk, k: Key): File {
    if k in disk then disk[k] else Absent
  }

  function WithFile(disk: Disk, k: Key, f: File): (d: Disk)
    ensures FileAt(d, k) == f
    ensures forall j :: j != k ==> FileAt(d, j) == FileAt(disk, j)
  {
    if FileAt(disk, k) == f then disk else disk[k := f]
  }

  /** What can be read back; a file that is not Parquet at all counts as no rows. */
  function RowsOf(f: File): seq<Row> {
    if f.Complete? then f.rows else []
  }

  /** The partition a published bar is filed under. */
  function KeyOf(zone: Zone, bar: Bar): Key {
    Key(bar.barType, bar.barInterval, bar.symbol,
        if bar.barType == 2 then None else Some(EtDate(zone, bar.row.time)))
  }
}
