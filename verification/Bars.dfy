/** The one data point on the wire and in storage, and the calendar it is filed by.
    Instants are whole seconds; a calendar day is its ordinal number. */
module Bars {
  import opened Prelude

  /** Columns that are never null: a republished bar overwrites them as a whole. */
  datatype Values = Values(
    open: real, high: real, low: real, close: real,
    elVolume: int, elTicks: int, elUpticks: int, elDownticks: int, elOpenInterest: int,
    category: int)

  /** What a stored file holds for one point; bid, ask and ts are its nullable columns. */
  datatype Row = Row(
    time: int, values: Values,
    bid: Option<real>, ask: Option<real>, ts: Option<real>)

  /** A published point: the row, and the words that name its chart. */
  datatype Bar = Bar(symbol: string, barType: int, barInterval: int, row: Row)

  const HOUR := 3600
  const DAY := 86400

  /** New York's offset from UTC, in seconds, at each instant. */
  type Zone = int -> int

  /** All the calendar rules this store relies on: ET is four or five hours behind. */
  ghost predicate EasternOffsets(zone: Zone) {
    forall t :: -5 * HOUR <= zone(t) <= -4 * HOUR
  }

  /** The ET calendar date of an instant. */
  function EtDate(zone: Zone, t: int): int {
    (t + zone(t)) / DAY
  }
}
