/** The data model of the cash counter (src/types/cashCounter.ts).
    Money is counted in agorot: 100 agorot make one shekel, and every
    denomination of the counter is a whole number of agorot. */
module CashTypes {

  datatype Option<T> = None | Some(value: T) {
    function GetOr(default: T): T {
      match this
      case Some(v) => v
      case None => default
    }
  }

  /** A key of the totals map. The program keys the map by the string form
      of a denomination; `parseFloat` of a key gives that denomination back,
      or NaN for a key that is not a number (one read back from storage). */
  datatype Key = Numeric(agorot: int) | NonNumeric(text: string)

  /** The `count` field of an entry: a number, NaN, or absent. */
  datatype Count = Num(n: int) | NaN | Missing

  /** One line of the totals map: `{count, total}`. */
  datatype LineEntry = LineEntry(count: Count, total: int)

  /** `DenominationTotals`: denomination key to its line. */
  type Totals = map<Key, LineEntry>

  /** A saved calculation. `id` and `date` come from the clock and are
      parameters of the operation that creates the entry. */
  datatype HistoryEntry = HistoryEntry(
    id: string,
    date: string,
    totals: Totals,
    grandTotal: int,
    coinTotal: int,
    noteTotal: int)

  /** The coin section's denominations: 0.10, 0.50, 1, 2, 5 and 10 shekels. */
  const Coins: seq<int> := [10, 50, 100, 200, 500, 1000]

  /** The note section's denominations: 20, 50, 100 and 200 shekels. */
  const Notes: seq<int> := [2000, 5000, 10000, 20000]
}
