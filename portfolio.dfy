/** The portfolio record kept in stockapp.json, which both scripts read. */
module Portfolio {
  import opened Wrappers
  import opened Json

  /**
   * One entry of the "stocks" list. `date` is None when the entry has no "date" key;
   * `others` holds the keys neither script looks at (a buy target, for one); it
   * never holds "symbol", "name", "price", "changePercent" or "date", whose values
   * live in the named fields.
   */
  datatype Stock = Stock(
    symbol: string,
    name: string,
    price: real,
    changePercent: real,
    date: Option<string>,
    others: map<string, Json>)

  /** The whole record: its "stocks" list and every other top-level key (`others` never holds "stocks"). */
  datatype StockApp = StockApp(stocks: seq<Stock>, others: map<string, Json>)
}
