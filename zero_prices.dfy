/**
 * The back-fill step (update_zero_prices.py): walk the portfolio's stocks in place
 * and, for each one still priced at 0.0, ask the market-data service for the latest
 * close; on an answer, record that price and today's date, otherwise leave the entry.
 */
module ZeroPrices {
  import opened Wrappers
  import opened Portfolio

  /**
   * The market-data lookup for a ticker symbol: Some(closing price), or None when
   * the price history is empty or the lookup raised. The price is taken as already
   * rounded to cents.
   */
  type Quote = string -> Option<real>

  /** What the loop body does to one entry. Only `price` and `date` may change. */
  function Refill(s: Stock, quote: Quote, today: string): (r: Stock)
    ensures r.symbol == s.symbol && r.name == s.name
    ensures r.changePercent == s.changePercent && r.others == s.others
    ensures s.price != 0.0 ==> r == s
    ensures quote(s.symbol).None? ==> r == s
    ensures s.price == 0.0 && quote(s.symbol).Some? ==>
              r.price == quote(s.symbol).value && r.date == Some(today)
  {
    if s.price == 0.0 then
      match quote(s.symbol)
      case Some(close) => s.(price := close, date := Some(today))
      case None => s
    else s
  }

  /**
   * The stock list after the whole loop: every entry handled on its own, none
   * added, dropped or moved.
   */
  function BackFilled(stocks: seq<Stock>, quote: Quote, today: string): (r: seq<Stock>)
    ensures |r| == |stocks|
    ensures forall i :: 0 <= i < |stocks| ==> r[i] == Refill(stocks[i], quote, today)
  {
    if stocks == [] then []
    else [Refill(stocks[0], quote, today)] + BackFilled(stocks[1..], quote, today)
  }

  /**
   * The loop over `data["stocks"]`, updating the entries in place. A failed lookup
   * only skips its own entry; the loop goes on with the next one.
   */
  method BackFillZeroPrices(stocks: array<Stock>, quote: Quote, today: string)
    modifies stocks
    ensures stocks[..] == BackFilled(old(stocks[..]), quote, today)
  {
    for i := 0 to stocks.Length
      invariant forall k :: 0 <= k < i ==> stocks[k] == Refill(old(stocks[k]), quote, today)
      invariant forall k :: i <= k < stocks.Length ==> stocks[k] == old(stocks[k])
    {
      if stocks[i].price == 0.0 {
        match quote(stocks[i].symbol) {
          case Some(close) =>
            stocks[i] := stocks[i].(price := close, date := Some(today));
          case None =>
        }
      }
    }
  }

  /**
   * The whole script with its file reads and writes taken away: the stock list is
   * back-filled and every other top-level key is written back as it was read.
   */
  method UpdateZeroPrices(data: StockApp, quote: Quote, today: string) returns (out: StockApp)
    ensures out.others == data.others
    ensures out.stocks == BackFilled(data.stocks, quote, today)
  {
    var stocks := new Stock[|data.stocks|](i requires 0 <= i < |data.stocks| => data.stocks[i]);
    assert stocks[..] == data.stocks;
    BackFillZeroPrices(stocks, quote, today);
    out := StockApp(stocks[..], data.others);
  }

  /**
   * The entries are handled independently: back-filling a list is back-filling
   * its two halves, so what happens to one stock, a failed lookup included, has
   * no effect on the stocks after it. It follows from the pointwise contract of
   * `BackFilled`; it is stated here as a property of the loop.
   */
  lemma BackFilledAppend(a: seq<Stock>, b: seq<Stock>, quote: Quote, today: string)
    ensures BackFilled(a + b, quote, today) == BackFilled(a, quote, today) + BackFilled(b, quote, today)
  {
  }

  /**
   * A later run (another day, other quotes) leaves alone every stock that an
   * earlier run gave a nonzero price.
   */
  lemma RerunKeepsFilled(stocks: seq<Stock>, q1: Quote, day1: string, q2: Quote, day2: string)
    ensures forall i :: 0 <= i < |stocks| && BackFilled(stocks, q1, day1)[i].price != 0.0 ==>
              BackFilled(BackFilled(stocks, q1, day1), q2, day2)[i] == BackFilled(stocks, q1, day1)[i]
  {
  }

  /**
   * Running the back-fill twice with the same quotes on the same day changes
   * nothing more. Like the two lemmas above, it follows from the contracts of
   * `Refill` and `BackFilled` and is stated as a property of the script.
   */
  lemma BackFillIdempotent(stocks: seq<Stock>, quote: Quote, today: string)
    ensures BackFilled(BackFilled(stocks, quote, today), quote, today) == BackFilled(stocks, quote, today)
  {
  }
}
