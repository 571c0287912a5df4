# Stock watchlist: alert filter and zero-price back-fill

A model in Dafny of two data-processing steps of a personal stock-watchlist service.
Both work on the portfolio record `stockapp.json`, whose `stocks` list holds one
entry per ticker (symbol, name, price, percent change, date, and other keys).

- **Alert filter** (`populate_email_alerts.py`, module `EmailAlerts`): keeps every
  stock whose percent change is strictly above 3 in absolute value. Each kept stock
  is cut down to `symbol`, `name`, `price` and `changePercent`, in portfolio order.
  The list replaces `content.dailyPriceChange` in the email record, and the number
  of kept stocks is reported. The email record is a general JSON value, so the
  three ways line 23 can raise are modelled as errors: the record is not an
  object, it has no `content`, or `content` is not an object.
- **Zero-price back-fill** (`update_zero_prices.py`, module `ZeroPrices`): a loop
  over the stock list, updating it in place (an `array` here). Entries priced at
  exactly 0.0 are looked up; when the lookup yields a close, `price` and `date`
  are overwritten, and otherwise the entry is left alone and the loop moves on.

The market-data lookup is a parameter `Quote` (symbol to optional price); an empty
history and a raised exception both become `None`. Today's date is a parameter.
The file reads and writes are gone: records are in-memory values, and the modules
`Json` and `Portfolio` give their shapes.

## Model

| member | source | states |
|---|---|---|
| `EmailAlerts.Alerts` | populate_email_alerts.py:8-17 | the alert list is no longer than the stock list, and every entry in it has a move strictly above 3 percent either way |
| `EmailAlerts.SelectedPositions` | populate_email_alerts.py:15-16 | the selected positions are in range, strictly increasing, hold only stocks passing `abs(changePercent) > 3`, and include every position that passes |
| `EmailAlerts.AlertsAreSelectedProjections` | populate_email_alerts.py:8-17 | the alert list is exactly the four-field projections of the selected stocks, one per selected position, in portfolio order |
| `EmailAlerts.AlertsSound` | populate_email_alerts.py:16 | every reported entry is the projection of some input stock whose move exceeds 3 percent |
| `EmailAlerts.AlertsComplete` | populate_email_alerts.py:8-17 | every input stock whose move exceeds 3 percent is reported |
| `EmailAlerts.AlertsKeepOrder` | populate_email_alerts.py:15 | two reported stocks appear in the output in the same relative order as in the portfolio |
| `EmailAlerts.AlertsAppend` | populate_email_alerts.py:15-16 | filtering a concatenation is the concatenation of the filtered parts: each stock is judged on its own |
| `EmailAlerts.AtThresholdDropped` | populate_email_alerts.py:16 | a stock whose change is exactly 3 or exactly -3 is left out, as if it were absent from the portfolio |
| `EmailAlerts.AlertToJson` | populate_email_alerts.py:9-14 | each reported entry is a JSON object with exactly the keys symbol, name, price and changePercent |
| `EmailAlerts.AlertJsonRoundTrip` | populate_email_alerts.py:9-14 | the four values of an entry are copied unchanged: they read back exactly |
| `EmailAlerts.AlertList` | populate_email_alerts.py:8-17 | the written array has one element per alert, each reading back as that alert, in order |
| `EmailAlerts.SetDailyPriceChange` | populate_email_alerts.py:23 | succeeds exactly when the record is an object whose `content` is an object; otherwise the error names the cause (not an object, no `content`, `content` not an object); on success only `content.dailyPriceChange` is set (to the alert array) and every other key of the record and of `content` is unchanged |
| `EmailAlerts.LastWriteWins` | populate_email_alerts.py:23 | the list is overwritten, not appended: setting it twice equals setting it once with the second list |
| `EmailAlerts.PopulateEmailAlerts` | populate_email_alerts.py:8-28 | the script succeeds exactly when the email record has an object `content`, and on failure returns the line-23 error; the reported count is the number of selected stocks and at most the number of stocks; the new record is the old one with the alert list set |
| `EmailAlerts.PopulateIdempotent` | populate_email_alerts.py:23 | running the script twice on the same portfolio gives the same email record and count as running it once |
| `ZeroPrices.Refill` | update_zero_prices.py:11-23 | an entry keeps its symbol, name, change and other keys; a nonzero price or a failed lookup leaves it unchanged; a zero price with a close gets that price and today's date |
| `ZeroPrices.BackFilled` | update_zero_prices.py:10-23 | the list keeps its length and order, and each entry is handled by the per-entry rule on its own |
| `ZeroPrices.BackFillZeroPrices` | update_zero_prices.py:10-23 | the in-place loop leaves the array equal to the back-filled old contents |
| `ZeroPrices.UpdateZeroPrices` | update_zero_prices.py:6-27 | the written record has the back-filled stock list and every other top-level key as read |
| `ZeroPrices.BackFilledAppend` | update_zero_prices.py:10-23 | back-filling a list is back-filling its halves, so an entry's outcome, a failed lookup included, does not affect later entries |
| `ZeroPrices.RerunKeepsFilled` | update_zero_prices.py:11 | a later run, with any quotes and date, leaves unchanged every stock the earlier run left with a nonzero price |
| `ZeroPrices.BackFillIdempotent` | update_zero_prices.py:11-18 | a second run with the same quotes on the same day changes nothing |

## Left out

- File I/O: reading and writing `stockapp.json` and `email.json` in both scripts. Records are in-memory values.
- JSON key order: objects are maps here, so the order in which `json.dump` writes keys is not modelled.
- Records the types cannot hold: a stock is a record with `symbol`, `name`, `price`, `changePercent` (numbers for the last two) and an optional `date`, and the portfolio always has a list under "stocks". The scripts accept or reject other shapes as follows, and none of this is modelled:
  - A missing "stocks" key raises `KeyError` in both scripts (populate_email_alerts.py:15, update_zero_prices.py:10), and a value that cannot be iterated (a number, `null`) raises `TypeError`. An empty object or empty string under "stocks" iterates as an empty list without error; a non-empty one yields strings, which raise `TypeError` at the first field access.
  - An entry that is not an object raises `TypeError` at the first field access: populate_email_alerts.py:16 and update_zero_prices.py:11.
  - The alert step reads `changePercent` of every entry (line 16): a missing one raises `KeyError`, and a `null` or string raises `TypeError` in `abs`. It reads `symbol`, `name` and `price` only of the entries that pass the test (lines 10-12): a missing one raises `KeyError` there, and otherwise the value is copied whatever its JSON type.
  - The back-fill reads `price` of every entry (line 11), and a missing one raises `KeyError`. It reads `symbol` only of entries whose price equals 0.0 (line 12, outside the `try`), so only those raise `KeyError` when it is missing. It never reads `name`, `changePercent` or `date`. A price of `null`, `true` or a string is not equal to 0.0, so the entry is skipped; a price of `false` equals 0.0 in Python, so that entry is looked up and overwritten.
  - So entries that lack fields a script never reads are processed without error by that script: `{"symbol": "X", "price": 0.0}` in the back-fill, or an entry without `name` whose move is within 3 percent in the alert step. The typed `Stock` cannot represent them.
- The `yfinance` call: it is a foreign network library. It becomes the `Quote` parameter, which gives one answer per symbol; a real lookup could answer differently for a symbol repeated in the list.
- `round(float(...), 2)` on the close: floating-point numerics. The looked-up price is taken as already rounded. Prices and changes are exact reals, so NaN and negative zero are not modelled.
- `datetime.now().strftime("%Y-%m-%d")`: the clock and its formatting. The date is a parameter. The script reads the clock once for each entry it updates, after that entry's network lookup, while the model stamps every entry of a run with one date; a run that crosses midnight, giving its entries different dates, is not modelled.
- Console messages (`print`) in both scripts.
- `main.py`: a single HTTP hello route with no logic.
- The scheduled chain runner, its timer re-arming and the event subscribers belong to the wider service; their code is not part of this model.
