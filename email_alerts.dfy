/**
 * The alert step (populate_email_alerts.py): pick out the stocks whose daily move
 * exceeds 3 percent either way, keep four fields of each, and put that list into
 * the "dailyPriceChange" slot of the email record.
 */
module EmailAlerts {
  import opened Wrappers
  import opened Json
  import opened Portfolio

  /** A move must be strictly larger than this, in percent, to be reported. */
  const Threshold: real := 3.0

  function Abs(x: real): real {
    if x < 0.0 then -x else x
  }

  /** The comprehension's condition: `abs(changePercent) > 3`. */
  predicate Notable(s: Stock) {
    Abs(s.changePercent) > Threshold
  }

  /** One entry of the reported list: the four fields copied from a stock. */
  datatype Alert = Alert(symbol: string, name: string, price: real, changePercent: real)

  function Project(s: Stock): Alert {
    Alert(s.symbol, s.name, s.price, s.changePercent)
  }

  /**
   * The filtered list, built the way the comprehension builds it: walk the stocks
   * in order and append the projection of each notable one.
   */
  function Alerts(stocks: seq<Stock>): (r: seq<Alert>)
    ensures |r| <= |stocks|
    ensures forall a :: a in r ==> Abs(a.changePercent) > Threshold
  {
    if stocks == [] then []
    else
      var n := |stocks| - 1;
      Alerts(stocks[..n]) + (if Notable(stocks[n]) then [Project(stocks[n])] else [])
  }

  /**
   * The positions of the notable stocks, in increasing order: exactly the
   * positions whose stock passes the test.
   */
  function SelectedPositions(stocks: seq<Stock>): (r: seq<nat>)
    ensures forall k :: 0 <= k < |r| ==> r[k] < |stocks| && Notable(stocks[r[k]])
    ensures forall k, l :: 0 <= k < l < |r| ==> r[k] < r[l]
    ensures forall i :: 0 <= i < |stocks| && Notable(stocks[i]) ==> i in r
  {
    if stocks == [] then []
    else
      var n := |stocks| - 1;
      SelectedPositions(stocks[..n]) + (if Notable(stocks[n]) then [n] else [])
  }

  /**
   * The alert list is exactly the projections of the stocks at the selected
   * positions, in the order of those positions.
   */
  lemma {:induction false} AlertsAreSelectedProjections(stocks: seq<Stock>)
    ensures |Alerts(stocks)| == |SelectedPositions(stocks)|
    ensures forall k :: 0 <= k < |Alerts(stocks)| ==>
              Alerts(stocks)[k] == Project(stocks[SelectedPositions(stocks)[k]])
  {
    if stocks != [] {
      var n := |stocks| - 1;
      var init := stocks[..n];
      AlertsAreSelectedProjections(init);
      forall k | 0 <= k < |SelectedPositions(init)|
        ensures init[SelectedPositions(init)[k]] == stocks[SelectedPositions(init)[k]]
      {
      }
    }
  }

  /** Every output entry comes from a notable input stock. */
  lemma AlertsSound(stocks: seq<Stock>, k: nat)
    requires k < |Alerts(stocks)|
    ensures exists i :: 0 <= i < |stocks| && Notable(stocks[i]) && Alerts(stocks)[k] == Project(stocks[i])
  {
    AlertsAreSelectedProjections(stocks);
    var i := SelectedPositions(stocks)[k];
    assert Notable(stocks[i]) && Alerts(stocks)[k] == Project(stocks[i]);
  }

  /** Every notable input stock is reported. */
  lemma AlertsComplete(stocks: seq<Stock>, i: nat)
    requires i < |stocks| && Notable(stocks[i])
    ensures Project(stocks[i]) in Alerts(stocks)
  {
    AlertsAreSelectedProjections(stocks);
    var pos := SelectedPositions(stocks);
    var k :| 0 <= k < |pos| && pos[k] == i;
    assert Alerts(stocks)[k] == Project(stocks[i]);
  }

  /** Two notable stocks are reported in the order in which they appear in the portfolio. */
  lemma AlertsKeepOrder(stocks: seq<Stock>, i: nat, j: nat)
    requires i < j < |stocks| && Notable(stocks[i]) && Notable(stocks[j])
    ensures exists k, l :: 0 <= k < l < |Alerts(stocks)|
              && Alerts(stocks)[k] == Project(stocks[i])
              && Alerts(stocks)[l] == Project(stocks[j])
  {
    AlertsAreSelectedProjections(stocks);
    var pos := SelectedPositions(stocks);
    var k :| 0 <= k < |pos| && pos[k] == i;
    var l :| 0 <= l < |pos| && pos[l] == j;
    assert k < l;
    assert Alerts(stocks)[k] == Project(stocks[i]) && Alerts(stocks)[l] == Project(stocks[j]);
  }

  /** Filtering distributes over concatenation: each stock is judged on its own. */
  lemma {:induction false} AlertsAppend(a: seq<Stock>, b: seq<Stock>)
    ensures Alerts(a + b) == Alerts(a) + Alerts(b)
  {
    if b == [] {
      assert a + b == a;
    } else {
      var n := |b| - 1;
      assert (a + b)[..|a + b| - 1] == a + b[..n];
      assert (a + b)[|a + b| - 1] == b[n];
      AlertsAppend(a, b[..n]);
    }
  }

  /**
   * The comparison is strict: a stock that moved exactly 3 or exactly -3 percent
   * is dropped, as if it were not in the portfolio at all.
   */
  lemma AtThresholdDropped(before: seq<Stock>, s: Stock, after: seq<Stock>)
    requires s.changePercent == 3.0 || s.changePercent == -3.0
    ensures Alerts(before + [s] + after) == Alerts(before + after)
  {
    AlertsAppend(before + [s], after);
    AlertsAppend(before, [s]);
    AlertsAppend(before, after);
    assert [s][..0] == [];
  }

  /** The JSON object written for one alert: exactly the four copied keys. */
  function AlertToJson(a: Alert): (j: Json)
    ensures j.Obj? && j.fields.Keys == {"symbol", "name", "price", "changePercent"}
  {
    Obj(map["symbol" := Str(a.symbol), "name" := Str(a.name),
            "price" := Num(a.price), "changePercent" := Num(a.changePercent)])
  }

  /** Reads an alert back from a JSON object with exactly the four keys. */
  function AlertFromJson(j: Json): Option<Alert> {
    match j
    case Obj(f) =>
      if f.Keys == {"symbol", "name", "price", "changePercent"}
         && f["symbol"].Str? && f["name"].Str? && f["price"].Num? && f["changePercent"].Num?
      then Some(Alert(f["symbol"].s, f["name"].s, f["price"].n, f["changePercent"].n))
      else None
    case _ => None
  }

  /** Nothing of an alert is lost in its JSON form. */
  lemma AlertJsonRoundTrip(a: Alert)
    ensures AlertFromJson(AlertToJson(a)) == Some(a)
  {
  }

  /** The JSON array written into "dailyPriceChange". */
  function AlertList(alerts: seq<Alert>): (j: Json)
    ensures j.Arr? && |j.items| == |alerts|
    ensures forall k :: 0 <= k < |alerts| ==> AlertFromJson(j.items[k]) == Some(alerts[k])
  {
    Arr(seq(|alerts|, k requires 0 <= k < |alerts| => AlertToJson(alerts[k])))
  }

  /** Why `email_data["content"]["dailyPriceChange"] = ...` can raise. */
  datatype EmailError =
    | EmailNotAnObject   // indexing a non-dictionary document with "content"
    | NoContent          // the document has no "content" key
    | ContentNotAnObject // "content" holds something other than a dictionary

  /** Whether line 23 of the script can assign into this email record. */
  predicate HasContentObject(email: Json) {
    email.Obj? && "content" in email.fields && email.fields["content"].Obj?
  }

  /**
   * Overwrites (or creates) "dailyPriceChange" inside "content" and leaves every
   * other key of the record and of "content" as it was.
   */
  function SetDailyPriceChange(email: Json, alerts: seq<Alert>): (r: Result<Json, EmailError>)
    ensures r.Ok? <==> HasContentObject(email)
    ensures !email.Obj? ==> r == Err(EmailNotAnObject)
    ensures email.Obj? && "content" !in email.fields ==> r == Err(NoContent)
    ensures email.Obj? && "content" in email.fields && !email.fields["content"].Obj? ==>
              r == Err(ContentNotAnObject)
    ensures r.Ok? ==>
              && HasContentObject(r.value)
              && r.value.fields.Keys == email.fields.Keys
              && (forall key :: key in email.fields && key != "content" ==>
                    r.value.fields[key] == email.fields[key])
              && r.value.fields["content"].fields.Keys
                   == email.fields["content"].fields.Keys + {"dailyPriceChange"}
              && (forall key :: key in email.fields["content"].fields && key != "dailyPriceChange" ==>
                    r.value.fields["content"].fields[key] == email.fields["content"].fields[key])
              && r.value.fields["content"].fields["dailyPriceChange"] == AlertList(alerts)
  {
    match email
    case Obj(top) =>
      if "content" !in top then Err(NoContent)
      else (
        match top["content"]
        case Obj(content) =>
          Ok(Obj(top["content" := Obj(content["dailyPriceChange" := AlertList(alerts)])]))
        case _ => Err(ContentNotAnObject))
    case _ => Err(EmailNotAnObject)
  }

  /** The list is overwritten, not appended to: the last assignment alone decides it. */
  lemma LastWriteWins(email: Json, first: seq<Alert>, second: seq<Alert>)
    requires SetDailyPriceChange(email, first).Ok?
    ensures SetDailyPriceChange(SetDailyPriceChange(email, first).value, second)
              == SetDailyPriceChange(email, second)
  {
    var top := email.fields;
    var content := top["content"].fields;
    assert content["dailyPriceChange" := AlertList(first)]["dailyPriceChange" := AlertList(second)]
           == content["dailyPriceChange" := AlertList(second)];
    assert top["content" := Obj(content["dailyPriceChange" := AlertList(first)])]
              ["content" := Obj(content["dailyPriceChange" := AlertList(second)])]
           == top["content" := Obj(content["dailyPriceChange" := AlertList(second)])];
  }

  /** What the script reports: the new email record and the number of stocks added. */
  datatype Outcome = Outcome(email: Json, added: nat)

  /** The whole script with its file reads and writes taken away. */
  function PopulateEmailAlerts(data: StockApp, email: Json): (r: Result<Outcome, EmailError>)
    ensures r.Ok? <==> HasContentObject(email)
    ensures r.Ok? ==> r.value.added <= |data.stocks|
    ensures r.Ok? ==> r.value.added == |SelectedPositions(data.stocks)|
    ensures r.Ok? ==> SetDailyPriceChange(email, Alerts(data.stocks)) == Ok(r.value.email)
    ensures r.Err? ==> SetDailyPriceChange(email, Alerts(data.stocks)) == Err(r.error)
  {
    var filtered := Alerts(data.stocks);
    AlertsAreSelectedProjections(data.stocks);
    match SetDailyPriceChange(email, filtered)
    case Ok(updated) => Ok(Outcome(updated, |filtered|))
    case Err(e) => Err(e)
  }

  /** Running the script twice on the same portfolio leaves the email record as the first run left it. */
  lemma PopulateIdempotent(data: StockApp, email: Json)
    requires PopulateEmailAlerts(data, email).Ok?
    ensures PopulateEmailAlerts(data, PopulateEmailAlerts(data, email).value.email)
              == PopulateEmailAlerts(data, email)
  {
    LastWriteWins(email, Alerts(data.stocks), Alerts(data.stocks));
  }
}
