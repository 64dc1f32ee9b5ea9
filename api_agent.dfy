/**
 * The yfinance-backed API agent: a quote normalised into the "Global Quote" shape
 * and a price history turned into a "Time Series (Daily)" table, most recent first.
 */
module ApiAgent {
  import opened Wrappers
  import opened Text
  import opened Dict
  import opened Order
  import opened Json
  import opened Http

  /** The field table yfinance serves: `fast_info`, or `info` when that is empty. */
  function QuoteSource(fastInfo: Fields, info: Fields): Fields
  {
    if fastInfo == [] then info else fastInfo
  }

  /** `change`: rounded difference when both prices are numbers, 'N/A' otherwise. */
  function Change(q: Fields, fmt: Formats): (c: Json)
    ensures (IsNumber(GetOr(q, "lastPrice", Null)) && IsNumber(GetOr(q, "previousClose", Null)))
              ==> c == Float(fmt.round2(NumberValue(GetOr(q, "lastPrice", Null)) - NumberValue(GetOr(q, "previousClose", Null))))
    ensures !(IsNumber(GetOr(q, "lastPrice", Null)) && IsNumber(GetOr(q, "previousClose", Null))) ==> c == NA
  {
    var last, prev := GetOr(q, "lastPrice", Null), GetOr(q, "previousClose", Null);
    if IsNumber(last) && IsNumber(prev) then Float(fmt.round2(NumberValue(last) - NumberValue(prev)))
    else NA
  }

  /** `change_percent`: a percentage with a "%" suffix, only when it is defined. */
  function ChangePercent(q: Fields, fmt: Formats): (c: Json)
    ensures c.Str?
    ensures c != NA ==> (IsNumber(GetOr(q, "lastPrice", Null)) && IsNumber(GetOr(q, "previousClose", Null))
                          && NumberValue(GetOr(q, "previousClose", Null)) != 0.0)
    ensures (IsNumber(GetOr(q, "lastPrice", Null)) && IsNumber(GetOr(q, "previousClose", Null))
              && NumberValue(GetOr(q, "previousClose", Null)) != 0.0)
              ==> var last, prev := NumberValue(GetOr(q, "lastPrice", Null)), NumberValue(GetOr(q, "previousClose", Null));
                  c == Str(fmt.fixed2((last - prev) / prev * 100.0) + "%")
  {
    var last, prev := GetOr(q, "lastPrice", Null), GetOr(q, "previousClose", Null);
    if IsNumber(last) && IsNumber(prev) && NumberValue(prev) != 0.0 then
      Str(fmt.fixed2((NumberValue(last) - NumberValue(prev)) / NumberValue(prev) * 100.0) + "%")
    else NA
  }

  /** The "Global Quote" display of the normalised quote, in its key order. */
  function QuoteDisplay(symbol: Json, open: Json, high: Json, low: Json, price: Json, volume: Json,
                        day: Json, prev: Json, change: Json, pct: Json): (g: Fields)
    ensures Keys(g) == ["symbol", "open", "high", "low", "price", "volume", "latest_trading_day",
                        "previous_close", "change", "change_percent"]
  {
    Cons("symbol", symbol,
    Cons("open", open,
    Cons("high", high,
    Cons("low", low,
    Cons("price", price,
    Cons("volume", volume,
    Cons("latest_trading_day", day,
    Cons("previous_close", prev,
    Cons("change", change,
    Cons("change_percent", pct, []))))))))))
  }

  /** Each key of the display holds the value given for it. */
  lemma QuoteDisplayFields(symbol: Json, open: Json, high: Json, low: Json, price: Json, volume: Json,
                           day: Json, prev: Json, change: Json, pct: Json)
    ensures var g := QuoteDisplay(symbol, open, high, low, price, volume, day, prev, change, pct);
      && Get(g, "symbol") == Some(symbol) && Get(g, "open") == Some(open)
      && Get(g, "high") == Some(high) && Get(g, "low") == Some(low)
      && Get(g, "price") == Some(price) && Get(g, "volume") == Some(volume)
      && Get(g, "latest_trading_day") == Some(day) && Get(g, "previous_close") == Some(prev)
      && Get(g, "change") == Some(change) && Get(g, "change_percent") == Some(pct)
  {
    var r10: Fields := [];
    var r9 := Cons("change_percent", pct, r10);
    var r8 := Cons("change", change, r9);
    var r7 := Cons("previous_close", prev, r8);
    var r6 := Cons("latest_trading_day", day, r7);
    var r5 := Cons("volume", volume, r6);
    var r4 := Cons("price", price, r5);
    var r3 := Cons("low", low, r4);
    var r2 := Cons("high", high, r3);
    var r1 := Cons("open", open, r2);
    var r0 := Cons("symbol", symbol, r1);
    assert Get(r0, "symbol") == Some(symbol) by {
      GetCons("symbol", symbol, r1, "symbol");
    }
    assert Get(r0, "open") == Some(open) by {
      GetCons("symbol", symbol, r1, "open");
      GetCons("open", open, r2, "open");
    }
    assert Get(r0, "high") == Some(high) by {
      GetCons("symbol", symbol, r1, "high");
      GetCons("open", open, r2, "high");
      GetCons("high", high, r3, "high");
    }
    assert Get(r0, "low") == Some(low) by {
      GetCons("symbol", symbol, r1, "low");
      GetCons("open", open, r2, "low");
      GetCons("high", high, r3, "low");
      GetCons("low", low, r4, "low");
    }
    assert Get(r0, "price") == Some(price) by {
      GetCons("symbol", symbol, r1, "price");
      GetCons("open", open, r2, "price");
      GetCons("high", high, r3, "price");
      GetCons("low", low, r4, "price");
      GetCons("price", price, r5, "price");
    }
    assert Get(r0, "volume") == Some(volume) by {
      GetCons("symbol", symbol, r1, "volume");
      GetCons("open", open, r2, "volume");
      GetCons("high", high, r3, "volume");
      GetCons("low", low, r4, "volume");
      GetCons("price", price, r5, "volume");
      GetCons("volume", volume, r6, "volume");
    }
    assert Get(r0, "latest_trading_day") == Some(day) by {
      GetCons("symbol", symbol, r1, "latest_trading_day");
      GetCons("open", open, r2, "latest_trading_day");
      GetCons("high", high, r3, "latest_trading_day");
      GetCons("low", low, r4, "latest_trading_day");
      GetCons("price", price, r5, "latest_trading_day");
      GetCons("volume", volume, r6, "latest_trading_day");
      GetCons("latest_trading_day", day, r7, "latest_trading_day");
    }
    assert Get(r0, "previous_close") == Some(prev) by {
      GetCons("symbol", symbol, r1, "previous_close");
      GetCons("open", open, r2, "previous_close");
      GetCons("high", high, r3, "previous_close");
      GetCons("low", low, r4, "previous_close");
      GetCons("price", price, r5, "previous_close");
      GetCons("volume", volume, r6, "previous_close");
      GetCons("latest_trading_day", day, r7, "previous_close");
      GetCons("previous_close", prev, r8, "previous_close");
    }
    assert Get(r0, "change") == Some(change) by {
      GetCons("symbol", symbol, r1, "change");
      GetCons("open", open, r2, "change");
      GetCons("high", high, r3, "change");
      GetCons("low", low, r4, "change");
      GetCons("price", price, r5, "change");
      GetCons("volume", volume, r6, "change");
      GetCons("latest_trading_day", day, r7, "change");
      GetCons("previous_close", prev, r8, "change");
      GetCons("change", change, r9, "change");
    }
    assert Get(r0, "change_percent") == Some(pct) by {
      GetCons("symbol", symbol, r1, "change_percent");
      GetCons("open", open, r2, "change_percent");
      GetCons("high", high, r3, "change_percent");
      GetCons("low", low, r4, "change_percent");
      GetCons("price", price, r5, "change_percent");
      GetCons("volume", volume, r6, "change_percent");
      GetCons("latest_trading_day", day, r7, "change_percent");
      GetCons("previous_close", prev, r8, "change_percent");
      GetCons("change", change, r9, "change_percent");
      GetCons("change_percent", pct, r10, "change_percent");
    }
  }

  /** The normalised quote, field by field. */
  function NormalizedQuote(symbol: string, q: Fields, today: string, fmt: Formats): Fields
  {
    QuoteDisplay(GetOr(q, "symbol", Str(symbol)), GetOr(q, "open", NA), GetOr(q, "dayHigh", NA),
                 GetOr(q, "dayLow", NA), GetOr(q, "lastPrice", NA), GetOr(q, "volume", NA), Str(today),
                 GetOr(q, "previousClose", NA), Change(q, fmt), ChangePercent(q, fmt))
  }

  /**
   * `get_yfinance_quote(symbol)`: `fastInfo` and `info` are what yfinance returns,
   * `today` is `date.today().isoformat()`.
   */
  function YFinanceQuote(symbol: string, fastInfo: Fields, info: Fields, today: string, fmt: Formats)
    : (r: Result<Json, HttpError>)
    ensures var q := QuoteSource(fastInfo, info);
      r.Err? <==> "lastPrice" !in KeySet(q)
    ensures r.Err? ==> r.error == HttpError(404, "No real-time quote data found for " + symbol + ".")
    ensures r.Ok? ==> r.value == Obj([("Global Quote", Obj(NormalizedQuote(symbol, QuoteSource(fastInfo, info), today, fmt)))])
  {
    var q := QuoteSource(fastInfo, info);
    if q == [] || "lastPrice" !in KeySet(q) then
      Err(HttpError(404, "No real-time quote data found for " + symbol + "."))
    else
      Ok(Obj([("Global Quote", Obj(NormalizedQuote(symbol, q, today, fmt)))]))
  }

  /**
   * The field mapping of a normalised quote: price, high, low and previous close come
   * from lastPrice, dayHigh, dayLow and previousClose, each 'N/A' when absent.
   */
  lemma QuoteFields(symbol: string, q: Fields, today: string, fmt: Formats)
    requires "lastPrice" in KeySet(q)
    ensures var g := NormalizedQuote(symbol, q, today, fmt);
      && Get(g, "price") == Get(q, "lastPrice")
      && Get(g, "high") == Some(GetOr(q, "dayHigh", NA))
      && Get(g, "low") == Some(GetOr(q, "dayLow", NA))
      && Get(g, "open") == Some(GetOr(q, "open", NA))
      && Get(g, "volume") == Some(GetOr(q, "volume", NA))
      && Get(g, "previous_close") == Some(GetOr(q, "previousClose", NA))
      && Get(g, "symbol") == Some(GetOr(q, "symbol", Str(symbol)))
      && Get(g, "latest_trading_day") == Some(Str(today))
      && Get(g, "change") == Some(Change(q, fmt))
      && Get(g, "change_percent") == Some(ChangePercent(q, fmt))
  {
    QuoteDisplayFields(GetOr(q, "symbol", Str(symbol)), GetOr(q, "open", NA), GetOr(q, "dayHigh", NA),
                       GetOr(q, "dayLow", NA), GetOr(q, "lastPrice", NA), GetOr(q, "volume", NA), Str(today),
                       GetOr(q, "previousClose", NA), Change(q, fmt), ChangePercent(q, fmt));
  }

  /** One trading day of the price history, as pandas hands it over. */
  datatype Bar = Bar(day: string, open: real, high: real, low: real, close: real, volume: real)

  /** The per-day record, in the numbered keys of the AlphaVantage shape. */
  function DayRecord(b: Bar, fmt: Formats): Json
  {
    Obj([ ("1. open", Str(fmt.fixed4(b.open))),
          ("2. high", Str(fmt.fixed4(b.high))),
          ("3. low", Str(fmt.fixed4(b.low))),
          ("4. close", Str(fmt.fixed4(b.close))),
          ("5. volume", Str(IntToDecimal(TruncateTowardZero(b.volume)))) ])
  }

  /** The dates the history carries. */
  function Days(rows: seq<Bar>): (ds: set<string>)
    ensures forall i :: 0 <= i < |rows| ==> rows[i].day in ds
    ensures forall d :: d in ds ==> exists i :: 0 <= i < |rows| && rows[i].day == d
    decreases |rows|
  {
    if rows == [] then {}
    else
      var init := rows[..|rows| - 1];
      assert forall i :: 0 <= i < |init| ==> init[i] == rows[i];
      Days(init) + {rows[|rows| - 1].day}
  }

  /** The table the row loop builds: `time_series_data[date_str] = ...` for each row in turn. */
  function SeriesTable(rows: seq<Bar>, fmt: Formats): (t: Fields)
    ensures UniqueKeys(t)
    ensures KeySet(t) == Days(rows)
    decreases |rows|
  {
    if rows == [] then []
    else Put(SeriesTable(rows[..|rows| - 1], fmt), rows[|rows| - 1].day, DayRecord(rows[|rows| - 1], fmt))
  }

  /**
   * The "Time Series (Daily)" table: one entry per distinct date, holding that date's
   * last row, keys strictly descending.
   */
  function HistoryTable(rows: seq<Bar>, fmt: Formats): (t: Fields)
    ensures UniqueKeys(t)
    ensures SortedByKeyDescending(t)
    ensures KeySet(t) == Days(rows)
    ensures forall d :: d in Days(rows) ==> Get(t, d) == Some(DayRecord(rows[LastRowFor(rows, d)], fmt))
  {
    var s := SeriesTable(rows, fmt);
    var t := SortByKeyDescending(s);
    PermutationUniqueKeys(s, t);
    forall d | d in Days(rows)
      ensures Get(t, d) == Some(DayRecord(rows[LastRowFor(rows, d)], fmt))
    {
      SeriesTableLastWins(rows, d, fmt);
    }
    t
  }

  /** `get_yfinance_daily_adjusted` once the history is in hand: an empty history is a 404. */
  function DailyAdjusted(symbol: string, period: string, rows: seq<Bar>, fmt: Formats): (r: Result<Json, HttpError>)
    ensures r.Err? <==> rows == []
    ensures r.Err? ==> r.error == HttpError(404, "No historical data found for " + symbol + " for period " + period + ".")
    ensures r.Ok? ==> r.value == Obj([("Time Series (Daily)", Obj(HistoryTable(rows, fmt)))])
  {
    if rows == [] then Err(HttpError(404, "No historical data found for " + symbol + " for period " + period + "."))
    else Ok(Obj([("Time Series (Daily)", Obj(HistoryTable(rows, fmt)))]))
  }

  /** One more row of the history is one more assignment into the table. */
  lemma SeriesTableStep(rows: seq<Bar>, i: nat, fmt: Formats)
    requires i < |rows|
    ensures SeriesTable(rows[..i + 1], fmt) == Put(SeriesTable(rows[..i], fmt), rows[i].day, DayRecord(rows[i], fmt))
  {
    assert rows[..i + 1][..i] == rows[..i];
  }

  /** `get_yfinance_daily_adjusted(symbol, period)`, with `rows` the rows of `ticker.history(...)`. */
  method YFinanceDailyAdjusted(symbol: string, period: string, rows: seq<Bar>, fmt: Formats)
    returns (r: Result<Json, HttpError>)
    ensures r == DailyAdjusted(symbol, period, rows, fmt)
  {
    if rows == [] {
      return Err(HttpError(404, "No historical data found for " + symbol + " for period " + period + "."));
    }
    var series: Fields := [];
    var i := 0;
    while i < |rows|
      invariant 0 <= i <= |rows|
      invariant series == SeriesTable(rows[..i], fmt)
    {
      SeriesTableStep(rows, i, fmt);
      series := Put(series, rows[i].day, DayRecord(rows[i], fmt));
      i := i + 1;
    }
    assert rows[..|rows|] == rows;
    r := Ok(Obj([("Time Series (Daily)", Obj(SortByKeyDescending(series)))]));
    assert HistoryTable(rows, fmt) == SortByKeyDescending(series);
  }

  /** The index of the last row for `day`: the row whose values the table keeps. */
  function LastRowFor(rows: seq<Bar>, day: string): (i: nat)
    requires day in Days(rows)
    ensures i < |rows| && rows[i].day == day
    ensures forall j :: i < j < |rows| ==> rows[j].day != day
    decreases |rows|
  {
    if rows[|rows| - 1].day == day then |rows| - 1
    else LastRowFor(rows[..|rows| - 1], day)
  }

  /** A day is stored with the record of the last row carrying that date. */
  lemma {:induction false} SeriesTableLastWins(rows: seq<Bar>, day: string, fmt: Formats)
    requires day in Days(rows)
    ensures Get(SeriesTable(rows, fmt), day) == Some(DayRecord(rows[LastRowFor(rows, day)], fmt))
    decreases |rows|
  {
    if rows[|rows| - 1].day != day {
      SeriesTableLastWins(rows[..|rows| - 1], day, fmt);
    }
  }
}
