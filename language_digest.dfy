/**
 * `analyze_data` in the language agent: the retrieved-context lines built from the
 * analysis agent's reply, the quotes, the histories and the portfolio.  A line's
 * conversions may raise ValueError, which the code catches and replaces by a line of
 * raw data; anything else (an AttributeError, a TypeError) escapes the node and is
 * given here as `Err` with its message.
 */
module LanguageDigest {
  import opened Wrappers
  import opened Text
  import opened Dict
  import opened Order
  import opened Json
  import opened Lists
  import opened LanguageState
  import ApiAgent
  import AlphaVantage
  import AnalysisAgent

  /** The text written when the analysis reply has no summary. */
  const NoSummary: string := "No specific summary provided."

  /**
   * The first line: the analysis agent's summary, or what went wrong contacting it.
   * `reply` is the decoded body, or the message of the RequestException raised on
   * the way (connection, error status, undecodable body).
   */
  function AnalysisLine(reply: Result<Json, string>, fmt: Formats): (line: string)
    ensures reply.Err? ==> line == "Error contacting analysis agent: " + reply.error
    ensures reply.Ok? && !reply.value.Obj? ==>
      line == "Unexpected error during analysis: " + AttributeError(reply.value, "get")
  {
    match reply
    case Err(e) => "Error contacting analysis agent: " + e
    case Ok(body) =>
      match PyGet(body, "summary", Str(NoSummary))
      case Ok(summary) => "Analysis insights: " + Show(summary, fmt)
      case Err(e) => "Unexpected error during analysis: " + e
  }

  /** A reply without a summary still yields an insights line, with the stock text. */
  lemma AnalysisWithoutSummary(fields: Fields, fmt: Formats)
    requires "summary" !in KeySet(fields)
    ensures AnalysisLine(Ok(Obj(fields)), fmt) == "Analysis insights: " + NoSummary
  {
    assert PyGet(Obj(fields), "summary", Str(NoSummary)) == Ok(Str(NoSummary));
  }

  /** When the analysis agent answers, the line carries its summary text unchanged. */
  lemma AnalysisFromAgent(a: AnalysisAgent.AnalysisInput, llm: string -> AnalysisAgent.Out, fmt: Formats)
    requires AnalysisAgent.AnalyzeBriefData(a, llm, fmt).Ok?
    ensures AnalysisLine(Ok(AnalysisAgent.AnalyzeBriefData(a, llm, fmt).value), fmt)
      == "Analysis insights: " + llm(AnalysisAgent.Context(a, fmt).value).value
  {
    var summary := llm(AnalysisAgent.Context(a, fmt).value).value;
    assert Get([("summary", Str(summary))], "summary") == Some(Str(summary)) by {
      GetCons("summary", Str(summary), [], "summary");
      assert Cons("summary", Str(summary), []) == [("summary", Str(summary))];
    }
  }

  /** `float(x) if x != 'N/A' else ...`: None stands for the placeholder kept as it is. */
  function FloatOrNA(x: Json, fmt: Formats): (r: Result<Option<real>, ConversionError>)
    ensures x == NA ==> r == Ok(None)
    ensures IsNumber(x) ==> r == Ok(Some(NumberValue(x)))
    ensures r.Err? && r.error.TypeError? <==> !IsNumber(x) && !x.Str?
  {
    if x == NA then Ok(None)
    else
      match ToFloat(x, fmt)
      case Ok(v) => Ok(Some(v))
      case Err(e) => Err(e)
  }

  /** `f"{v:.2f}"` followed by `suffix` for a number, the placeholder itself otherwise. */
  function Fixed(v: Option<real>, suffix: string, fmt: Formats): string
  {
    if v.Some? then fmt.fixed2(v.value) + suffix else "N/A"
  }

  /** The three conversions of the quote's `try`, in order; the first that raises wins. */
  function ParseQuote(price: Json, change: Json, percent: Json, fmt: Formats)
    : (r: Result<(Option<real>, Option<real>, Option<real>), ConversionError>)
    ensures r.Err? && r.error.TypeError? ==>
      (!IsNumber(price) && !price.Str?) || (!IsNumber(change) && !change.Str?) || (!IsNumber(percent) && !percent.Str?)
    ensures FloatOrNA(price, fmt).Err? ==> r == Err(FloatOrNA(price, fmt).error)
    ensures FloatOrNA(price, fmt).Ok? && FloatOrNA(change, fmt).Err? ==> r == Err(FloatOrNA(change, fmt).error)
    ensures FloatOrNA(price, fmt).Ok? && FloatOrNA(change, fmt).Ok? && FloatOrNA(percent, fmt).Err? ==>
      r == Err(FloatOrNA(percent, fmt).error)
    ensures r.Ok? <==> FloatOrNA(price, fmt).Ok? && FloatOrNA(change, fmt).Ok? && FloatOrNA(percent, fmt).Ok?
    ensures r.Ok? ==> r.value == (FloatOrNA(price, fmt).value, FloatOrNA(change, fmt).value, FloatOrNA(percent, fmt).value)
  {
    match FloatOrNA(price, fmt)
    case Err(e) => Err(e)
    case Ok(p) =>
      match FloatOrNA(change, fmt)
      case Err(e) => Err(e)
      case Ok(c) =>
        match FloatOrNA(percent, fmt)
        case Err(e) => Err(e)
        case Ok(cp) => Ok((p, c, cp))
  }

  function QuotePrefix(ticker: string): string
  {
    "Real-time quote for " + ticker + ": "
  }

  /**
   * The quote line of one ticker.  `wrapped` is what the API agent returned for it,
   * expected to hold the normalised quote under "Global Quote".
   */
  function QuoteDigest(ticker: string, wrapped: Json, fmt: Formats): (r: Result<string, string>)
    ensures r.Ok? ==> StartsWith(r.value, QuotePrefix(ticker))
    ensures r.Ok? ==> wrapped.Obj?
  {
    match PyGet(wrapped, "Global Quote", Obj([]))
    case Err(e) => Err(e)
    case Ok(quote) => QuoteOf(ticker, quote, fmt)
  }

  /** The quote line from the quote itself: an empty one is reported unavailable. */
  function QuoteOf(ticker: string, quote: Json, fmt: Formats): (r: Result<string, string>)
    ensures r.Ok? ==> StartsWith(r.value, QuotePrefix(ticker))
    ensures !Truthy(quote) ==> r == Ok(QuotePrefix(ticker) + "Data not fully available.")
  {
    if !Truthy(quote) then
      PrefixOfAppend(QuotePrefix(ticker), "Data not fully available.");
      Ok(QuotePrefix(ticker) + "Data not fully available.")
    else if !quote.Obj? then Err(AttributeError(quote, "get"))
    else
      QuoteValuesLine(ticker, GetOr(quote.fields, "price", NA), GetOr(quote.fields, "change", NA),
                      GetOr(quote.fields, "change_percent", NA), fmt)
  }

  /** The quote line from the price, the change and the change percent. */
  function QuoteValuesLine(ticker: string, price: Json, change: Json, percent: Json, fmt: Formats)
    : (r: Result<string, string>)
    ensures r.Ok? ==> StartsWith(r.value, QuotePrefix(ticker))
    ensures r.Err? <==> (!percent.Str? ||
      var parsed := ParseQuote(price, change, Str(RemoveChar(percent.s, '%')), fmt);
      parsed.Err? && parsed.error.TypeError?)
    ensures percent.Str? && ParseQuote(price, change, Str(RemoveChar(percent.s, '%')), fmt) == Err(ValueError) ==>
      r == Ok(QuotePrefix(ticker) + ("Price=" + Show(price, fmt) + ", Change=" + Show(change, fmt) + " (" + percent.s + ")"))
    ensures percent.Str? && ParseQuote(price, change, Str(RemoveChar(percent.s, '%')), fmt).Ok? ==>
      var v := ParseQuote(price, change, Str(RemoveChar(percent.s, '%')), fmt).value;
      r == Ok(QuotePrefix(ticker) + ("Price=" + Fixed(v.0, "", fmt) + ", Change=" + Fixed(v.1, "", fmt)
                                     + " (" + Fixed(v.2, "%", fmt) + ")"))
  {
    // `.replace('%', '')` comes before the `try`
    if !percent.Str? then Err(AttributeError(percent, "replace"))
    else
      match ParseQuote(price, change, Str(RemoveChar(percent.s, '%')), fmt)
      case Err(ValueError) =>
        var rest := "Price=" + Show(price, fmt) + ", Change=" + Show(change, fmt) + " (" + percent.s + ")";
        PrefixOfAppend(QuotePrefix(ticker), rest);
        Ok(QuotePrefix(ticker) + rest)
      case Err(TypeError(m)) => Err(m)
      case Ok((p, c, cp)) =>
        var rest := "Price=" + Fixed(p, "", fmt) + ", Change=" + Fixed(c, "", fmt) + " (" + Fixed(cp, "%", fmt) + ")";
        PrefixOfAppend(QuotePrefix(ticker), rest);
        Ok(QuotePrefix(ticker) + rest)
  }

  /**
   * A quote whose price and change are numbers and whose change percent is a number
   * followed by '%' is shown with two decimals each, the percent followed by '%'.
   */
  lemma QuoteFormatted(ticker: string, quote: Json, fmt: Formats, pct: real)
    requires quote.Obj? && quote.fields != []
    requires IsNumber(GetOr(quote.fields, "price", NA)) && IsNumber(GetOr(quote.fields, "change", NA))
    requires GetOr(quote.fields, "change_percent", NA).Str?
    requires var s := RemoveChar(GetOr(quote.fields, "change_percent", NA).s, '%'); s != "N/A" && fmt.parseFloat(s) == Some(pct)
    ensures QuoteOf(ticker, quote, fmt)
      == Ok(QuotePrefix(ticker) + ("Price=" + fmt.fixed2(NumberValue(GetOr(quote.fields, "price", NA)))
                                   + ", Change=" + fmt.fixed2(NumberValue(GetOr(quote.fields, "change", NA)))
                                   + " (" + (fmt.fixed2(pct) + "%") + ")"))
  {
    var price, change, percent := GetOr(quote.fields, "price", NA), GetOr(quote.fields, "change", NA),
      GetOr(quote.fields, "change_percent", NA);
    var stripped := Str(RemoveChar(percent.s, '%'));
    assert FloatOrNA(stripped, fmt) == Ok(Some(pct));
    assert ParseQuote(price, change, stripped, fmt) == Ok((Some(NumberValue(price)), Some(NumberValue(change)), Some(pct)));
    assert QuoteOf(ticker, quote, fmt) == QuoteValuesLine(ticker, price, change, percent, fmt);
    assert Fixed(Some(NumberValue(price)), "", fmt) == fmt.fixed2(NumberValue(price));
    assert Fixed(Some(NumberValue(change)), "", fmt) == fmt.fixed2(NumberValue(change));
    assert Fixed(Some(pct), "%", fmt) == fmt.fixed2(pct) + "%";
  }

  /**
   * A price that is text but not a number (ValueError) gives the line of the raw
   * values, where the change percent keeps its '%'.
   */
  lemma QuoteRaw(ticker: string, quote: Json, fmt: Formats)
    requires quote.Obj? && quote.fields != []
    requires var price := GetOr(quote.fields, "price", NA); price.Str? && price != NA && fmt.parseFloat(price.s).None?
    requires GetOr(quote.fields, "change_percent", NA).Str?
    ensures QuoteOf(ticker, quote, fmt)
      == Ok(QuotePrefix(ticker) + ("Price=" + GetOr(quote.fields, "price", NA).s
                                   + ", Change=" + Show(GetOr(quote.fields, "change", NA), fmt)
                                   + " (" + GetOr(quote.fields, "change_percent", NA).s + ")"))
  {
  }

  /** A key is in a dictionary exactly when it is among its keys in order. */
  lemma InKeys(d: Fields, k: string)
    ensures k in KeySet(d) <==> k in Keys(d)
  {
    if k in KeySet(d) {
      var i :| 0 <= i < |d| && d[i].0 == k;
      assert Keys(d)[i] == k;
    }
  }

  /** "Global Quote" is not one of the normalised quote's keys. */
  lemma NotDisplayKey()
    ensures "Global Quote" !in ["symbol", "open", "high", "low", "price", "volume", "latest_trading_day",
                                "previous_close", "change", "change_percent"]
  {
    var ks := ["symbol", "open", "high", "low", "price", "volume", "latest_trading_day",
               "previous_close", "change", "change_percent"];
    assert forall i :: 0 <= i < |ks| ==> |ks[i]| != 12;
  }

  /**
   * The AlphaVantage agent answers the quote endpoint with the normalised quote
   * itself, not wrapped under "Global Quote": every such ticker then gets the
   * "not fully available" line.
   */
  lemma AlphaVantageQuoteUnavailable(ticker: string, data: Json, fmt: Formats)
    requires AlphaVantage.ClassifyQuote(data, fmt).Ok?
    ensures QuoteDigest(ticker, AlphaVantage.ClassifyQuote(data, fmt).value, fmt)
      == Ok(QuotePrefix(ticker) + "Data not fully available.")
  {
    MappedQuoteUnavailable(ticker, GetOr(data.fields, "Global Quote", Null).fields, fmt);
  }

  lemma MappedQuoteUnavailable(ticker: string, quote: Fields, fmt: Formats)
    requires AlphaVantage.QuoteMap(quote, fmt).Ok?
    ensures QuoteDigest(ticker, Obj(AlphaVantage.QuoteMap(quote, fmt).value), fmt)
      == Ok(QuotePrefix(ticker) + "Data not fully available.")
  {
    var m := AlphaVantage.QuoteMap(quote, fmt).value;
    DisplayHasNoGlobalQuote(m);
    UnwrappedQuote(ticker, Obj(m), fmt);
  }

  lemma DisplayHasNoGlobalQuote(m: Fields)
    requires Keys(m) == ["symbol", "open", "high", "low", "price", "volume", "latest_trading_day",
                         "previous_close", "change", "change_percent"]
    ensures "Global Quote" !in KeySet(m)
  {
    InKeys(m, "Global Quote");
    NotDisplayKey();
  }

  /** A dictionary without "Global Quote" reads as an empty quote. */
  lemma UnwrappedQuote(ticker: string, wrapped: Json, fmt: Formats)
    requires wrapped.Obj? && "Global Quote" !in KeySet(wrapped.fields)
    ensures QuoteDigest(ticker, wrapped, fmt) == Ok(QuotePrefix(ticker) + "Data not fully available.")
  {
    var empty: Json := Obj([]);
    assert PyGet(wrapped, "Global Quote", empty) == Ok(empty);
    assert !Truthy(empty);
  }

  /**
   * With the yfinance agent, a quote line is always produced unless the last price is
   * neither a number nor a string (None, say), which makes `float(...)` raise
   * TypeError out of the node.
   */
  lemma YFinanceQuoteDigest(symbol: string, fastInfo: Fields, info: Fields, today: string, ticker: string, fmt: Formats)
    requires ApiAgent.YFinanceQuote(symbol, fastInfo, info, today, fmt).Ok?
    ensures var last := GetOr(ApiAgent.QuoteSource(fastInfo, info), "lastPrice", Null);
      var r := QuoteDigest(ticker, ApiAgent.YFinanceQuote(symbol, fastInfo, info, today, fmt).value, fmt);
      r.Err? <==> !IsNumber(last) && !last.Str?
  {
    var q := ApiAgent.QuoteSource(fastInfo, info);
    var g := ApiAgent.NormalizedQuote(symbol, q, today, fmt);
    ApiAgent.QuoteFields(symbol, q, today, fmt);
    WrappedQuote(ticker, g, fmt);
    var price, change, percent := GetOr(g, "price", NA), GetOr(g, "change", NA), GetOr(g, "change_percent", NA);
    assert price == GetOr(q, "lastPrice", Null);
    assert change == ApiAgent.Change(q, fmt) && percent == ApiAgent.ChangePercent(q, fmt);
    ValuesLineRaises(ticker, price, change, percent, fmt);
  }

  /** A quote wrapped under "Global Quote", as the yfinance agent sends it. */
  lemma WrappedQuote(ticker: string, g: Fields, fmt: Formats)
    requires g != []
    ensures QuoteDigest(ticker, Obj([("Global Quote", Obj(g))]), fmt)
      == QuoteValuesLine(ticker, GetOr(g, "price", NA), GetOr(g, "change", NA), GetOr(g, "change_percent", NA), fmt)
  {
    assert GetOr([("Global Quote", Obj(g))], "Global Quote", Obj([])) == Obj(g) by {
      GetCons("Global Quote", Obj(g), [], "Global Quote");
      assert Cons("Global Quote", Obj(g), []) == [("Global Quote", Obj(g))];
    }
  }

  /**
   * With a change that is a number or the placeholder and a change percent that is a
   * string, only the price can raise TypeError.
   */
  lemma ValuesLineRaises(ticker: string, price: Json, change: Json, percent: Json, fmt: Formats)
    requires change.Float? || change == NA
    requires percent.Str?
    ensures QuoteValuesLine(ticker, price, change, percent, fmt).Err? <==> !IsNumber(price) && !price.Str?
  {
    var p := Str(RemoveChar(percent.s, '%'));
    assert FloatOrNA(change, fmt).Ok?;
    assert !(FloatOrNA(p, fmt).Err? && FloatOrNA(p, fmt).error.TypeError?);
  }

  /** The line for a trend whose oldest close is not zero. */
  function TrendLine(ticker: string, oldest: string, latest: string, o: real, l: real, fmt: Formats): string
    requires o != 0.0
  {
    "Historical trend for " + ticker + " (" + oldest + " to " + latest + "): "
      + "Price changed from " + fmt.fixed2(o) + " to " + fmt.fixed2(l) + " ("
      + fmt.fixed2((l - o) / o * 100.0) + "%)."
  }

  function TrendIncomplete(ticker: string): string
  {
    "Historical trend for " + ticker + ": Data incomplete for trend analysis."
  }

  /** The line from the two closing prices read from the oldest and the latest day. */
  function ClosesLine(ticker: string, oldest: string, latest: string, oc: Json, lc: Json, fmt: Formats)
    : (r: Result<string, string>)
    ensures r.Err? <==> (!IsNumber(oc) && !oc.Str?) || (FloatOrNA(oc, fmt).Ok? && !IsNumber(lc) && !lc.Str?)
    ensures FloatOrNA(oc, fmt) == Err(ValueError) || (FloatOrNA(oc, fmt).Ok? && FloatOrNA(lc, fmt) == Err(ValueError)) ==>
      r == Ok(RawCloses(ticker, oldest, latest, oc, lc, fmt))
    ensures (var o, l := FloatOrNA(oc, fmt), FloatOrNA(lc, fmt);
             o.Ok? && l.Ok? && o.value.Some? && l.value.Some? && o.value.value != 0.0) ==>
      r == Ok(TrendLine(ticker, oldest, latest, FloatOrNA(oc, fmt).value.value, FloatOrNA(lc, fmt).value.value, fmt))
    ensures FloatOrNA(oc, fmt).Ok? && FloatOrNA(lc, fmt).Ok? && (oc == NA || lc == NA || FloatOrNA(oc, fmt) == Ok(Some(0.0))) ==>
      r == Ok(TrendIncomplete(ticker))
  {
    match FloatOrNA(oc, fmt)
    case Err(ValueError) => Ok(RawCloses(ticker, oldest, latest, oc, lc, fmt))
    case Err(TypeError(m)) => Err(m)
    case Ok(o) =>
      match FloatOrNA(lc, fmt)
      case Err(ValueError) => Ok(RawCloses(ticker, oldest, latest, oc, lc, fmt))
      case Err(TypeError(m)) => Err(m)
      case Ok(l) =>
        if o.Some? && l.Some? && o.value != 0.0 then Ok(TrendLine(ticker, oldest, latest, o.value, l.value, fmt))
        else Ok(TrendIncomplete(ticker))
  }

  /** The fallback line when a close does not parse. */
  function RawCloses(ticker: string, oldest: string, latest: string, oc: Json, lc: Json, fmt: Formats): string
  {
    "Historical trend for " + ticker + ": Raw data for " + oldest + " close=" + Show(oc, fmt)
      + ", " + latest + " close=" + Show(lc, fmt) + "."
  }

  /** The trend line of one non-empty history: oldest and latest date, by sorted keys. */
  function Trend(ticker: string, data: Fields, fmt: Formats): (r: Result<string, string>)
  {
    var dates := SortedKeys(data);
    if dates == [] then Ok("No sufficient historical data for " + ticker + ".")
    else
      var oldest, latest := dates[0], dates[|dates| - 1];
      TrendOf(ticker, |dates|, oldest, latest, GetOr(data, oldest, Null), GetOr(data, latest, Null), fmt)
  }

  /**
   * The line from the number of dates, the oldest and the latest date and their
   * records; the records are read only when there are two dates or more.
   */
  function TrendOf(ticker: string, count: nat, oldest: string, latest: string, oldDay: Json, newDay: Json, fmt: Formats)
    : (r: Result<string, string>)
  {
    if count >= 2 then
      match PyGet(oldDay, "4. close", NA)
      case Err(e) => Err(e)
      case Ok(oc) =>
        match PyGet(newDay, "4. close", NA)
        case Err(e) => Err(e)
        case Ok(lc) => ClosesLine(ticker, oldest, latest, oc, lc, fmt)
    else Ok("Historical data for " + ticker + " available only for " + oldest + ".")
  }

  /**
   * The history line of one ticker, if any.  `wrapped` is what the API agent
   * returned, expected to hold the per-day table under "Time Series (Daily)".
   */
  function HistoryDigest(ticker: string, wrapped: Json, fmt: Formats): (r: Result<Option<string>, string>)
    ensures r == Ok(None) <==> wrapped.Obj? && !Truthy(GetOr(wrapped.fields, "Time Series (Daily)", Obj([])))
    ensures r.Err? && !wrapped.Obj? ==> r.error == AttributeError(wrapped, "get")
  {
    match PyGet(wrapped, "Time Series (Daily)", Obj([]))
    case Err(e) => Err(e)
    case Ok(data) =>
      if !Truthy(data) then Ok(None)
      else if !data.Obj? then Err(AttributeError(data, "keys"))
      else
        match Trend(ticker, data.fields, fmt)
        case Err(e) => Err(e)
        case Ok(line) => Ok(Some(line))
  }

  /** The first sorted date is the smallest key, the last sorted date the largest. */
  lemma OldestLatest(data: Fields, k: string)
    requires data != []
    ensures var dates := SortedKeys(data);
      && dates[0] in KeySet(data) && dates[|dates| - 1] in KeySet(data)
      && (k in KeySet(data) ==> Le(dates[0], k) && Le(k, dates[|dates| - 1]))
  {
    SortedEnds(data, SortByKey(data));
  }

  /** Two sorted lists with the same keys start with the same key and end with the same key. */
  lemma SortedSameEnds(r1: Fields, r2: Fields)
    requires SortedByKey(r1) && SortedByKey(r2) && |r1| == |r2| > 0 && KeySet(r1) == KeySet(r2)
    ensures r1[0].0 == r2[0].0 && r1[|r1| - 1].0 == r2[|r2| - 1].0
  {
    var n := |r1| - 1;
    assert Le(r1[0].0, r2[0].0) && Le(r2[n].0, r1[n].0) by { SortedBounds(r1, r2[0].0); SortedBounds(r1, r2[n].0); }
    assert Le(r2[0].0, r1[0].0) && Le(r1[n].0, r2[n].0) by { SortedBounds(r2, r1[0].0); SortedBounds(r2, r1[n].0); }
    LeAntisymmetric(r1[0].0, r2[0].0);
    LeAntisymmetric(r1[n].0, r2[n].0);
  }

  /** Every key of a sorted list lies between its first and its last key. */
  lemma SortedBounds(r: Fields, k: string)
    requires SortedByKey(r) && k in KeySet(r)
    ensures Le(r[0].0, k) && Le(k, r[|r| - 1].0)
  {
    var i :| 0 <= i < |r| && r[i].0 == k;
    LeReflexive(k);
  }

  /** Two permutations of one history agree on their oldest and latest dates. */
  lemma SameEnds(d1: Fields, d2: Fields)
    requires UniqueKeys(d1) && multiset(d2) == multiset(d1) && d1 != []
    ensures |SortedKeys(d2)| == |SortedKeys(d1)|
    ensures SortedKeys(d2)[0] == SortedKeys(d1)[0]
    ensures SortedKeys(d2)[|d2| - 1] == SortedKeys(d1)[|d1| - 1]
  {
    var r1, r2 := SortByKey(d1), SortByKey(d2);
    assert |d2| == |multiset(d2)| == |multiset(d1)| == |d1|;
    assert KeySet(r1) == KeySet(r2) by {
      PermutationUniqueKeys(d1, d2);
      PermutationUniqueKeys(d1, r1);
      PermutationUniqueKeys(d1, r2);
    }
    SortedSameEnds(r1, r2);
  }

  /**
   * The trend does not depend on the order in which the history lists its days: the
   * yfinance agent's newest-first table gives the line an oldest-first one gives.
   */
  lemma TrendOrderFree(ticker: string, d1: Fields, d2: Fields, fmt: Formats)
    requires UniqueKeys(d1) && multiset(d2) == multiset(d1)
    ensures Trend(ticker, d2, fmt) == Trend(ticker, d1, fmt)
  {
    assert |d2| == |multiset(d2)| == |multiset(d1)| == |d1|;
    if d1 != [] {
      SameEnds(d1, d2);
      var k1 := SortedKeys(d1);
      var first, last := k1[0], k1[|d1| - 1];
      PermutationGetOr(d1, d2, first);
      PermutationGetOr(d1, d2, last);
      TrendByEnds(ticker, d1, fmt);
      TrendByEnds(ticker, d2, fmt);
    }
  }

  /** Reordering a history without repeated dates does not change what a date holds. */
  lemma PermutationGetOr(d1: Fields, d2: Fields, k: string)
    requires UniqueKeys(d1) && multiset(d2) == multiset(d1)
    ensures GetOr(d2, k, Null) == GetOr(d1, k, Null)
  {
    PermutationUniqueKeys(d1, d2);
    assert Get(d2, k) == Get(d1, k);
  }

  /** A non-empty history's line is read from its first and last sorted dates. */
  lemma TrendByEnds(ticker: string, data: Fields, fmt: Formats)
    requires data != []
    ensures var ks := SortedKeys(data);
      Trend(ticker, data, fmt)
        == TrendOf(ticker, |data|, ks[0], ks[|data| - 1], GetOr(data, ks[0], Null), GetOr(data, ks[|data| - 1], Null), fmt)
  {
  }

  /** The oldest date of a non-empty history: its smallest key. */
  function Oldest(data: Fields): string
    requires data != []
  {
    SortedKeys(data)[0]
  }

  /** The latest date of a non-empty history: its largest key. */
  function Latest(data: Fields): string
    requires data != []
  {
    SortedKeys(data)[|data| - 1]
  }

  /** `.get('4. close', 'N/A')` on a day's record. */
  function CloseOf(day: Json): Json
    requires day.Obj?
  {
    GetOr(day.fields, "4. close", NA)
  }

  /** With two dates or more, the line is read from the closes of the oldest and the latest day. */
  lemma TrendCloses(ticker: string, data: Fields, fmt: Formats)
    requires |data| >= 2
    requires GetOr(data, Oldest(data), Null).Obj? && GetOr(data, Latest(data), Null).Obj?
    ensures Trend(ticker, data, fmt)
      == ClosesLine(ticker, Oldest(data), Latest(data), CloseOf(GetOr(data, Oldest(data), Null)),
                    CloseOf(GetOr(data, Latest(data), Null)), fmt)
  {
    TrendByEnds(ticker, data, fmt);
  }

  /**
   * When both closes convert and the oldest is not zero, the line reports the change
   * from the oldest to the latest close, (l - o) / o * 100 percent, naming both dates.
   */
  lemma TrendValue(ticker: string, data: Fields, fmt: Formats, o: real, l: real)
    requires |data| >= 2
    requires GetOr(data, Oldest(data), Null).Obj? && GetOr(data, Latest(data), Null).Obj?
    requires FloatOrNA(CloseOf(GetOr(data, Oldest(data), Null)), fmt) == Ok(Some(o))
    requires FloatOrNA(CloseOf(GetOr(data, Latest(data), Null)), fmt) == Ok(Some(l))
    requires o != 0.0
    ensures Trend(ticker, data, fmt) == Ok(TrendLine(ticker, Oldest(data), Latest(data), o, l, fmt))
    ensures TrendLine(ticker, Oldest(data), Latest(data), o, l, fmt)
      == "Historical trend for " + ticker + " (" + Oldest(data) + " to " + Latest(data) + "): "
         + "Price changed from " + fmt.fixed2(o) + " to " + fmt.fixed2(l) + " ("
         + fmt.fixed2((l - o) / o * 100.0) + "%)."
  {
    TrendCloses(ticker, data, fmt);
  }

  /** A day without a close ('N/A') makes the trend incomplete, when the other close does not raise. */
  lemma TrendMissingClose(ticker: string, data: Fields, fmt: Formats)
    requires |data| >= 2
    requires GetOr(data, Oldest(data), Null).Obj? && GetOr(data, Latest(data), Null).Obj?
    requires var oc, lc := CloseOf(GetOr(data, Oldest(data), Null)), CloseOf(GetOr(data, Latest(data), Null));
      FloatOrNA(oc, fmt).Ok? && FloatOrNA(lc, fmt).Ok? && (oc == NA || lc == NA)
    ensures Trend(ticker, data, fmt) == Ok(TrendIncomplete(ticker))
  {
    TrendCloses(ticker, data, fmt);
  }

  /**
   * A close that does not parse (ValueError) gives the line of the two raw closes, as
   * the records hold them.
   */
  lemma TrendRaw(ticker: string, data: Fields, fmt: Formats)
    requires |data| >= 2
    requires GetOr(data, Oldest(data), Null).Obj? && GetOr(data, Latest(data), Null).Obj?
    requires var oc, lc := CloseOf(GetOr(data, Oldest(data), Null)), CloseOf(GetOr(data, Latest(data), Null));
      FloatOrNA(oc, fmt) == Err(ValueError) || (FloatOrNA(oc, fmt).Ok? && FloatOrNA(lc, fmt) == Err(ValueError))
    ensures var oc, lc := CloseOf(GetOr(data, Oldest(data), Null)), CloseOf(GetOr(data, Latest(data), Null));
      Trend(ticker, data, fmt) == Ok(RawCloses(ticker, Oldest(data), Latest(data), oc, lc, fmt))
  {
    TrendCloses(ticker, data, fmt);
  }

  /** A history of one day names that day. */
  lemma TrendSingleDay(ticker: string, data: Fields, fmt: Formats)
    requires |data| == 1
    ensures Trend(ticker, data, fmt) == Ok("Historical data for " + ticker + " available only for " + data[0].0 + ".")
  {
    assert SortByKey(data) == Insert(data[0], []);
  }

  /** A zero oldest close is never divided by: the trend is reported incomplete. */
  lemma TrendZeroBase(ticker: string, data: Fields, fmt: Formats)
    requires |data| >= 2
    requires var dates := SortedKeys(data);
      && GetOr(data, dates[0], Null).Obj? && GetOr(data, dates[|dates| - 1], Null).Obj?
      && FloatOrNA(GetOr(GetOr(data, dates[0], Null).fields, "4. close", NA), fmt) == Ok(Some(0.0))
      && FloatOrNA(GetOr(GetOr(data, dates[|dates| - 1], Null).fields, "4. close", NA), fmt).Ok?
    ensures Trend(ticker, data, fmt) == Ok(TrendIncomplete(ticker))
  {
  }

  /** The per-day record of the yfinance agent is a dictionary whose close is a string. */
  lemma DayRecordClose(b: ApiAgent.Bar, fmt: Formats)
    ensures ApiAgent.DayRecord(b, fmt).Obj?
    ensures GetOr(ApiAgent.DayRecord(b, fmt).fields, "4. close", NA) == Str(fmt.fixed4(b.close))
  {
    var f := ApiAgent.DayRecord(b, fmt).fields;
    assert f[0].0 != "4. close" && f[1].0 != "4. close" && f[2].0 != "4. close";
    GetAt(f, 3, "4. close");
  }

  /** Sorted keys are keys. */
  lemma SortedKeyIn(data: Fields, i: nat)
    requires i < |data|
    ensures SortedKeys(data)[i] in KeySet(data)
  {
    var r := SortByKey(data);
    assert r[i] in multiset(data);
    var j :| 0 <= j < |data| && data[j] == r[i];
  }

  /**
   * A history whose every day is a dictionary with a string close yields its line
   * without raising.
   */
  lemma StringClosesTrend(ticker: string, data: Fields, fmt: Formats)
    requires forall k :: k in KeySet(data) ==>
      GetOr(data, k, Null).Obj? && GetOr(GetOr(data, k, Null).fields, "4. close", NA).Str?
    ensures Trend(ticker, data, fmt).Ok?
  {
    var dates := SortedKeys(data);
    if |dates| >= 2 {
      var first, last := dates[0], dates[|dates| - 1];
      var oldDay, newDay := GetOr(data, first, Null), GetOr(data, last, Null);
      assert oldDay.Obj? && GetOr(oldDay.fields, "4. close", NA).Str? by { SortedKeyIn(data, 0); }
      assert newDay.Obj? && GetOr(newDay.fields, "4. close", NA).Str? by { SortedKeyIn(data, |dates| - 1); }
      TrendOfStringCloses(ticker, |dates|, first, last, oldDay, newDay, fmt);
    } else if dates != [] {
      assert Trend(ticker, data, fmt) == Ok("Historical data for " + ticker + " available only for " + dates[0] + ".");
    }
  }

  /** Two dictionaries with string closes give a line without raising. */
  lemma TrendOfStringCloses(ticker: string, count: nat, oldest: string, latest: string, oldDay: Json, newDay: Json,
                            fmt: Formats)
    requires oldDay.Obj? && GetOr(oldDay.fields, "4. close", NA).Str?
    requires newDay.Obj? && GetOr(newDay.fields, "4. close", NA).Str?
    ensures TrendOf(ticker, count, oldest, latest, oldDay, newDay, fmt).Ok?
  {
  }

  /** With the yfinance agent, every history yields exactly one line and never raises. */
  lemma YFinanceHistoryDigest(symbol: string, period: string, rows: seq<ApiAgent.Bar>, ticker: string, fmt: Formats)
    requires ApiAgent.DailyAdjusted(symbol, period, rows, fmt).Ok?
    ensures var r := HistoryDigest(ticker, ApiAgent.DailyAdjusted(symbol, period, rows, fmt).value, fmt);
      r.Ok? && r.value.Some?
  {
    var t := ApiAgent.HistoryTable(rows, fmt);
    assert rows[0].day in KeySet(t);
    HistoryTableStrings(rows, fmt);
    StringClosesTrend(ticker, t, fmt);
    WrappedHistory(ticker, t, fmt);
  }

  /** Every day of the yfinance table is a dictionary with a string close. */
  lemma HistoryTableStrings(rows: seq<ApiAgent.Bar>, fmt: Formats)
    ensures var t := ApiAgent.HistoryTable(rows, fmt);
      forall k :: k in KeySet(t) ==> GetOr(t, k, Null).Obj? && GetOr(GetOr(t, k, Null).fields, "4. close", NA).Str?
  {
    var t := ApiAgent.HistoryTable(rows, fmt);
    forall k | k in KeySet(t)
      ensures GetOr(t, k, Null).Obj? && GetOr(GetOr(t, k, Null).fields, "4. close", NA).Str?
    {
      DayRecordClose(rows[ApiAgent.LastRowFor(rows, k)], fmt);
    }
  }

  /** A table wrapped under "Time Series (Daily)", as the yfinance agent sends it. */
  lemma WrappedHistory(ticker: string, t: Fields, fmt: Formats)
    requires t != []
    ensures HistoryDigest(ticker, Obj([("Time Series (Daily)", Obj(t))]), fmt)
      == match Trend(ticker, t, fmt) case Ok(line) => Ok(Some(line)) case Err(e) => Err(e)
  {
    assert GetOr([("Time Series (Daily)", Obj(t))], "Time Series (Daily)", Obj([])) == Obj(t) by {
      GetCons("Time Series (Daily)", Obj(t), [], "Time Series (Daily)");
      assert Cons("Time Series (Daily)", Obj(t), []) == [("Time Series (Daily)", Obj(t))];
    }
    var w := Obj([("Time Series (Daily)", Obj(t))]);
    assert PyGet(w, "Time Series (Daily)", Obj([])) == Ok(Obj(t));
    assert Truthy(Obj(t));
  }

  /**
   * The AlphaVantage agent answers the history endpoint with the per-day table itself;
   * unless a date is literally "Time Series (Daily)", no history line appears.
   */
  lemma AlphaVantageNoHistory(ticker: string, data: Json, fmt: Formats)
    requires AlphaVantage.ClassifyDaily(data, fmt).Ok?
    requires var t := AlphaVantage.ClassifyDaily(data, fmt).value;
      t.Obj? ==> "Time Series (Daily)" !in KeySet(t.fields)
    ensures var t := AlphaVantage.ClassifyDaily(data, fmt).value;
      t.Obj? <==> HistoryDigest(ticker, t, fmt) == Ok(None)
  {
  }

  /** The loop step over `stock_quotes.items()`: exactly one line per ticker. */
  function QuoteEntry(fmt: Formats): ((string, Json)) -> Result<Option<string>, string>
  {
    (e: (string, Json)) => match QuoteDigest(e.0, e.1, fmt) case Ok(line) => Ok(Some(line)) case Err(m) => Err(m)
  }

  /** The loop step over `daily_adjusted_data.items()`: at most one line per ticker. */
  function HistoryEntry(fmt: Formats): ((string, Json)) -> Result<Option<string>, string>
  {
    (e: (string, Json)) => HistoryDigest(e.0, e.1, fmt)
  }

  function PortfolioLines(portfolio: Fields, fmt: Formats): seq<string>
  {
    if portfolio != [] then ["Portfolio initial data: " + fmt.repr(Obj(portfolio))] else []
  }

  /** `retrieved_context`: the analysis line, the quote lines, the history lines, the portfolio. */
  function RetrievedContext(s: AgentState, reply: Result<Json, string>, fmt: Formats): Result<seq<string>, string>
  {
    match Collect(s.quotes, QuoteEntry(fmt))
    case Err(e) => Err(e)
    case Ok(quoteLines) =>
      match Collect(s.daily, HistoryEntry(fmt))
      case Err(e) => Err(e)
      case Ok(historyLines) =>
        Ok([AnalysisLine(reply, fmt)] + quoteLines + historyLines + PortfolioLines(s.portfolio, fmt))
  }

  /** `analyze_data`: the node sets the retrieved context, or raises. */
  function AnalyzeData(s: AgentState, reply: Result<Json, string>, fmt: Formats): Result<Update, string>
  {
    match RetrievedContext(s, reply, fmt)
    case Err(e) => Err(e)
    case Ok(c) => Ok(NoUpdate.(context := Some(c)))
  }

  /** The context once both loops have finished without raising. */
  lemma RetrievedContextOf(s: AgentState, reply: Result<Json, string>, fmt: Formats, quoteLines: seq<string>, historyLines: seq<string>)
    requires Collect(s.quotes, QuoteEntry(fmt)) == Ok(quoteLines)
    requires Collect(s.daily, HistoryEntry(fmt)) == Ok(historyLines)
    ensures RetrievedContext(s, reply, fmt) == Ok([AnalysisLine(reply, fmt)] + quoteLines + historyLines + PortfolioLines(s.portfolio, fmt))
  {
  }

  /** The node raises exactly when some quote line or some history line raises. */
  lemma AnalyzeDataRaises(s: AgentState, reply: Result<Json, string>, fmt: Formats)
    ensures AnalyzeData(s, reply, fmt).Ok? <==>
      && (forall k :: 0 <= k < |s.quotes| ==> QuoteDigest(s.quotes[k].0, s.quotes[k].1, fmt).Ok?)
      && (forall k :: 0 <= k < |s.daily| ==> HistoryDigest(s.daily[k].0, s.daily[k].1, fmt).Ok?)
  {
    CollectOkIff(s.quotes, QuoteEntry(fmt));
    CollectOkIff(s.daily, HistoryEntry(fmt));
  }

  /**
   * The context opens with the analysis line, then one line per quoted ticker in the
   * quotes' order, then at most one per history, and ends with the portfolio line
   * exactly when a portfolio was given.
   */
  lemma AnalyzeDataLayout(s: AgentState, reply: Result<Json, string>, fmt: Formats)
    requires AnalyzeData(s, reply, fmt).Ok?
    ensures var c := AnalyzeData(s, reply, fmt).value.context.value;
      && c[0] == AnalysisLine(reply, fmt)
      && 1 + |s.quotes| + |PortfolioLines(s.portfolio, fmt)| <= |c| <= 1 + |s.quotes| + |s.daily| + |PortfolioLines(s.portfolio, fmt)|
      && (forall k :: 0 <= k < |s.quotes| ==> Ok(c[1 + k]) == QuoteDigest(s.quotes[k].0, s.quotes[k].1, fmt))
      && (s.portfolio != [] ==> c[|c| - 1] == "Portfolio initial data: " + fmt.repr(Obj(s.portfolio)))
  {
    assert RetrievedContext(s, reply, fmt).Ok?;
    var quoteLines := Collect(s.quotes, QuoteEntry(fmt)).value;
    var historyLines := Collect(s.daily, HistoryEntry(fmt)).value;
    RetrievedContextOf(s, reply, fmt, quoteLines, historyLines);
    var c := AnalyzeData(s, reply, fmt).value.context.value;
    ContextLayout(c, AnalysisLine(reply, fmt), quoteLines, historyLines, PortfolioLines(s.portfolio, fmt));
    QuoteEntryNeverSkips(fmt);
    CollectEach(s.quotes, QuoteEntry(fmt));
    CollectLength(s.daily, HistoryEntry(fmt));
    forall k | 0 <= k < |s.quotes|
      ensures Ok(c[1 + k]) == QuoteDigest(s.quotes[k].0, s.quotes[k].1, fmt)
    {
      QuoteEntryLine(fmt, s.quotes[k], quoteLines[k]);
    }
  }

  /** Where each part of a concatenated context sits. */
  lemma ContextLayout(c: seq<string>, a: string, q: seq<string>, h: seq<string>, p: seq<string>)
    requires c == [a] + q + h + p
    ensures |c| == 1 + |q| + |h| + |p| && c[0] == a
    ensures forall k :: 0 <= k < |q| ==> c[1 + k] == q[k]
    ensures p != [] ==> c[|c| - 1] == p[|p| - 1]
  {
  }

  /** The quote step yields a line whenever it does not raise. */
  lemma QuoteEntryNeverSkips(fmt: Formats)
    ensures forall e :: QuoteEntry(fmt)(e).Ok? ==> QuoteEntry(fmt)(e).value.Some?
  {
  }

  /** A line of the quote step is the ticker's quote digest. */
  lemma QuoteEntryLine(fmt: Formats, e: (string, Json), line: string)
    requires QuoteEntry(fmt)(e) == Ok(Some(line))
    ensures QuoteDigest(e.0, e.1, fmt) == Ok(line)
  {
  }

  /** `analyze_data`: the analysis line, the two loops, then the portfolio line. */
  method AnalyzeDataNode(s: AgentState, reply: Result<Json, string>, fmt: Formats) returns (r: Result<Update, string>)
    ensures r == AnalyzeData(s, reply, fmt)
  {
    var retrievedContext := [AnalysisLine(reply, fmt)];
    var withQuotes := AppendQuoteLines(retrievedContext, s.quotes, fmt);
    if withQuotes.Err? {
      return Err(withQuotes.error);
    }
    retrievedContext := withQuotes.value;
    if s.daily != [] {
      var withHistory := AppendHistoryLines(retrievedContext, s.daily, fmt);
      if withHistory.Err? {
        return Err(withHistory.error);
      }
      retrievedContext := withHistory.value;
    }
    ghost var quoteLines := Collect(s.quotes, QuoteEntry(fmt)).value;
    ghost var historyLines := Collect(s.daily, HistoryEntry(fmt)).value;
    assert retrievedContext == [AnalysisLine(reply, fmt)] + quoteLines + historyLines;
    RetrievedContextOf(s, reply, fmt, quoteLines, historyLines);
    if s.portfolio != [] {
      retrievedContext := retrievedContext + ["Portfolio initial data: " + fmt.repr(Obj(s.portfolio))];
    } else {
      assert retrievedContext == retrievedContext + PortfolioLines(s.portfolio, fmt);
    }
    r := Ok(NoUpdate.(context := Some(retrievedContext)));
  }

  /** The loop over `stock_quotes.items()`, appending each ticker's line to `context`. */
  method AppendQuoteLines(context: seq<string>, quotes: Fields, fmt: Formats) returns (r: Result<seq<string>, string>)
    ensures Collect(quotes, QuoteEntry(fmt)).Err? ==> r == Collect(quotes, QuoteEntry(fmt))
    ensures Collect(quotes, QuoteEntry(fmt)).Ok? ==> r == Ok(context + Collect(quotes, QuoteEntry(fmt)).value)
  {
    var lines := context;
    ghost var added: seq<string> := [];
    for i := 0 to |quotes|
      invariant Collect(quotes[..i], QuoteEntry(fmt)) == Ok(added)
      invariant lines == context + added
    {
      CollectStep(quotes, QuoteEntry(fmt), i, added);
      var (ticker, wrapped) := quotes[i];
      var line := QuoteDigest(ticker, wrapped, fmt);
      if line.Err? {
        CollectErrStays(quotes, QuoteEntry(fmt), i + 1);
        return Err(line.error);
      }
      added := added + [line.value];
      lines := lines + [line.value];
    }
    assert quotes[..|quotes|] == quotes;
    r := Ok(lines);
  }

  /** The loop over `daily_adjusted_data.items()`, appending the history lines to `context`. */
  method AppendHistoryLines(context: seq<string>, daily: Fields, fmt: Formats) returns (r: Result<seq<string>, string>)
    ensures Collect(daily, HistoryEntry(fmt)).Err? ==> r == Collect(daily, HistoryEntry(fmt))
    ensures Collect(daily, HistoryEntry(fmt)).Ok? ==> r == Ok(context + Collect(daily, HistoryEntry(fmt)).value)
  {
    var lines := context;
    ghost var added: seq<string> := [];
    for i := 0 to |daily|
      invariant Collect(daily[..i], HistoryEntry(fmt)) == Ok(added)
      invariant lines == context + added
    {
      CollectStep(daily, HistoryEntry(fmt), i, added);
      var (ticker, wrapped) := daily[i];
      var line := HistoryDigest(ticker, wrapped, fmt);
      if line.Err? {
        CollectErrStays(daily, HistoryEntry(fmt), i + 1);
        return Err(line.error);
      }
      if line.value.Some? {
        added := added + [line.value.value];
        lines := lines + [line.value.value];
      }
    }
    assert daily[..|daily|] == daily;
    r := Ok(lines);
  }
}
