/**
 * The AlphaVantage-backed API agent: the GLOBAL_QUOTE and TIME_SERIES_DAILY_ADJUSTED
 * answers classified into a result or an HTTP error.  `fetched` is what
 * `requests.get(...)` followed by `raise_for_status()` and `.json()` produced:
 * the decoded body, or the message of the RequestException raised on the way.
 */
module AlphaVantage {
  import opened Wrappers
  import opened Dict
  import opened Json
  import opened Http
  import ApiAgent

  /** `quote.get(key)`: None when the key is missing. */
  function Field(quote: Fields, key: string): Json
  {
    GetOr(quote, key, Null)
  }

  /**
   * The dictionary the quote endpoint builds from the numbered AlphaVantage keys:
   * prices and the change go through `float(...)`, the volume through `int(...)`, and
   * symbol, trading day and change percent are passed on as they are.  The first
   * conversion that raises aborts the whole dictionary.
   */
  function QuoteMap(quote: Fields, fmt: Formats): (r: Result<Fields, ConversionError>)
    ensures r.Ok? <==>
      && ToFloat(Field(quote, "02. open"), fmt).Ok? && ToFloat(Field(quote, "03. high"), fmt).Ok?
      && ToFloat(Field(quote, "04. low"), fmt).Ok? && ToFloat(Field(quote, "05. price"), fmt).Ok?
      && ToInt(Field(quote, "06. volume"), fmt).Ok? && ToFloat(Field(quote, "08. previous close"), fmt).Ok?
      && ToFloat(Field(quote, "09. change"), fmt).Ok?
    ensures r.Ok? ==>
      && Keys(r.value) == ["symbol", "open", "high", "low", "price", "volume", "latest_trading_day",
                           "previous_close", "change", "change_percent"]
      && Get(r.value, "symbol") == Some(Field(quote, "01. symbol"))
      && Get(r.value, "open") == Some(Float(ToFloat(Field(quote, "02. open"), fmt).value))
      && Get(r.value, "high") == Some(Float(ToFloat(Field(quote, "03. high"), fmt).value))
      && Get(r.value, "low") == Some(Float(ToFloat(Field(quote, "04. low"), fmt).value))
      && Get(r.value, "price") == Some(Float(ToFloat(Field(quote, "05. price"), fmt).value))
      && Get(r.value, "volume") == Some(Int(ToInt(Field(quote, "06. volume"), fmt).value))
      && Get(r.value, "latest_trading_day") == Some(Field(quote, "07. latest trading day"))
      && Get(r.value, "previous_close") == Some(Float(ToFloat(Field(quote, "08. previous close"), fmt).value))
      && Get(r.value, "change") == Some(Float(ToFloat(Field(quote, "09. change"), fmt).value))
      && Get(r.value, "change_percent") == Some(Field(quote, "10. change percent"))
  {
    var open := ToFloat(Field(quote, "02. open"), fmt);
    var high := ToFloat(Field(quote, "03. high"), fmt);
    var low := ToFloat(Field(quote, "04. low"), fmt);
    var price := ToFloat(Field(quote, "05. price"), fmt);
    var volume := ToInt(Field(quote, "06. volume"), fmt);
    var prev := ToFloat(Field(quote, "08. previous close"), fmt);
    var change := ToFloat(Field(quote, "09. change"), fmt);
    if open.Err? then Err(open.error)
    else if high.Err? then Err(high.error)
    else if low.Err? then Err(low.error)
    else if price.Err? then Err(price.error)
    else if volume.Err? then Err(volume.error)
    else if prev.Err? then Err(prev.error)
    else if change.Err? then Err(change.error)
    else
      var args := (Field(quote, "01. symbol"), Float(open.value), Float(high.value), Float(low.value),
                   Float(price.value), Int(volume.value), Field(quote, "07. latest trading day"),
                   Float(prev.value), Float(change.value), Field(quote, "10. change percent"));
      ApiAgent.QuoteDisplayFields(args.0, args.1, args.2, args.3, args.4, args.5, args.6, args.7, args.8, args.9);
      Ok(ApiAgent.QuoteDisplay(args.0, args.1, args.2, args.3, args.4, args.5, args.6, args.7, args.8, args.9))
  }

  /**
   * The branch both endpoints take when their own key is not usable: an
   * "Error Message" becomes a 404 carrying its text, anything else the 500 `unexpected`.
   */
  function ErrorOrUnexpected(data: Json, unexpected: string, fmt: Formats): (r: Result<Json, HttpError>)
    ensures r.Err?
  {
    match PyContains(data, "Error Message")
    case Err(_) => Err(InternalServerError)
    case Ok(has) =>
      if !has then Err(HttpError(500, unexpected))
      else
        match PyIndex(data, "Error Message")
        case Err(_) => Err(InternalServerError)
        case Ok(m) => Err(HttpError(404, "AlphaVantage Error: " + Show(m, fmt)))
  }

  const UnexpectedQuote: string := "Unexpected AlphaVantage API response for Global Quote."
  const UnexpectedDaily: string := "Unexpected AlphaVantage API response for Daily Adjusted."

  /** The Global Quote classification of a decoded body. */
  function ClassifyQuote(data: Json, fmt: Formats): (r: Result<Json, HttpError>)
    // a usable quote is mapped, and it is tried before "Error Message"
    ensures r.Ok? <==>
      && data.Obj? && "Global Quote" in KeySet(data.fields)
      && var q := GetOr(data.fields, "Global Quote", Null);
         Truthy(q) && q.Obj? && QuoteMap(q.fields, fmt).Ok?
    ensures r.Ok? ==> r.value == Obj(QuoteMap(GetOr(data.fields, "Global Quote", Null).fields, fmt).value)
    // a non-empty quote that is not a dictionary or does not convert is an uncaught exception
    ensures (data.Obj? && "Global Quote" in KeySet(data.fields)
             && var q := GetOr(data.fields, "Global Quote", Null);
                Truthy(q) && !(q.Obj? && QuoteMap(q.fields, fmt).Ok?))
            ==> r == Err(InternalServerError)
    // otherwise an error message is a 404 with its text, and anything else the 500
    ensures (data.Obj? && !("Global Quote" in KeySet(data.fields) && Truthy(GetOr(data.fields, "Global Quote", Null))))
            ==> if "Error Message" in KeySet(data.fields)
                then r == Err(HttpError(404, "AlphaVantage Error: " + Show(GetOr(data.fields, "Error Message", Null), fmt)))
                else r == Err(HttpError(500, UnexpectedQuote))
  {
    match PyContains(data, "Global Quote")
    case Err(_) => Err(InternalServerError)
    case Ok(has) =>
      if !has then ErrorOrUnexpected(data, UnexpectedQuote, fmt)
      else
        match PyIndex(data, "Global Quote")
        case Err(_) => Err(InternalServerError)
        case Ok(q) =>
          if !Truthy(q) then ErrorOrUnexpected(data, UnexpectedQuote, fmt)
          else if !q.Obj? then Err(InternalServerError)
          else
            match QuoteMap(q.fields, fmt)
            case Err(_) => Err(InternalServerError)
            case Ok(m) => Ok(Obj(m))
  }

  /** `AlphaVantageLoader.get_quote_endpoint`: a failed request is a 503. */
  function QuoteEndpoint(fetched: Result<Json, string>, fmt: Formats): (r: Result<Json, HttpError>)
    ensures fetched.Err? ==> r == Err(HttpError(503, "Error contacting AlphaVantage API: " + fetched.error))
    ensures fetched.Ok? ==> r == ClassifyQuote(fetched.value, fmt)
  {
    match fetched
    case Err(e) => Err(HttpError(503, "Error contacting AlphaVantage API: " + e))
    case Ok(data) => ClassifyQuote(data, fmt)
  }

  /** The Time Series (Daily) classification of a decoded body. */
  function ClassifyDaily(data: Json, fmt: Formats): (r: Result<Json, HttpError>)
    // the inner table is handed back as it is, whatever it holds
    ensures r.Ok? <==> data.Obj? && "Time Series (Daily)" in KeySet(data.fields)
    ensures r.Ok? ==> Get(data.fields, "Time Series (Daily)") == Some(r.value)
    ensures (data.Obj? && "Time Series (Daily)" !in KeySet(data.fields))
            ==> if "Error Message" in KeySet(data.fields)
                then r == Err(HttpError(404, "AlphaVantage Error: " + Show(GetOr(data.fields, "Error Message", Null), fmt)))
                else r == Err(HttpError(500, UnexpectedDaily))
  {
    match PyContains(data, "Time Series (Daily)")
    case Err(_) => Err(InternalServerError)
    case Ok(has) =>
      if !has then ErrorOrUnexpected(data, UnexpectedDaily, fmt)
      else
        match PyIndex(data, "Time Series (Daily)")
        case Err(_) => Err(InternalServerError)
        case Ok(t) => Ok(t)
  }

  /** `AlphaVantageLoader.get_daily_adjusted`: a failed request is a 503. */
  function DailyEndpoint(fetched: Result<Json, string>, fmt: Formats): (r: Result<Json, HttpError>)
    ensures fetched.Err? ==> r == Err(HttpError(503, "Error contacting AlphaVantage API: " + fetched.error))
    ensures fetched.Ok? ==> r == ClassifyDaily(fetched.value, fmt)
  {
    match fetched
    case Err(e) => Err(HttpError(503, "Error contacting AlphaVantage API: " + e))
    case Ok(data) => ClassifyDaily(data, fmt)
  }
}
