/**
 * `retrieve_data` in the language agent: the loop that asks the API agent for each
 * extracted ticker's quote and history, isolating each ticker's failure.
 */
module LanguageData {
  import opened Wrappers
  import opened Text
  import opened Dict
  import opened Json
  import opened LanguageState

  /**
   * How a request to the API agent failed: a `requests` exception (connection error,
   * an HTTP error status raised by `raise_for_status`, an undecodable body), or any
   * other exception.  The message is `str(e)`.
   */
  datatype Failure = RequestFailure(msg: string) | OtherFailure(msg: string)

  /** The API agent's answers for one ticker: the quote endpoint and the history endpoint. */
  type Fetch = string -> Result<Json, Failure>

  /** The line `errors` receives when a ticker fails. */
  function FailureLine(ticker: string, f: Failure): (line: string)
    ensures line != ""
  {
    match f
    case RequestFailure(m) => "Could not retrieve data for " + ticker + ": " + m
    case OtherFailure(m) => "Unexpected error for " + ticker + ": " + m
  }

  /** The loop's three accumulators. */
  datatype Fetched = Fetched(quotes: Fields, daily: Fields, errors: seq<string>)

  /**
   * One turn: the quote first; only when it arrived is the history requested.  A quote
   * is kept even when its history then fails.
   */
  function TickerStep(acc: Fetched, ticker: string, quote: Fetch, daily: Fetch): Fetched
  {
    match quote(ticker)
    case Err(f) => acc.(errors := acc.errors + [FailureLine(ticker, f)])
    case Ok(q) =>
      var quotes := Put(acc.quotes, ticker, q);
      match daily(ticker)
      case Err(f) => Fetched(quotes, acc.daily, acc.errors + [FailureLine(ticker, f)])
      case Ok(d) => Fetched(quotes, Put(acc.daily, ticker, d), acc.errors)
  }

  /** The accumulators after the loop over `tickers`. */
  function FetchAll(tickers: seq<string>, quote: Fetch, daily: Fetch): Fetched
    decreases |tickers|
  {
    if tickers == [] then Fetched([], [], [])
    else TickerStep(FetchAll(tickers[..|tickers| - 1], quote, daily), tickers[|tickers| - 1], quote, daily)
  }

  /** A ticker fails when its quote or, after the quote, its history fails. */
  predicate Fails(ticker: string, quote: Fetch, daily: Fetch)
  {
    quote(ticker).Err? || daily(ticker).Err?
  }

  /** The failure that a failing ticker reports. */
  function FailureOf(ticker: string, quote: Fetch, daily: Fetch): Failure
    requires Fails(ticker, quote, daily)
  {
    if quote(ticker).Err? then quote(ticker).error else daily(ticker).error
  }

  /** The failing tickers, in order. */
  function Failing(tickers: seq<string>, quote: Fetch, daily: Fetch): (fs: seq<string>)
    ensures forall k :: 0 <= k < |fs| ==> Fails(fs[k], quote, daily) && fs[k] in tickers
    ensures |fs| <= |tickers|
    decreases |tickers|
  {
    if tickers == [] then []
    else
      var n := |tickers| - 1;
      Failing(tickers[..n], quote, daily) + (if Fails(tickers[n], quote, daily) then [tickers[n]] else [])
  }

  /** One turn adds a line exactly when the ticker fails. */
  lemma TickerStepErrors(acc: Fetched, ticker: string, quote: Fetch, daily: Fetch)
    ensures TickerStep(acc, ticker, quote, daily).errors ==
      acc.errors + (if Fails(ticker, quote, daily) then [FailureLine(ticker, FailureOf(ticker, quote, daily))] else [])
  {
  }

  /**
   * Each failing ticker adds exactly one line, in ticker order, and nothing else does.
   */
  lemma {:induction false} FetchAllErrors(tickers: seq<string>, quote: Fetch, daily: Fetch)
    ensures var fs := Failing(tickers, quote, daily);
      var errors := FetchAll(tickers, quote, daily).errors;
      |errors| == |fs| && forall k :: 0 <= k < |fs| ==> errors[k] == FailureLine(fs[k], FailureOf(fs[k], quote, daily))
    decreases |tickers|
  {
    if tickers != [] {
      var n := |tickers| - 1;
      FetchAllErrors(tickers[..n], quote, daily);
      TickerStepErrors(FetchAll(tickers[..n], quote, daily), tickers[n], quote, daily);
    }
  }

  /** The quotes after the tickers in `seen`: one per ticker whose quote arrived. */
  ghost predicate QuotesFor(quotes: Fields, seen: seq<string>, quote: Fetch)
  {
    && UniqueKeys(quotes)
    && (forall t :: t in KeySet(quotes) <==> t in seen && quote(t).Ok?)
    && (forall t :: t in KeySet(quotes) ==> Get(quotes, t) == Some(quote(t).value))
  }

  /** The histories after the tickers in `seen`: one per ticker whose two requests succeeded. */
  ghost predicate DailyFor(dailies: Fields, seen: seq<string>, quote: Fetch, daily: Fetch)
  {
    && UniqueKeys(dailies)
    && (forall t :: t in KeySet(dailies) <==> t in seen && quote(t).Ok? && daily(t).Ok?)
    && (forall t :: t in KeySet(dailies) ==> Get(dailies, t) == Some(daily(t).value))
  }

  lemma QuotesStep(acc: Fetched, seen: seq<string>, ticker: string, quote: Fetch, daily: Fetch)
    requires QuotesFor(acc.quotes, seen, quote)
    ensures QuotesFor(TickerStep(acc, ticker, quote, daily).quotes, seen + [ticker], quote)
  {
    var r := TickerStep(acc, ticker, quote, daily).quotes;
    if quote(ticker).Ok? {
      assert r == Put(acc.quotes, ticker, quote(ticker).value);
    } else {
      assert r == acc.quotes;
    }
  }

  lemma DailyStep(acc: Fetched, seen: seq<string>, ticker: string, quote: Fetch, daily: Fetch)
    requires DailyFor(acc.daily, seen, quote, daily)
    ensures DailyFor(TickerStep(acc, ticker, quote, daily).daily, seen + [ticker], quote, daily)
  {
    var r := TickerStep(acc, ticker, quote, daily).daily;
    if quote(ticker).Ok? && daily(ticker).Ok? {
      assert r == Put(acc.daily, ticker, daily(ticker).value);
    } else {
      assert r == acc.daily;
    }
  }

  /**
   * A ticker has a quote exactly when its quote request succeeded, and a history exactly
   * when both requests did; the values stored are the answers.
   */
  lemma {:induction false} FetchAllKeys(tickers: seq<string>, quote: Fetch, daily: Fetch)
    ensures var f := FetchAll(tickers, quote, daily);
      QuotesFor(f.quotes, tickers, quote) && DailyFor(f.daily, tickers, quote, daily)
    decreases |tickers|
  {
    if tickers != [] {
      var n := |tickers| - 1;
      FetchAllKeys(tickers[..n], quote, daily);
      QuotesStep(FetchAll(tickers[..n], quote, daily), tickers[..n], tickers[n], quote, daily);
      DailyStep(FetchAll(tickers[..n], quote, daily), tickers[..n], tickers[n], quote, daily);
      assert tickers == tickers[..n] + [tickers[n]];
    }
  }

  /** Keys of the histories are keys of the quotes, which are extracted tickers. */
  lemma FetchAllNested(tickers: seq<string>, quote: Fetch, daily: Fetch)
    ensures var f := FetchAll(tickers, quote, daily);
      KeySet(f.daily) <= KeySet(f.quotes) && forall t :: t in KeySet(f.quotes) ==> t in tickers
  {
    FetchAllKeys(tickers, quote, daily);
  }

  /** The error text is empty exactly when no ticker failed. */
  lemma ErrorEmptyIff(tickers: seq<string>, quote: Fetch, daily: Fetch)
    ensures Join("\n", FetchAll(tickers, quote, daily).errors) == ""
      <==> forall t :: t in tickers ==> !Fails(t, quote, daily)
  {
    var errors := FetchAll(tickers, quote, daily).errors;
    var fs := Failing(tickers, quote, daily);
    FetchAllErrors(tickers, quote, daily);
    JoinEmptyIff("\n", errors);
    FailingEmptyIff(tickers, quote, daily);
  }

  /** No ticker fails exactly when the list of failing tickers is empty. */
  lemma {:induction false} FailingEmptyIff(tickers: seq<string>, quote: Fetch, daily: Fetch)
    ensures Failing(tickers, quote, daily) == [] <==> forall t :: t in tickers ==> !Fails(t, quote, daily)
    decreases |tickers|
  {
    if tickers != [] {
      var n := |tickers| - 1;
      FailingEmptyIff(tickers[..n], quote, daily);
      assert tickers == tickers[..n] + [tickers[n]];
    }
  }

  /**
   * `retrieve_data`: with no tickers the node returns the state itself; otherwise it
   * sets the quotes, the histories, the (always empty) earnings and the error text.
   */
  function RetrieveData(s: AgentState, quote: Fetch, daily: Fetch): Update
  {
    if s.tickers == [] then Whole(s)
    else
      var f := FetchAll(s.tickers, quote, daily);
      NoUpdate.(quotes := Some(f.quotes), daily := Some(f.daily), earnings := Some([]),
                error := Some(Join("\n", f.errors)))
  }

  /** With no tickers, nothing changes. */
  lemma RetrieveDataNoTickers(s: AgentState, quote: Fetch, daily: Fetch)
    requires s.tickers == []
    ensures Apply(s, RetrieveData(s, quote, daily)) == s
  {
    ApplyWhole(s, s);
  }

  /**
   * With tickers, the new error text is the failures' lines, whatever the error held
   * before: empty exactly when every ticker succeeded.
   */
  lemma RetrieveDataError(s: AgentState, quote: Fetch, daily: Fetch)
    requires s.tickers != []
    ensures var t := Apply(s, RetrieveData(s, quote, daily));
      && t.error == Join("\n", FetchAll(s.tickers, quote, daily).errors)
      && (t.error == "" <==> forall x :: x in s.tickers ==> !Fails(x, quote, daily))
  {
    ErrorEmptyIff(s.tickers, quote, daily);
  }

  /** The loop of `retrieve_data`, filling `stock_quotes`, `daily_adjusted_data` and `errors`. */
  method RetrieveDataNode(s: AgentState, quote: Fetch, daily: Fetch) returns (u: Update)
    ensures u == RetrieveData(s, quote, daily)
  {
    var tickers := s.tickers;
    if tickers == [] {
      return Whole(s);
    }
    var stockQuotes: Fields := [];
    var dailyData: Fields := [];
    var errors: seq<string> := [];
    for i := 0 to |tickers|
      invariant FetchAll(tickers[..i], quote, daily) == Fetched(stockQuotes, dailyData, errors)
    {
      assert tickers[..i + 1][..i] == tickers[..i];
      var ticker := tickers[i];
      var quoteResponse := quote(ticker);
      if quoteResponse.Err? {
        errors := errors + [FailureLine(ticker, quoteResponse.error)];
      } else {
        stockQuotes := Put(stockQuotes, ticker, quoteResponse.value);
        var dailyResponse := daily(ticker);
        if dailyResponse.Err? {
          errors := errors + [FailureLine(ticker, dailyResponse.error)];
        } else {
          dailyData := Put(dailyData, ticker, dailyResponse.value);
        }
      }
    }
    assert tickers[..|tickers|] == tickers;
    var errorMessage := if errors != [] then Join("\n", errors) else "";
    u := NoUpdate.(quotes := Some(stockQuotes), daily := Some(dailyData), earnings := Some([]),
                   error := Some(errorMessage));
  }
}
