/**
 * The analysis agent: the context text it assembles from the collected data before
 * handing it to the LLM, and the endpoint's answer.
 */
module AnalysisAgent {
  import opened Wrappers
  import opened Text
  import opened Dict
  import opened Order
  import opened Json
  import opened Http

  /** The request body (`AnalysisInput`); pydantic has checked the dictionary fields. */
  datatype AnalysisInput = AnalysisInput(
    question: string,
    portfolio: Fields,
    quotes: Fields,
    daily: Fields,
    earnings: seq<Fields>,
    news: seq<Fields>)

  /** Text that may be cut short by an exception, given as its message. */
  type Out = Result<string, string>

  /** Two pieces of text produced one after the other: the first exception wins. */
  function AndThen(a: Out, b: Out): (r: Out)
    ensures r.Ok? <==> a.Ok? && b.Ok?
    ensures r.Ok? ==> r.value == a.value + b.value
    ensures a.Err? ==> r == a
    ensures a.Ok? && b.Err? ==> r == b
  {
    if a.Err? then a else if b.Err? then b else Ok(a.value + b.value)
  }

  /** The text a loop appends, one line per item, `line(i, items[i])` in turn. */
  function Lines<T>(items: seq<T>, line: (nat, T) -> Out): Out
    decreases |items|
  {
    if items == [] then Ok("")
    else AndThen(Lines(items[..|items| - 1], line), line(|items| - 1, items[|items| - 1]))
  }

  /** One more pass of the loop. */
  lemma LinesStep<T>(items: seq<T>, i: nat, line: (nat, T) -> Out)
    requires i < |items|
    ensures Lines(items[..i + 1], line) == AndThen(Lines(items[..i], line), line(i, items[i]))
  {
    assert items[..i + 1][..i] == items[..i];
  }

  /** An exception in the first `i` items ends the loop with that exception. */
  lemma {:induction false} LinesErrStays<T>(items: seq<T>, i: nat, line: (nat, T) -> Out)
    requires i <= |items| && Lines(items[..i], line).Err?
    ensures Lines(items, line) == Lines(items[..i], line)
    decreases |items| - i
  {
    if i < |items| {
      LinesStep(items, i, line);
      LinesErrStays(items, i + 1, line);
    } else {
      assert items[..i] == items;
    }
  }

  /** The loop completes exactly when no item raises. */
  lemma {:induction false} LinesOkIff<T>(items: seq<T>, line: (nat, T) -> Out)
    ensures Lines(items, line).Ok? <==> forall i :: 0 <= i < |items| ==> line(i, items[i]).Ok?
    decreases |items|
  {
    if items != [] {
      var init := items[..|items| - 1];
      LinesOkIff(init, line);
      assert forall i :: 0 <= i < |init| ==> init[i] == items[i];
    }
  }

  /** Items that each contribute nothing leave the text empty. */
  lemma {:induction false} LinesAllEmpty<T>(items: seq<T>, line: (nat, T) -> Out)
    requires forall i :: 0 <= i < |items| ==> line(i, items[i]) == Ok("")
    ensures Lines(items, line) == Ok("")
    decreases |items|
  {
    if items != [] {
      var init := items[..|items| - 1];
      assert forall i :: 0 <= i < |init| ==> init[i] == items[i];
      LinesAllEmpty(init, line);
    }
  }

  /** A section: its title, its lines, then a blank line; nothing at all when the input is empty. */
  function Section(nonEmpty: bool, title: string, body: Out): (r: Out)
    ensures !nonEmpty ==> r == Ok("")
    ensures nonEmpty ==> r.Ok? == body.Ok?
    ensures nonEmpty && r.Ok? ==> r.value == title + body.value + "\n"
  {
    if !nonEmpty then Ok("") else AndThen(AndThen(Ok(title), body), Ok("\n"))
  }

  /** The text of a quote line, from the six fields it prints. */
  function QuoteText(ticker: string, price: Json, change: Json, pct: Json, open: Json, high: Json, low: Json,
                     fmt: Formats): string
  {
    ("  " + ticker + ": Price=" + Show(price, fmt))
    + (", Change=" + Show(change, fmt) + " (" + Show(pct, fmt) + "), Open=" + Show(open, fmt)
       + ", High=" + Show(high, fmt) + ", Low=" + Show(low, fmt) + "\n")
  }

  /**
   * The line of one ticker's quote: only when its "Global Quote" is non-empty, each
   * missing field printed as 'N/A'.
   */
  function QuoteLine(ticker: string, wrapped: Json, fmt: Formats): (r: Out)
    ensures wrapped.Obj? && !Truthy(GetOr(wrapped.fields, "Global Quote", Obj([]))) ==> r == Ok("")
    ensures !wrapped.Obj? ==> r == Err(AttributeError(wrapped, "get"))
  {
    match PyGet(wrapped, "Global Quote", Obj([]))
    case Err(m) => Err(m)
    case Ok(q) =>
      if !Truthy(q) then Ok("")
      else if !q.Obj? then Err(AttributeError(q, "get"))
      else
        Ok(QuoteText(ticker, GetOr(q.fields, "price", NA), GetOr(q.fields, "change", NA),
                     GetOr(q.fields, "change_percent", NA), GetOr(q.fields, "open", NA),
                     GetOr(q.fields, "high", NA), GetOr(q.fields, "low", NA), fmt))
  }

  function QuoteLineAt(fmt: Formats): (nat, (string, Json)) -> Out
  {
    (i: nat, e: (string, Json)) => QuoteLine(e.0, e.1, fmt)
  }

  /** One date of a ticker's history. */
  function DayLine(day: string, dayData: Json, fmt: Formats): (r: Out)
    ensures r.Ok? <==> dayData.Obj?
  {
    if !dayData.Obj? then Err(AttributeError(dayData, "get"))
    else
      Ok("    " + day + ": Close=" + Show(GetOr(dayData.fields, "4. close", NA), fmt)
         + ", Volume=" + Show(GetOr(dayData.fields, "5. volume", NA), fmt) + "\n")
  }

  function DayLineIn(table: Fields, fmt: Formats): (nat, string) -> Out
  {
    (i: nat, d: string) => DayLine(d, GetOr(table, d, Null), fmt)
  }

  /** `sorted(daily_data.keys(), reverse=True)[:min(5, n)]`: the dates a ticker's block shows. */
  function ShownDates(table: Fields): (ds: seq<string>)
    ensures |ds| == if |table| < 5 then |table| else 5
  {
    var sorted := Keys(SortByKeyDescending(table));
    sorted[..if |sorted| < 5 then |sorted| else 5]
  }

  /** The block of one ticker's history: a header, then its latest dates. */
  function HistoryBlock(ticker: string, wrapped: Json, fmt: Formats): (r: Out)
    ensures !wrapped.Obj? ==> r == Err(AttributeError(wrapped, "get"))
  {
    match PyGet(wrapped, "Time Series (Daily)", Obj([]))
    case Err(m) => Err(m)
    case Ok(t) =>
      if !Truthy(t) then Ok("")
      else if !t.Obj? then Err(AttributeError(t, "keys"))
      else AndThen(Ok("  " + ticker + " (latest 5 days):\n"), Lines(ShownDates(t.fields), DayLineIn(t.fields, fmt)))
  }

  function HistoryBlockAt(fmt: Formats): (nat, (string, Json)) -> Out
  {
    (i: nat, e: (string, Json)) => HistoryBlock(e.0, e.1, fmt)
  }

  /** One earnings surprise. */
  function EarningsLine(s: Fields, fmt: Formats): string
  {
    "  " + Show(GetOr(s, "ticker", NA), fmt) + " on " + Show(GetOr(s, "date", NA), fmt)
    + ": Surprise Percent=" + Show(GetOr(s, "surprise_percent", NA), fmt) + "%\n"
  }

  function EarningsLineAt(fmt: Formats): (nat, Fields) -> Out
  {
    (i: nat, s: Fields) => Ok(EarningsLine(s, fmt))
  }

  /** The `i`-th news item (from 0), printed with the number `i + 1`. */
  function NewsBlock(i: nat, item: Fields, fmt: Formats): string
  {
    ("  Article " + IntToDecimal(i + 1) + " from ")
    + (Show(GetOr(item, "source", NA), fmt) + ":\n"
       + "    Title: " + Show(GetOr(item, "title", NA), fmt) + "\n"
       + "    Description: " + Show(GetOr(item, "description", NA), fmt) + "\n\n")
  }

  function NewsBlockAt(fmt: Formats): (nat, Fields) -> Out
  {
    (i: nat, item: Fields) => Ok(NewsBlock(i, item, fmt))
  }

  const QuotesTitle: string := "Real-time Stock Quotes:\n"
  const HistoryTitle: string := "Historical Daily Adjusted Data:\n"
  const EarningsTitle: string := "Earnings Surprises:\n"
  const NewsTitle: string := "Recent Financial News:\n"

  /** The opening of the context: the question, then the portfolio when there is one. */
  function Preamble(a: AnalysisInput, fmt: Formats): string
  {
    "User Question: " + a.question + "\n\n"
    + (if a.portfolio != [] then "Portfolio Initial Data: " + fmt.dumps(Obj(a.portfolio)) + "\n\n" else "")
  }

  /** The whole context text, section by section. */
  function Context(a: AnalysisInput, fmt: Formats): Out
  {
    AndThen(AndThen(AndThen(AndThen(
      Ok(Preamble(a, fmt)),
      Section(a.quotes != [], QuotesTitle, Lines(a.quotes, QuoteLineAt(fmt)))),
      Section(a.daily != [], HistoryTitle, Lines(a.daily, HistoryBlockAt(fmt)))),
      Section(a.earnings != [], EarningsTitle, Lines(a.earnings, EarningsLineAt(fmt)))),
      Section(a.news != [], NewsTitle, Lines(a.news, NewsBlockAt(fmt))))
  }

  /** The loop that appends `line(i, items[i])` for each item, stopping at the first exception. */
  method AppendLines<T>(items: seq<T>, line: (nat, T) -> Out) returns (r: Out)
    ensures r == Lines(items, line)
  {
    var text := "";
    var i := 0;
    while i < |items|
      invariant 0 <= i <= |items|
      invariant Lines(items[..i], line) == Ok(text)
    {
      LinesStep(items, i, line);
      var l := line(i, items[i]);
      if l.Err? {
        LinesErrStays(items, i + 1, line);
        return Err(l.error);
      }
      text := text + l.value;
      i := i + 1;
    }
    assert items[..i] == items;
    r := Ok(text);
  }

  /** One ticker's history block, its inner loop over the shown dates. */
  method HistoryBlockText(ticker: string, wrapped: Json, fmt: Formats) returns (r: Out)
    ensures r == HistoryBlock(ticker, wrapped, fmt)
  {
    if !wrapped.Obj? {
      return Err(AttributeError(wrapped, "get"));
    }
    var t := GetOr(wrapped.fields, "Time Series (Daily)", Obj([]));
    if !Truthy(t) {
      return Ok("");
    }
    if !t.Obj? {
      return Err(AttributeError(t, "keys"));
    }
    var days := AppendLines(ShownDates(t.fields), DayLineIn(t.fields, fmt));
    r := AndThen(Ok("  " + ticker + " (latest 5 days):\n"), days);
  }

  /** The loop over the tickers of the history section. */
  method HistoryText(daily: Fields, fmt: Formats) returns (r: Out)
    ensures r == Lines(daily, HistoryBlockAt(fmt))
  {
    var text := "";
    var i := 0;
    while i < |daily|
      invariant 0 <= i <= |daily|
      invariant Lines(daily[..i], HistoryBlockAt(fmt)) == Ok(text)
    {
      LinesStep(daily, i, HistoryBlockAt(fmt));
      var b := HistoryBlockText(daily[i].0, daily[i].1, fmt);
      if b.Err? {
        LinesErrStays(daily, i + 1, HistoryBlockAt(fmt));
        return Err(b.error);
      }
      text := text + b.value;
      i := i + 1;
    }
    assert daily[..i] == daily;
    r := Ok(text);
  }

  /** `analysis_context_str`, built section by section as the endpoint does. */
  method BuildContext(a: AnalysisInput, fmt: Formats) returns (r: Out)
    ensures r == Context(a, fmt)
  {
    var ctx := "User Question: " + a.question + "\n\n";
    if a.portfolio != [] {
      ctx := ctx + "Portfolio Initial Data: " + fmt.dumps(Obj(a.portfolio)) + "\n\n";
    }
    assert ctx == Preamble(a, fmt);
    var acc: Out := Ok(ctx);
    var body: Out := Ok("");
    if a.quotes != [] {
      body := AppendLines(a.quotes, QuoteLineAt(fmt));
    }
    acc := AndThen(acc, Section(a.quotes != [], QuotesTitle, body));
    if acc.Err? { return acc; }
    body := Ok("");
    if a.daily != [] {
      body := HistoryText(a.daily, fmt);
    }
    acc := AndThen(acc, Section(a.daily != [], HistoryTitle, body));
    if acc.Err? { return acc; }
    body := Ok("");
    if a.earnings != [] {
      body := AppendLines(a.earnings, EarningsLineAt(fmt));
    }
    acc := AndThen(acc, Section(a.earnings != [], EarningsTitle, body));
    body := Ok("");
    if a.news != [] {
      body := AppendLines(a.news, NewsBlockAt(fmt));
    }
    r := AndThen(acc, Section(a.news != [], NewsTitle, body));
  }

  /**
   * `analyze_brief_data_endpoint`: `llm` is the analysis chain applied to the context;
   * an exception anywhere becomes a 500 carrying its message.
   */
  function AnalyzeBriefData(a: AnalysisInput, llm: string -> Out, fmt: Formats): (r: Result<Json, HttpError>)
    ensures r.Ok? <==> Context(a, fmt).Ok? && llm(Context(a, fmt).value).Ok?
    ensures r.Ok? ==> r.value == Obj([("summary", Str(llm(Context(a, fmt).value).value))])
    ensures Context(a, fmt).Err? ==> r == Err(HttpError(500, "Error during analysis: " + Context(a, fmt).error))
    ensures Context(a, fmt).Ok? && llm(Context(a, fmt).value).Err?
            ==> r == Err(HttpError(500, "Error during analysis: " + llm(Context(a, fmt).value).error))
  {
    match Context(a, fmt)
    case Err(m) => Err(HttpError(500, "Error during analysis: " + m))
    case Ok(c) =>
      match llm(c)
      case Err(m) => Err(HttpError(500, "Error during analysis: " + m))
      case Ok(summary) => Ok(Obj([("summary", Str(summary))]))
  }

  /** What a section contributes once it has been produced. */
  function Shown(nonEmpty: bool, title: string, body: string): string
  {
    if nonEmpty then title + body + "\n" else ""
  }

  /**
   * The context is the question (and portfolio), then each section exactly when its
   * input is non-empty, in the order quotes, history, earnings, news; only the quote
   * and history loops can raise.
   */
  lemma ContextLayout(a: AnalysisInput, fmt: Formats)
    ensures Context(a, fmt).Ok? <==>
      && (a.quotes != [] ==> Lines(a.quotes, QuoteLineAt(fmt)).Ok?)
      && (a.daily != [] ==> Lines(a.daily, HistoryBlockAt(fmt)).Ok?)
    ensures Context(a, fmt).Ok? ==>
      Context(a, fmt).value ==
        Preamble(a, fmt)
        + Shown(a.quotes != [], QuotesTitle, Lines(a.quotes, QuoteLineAt(fmt)).value)
        + Shown(a.daily != [], HistoryTitle, Lines(a.daily, HistoryBlockAt(fmt)).value)
        + Shown(a.earnings != [], EarningsTitle, Lines(a.earnings, EarningsLineAt(fmt)).value)
        + Shown(a.news != [], NewsTitle, Lines(a.news, NewsBlockAt(fmt)).value)
  {
    LinesOkIff(a.earnings, EarningsLineAt(fmt));
    LinesOkIff(a.news, NewsBlockAt(fmt));
  }

  /** The context always opens with the question. */
  lemma ContextOpensWithQuestion(a: AnalysisInput, fmt: Formats)
    ensures Context(a, fmt).Ok? ==> StartsWith(Context(a, fmt).value, "User Question: " + a.question + "\n\n")
  {
    PreambleOpensWithQuestion(a, fmt);
    ChainPrefix(Preamble(a, fmt),
      Section(a.quotes != [], QuotesTitle, Lines(a.quotes, QuoteLineAt(fmt))),
      Section(a.daily != [], HistoryTitle, Lines(a.daily, HistoryBlockAt(fmt))),
      Section(a.earnings != [], EarningsTitle, Lines(a.earnings, EarningsLineAt(fmt))),
      Section(a.news != [], NewsTitle, Lines(a.news, NewsBlockAt(fmt))),
      "User Question: " + a.question + "\n\n");
  }

  lemma PreambleOpensWithQuestion(a: AnalysisInput, fmt: Formats)
    ensures StartsWith(Preamble(a, fmt), "User Question: " + a.question + "\n\n")
  {
    PrefixOfAppend("User Question: " + a.question + "\n\n",
      if a.portfolio != [] then "Portfolio Initial Data: " + fmt.dumps(Obj(a.portfolio)) + "\n\n" else "");
  }

  /** Appending sections after a text that begins with `p` keeps that beginning. */
  lemma ChainPrefix(x: string, s1: Out, s2: Out, s3: Out, s4: Out, p: string)
    requires StartsWith(x, p)
    ensures var c := AndThen(AndThen(AndThen(AndThen(Ok(x), s1), s2), s3), s4);
      c.Ok? ==> StartsWith(c.value, p)
  {
    var c1 := AndThen(Ok(x), s1);
    var c2 := AndThen(c1, s2);
    var c3 := AndThen(c2, s3);
    var c4 := AndThen(c3, s4);
    if c4.Ok? {
      AndThenPrefix(Ok(x), s1, p);
      AndThenPrefix(c1, s2, p);
      AndThenPrefix(c2, s3, p);
      AndThenPrefix(c3, s4, p);
    }
  }

  /** What the first piece begins with, the whole begins with. */
  lemma AndThenPrefix(a: Out, b: Out, p: string)
    requires AndThen(a, b).Ok? && StartsWith(a.value, p)
    ensures StartsWith(AndThen(a, b).value, p)
  {
    PrefixOfAppend(a.value, b.value);
    StartsWithTrans(a.value + b.value, a.value, p);
  }

  /** A ticker gets a quote line exactly when its "Global Quote" is non-empty. */
  lemma QuoteLineOnlyForQuotes(ticker: string, wrapped: Json, fmt: Formats)
    requires wrapped.Obj?
    ensures QuoteLine(ticker, wrapped, fmt) == Ok("") <==> !Truthy(GetOr(wrapped.fields, "Global Quote", Obj([])))
  {
  }

  /** Missing quote fields print as 'N/A'. */
  lemma QuoteLineMissingPrice(ticker: string, wrapped: Json, fmt: Formats)
    requires wrapped.Obj?
    requires var q := GetOr(wrapped.fields, "Global Quote", Obj([])); q.Obj? && q.fields != [] && "price" !in KeySet(q.fields)
    ensures QuoteLine(ticker, wrapped, fmt).Ok?
    ensures StartsWith(QuoteLine(ticker, wrapped, fmt).value, "  " + ticker + ": Price=" + "N/A")
  {
    var q := GetOr(wrapped.fields, "Global Quote", Obj([])).fields;
    var change, pct, open, high, low := GetOr(q, "change", NA), GetOr(q, "change_percent", NA),
      GetOr(q, "open", NA), GetOr(q, "high", NA), GetOr(q, "low", NA);
    assert QuoteLine(ticker, wrapped, fmt) == Ok(QuoteText(ticker, NA, change, pct, open, high, low, fmt));
    QuoteTextOpens(ticker, NA, change, pct, open, high, low, fmt);
    assert Show(NA, fmt) == "N/A";
  }

  /** A quote line opens with the ticker and the price shown. */
  lemma QuoteTextOpens(ticker: string, price: Json, change: Json, pct: Json, open: Json, high: Json, low: Json,
                       fmt: Formats)
    ensures StartsWith(QuoteText(ticker, price, change, pct, open, high, low, fmt),
                       "  " + ticker + ": Price=" + Show(price, fmt))
  {
    PrefixOfAppend("  " + ticker + ": Price=" + Show(price, fmt),
      ", Change=" + Show(change, fmt) + " (" + Show(pct, fmt) + "), Open=" + Show(open, fmt)
      + ", High=" + Show(high, fmt) + ", Low=" + Show(low, fmt) + "\n");
  }

  /** How a field of a record prints in the context: its value when present, 'N/A' when missing. */
  function FieldText(d: Fields, k: string, fmt: Formats): string
  {
    match Get(d, k)
    case Some(v) => Show(v, fmt)
    case None => "N/A"
  }

  /** Reading a field with the default 'N/A' and showing it prints the field's text. */
  lemma ShowFieldOrNA(d: Fields, k: string, fmt: Formats)
    ensures Show(GetOr(d, k, NA), fmt) == FieldText(d, k, fmt)
    ensures k !in KeySet(d) ==> FieldText(d, k, fmt) == "N/A"
  {
  }

  /**
   * A non-empty quote prints every one of its six fields, each missing one as 'N/A'.
   */
  lemma QuoteLineMissingFields(ticker: string, wrapped: Json, fmt: Formats)
    requires wrapped.Obj?
    requires var q := GetOr(wrapped.fields, "Global Quote", Obj([])); q.Obj? && q.fields != []
    ensures var q := GetOr(wrapped.fields, "Global Quote", Obj([])).fields;
      QuoteLine(ticker, wrapped, fmt)
      == Ok(("  " + ticker + ": Price=" + FieldText(q, "price", fmt))
            + (", Change=" + FieldText(q, "change", fmt) + " (" + FieldText(q, "change_percent", fmt)
               + "), Open=" + FieldText(q, "open", fmt) + ", High=" + FieldText(q, "high", fmt)
               + ", Low=" + FieldText(q, "low", fmt) + "\n"))
  {
    var q := GetOr(wrapped.fields, "Global Quote", Obj([])).fields;
    var price, change, pct, open, high, low := GetOr(q, "price", NA), GetOr(q, "change", NA),
      GetOr(q, "change_percent", NA), GetOr(q, "open", NA), GetOr(q, "high", NA), GetOr(q, "low", NA);
    assert QuoteLine(ticker, wrapped, fmt) == Ok(QuoteText(ticker, price, change, pct, open, high, low, fmt));
    QuoteTextFields(ticker, q, fmt);
  }

  lemma QuoteTextFields(ticker: string, q: Fields, fmt: Formats)
    ensures QuoteText(ticker, GetOr(q, "price", NA), GetOr(q, "change", NA), GetOr(q, "change_percent", NA),
                      GetOr(q, "open", NA), GetOr(q, "high", NA), GetOr(q, "low", NA), fmt)
      == ("  " + ticker + ": Price=" + FieldText(q, "price", fmt))
         + (", Change=" + FieldText(q, "change", fmt) + " (" + FieldText(q, "change_percent", fmt)
            + "), Open=" + FieldText(q, "open", fmt) + ", High=" + FieldText(q, "high", fmt)
            + ", Low=" + FieldText(q, "low", fmt) + "\n")
  {
    ShowFieldOrNA(q, "price", fmt);
    ShowFieldOrNA(q, "change", fmt);
    ShowFieldOrNA(q, "change_percent", fmt);
    ShowFieldOrNA(q, "open", fmt);
    ShowFieldOrNA(q, "high", fmt);
    ShowFieldOrNA(q, "low", fmt);
  }

  /** A history date prints its close and its volume, each missing one as 'N/A'. */
  lemma DayLineMissingFields(day: string, dayData: Json, fmt: Formats)
    requires dayData.Obj?
    ensures DayLine(day, dayData, fmt)
      == Ok("    " + day + ": Close=" + FieldText(dayData.fields, "4. close", fmt)
            + ", Volume=" + FieldText(dayData.fields, "5. volume", fmt) + "\n")
  {
    ShowFieldOrNA(dayData.fields, "4. close", fmt);
    ShowFieldOrNA(dayData.fields, "5. volume", fmt);
  }

  /** An earnings surprise prints its ticker, date and percent, each missing one as 'N/A'. */
  lemma EarningsLineMissingFields(surprise: Fields, fmt: Formats)
    ensures EarningsLine(surprise, fmt)
      == "  " + FieldText(surprise, "ticker", fmt) + " on " + FieldText(surprise, "date", fmt)
         + ": Surprise Percent=" + FieldText(surprise, "surprise_percent", fmt) + "%\n"
  {
    ShowFieldOrNA(surprise, "ticker", fmt);
    ShowFieldOrNA(surprise, "date", fmt);
    ShowFieldOrNA(surprise, "surprise_percent", fmt);
  }

  /** A news item prints its source, title and description, each missing one as 'N/A'. */
  lemma NewsBlockMissingFields(i: nat, item: Fields, fmt: Formats)
    ensures NewsBlock(i, item, fmt)
      == ("  Article " + IntToDecimal(i + 1) + " from ")
         + (FieldText(item, "source", fmt) + ":\n"
            + "    Title: " + FieldText(item, "title", fmt) + "\n"
            + "    Description: " + FieldText(item, "description", fmt) + "\n\n")
  {
    ShowFieldOrNA(item, "source", fmt);
    ShowFieldOrNA(item, "title", fmt);
    ShowFieldOrNA(item, "description", fmt);
  }

  /** Missing history fields print as 'N/A'. */
  lemma DayLineMissingClose(day: string, dayData: Json, fmt: Formats)
    requires dayData.Obj? && "4. close" !in KeySet(dayData.fields)
    ensures DayLine(day, dayData, fmt).Ok?
    ensures StartsWith(DayLine(day, dayData, fmt).value, "    " + day + ": Close=" + "N/A")
  {
    var head := "    " + day + ": Close=" + Show(GetOr(dayData.fields, "4. close", NA), fmt);
    var rest := ", Volume=" + Show(GetOr(dayData.fields, "5. volume", NA), fmt) + "\n";
    assert DayLine(day, dayData, fmt).value == head + rest;
    PrefixOfAppend(head, rest);
  }

  /**
   * A history block shows min(5, n) dates, each a date of the table, most recent first,
   * and no date left out is more recent than the last one shown. Since a decoded
   * dictionary has distinct keys, the dates shown are then strictly descending.
   */
  lemma {:induction false} ShownDatesAreLatest(table: Fields)
    ensures var ds := ShownDates(table);
      && (forall i :: 0 <= i < |ds| ==> ds[i] in KeySet(table))
      && (forall i, j :: 0 <= i < j < |ds| ==> Le(ds[j], ds[i]))
      && (forall k :: k in KeySet(table) && k !in ds ==> |ds| == 5 && Le(k, ds[4]))
    ensures var ds := ShownDates(table);
      UniqueKeys(table) ==> forall i, j :: 0 <= i < j < |ds| ==> ds[i] != ds[j]
  {
    var sorted := SortByKeyDescending(table);
    var ds := ShownDates(table);
    assert forall i :: 0 <= i < |ds| ==> ds[i] == sorted[i].0;
    if UniqueKeys(table) {
      ShownDatesDistinct(table);
    }
    forall i | 0 <= i < |ds|
      ensures ds[i] in KeySet(table)
    {
      assert sorted[i] in multiset(table);
    }
    ShownDatesOmitted(table);
  }

  /** A date of the table that is not shown comes no later than the fifth one shown. */
  lemma ShownDatesOmitted(table: Fields)
    ensures var ds := ShownDates(table);
      forall k :: k in KeySet(table) && k !in ds ==> |ds| == 5 && Le(k, ds[4])
  {
    var sorted := SortByKeyDescending(table);
    var ds := ShownDates(table);
    assert forall i :: 0 <= i < |ds| ==> ds[i] == sorted[i].0;
    forall k | k in KeySet(table) && k !in ds
      ensures |ds| == 5 && Le(k, ds[4])
    {
      var e :| e in table && e.0 == k;
      assert e in multiset(sorted);
      var p :| 0 <= p < |sorted| && sorted[p] == e;
      if p > 4 {
        assert Le(sorted[p].0, sorted[4].0);
      } else {
        LeReflexive(k);
      }
    }
  }

  /** The shown dates are the leading keys of a permutation of a table with distinct keys. */
  lemma ShownDatesDistinct(table: Fields)
    requires UniqueKeys(table)
    ensures var ds := ShownDates(table);
      forall i, j :: 0 <= i < j < |ds| ==> ds[i] != ds[j]
  {
    var sorted := SortByKeyDescending(table);
    PermutationUniqueKeys(table, sorted);
    var ds := ShownDates(table);
    assert forall i :: 0 <= i < |ds| ==> ds[i] == sorted[i].0;
    forall i, j | 0 <= i < j < |ds|
      ensures ds[i] != ds[j]
    {
      assert sorted[i].0 != sorted[j].0;
    }
  }

  /** A completed loop's text begins with the text of its first `i` items. */
  lemma {:induction false} LinesPrefix<T>(items: seq<T>, i: nat, line: (nat, T) -> Out)
    requires i <= |items| && Lines(items, line).Ok?
    ensures Lines(items[..i], line).Ok?
    ensures StartsWith(Lines(items, line).value, Lines(items[..i], line).value)
    decreases |items| - i
  {
    if i == |items| {
      assert items[..i] == items;
    } else {
      LinesPrefix(items, i + 1, line);
      LinesStep(items, i, line);
      var whole := Lines(items, line).value;
      var pre := Lines(items[..i], line).value;
      var mid := Lines(items[..i + 1], line).value;
      assert whole[..|mid|] == mid;
      assert mid[..|pre|] == pre;
      assert whole[..|pre|] == pre;
    }
  }

  /** Item `i`'s text, whatever it begins with, follows the text of the items before it. */
  lemma LinesItemPrefix<T>(items: seq<T>, i: nat, line: (nat, T) -> Out, p: string)
    requires i < |items| && Lines(items, line).Ok?
    requires line(i, items[i]).Ok? && StartsWith(line(i, items[i]).value, p)
    ensures Lines(items[..i], line).Ok?
    ensures StartsWith(Lines(items, line).value, Lines(items[..i], line).value + p)
  {
    LinesPrefix(items, i + 1, line);
    LinesPrefix(items, i, line);
    LinesStep(items, i, line);
    var pre := Lines(items[..i], line).value;
    StartsWithExtend(pre, line(i, items[i]).value, p);
    StartsWithTrans(Lines(items, line).value, Lines(items[..i + 1], line).value, pre + p);
  }

  /** A news block opens with its number. */
  lemma NewsBlockNumber(i: nat, item: Fields, fmt: Formats)
    ensures StartsWith(NewsBlock(i, item, fmt), "  Article " + IntToDecimal(i + 1) + " from ")
  {
    PrefixOfAppend("  Article " + IntToDecimal(i + 1) + " from ",
      Show(GetOr(item, "source", NA), fmt) + ":\n"
      + "    Title: " + Show(GetOr(item, "title", NA), fmt) + "\n"
      + "    Description: " + Show(GetOr(item, "description", NA), fmt) + "\n\n");
  }

  /** News items are numbered from 1 in input order: item `i` follows the items before it. */
  lemma NewsNumbering(news: seq<Fields>, i: nat, fmt: Formats)
    requires i < |news|
    ensures Lines(news, NewsBlockAt(fmt)).Ok? && Lines(news[..i], NewsBlockAt(fmt)).Ok?
    ensures StartsWith(Lines(news, NewsBlockAt(fmt)).value,
                       Lines(news[..i], NewsBlockAt(fmt)).value + ("  Article " + IntToDecimal(i + 1) + " from "))
  {
    LinesOkIff(news, NewsBlockAt(fmt));
    NewsBlockNumber(i, news[i], fmt);
    LinesItemPrefix(news, i, NewsBlockAt(fmt), "  Article " + IntToDecimal(i + 1) + " from ");
  }
}
