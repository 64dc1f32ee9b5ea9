# FinAssistant market-brief pipeline, modelled in Dafny

FinAssistant answers a financial question with a market brief. The orchestrator picks the
question, taken from transcribed audio or from text. It asks the language agent for a brief.
The language agent runs a fixed chain of five nodes over one state record:

1. Extract the tickers (an LLM call).
2. Fetch each ticker's quote and price history from the API agent, isolating each ticker's failure.
3. Build news queries, fetch the news and de-duplicate it.
4. Send everything to the analysis agent and digest the quotes and histories into context lines.
5. Synthesise the narrative (an LLM call).

The API agent has two back ends:

- yfinance: it normalises the quote into a "Global Quote" shape and builds a date-keyed history table, newest first.
- AlphaVantage: it classifies the raw answers.

The analysis agent turns the data into a sectioned context text for its LLM. A scraper picks
SEC filing links and caches downloaded reports.

This project models those pieces as Dafny datatypes, functions and methods, and proves what
they do. Each module is one source file:

| module | source file |
|---|---|
| `ApiAgent` | `agents/api_agent.py` |
| `AlphaVantage` | `agents/api_agent_alphafinance.py` |
| `AnalysisAgent` | `agents/analysis_agent.py` |
| `LanguageState`, `LanguageData`, `LanguageNews`, `LanguageDigest`, `LanguageAgent` | `agents/language_agent.py` |
| `Orchestrator` | `orchestrator/orchestrator.py` |
| `SecFilings` | `data_ingestion/sec_filings_scraper.py` |

Shared modules model Python values:

- `Json` covers dynamically typed values. A dictionary is an insertion-ordered list of pairs, because the code iterates `.items()`.
- `Dict` covers `d.get`, `d[k] = v` and `in`.
- `Text` covers `join`, `startswith`, `replace`, `basename` and `os.path.join`.
- `Order` covers `sorted` and `reversed`.
- `Lists` covers filter loops, loops that may raise, and first-occurrence de-duplication.
- `Http` is FastAPI's `HTTPException`.

Every LLM, HTTP service, clock and parser is a parameter: a function that returns a value or the
message of the exception it raised. An exception that escapes a LangGraph node is an `Err`.
The endpoint turns it into a 500 `"Internal Server Error: <message>"`.

A failed ticker extraction or a failed ticker fetch is fatal to the request, and no
check for usable data exists:

- `retrieve_data` writes its joined error lines into `error`.
- Nothing clears `error` later.
- `generate_brief_endpoint` fails with a 500 whenever `error` is non-empty.

So one failing ticker, or a failed extraction, fails the request (`LanguageAgent.BriefOutcome`,
`LanguageAgent.ExtractionFailureIsFatal`, `LanguageAgent.TickerFailureIsFatal`). An empty
ticker list is not an error. A failed analysis-agent call is also not an error: it only
becomes a context line.

The model assumes that the language agent reads the wrapped shapes only the yfinance agent
produces: `{"Global Quote": ...}` and `{"Time Series (Daily)": ...}`. The AlphaVantage agent
returns the normalised quote and the per-day table unwrapped. The model proves what the
consumer then prints:

- Every quote reads "Data not fully available." (`LanguageDigest.AlphaVantageQuoteUnavailable`).
- No history line appears (`LanguageDigest.AlphaVantageNoHistory`).

## Model

| member | source | states |
|---|---|---|
| ApiAgent.YFinanceQuote | agents/api_agent.py:22-47 | An error exactly when the field table used (`fast_info`, or `info` when that is empty) lacks `lastPrice`. The error is a 404 "No real-time quote data found for <symbol>.". Otherwise the result is the normalised quote under the single key "Global Quote". |
| ApiAgent.QuoteFields | agents/api_agent.py:33-41 | price comes from lastPrice, high from dayHigh, low from dayLow, previous_close from previousClose, and open and volume from themselves. Each is 'N/A' when absent. symbol defaults to the requested symbol, and the trading day is today. |
| ApiAgent.Change | agents/api_agent.py:44 | Definition of `change`, by unfolding: the rounded difference lastPrice − previousClose when both are numbers, 'N/A' otherwise. Its partner is `ApiAgent.ChangePercent`, defined under the same guard plus prev ≠ 0. |
| ApiAgent.ChangePercent | agents/api_agent.py:45 | Always a string. It is (last − prev)/prev × 100 formatted with a "%" suffix when both are numbers and prev ≠ 0. It is 'N/A' in every other case, so it never divides by zero. |
| ApiAgent.QuoteDisplay | agents/api_agent.py:33-46 | The normalised quote has exactly the ten keys symbol … change_percent, in the dictionary's order. |
| ApiAgent.QuoteDisplayFields | agents/api_agent.py:33-46 | Each of the ten keys holds the value given for it. |
| ApiAgent.SeriesTable | agents/api_agent.py:72-83 | The table the row loop fills has no repeated key, and its keys are exactly the dates of the rows. |
| ApiAgent.SeriesTableLastWins | agents/api_agent.py:73-83 | A date that occurs in several rows holds the record of the last of them. |
| ApiAgent.HistoryTable | agents/api_agent.py:72-95 | One entry per distinct date. Keys strictly descending. Each date holds its last row's record. |
| ApiAgent.DailyAdjusted | agents/api_agent.py:67-98 | A 404 "No historical data found for <symbol> for period <period>." exactly when the history is empty. Otherwise the sorted table under the single key "Time Series (Daily)". |
| ApiAgent.YFinanceDailyAdjusted | agents/api_agent.py:62-98 | The row loop filling `time_series_data`, then the reverse sort, computes `DailyAdjusted`. |
| AlphaVantage.QuoteMap | agents/api_agent_alphafinance.py:33-45 | Succeeds exactly when every `float`/`int` conversion succeeds. The result has the ten display keys, each taken from its numbered key ("05. price" → price, "08. previous close" → previous_close, …), converted or passed on. |
| AlphaVantage.ErrorOrUnexpected | agents/api_agent_alphafinance.py:46-49 | The fallback branch always fails. |
| AlphaVantage.ClassifyQuote | agents/api_agent_alphafinance.py:32-49 | A result exactly when "Global Quote" is present, non-empty, a dictionary and convertible; it is then the mapped quote. "Global Quote" is checked before "Error Message". A non-empty quote that does not convert is an uncaught 500. Otherwise an "Error Message" gives a 404 with its text, and anything else gives the 500 "Unexpected …". |
| AlphaVantage.QuoteEndpoint | agents/api_agent_alphafinance.py:23-51 | A failed request is a 503 "Error contacting AlphaVantage API: <e>". Otherwise the body is classified. |
| AlphaVantage.ClassifyDaily | agents/api_agent_alphafinance.py:71-76 | A result exactly when "Time Series (Daily)" is a key; it is the inner table unchanged. Otherwise an error message gives a 404 with its text, and any other shape gives a 500. |
| AlphaVantage.DailyEndpoint | agents/api_agent_alphafinance.py:61-78 | A failed request is a 503. Otherwise the body is classified. |
| AnalysisAgent.AnalyzeBriefData | agents/analysis_agent.py:30-108 | Succeeds exactly when building the context and the LLM call both succeed, with `{"summary": <text>}`. Otherwise a 500 "Error during analysis: <e>" carrying the first exception. |
| AnalysisAgent.ContextLayout | agents/analysis_agent.py:32-82 | The context is the question, then the portfolio, quotes, history, earnings and news sections, in that order. Each appears exactly when its input is non-empty. Only the quote and history loops can raise. |
| AnalysisAgent.ContextOpensWithQuestion | agents/analysis_agent.py:32 | A built context always begins with "User Question: " + question + "\n\n". |
| AnalysisAgent.PreambleOpensWithQuestion | agents/analysis_agent.py:32-35 | The opening, with or without the portfolio, begins with the question line. |
| AnalysisAgent.Section | agents/analysis_agent.py:37-82 | An empty input contributes nothing. A non-empty one contributes its title, its lines and a blank line, and fails exactly when its lines do. |
| AnalysisAgent.QuoteLine | agents/analysis_agent.py:39-46 | No line when the ticker's "Global Quote" is empty or missing. An AttributeError when the wrapped quote is not a dictionary. |
| AnalysisAgent.QuoteLineOnlyForQuotes | agents/analysis_agent.py:40-41 | A ticker's quote line is empty exactly when its "Global Quote" is empty. |
| AnalysisAgent.QuoteLineMissingPrice | agents/analysis_agent.py:42-43 | A quote without a price prints Price=N/A. |
| AnalysisAgent.QuoteLineMissingFields | agents/analysis_agent.py:42-46 | A non-empty quote prints its text with price, change, change_percent, open, high and low in that order. Each field present prints its value, and each missing one prints 'N/A'. |
| AnalysisAgent.QuoteTextFields | agents/analysis_agent.py:42-46 | The quote text built from the six fields read with default 'N/A' is the text with each field's value, or 'N/A' where it is missing. |
| AnalysisAgent.ShowFieldOrNA | agents/analysis_agent.py:42-81 | `.get(k, 'N/A')` shown prints the field's value when present and 'N/A' when missing. |
| AnalysisAgent.DayLine | agents/analysis_agent.py:58-62 | A date's line is produced exactly when its record is a dictionary. |
| AnalysisAgent.DayLineMissingClose | agents/analysis_agent.py:59-60 | A record without a close prints Close=N/A. |
| AnalysisAgent.DayLineMissingFields | agents/analysis_agent.py:59-62 | A date's record prints its close and its volume, each missing one as 'N/A'. |
| AnalysisAgent.EarningsLineMissingFields | agents/analysis_agent.py:67-70 | An earnings surprise prints its ticker, date and surprise percent, each missing one as 'N/A'. |
| AnalysisAgent.ShownDates | agents/analysis_agent.py:54-56 | A history block shows min(5, n) dates. |
| AnalysisAgent.ShownDatesAreLatest | agents/analysis_agent.py:54-57 | The dates shown are dates of the table, in non-increasing order, and no omitted date is more recent than the fifth one shown. When the table's keys are distinct, as a decoded dictionary's are, no date is shown twice, so the order is strictly descending. |
| AnalysisAgent.ShownDatesDistinct | agents/analysis_agent.py:54-56 | A table with distinct keys shows pairwise different dates. |
| AnalysisAgent.ShownDatesOmitted | agents/analysis_agent.py:54-56 | A date of the table that is not shown means five dates are shown, and it is no later than the fifth. |
| AnalysisAgent.HistoryBlock | agents/analysis_agent.py:52-62 | A wrapped history that is not a dictionary raises AttributeError. |
| AnalysisAgent.NewsBlockNumber | agents/analysis_agent.py:76-78 | The i-th news block opens with "Article <i+1> from ". |
| AnalysisAgent.NewsNumbering | agents/analysis_agent.py:74-81 | News items are numbered 1..n in input order: item i's block directly follows the blocks of the items before it. |
| AnalysisAgent.NewsBlockMissingFields | agents/analysis_agent.py:76-81 | A news item prints its source, title and description, each missing one as 'N/A'. |
| AnalysisAgent.HistoryBlockText | agents/analysis_agent.py:51-62 | The inner loop over the shown dates computes `HistoryBlock`. |
| AnalysisAgent.HistoryText | agents/analysis_agent.py:49-63 | The loop over the tickers' histories computes the section's lines. |
| AnalysisAgent.BuildContext | agents/analysis_agent.py:32-82 | The `+=` loops compute `Context`. |
| LanguageState.ApplyNoUpdate | agents/language_agent.py:31-41 | Unfolding of the merge: an update that names no field leaves the state as it was. |
| LanguageState.ApplyWhole | agents/language_agent.py:110-112 | A node that returns the whole state leaves that state as it is. |
| LanguageState.ApplyOverwritesError | agents/language_agent.py:139-146 | Unfolding of the merge on the error field: a returned "error" replaces the previous one, and an update without one keeps it. |
| LanguageData.FailureLine | agents/language_agent.py:126-134 | The line a failing ticker adds is "Could not retrieve data for …" or "Unexpected error for …", and is never empty. |
| LanguageData.TickerStepErrors | agents/language_agent.py:114-134 | One turn of the loop adds an error line exactly when that ticker fails. |
| LanguageData.FetchAllErrors | agents/language_agent.py:114-134 | Each failing ticker adds exactly one line, in ticker order, and nothing else adds a line. |
| LanguageData.FetchAllKeys | agents/language_agent.py:114-125 | A ticker has a quote exactly when its quote request succeeded, and a history exactly when both requests did. A quote is kept when its history fails. The values stored are the answers. |
| LanguageData.FetchAllNested | agents/language_agent.py:114-125 | Keys of `daily_adjusted_data` ⊆ keys of `stock_quotes` ⊆ the extracted tickers. |
| LanguageData.ErrorEmptyIff | agents/language_agent.py:139 | The joined error text is empty exactly when no ticker failed. |
| LanguageData.RetrieveDataNoTickers | agents/language_agent.py:110-112 | With no tickers, the state is unchanged. |
| LanguageData.RetrieveDataError | agents/language_agent.py:139-146 | With tickers, the new error is the joined failure lines, replacing any earlier error. It is empty exactly when every ticker succeeded. |
| LanguageData.RetrieveDataNode | agents/language_agent.py:103-146 | The loop filling the two dictionaries and `errors` computes `RetrieveData`. |
| LanguageNews.KeepArticleMeaning | agents/language_agent.py:72-79 | An article is kept exactly when its title and description are truthy and its source is a dictionary. It is skipped exactly when it is a dictionary that fails the test. Otherwise `.get` raises. |
| LanguageNews.FilterArticlesMeaning | agents/language_agent.py:71-80 | The filter raises nothing exactly when no step raises. It then keeps the items of the passing articles, in order. |
| LanguageNews.NewsItemFields | agents/language_agent.py:74-79 | A kept item has source (the source's name, 'N/A' when absent), title, description and url. |
| LanguageNews.NewsFetchedPass | agents/language_agent.py:65-86 | The empty list for an empty key, a failed request, a reply that is not a dictionary, "articles" that is not a list, or a filter step that raises. Otherwise one item per article of the reply's "articles" that passes the filter, in order. Each such article has truthy title and description and a dictionary source, and its item is what keeping it builds. |
| LanguageNews.FetchFinancialNews | agents/language_agent.py:44-86 | The filter loop computes `NewsFetched`. |
| LanguageNews.NewsQueries | agents/language_agent.py:154-159 | First one "<ticker> stock news" query per ticker, in order. The question is appended when there are fewer than two tickers. |
| LanguageNews.IssuedQueriesBounds | agents/language_agent.py:161 | At most two queries go out. They are pairwise different and each is a candidate. The first candidate always goes out. |
| LanguageNews.IssuedQueriesDistinct | agents/language_agent.py:161 | With distinct candidates, the first two go out. |
| LanguageNews.FirstIdErrorIff | agents/language_agent.py:170-172 | The de-duplication raises exactly when some (title, url) identifier cannot be hashed. |
| LanguageNews.DedupNewsMeaning | agents/language_agent.py:168-174 | Raises exactly when an identifier is unhashable. Otherwise no two kept items share (title, url), and every identifier survives. The result is the fetched items at strictly increasing positions, and a position is kept exactly when its identifier did not occur earlier: the first occurrence of each. |
| LanguageNews.DedupNewsLoop | agents/language_agent.py:168-174 | The `seen`-set loop computes `DedupNews`. |
| LanguageNews.RetrieveNewsNode | agents/language_agent.py:148-177 | Query construction, the fetches and the de-duplication compute `RetrieveNews`. |
| LanguageDigest.AnalysisLine | agents/language_agent.py:197-213 | A failed request gives "Error contacting analysis agent: <e>". A reply that is not a dictionary gives "Unexpected error during analysis: <AttributeError>". Neither aborts the node. |
| LanguageDigest.AnalysisWithoutSummary | agents/language_agent.py:206 | A reply without "summary" gives "Analysis insights: No specific summary provided.". |
| LanguageDigest.AnalysisFromAgent | agents/language_agent.py:204-206 | When the analysis agent succeeds, the line carries its summary unchanged. |
| LanguageDigest.FloatOrNA | agents/language_agent.py:224-226 | 'N/A' is kept as the placeholder and a number is converted. TypeError is raised exactly for a value that is neither a number nor a string. |
| LanguageDigest.ParseQuote | agents/language_agent.py:223-226 | The three conversions run in order. The result is the price's error if it has one, else the change's, else the percent's. A TypeError comes from a value that is neither a number nor a string. On success the result is the three converted values. |
| LanguageDigest.QuoteDigest | agents/language_agent.py:216-218 | Every line produced begins "Real-time quote for <ticker>: ". The wrapped quote must be a dictionary. |
| LanguageDigest.QuoteOf | agents/language_agent.py:217-240 | An empty quote gives "…Data not fully available.". A quote that is not a dictionary raises. |
| LanguageDigest.QuoteValuesLine | agents/language_agent.py:219-238 | It raises exactly when the change percent is not a string or a conversion raises TypeError. A ValueError gives the line with the raw price, change and percent. Otherwise the line with the values formatted to two decimals, the percent followed by "%". |
| LanguageDigest.QuoteFormatted | agents/language_agent.py:219-234 | A quote with numeric price and change and a parseable percent string prints "Price=<price:.2f>, Change=<change:.2f> (<percent:.2f>%)". |
| LanguageDigest.QuoteRaw | agents/language_agent.py:219-238 | A quote whose price string does not parse prints the raw price, the shown change and the percent string with its '%'. |
| LanguageDigest.AlphaVantageQuoteUnavailable | agents/language_agent.py:216-240 | For every quote the AlphaVantage agent returns, the consumer prints "Data not fully available.". |
| LanguageDigest.MappedQuoteUnavailable | agents/language_agent.py:217-240 | The unwrapped normalised quote is read as an empty quote. |
| LanguageDigest.UnwrappedQuote | agents/language_agent.py:217-240 | A dictionary without "Global Quote" is read as an empty quote. |
| LanguageDigest.YFinanceQuoteDigest | agents/language_agent.py:216-238 | With the yfinance agent, a quote line is always produced unless lastPrice is neither a number nor a string (None, say), which raises TypeError out of the node. |
| LanguageDigest.WrappedQuote | agents/language_agent.py:217-219 | A non-empty quote under "Global Quote" reaches the value conversions. |
| LanguageDigest.ValuesLineRaises | agents/language_agent.py:223-226 | With a numeric or 'N/A' change and a string percent, only the price can raise. |
| LanguageDigest.ClosesLine | agents/language_agent.py:251-267 | It raises exactly when a close is neither a number nor a string (the oldest is converted first). A ValueError gives the raw-closes line. Two numbers with a non-zero oldest give the trend line. An 'N/A' close, or a zero oldest close, gives "Data incomplete". |
| LanguageDigest.HistoryDigest | agents/language_agent.py:243-271 | No line exactly when the wrapped history is a dictionary with an empty or missing table. Otherwise it raises AttributeError when the wrapped history is not a dictionary. |
| LanguageDigest.OldestLatest | agents/language_agent.py:246-249 | The oldest date is the smallest key and the latest date the largest. |
| LanguageDigest.TrendCloses | agents/language_agent.py:246-267 | The trend of a history with at least two days is the closes line of the smallest and the largest date, read from their records. |
| LanguageDigest.TrendValue | agents/language_agent.py:254-263 | With numeric closes o (oldest, o ≠ 0) and l (latest), the trend reads "Price changed from <o:.2f> to <l:.2f> (<(l − o)/o × 100:.2f>%)." between the oldest and latest dates. |
| LanguageDigest.TrendMissingClose | agents/language_agent.py:251-265 | An 'N/A' oldest or latest close, including a missing one, gives "Historical trend for <ticker>: Data incomplete for trend analysis.". |
| LanguageDigest.TrendRaw | agents/language_agent.py:254-267 | A close string that does not parse gives the line with both raw closes. |
| LanguageDigest.SameEnds | agents/language_agent.py:246-249 | Two orderings of one history agree on their oldest and latest dates. |
| LanguageDigest.TrendOrderFree | agents/language_agent.py:246-271 | The trend line does not depend on the order in which the table lists its days. |
| LanguageDigest.TrendSingleDay | agents/language_agent.py:268-269 | A one-day history gives "available only for <date>". |
| LanguageDigest.TrendZeroBase | agents/language_agent.py:258-265 | A zero oldest close is never divided by: the trend is reported incomplete. |
| LanguageDigest.StringClosesTrend | agents/language_agent.py:254-267 | A history whose days are dictionaries with string closes never raises. |
| LanguageDigest.DayRecordClose | agents/api_agent.py:75-83 | The yfinance per-day record is a dictionary whose "4. close" is the formatted close. |
| LanguageDigest.HistoryTableStrings | agents/api_agent.py:72-95 | Every day of the yfinance table is a dictionary with a string close. |
| LanguageDigest.WrappedHistory | agents/language_agent.py:244-245 | A non-empty table under "Time Series (Daily)" gives its trend line. |
| LanguageDigest.YFinanceHistoryDigest | agents/language_agent.py:243-267 | With the yfinance agent, each history gives exactly one line and never raises. |
| LanguageDigest.AlphaVantageNoHistory | agents/language_agent.py:243-245 | The AlphaVantage agent's unwrapped table gives no history line (unless a date reads "Time Series (Daily)"). |
| LanguageDigest.RetrievedContextOf | agents/language_agent.py:197-276 | Once both loops succeed, the context contains the analysis line, then the quote lines, then the history lines, then the portfolio line. |
| LanguageDigest.AnalyzeDataRaises | agents/language_agent.py:216-271 | The node raises exactly when some quote line or some history line raises. |
| LanguageDigest.AnalyzeDataLayout | agents/language_agent.py:197-276 | The context opens with the analysis line, then has one line per quoted ticker in order, then at most one per history. It ends with the portfolio line exactly when a portfolio was given. |
| LanguageDigest.AppendQuoteLines | agents/language_agent.py:216-240 | The quote loop appends each ticker's line to the context or stops at the first exception. |
| LanguageDigest.AppendHistoryLines | agents/language_agent.py:242-271 | The history loop appends the history lines or stops at the first exception. |
| LanguageDigest.AnalyzeDataNode | agents/language_agent.py:179-276 | The node's steps compute `AnalyzeData`. |
| LanguageAgent.ExtractTickers | agents/language_agent.py:90-101 | On success only the tickers change. On failure only the error changes, to "Error extracting tickers: <e>". |
| LanguageAgent.SynthesizeNarrative | agents/language_agent.py:313-329 | On success only the brief changes. On failure only the error changes, to "Error during narrative synthesis: <e>". |
| LanguageAgent.RetrievedError | agents/language_agent.py:103-146 | After the data node, the error is either the extraction error, or empty with no tickers, or the joined ticker failures. It is empty exactly when neither extraction nor any ticker failed. |
| LanguageAgent.AnalyzedKeeps | agents/language_agent.py:148-276 | The news and analysis nodes change only the news and the context. |
| LanguageAgent.BriefOutcome | agents/language_agent.py:372-381 | A 500 exactly when extraction, a ticker or the narrative failed, and the narrative's error wins. Otherwise `{"brief": <narrative>}`, or the fixed fallback text when the narrative is empty. |
| LanguageAgent.CrashIs500 | agents/language_agent.py:384-386 | An exception in a node is a 500 "Internal Server Error: <e>". |
| LanguageAgent.ExtractionFailureIsFatal | agents/language_agent.py:374-375 | A failed extraction always fails the request with a 500. |
| LanguageAgent.TickerFailureIsFatal | agents/language_agent.py:374-375 | One failing ticker fails the whole request with a 500. |
| LanguageAgent.BriefNeverEmpty | agents/language_agent.py:377-381 | A successful answer is a single non-empty "brief". |
| LanguageAgent.GenerateBriefEndpoint | agents/language_agent.py:356-386 | The nodes run in graph order, followed by the endpoint's checks, and compute `GenerateBrief`. |
| Orchestrator.Question | orchestrator/orchestrator.py:36-56 | Without audio, the text is the question. With neither, a 400 "Either 'query_text' or 'audio_file_base64' must be provided.". A transcription that is used is truthy. |
| Orchestrator.ResponseShape | orchestrator/orchestrator.py:81-85 | The response always has brief_text. It has conclusion_audio_base64 exactly when that is truthy, and no other key. |
| Orchestrator.AskLanguageAgent | orchestrator/orchestrator.py:60-63 | A question that is not a string fails validation as an orchestration error. |
| Orchestrator.AgentErrorDetail | orchestrator/orchestrator.py:89-96 | Without a response, the detail is "Service unavailable or error contacting agent: <e>". A body that is not JSON gives "Agent error (<code>): <text>". |
| Orchestrator.AgentDetail | orchestrator/orchestrator.py:90-94 | A dictionary body with "detail" gives "Agent error (<code>): <detail>". |
| Orchestrator.AgentNoDetail | orchestrator/orchestrator.py:89-94 | A dictionary body without "detail" keeps the generic message. |
| Orchestrator.ErrorStatusAsWritten | orchestrator/orchestrator.py:97 | Line 97 as written: the status is 503 for every 4xx/5xx response, so a request error whose detail can be read is reported as 503. `Handle` and `Orchestrate` use it. |
| Orchestrator.ErrorStatus | orchestrator/orchestrator.py:97 | Corrected: the agent's status whenever a response came back, otherwise 503. |
| Orchestrator.AgentStatusLost | orchestrator/orchestrator.py:97 | An agent's 500 with detail d: as written, status 503; corrected, status 500. Both carry "Agent error (500): d". |
| Orchestrator.AsWrittenHidesEveryErrorStatus | orchestrator/orchestrator.py:97 | As written, every 4xx/5xx status other than 503 itself is lost. |
| Orchestrator.Handle | orchestrator/orchestrator.py:87-103 | The handlers as written: `HandleBy` with line 97's status rule. A request error with a 4xx/5xx response is a 503 when its detail can be read; otherwise it is the bare 500 of `HandleBy`. |
| Orchestrator.HandleBy | orchestrator/orchestrator.py:87-103 | HTTP errors pass through. Other exceptions give a 500 "Orchestration Error: <e>". A request error gets the status rule's status and the agent's detail. When reading the detail raises, a bare 500 escapes instead. |
| Orchestrator.HandleIntended | orchestrator/orchestrator.py:87-103 | The handlers with line 97 corrected: `HandleBy` with the agent's own status. |
| Orchestrator.HandleLosesAgentStatus | orchestrator/orchestrator.py:97 | For a request error with a 4xx/5xx response and a readable detail, the handler as written reports 503, while the corrected one reports the agent's status. Every other exception is handled the same by both. |
| Orchestrator.AgentDetailBodies | orchestrator/orchestrator.py:90-96 | Reading the detail raises exactly for a body that `in` cannot search (a number or None), or a list or string that contains "detail". A list or string without "detail" keeps the generic message. |
| Orchestrator.AudioWins | orchestrator/orchestrator.py:37-54 | With audio, the text is never looked at. |
| Orchestrator.TextOrNothing | orchestrator/orchestrator.py:52-56 | Without audio, the text goes to the language agent. With neither, a 400. |
| Orchestrator.EmptyTranscription | orchestrator/orchestrator.py:46-49 | An empty or missing transcription is a 400 "Voice input could not be transcribed to text.". |
| Orchestrator.OrchestrateOutcome | orchestrator/orchestrator.py:60-85 | Succeeds exactly when the question is a string and the language agent's dictionary has a truthy brief. The body is then the brief plus the optional audio. |
| Orchestrator.EmptyBriefIs500 | orchestrator/orchestrator.py:75-76 | An answer without a truthy brief is a 500 "Language Agent did not return a brief.". |
| Orchestrator.LanguageAgentStatus | agents/language_agent.py:374-386 | The language agent fails only with 500s. |
| Orchestrator.ThroughAgent | orchestrator/orchestrator.py:65-97 | An agent whose successes are one non-empty brief and whose failures are 500s. Its brief comes through as brief_text with no audio key, the same as written and corrected. Its failure comes through as written as a 503 "Agent error (500): <detail>", and corrected as a 500 with the same detail. |
| Orchestrator.ThroughLanguageAgent | orchestrator/orchestrator.py:65-97 | Wired to the language agent, a brief is non-empty and comes through as brief_text, so the orchestrator's own "no brief" 500 never fires. The agent's 500 comes through as written as a 503 with its detail, and corrected as a 500. |
| Orchestrator.TryBlockNode | orchestrator/orchestrator.py:34-85 | The `try` block's steps, including the insertion into `response_data`, compute `TryBlock`. |
| Orchestrator.OrchestrateMarketBrief | orchestrator/orchestrator.py:22-103 | The endpoint with its handlers as written, including line 97's status rule, computes `Orchestrate`. |
| Orchestrator.OrchestrateIntended | orchestrator/orchestrator.py:22-103 | The endpoint with line 97 corrected. It differs from `Orchestrate` only in the status of agent errors (`ThroughAgent`, `HandleLosesAgentStatus`). |
| SecFilings.FilingLinksSpec | data_ingestion/sec_filings_scraper.py:26-29 | The search succeeds exactly when every documents button has an href. Its links are then base_url + href of each button, in document order. |
| SecFilings.SearchFilings | data_ingestion/sec_filings_scraper.py:25-29 | The loop appending to `filing_links` computes `FilingLinks`. |
| SecFilings.DocumentLink | data_ingestion/sec_filings_scraper.py:37-41 | base_url + href of the first href that contains "Financial_Report" and ends in ".htm" or ".html". None exactly when there is none. |
| SecFilings.GetFilingDocumentLink | data_ingestion/sec_filings_scraper.py:31-41 | The early-return loop computes `DocumentLink`. |
| SecFilings.CacheFile | data_ingestion/sec_filings_scraper.py:45 | The cache file `cache_dir/<ticker>_<doc_type>_<basename(url)>.html` always ends in ".html". |
| SecFilings.CacheFileSeparates | data_ingestion/sec_filings_scraper.py:45 | Documents with different basenames never share a cache file. |
| SecFilings.DownloadHit | data_ingestion/sec_filings_scraper.py:46-48 | A cache hit skips the download: the result does not depend on the network, and the cache is unchanged. |
| SecFilings.DownloadCaches | data_ingestion/sec_filings_scraper.py:49-54 | A miss stores the document under its cache file and changes no other file. Repeating the download is then a hit with the same text. |
| SecFilings.ReportLinks | data_ingestion/sec_filings_scraper.py:66-68 | The 10-K search is used only when the 10-Q search returned no links. |
| SecFilings.TenKOnlyAsFallback | data_ingestion/sec_filings_scraper.py:66-68 | When the 10-Q search found filings, the 10-K search does not affect the result. |
| SecFilings.FirstFilingOnly | data_ingestion/sec_filings_scraper.py:70-72 | Only the first filing link is opened. |
| SecFilings.EarningsReportOutcome | data_ingestion/sec_filings_scraper.py:64-75 | None exactly when no filing or no report link is found, and the cache is then untouched. Otherwise the text comes from downloading the first filing's report link as an "earnings_report". |

## Left out

General:

- The LLM chains (ticker extraction, analysis, narrative synthesis) are function parameters: they are foreign and nondeterministic.
- The network (`requests`, yfinance, NewsAPI, EDGAR) is given as the answers it returns. Each service is a function of its request, so a ticker that is asked twice gets the same answer twice.
- The messages of Python exceptions, `str(e)`, are parameters of the failures.
- Float formatting and parsing are uninterpreted: `:.2f`, `:.4f`, `round(x, 2)`, `float(s)`, `int(s)`, `str()` of floats, lists and dicts, and `json.dumps`. They form the `Formats` bundle.
- JSON booleans are not in the value model.
- Python's `1 == 1.0` equality of dictionary keys and set members is not modelled. An integer and a float identifier count as different.
- Printing is not modelled.
- FastAPI and uvicorn serving are not modelled, nor is pydantic validation of request bodies. The model covers only the orchestrator's string check of the question.
- LangGraph's own machinery is not modelled. The merge of a node's update is plain field overwrite, which is what fields without reducers get.
- There is no concurrency: every call is sequential.

Specific behaviour:

- ApiAgent.YFinanceQuote: in the code, the 404 it raises is caught by the generic handler at agents/api_agent.py:51-52 and re-raised as a 500 whose detail embeds the 404. The model keeps the inner status and message.
- ApiAgent.DailyAdjusted: the same applies to its 404, which agents/api_agent.py:102-103 re-raises as a 500.
- The `yf.TickerError` handlers (agents/api_agent.py:49-50, 100-101) are not modelled, because the exception-class dispatch belongs to the library.
- AnalysisAgent.ShownDatesAreLatest: strict descent is proved only for a table with distinct keys. The value model can hold repeated keys, which a decoded Python dictionary cannot.
- The `period` is passed through as a string only.
- The `HTTPException` branch of `retrieve_data` (agents/language_agent.py:129-131) cannot be reached, because `requests` never raises that class. The model has the two other failure kinds.
- The 7-day `from` date (`datetime.now()`) and the `pageSize` of NewsAPI requests are not modelled. The NewsAPI answer is a function of the query.
- LanguageNews.IssuedQueries: `list(set(...))[:2]` has no fixed order in Python. The model fixes first-occurrence order.
- The `if daily_adjusted_data:` guard (agents/language_agent.py:242) is redundant with a loop over an empty dictionary. It is modelled as the loop alone.
- HTML parsing (BeautifulSoup) is not modelled. The scraper works on the anchors of each page, given in document order, and text extraction is a parameter.
- The `count` argument of a search is passed to the search function and has no other effect.
- `os.makedirs`, file encodings, a cache file that exists but cannot be read, and `time.sleep` are not modelled. The cache directory is a map from paths to contents.
- agents/voice_agent.py, agents/retriever_agent.py, agents/scraping_agent.py, streamlit_app/app.py, data_ingestion/alphavantage_loader.py and config/settings.py are not part of this model. The voice agent's transcription is a parameter of the orchestrator.

## Findings

| source | as written | input that shows it | evidently intended | confidence | as-written member | corrected member |
|---|---|---|---|---|---|---|
| orchestrator/orchestrator.py:97 | The status is `re.response.status_code if re.response else 503`. `bool(response)` is `response.ok`, which is false for every 4xx/5xx status. | The language agent answers 500 with `{"detail": "boom"}`. The client receives 503 with "Agent error (500): boom". | The agent's own status whenever a response is attached: `is not None`, as line 90 tests. | not executed | Orchestrator.ErrorStatusAsWritten, used by Orchestrator.Handle and Orchestrator.Orchestrate (counterexample: Orchestrator.AgentStatusLost, Orchestrator.HandleLosesAgentStatus) | Orchestrator.ErrorStatus, used by Orchestrator.HandleIntended and Orchestrator.OrchestrateIntended |
