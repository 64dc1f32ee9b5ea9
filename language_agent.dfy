/**
 * The language agent's graph and its `/language/generate_brief/` endpoint: five
 * nodes run in a fixed order (extract tickers, retrieve data, retrieve news, analyze,
 * synthesize), each merging its update into the state; the endpoint then turns the
 * final state into a brief or an HTTP 500.
 */
module LanguageAgent {
  import opened Wrappers
  import opened Text
  import opened Json
  import opened Http
  import opened LanguageState
  import opened LanguageData
  import opened LanguageNews
  import opened LanguageDigest
  import AnalysisAgent

  /** What the narrative prompt is filled with; the context lines are joined by newlines. */
  datatype SynthesisInput = SynthesisInput(
    question: string,
    portfolio: Fields,
    quotes: Fields,
    daily: Fields,
    earnings: seq<Fields>,
    news: seq<Fields>,
    context: string)

  /**
   * The calls the graph makes outside itself: the ticker-extraction chain, the API
   * agent's two endpoints, the news key and NewsAPI, the analysis agent and the
   * narrative chain.  Each answers with a value or the message of what it raised.
   */
  datatype Services = Services(
    extract: string -> Result<seq<string>, string>,
    quote: Fetch,
    daily: Fetch,
    newsKey: string,
    newsApi: string -> Result<Json, string>,
    analysis: AnalysisAgent.AnalysisInput -> Result<Json, string>,
    synthesize: SynthesisInput -> Result<string, string>)

  /** `extract_tickers`: the tickers, or the error text; nothing else changes. */
  function ExtractTickers(s: AgentState, extract: string -> Result<seq<string>, string>): (u: Update)
    ensures extract(s.question).Ok? ==> Apply(s, u) == s.(tickers := extract(s.question).value)
    ensures extract(s.question).Err? ==> Apply(s, u) == s.(error := "Error extracting tickers: " + extract(s.question).error)
  {
    match extract(s.question)
    case Ok(tickers) => NoUpdate.(tickers := Some(tickers))
    case Err(e) => NoUpdate.(error := Some("Error extracting tickers: " + e))
  }

  /** The request body `analyze_data` posts to the analysis agent. */
  function AnalysisInputOf(s: AgentState): AnalysisAgent.AnalysisInput
  {
    AnalysisAgent.AnalysisInput(s.question, s.portfolio, s.quotes, s.daily, s.earnings, s.news)
  }

  function SynthesisInputOf(s: AgentState): SynthesisInput
  {
    SynthesisInput(s.question, s.portfolio, s.quotes, s.daily, s.earnings, s.news, Join("\n", s.context))
  }

  /** `synthesize_narrative`: the brief, or the error text; nothing else changes. */
  function SynthesizeNarrative(s: AgentState, synthesize: SynthesisInput -> Result<string, string>): (u: Update)
    ensures synthesize(SynthesisInputOf(s)).Ok? ==> Apply(s, u) == s.(brief := synthesize(SynthesisInputOf(s)).value)
    ensures synthesize(SynthesisInputOf(s)).Err? ==>
      Apply(s, u) == s.(error := "Error during narrative synthesis: " + synthesize(SynthesisInputOf(s)).error)
  {
    match synthesize(SynthesisInputOf(s))
    case Ok(brief) => NoUpdate.(brief := Some(brief))
    case Err(e) => NoUpdate.(error := Some("Error during narrative synthesis: " + e))
  }

  /** The state after the first two nodes. */
  function Retrieved(s0: AgentState, sv: Services): AgentState
  {
    var s1 := Apply(s0, ExtractTickers(s0, sv.extract));
    Apply(s1, RetrieveData(s1, sv.quote, sv.daily))
  }

  /** The state after the news and analysis nodes, or the exception one of them raised. */
  function Analyzed(s0: AgentState, sv: Services, fmt: Formats): Result<AgentState, string>
  {
    var s2 := Retrieved(s0, sv);
    match RetrieveNews(s2, sv.newsKey, sv.newsApi)
    case Err(e) => Err(e)
    case Ok(u3) =>
      var s3 := Apply(s2, u3);
      match AnalyzeData(s3, sv.analysis(AnalysisInputOf(s3)), fmt)
      case Err(e) => Err(e)
      case Ok(u4) => Ok(Apply(s3, u4))
  }

  /** `app_graph.invoke(state)`: the final state, or the exception a node raised. */
  function Graph(s0: AgentState, sv: Services, fmt: Formats): Result<AgentState, string>
  {
    match Analyzed(s0, sv, fmt)
    case Err(e) => Err(e)
    case Ok(s4) => Ok(Apply(s4, SynthesizeNarrative(s4, sv.synthesize)))
  }

  const Fallback: string :=
    "Could not generate a comprehensive brief. Please try rephrasing your query or provide more context."

  /** `generate_brief_endpoint`: the response body, or the HTTP error raised. */
  function GenerateBrief(question: string, portfolio: Fields, sv: Services, fmt: Formats): Result<Json, HttpError>
  {
    match Graph(InitialState(question, portfolio), sv, fmt)
    case Err(e) => Err(HttpError(500, "Internal Server Error: " + e))
    case Ok(result) =>
      if result.error != "" then Err(HttpError(500, result.error))
      else if result.brief == "" then Ok(Obj([("brief", Str(Fallback))]))
      else Ok(Obj([("brief", Str(result.brief))]))
  }

  /** Extraction failed. */
  predicate ExtractionFails(question: string, sv: Services)
  {
    sv.extract(question).Err?
  }

  /** Extraction succeeded and one of the extracted tickers failed. */
  predicate SomeTickerFails(question: string, sv: Services)
  {
    sv.extract(question).Ok? && exists t :: t in sv.extract(question).value && Fails(t, sv.quote, sv.daily)
  }

  /**
   * The error text after the data node, starting from the initial state: the
   * extraction error (the data node then returns the state unchanged), nothing when
   * no ticker was extracted, and otherwise one line per failing ticker.
   */
  lemma RetrievedError(question: string, portfolio: Fields, sv: Services)
    ensures var s2 := Retrieved(InitialState(question, portfolio), sv);
      && (ExtractionFails(question, sv) ==>
            s2.error == "Error extracting tickers: " + sv.extract(question).error && s2.tickers == [])
      && (sv.extract(question).Ok? ==> s2.tickers == sv.extract(question).value)
      && (sv.extract(question) == Ok([]) ==> s2.error == "" && s2.quotes == [] && s2.daily == [])
      && (sv.extract(question).Ok? && sv.extract(question).value != [] ==>
            s2.error == Join("\n", FetchAll(sv.extract(question).value, sv.quote, sv.daily).errors))
      && (s2.error == "" <==> !ExtractionFails(question, sv) && !SomeTickerFails(question, sv))
  {
    var s0 := InitialState(question, portfolio);
    var s1 := Apply(s0, ExtractTickers(s0, sv.extract));
    if s1.tickers == [] {
      RetrieveDataNoTickers(s1, sv.quote, sv.daily);
    } else {
      RetrieveDataError(s1, sv.quote, sv.daily);
    }
  }

  /** The news and analysis nodes set only the news and the context. */
  lemma AnalyzedKeeps(s0: AgentState, sv: Services, fmt: Formats)
    requires Analyzed(s0, sv, fmt).Ok?
    ensures var s2, s4 := Retrieved(s0, sv), Analyzed(s0, sv, fmt).value;
      s4 == s2.(news := s4.news, context := s4.context)
  {
  }

  /**
   * The endpoint's outcome, once no node raised: an HTTP 500 exactly when extraction,
   * a ticker or the narrative failed, with the narrative error winning over the
   * earlier ones; otherwise the narrative, or the fallback text when it is empty.
   */
  lemma BriefOutcome(question: string, portfolio: Fields, sv: Services, fmt: Formats)
    requires Analyzed(InitialState(question, portfolio), sv, fmt).Ok?
    ensures var s4 := Analyzed(InitialState(question, portfolio), sv, fmt).value;
      var narrative := sv.synthesize(SynthesisInputOf(s4));
      var r := GenerateBrief(question, portfolio, sv, fmt);
      && (r.Err? <==> ExtractionFails(question, sv) || SomeTickerFails(question, sv) || narrative.Err?)
      && (narrative.Err? ==> r == Err(HttpError(500, "Error during narrative synthesis: " + narrative.error)))
      && (narrative.Ok? && ExtractionFails(question, sv) ==>
            r == Err(HttpError(500, "Error extracting tickers: " + sv.extract(question).error)))
      && (r.Ok? ==> r == Ok(Obj([("brief", Str(if narrative.value == "" then Fallback else narrative.value))])))
  {
    var s0 := InitialState(question, portfolio);
    var s2, s4 := Retrieved(s0, sv), Analyzed(s0, sv, fmt).value;
    var s5 := Apply(s4, SynthesizeNarrative(s4, sv.synthesize));
    assert Graph(s0, sv, fmt) == Ok(s5);
    AnalyzedKeeps(s0, sv, fmt);
    assert s4.error == s2.error && s4.brief == s2.brief == "";
    RetrievedError(question, portfolio, sv);
  }

  /** An exception in any node is an HTTP 500 carrying its message. */
  lemma CrashIs500(question: string, portfolio: Fields, sv: Services, fmt: Formats)
    requires Analyzed(InitialState(question, portfolio), sv, fmt).Err?
    ensures GenerateBrief(question, portfolio, sv, fmt)
      == Err(HttpError(500, "Internal Server Error: " + Analyzed(InitialState(question, portfolio), sv, fmt).error))
  {
  }

  /** A failed extraction always fails the request, whatever the later nodes do. */
  lemma ExtractionFailureIsFatal(question: string, portfolio: Fields, sv: Services, fmt: Formats)
    requires ExtractionFails(question, sv)
    ensures GenerateBrief(question, portfolio, sv, fmt).Err?
    ensures GenerateBrief(question, portfolio, sv, fmt).error.status == 500
  {
    if Analyzed(InitialState(question, portfolio), sv, fmt).Ok? {
      BriefOutcome(question, portfolio, sv, fmt);
    }
  }

  /** One failing ticker fails the whole request, although each failure is caught. */
  lemma TickerFailureIsFatal(question: string, portfolio: Fields, sv: Services, fmt: Formats, t: string)
    requires sv.extract(question).Ok? && t in sv.extract(question).value && Fails(t, sv.quote, sv.daily)
    ensures GenerateBrief(question, portfolio, sv, fmt).Err?
    ensures GenerateBrief(question, portfolio, sv, fmt).error.status == 500
  {
    if Analyzed(InitialState(question, portfolio), sv, fmt).Ok? {
      BriefOutcome(question, portfolio, sv, fmt);
    }
  }

  /** A successful response always carries a non-empty brief. */
  lemma BriefNeverEmpty(question: string, portfolio: Fields, sv: Services, fmt: Formats)
    requires GenerateBrief(question, portfolio, sv, fmt).Ok?
    ensures var r := GenerateBrief(question, portfolio, sv, fmt).value;
      r.Obj? && |r.fields| == 1 && r.fields[0].0 == "brief" && r.fields[0].1.Str? && r.fields[0].1.s != ""
  {
  }

  /** The endpoint, running the node methods in the graph's order. */
  method GenerateBriefEndpoint(question: string, portfolio: Fields, sv: Services, fmt: Formats)
    returns (r: Result<Json, HttpError>)
    ensures r == GenerateBrief(question, portfolio, sv, fmt)
  {
    var s := InitialState(question, portfolio);
    s := Apply(s, ExtractTickers(s, sv.extract));
    var data := RetrieveDataNode(s, sv.quote, sv.daily);
    s := Apply(s, data);
    var news := RetrieveNewsNode(s, sv.newsKey, sv.newsApi);
    if news.Err? {
      return Err(HttpError(500, "Internal Server Error: " + news.error));
    }
    s := Apply(s, news.value);
    var analysis := AnalyzeDataNode(s, sv.analysis(AnalysisInputOf(s)), fmt);
    if analysis.Err? {
      return Err(HttpError(500, "Internal Server Error: " + analysis.error));
    }
    s := Apply(s, analysis.value);
    s := Apply(s, SynthesizeNarrative(s, sv.synthesize));
    if s.error != "" {
      return Err(HttpError(500, s.error));
    }
    if s.brief == "" {
      return Ok(Obj([("brief", Str(Fallback))]));
    }
    return Ok(Obj([("brief", Str(s.brief))]));
  }
}
