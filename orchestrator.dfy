/**
 * The orchestrator's `/orchestrate/generate_brief/` endpoint: it chooses the question
 * (a transcription of the audio when there is audio, the text otherwise), asks the
 * language agent for a brief, and turns every failure into an HTTP error.
 */
module Orchestrator {
  import opened Wrappers
  import opened Text
  import opened Dict
  import opened Json
  import opened Http
  import LanguageAgent

  /** The request body: optional text, optional base64 audio, and the portfolio (empty by default). */
  datatype UserQuery = UserQuery(queryText: Option<string>, audio: Option<string>, portfolio: Fields)

  /** The body the orchestrator posts to the language agent. */
  datatype LanguageAgentRequest = LanguageAgentRequest(question: string, portfolioInitialData: Fields)

  /** A response an agent sent back: its status, its body decoded as JSON (None when it is not JSON), its text. */
  datatype Response = Response(status: int, body: Option<Json>, text: string)

  /** A `requests` exception: its message `str(e)` and the response attached to it, if any. */
  datatype RequestError = RequestError(msg: string, response: Option<Response>)

  /**
   * The two agents the orchestrator calls, each answering with the decoded JSON body
   * or the `requests` exception raised (by the connection, by `raise_for_status`, or by
   * `.json()`); and the message of the validation error raised when the question
   * handed to `LanguageAgentRequest` is not a string.
   */
  datatype Agents = Agents(
    transcribe: string -> Result<Json, RequestError>,
    language: LanguageAgentRequest -> Result<Json, RequestError>,
    invalidQuestion: Json -> string)

  /** What escapes the endpoint's `try` block, before the handlers see it. */
  datatype Raised =
    | RaisedHttp(e: HttpError)
    | RaisedRequest(re: RequestError)
    | RaisedOther(msg: string)

  const NotTranscribed: string := "Voice input could not be transcribed to text."
  const NoInput: string := "Either 'query_text' or 'audio_file_base64' must be provided."
  const NoBrief: string := "Language Agent did not return a brief."
  const Unavailable: string := "Service unavailable or error contacting agent: "

  /** An optional request field is truthy when it is present and not empty. */
  predicate Given(o: Option<string>)
  {
    o.Some? && o.value != ""
  }

  /**
   * The question for the language agent: the transcription when audio is given, the
   * text otherwise; a 400 when the transcription is empty or nothing was given.
   */
  function Question(q: UserQuery, ag: Agents): (r: Result<Json, Raised>)
    ensures !Given(q.audio) && Given(q.queryText) ==> r == Ok(Str(q.queryText.value))
    ensures !Given(q.audio) && !Given(q.queryText) ==> r == Err(RaisedHttp(HttpError(400, NoInput)))
    ensures Given(q.audio) && r.Ok? ==> Truthy(r.value)
  {
    if Given(q.audio) then
      match ag.transcribe(q.audio.value)
      case Err(re) => Err(RaisedRequest(re))
      case Ok(data) =>
        match PyGet(data, "transcribed_text", Str(""))
        case Err(m) => Err(RaisedOther(m))
        case Ok(t) => if !Truthy(t) then Err(RaisedHttp(HttpError(400, NotTranscribed))) else Ok(t)
    else if Given(q.queryText) then Ok(Str(q.queryText.value))
    else Err(RaisedHttp(HttpError(400, NoInput)))
  }

  /** The response body: the brief, and the conclusion audio only when it is truthy. */
  function ResponseData(brief: Json, audio: Json): Fields
  {
    [("brief_text", brief)] + if Truthy(audio) then [("conclusion_audio_base64", audio)] else []
  }

  /** `response_data` always carries the brief, and carries the audio exactly when it is truthy. */
  lemma ResponseShape(brief: Json, audio: Json)
    ensures var r := ResponseData(brief, audio);
      && Get(r, "brief_text") == Some(brief)
      && ("conclusion_audio_base64" in KeySet(r) <==> Truthy(audio))
      && (Truthy(audio) ==> Get(r, "conclusion_audio_base64") == Some(audio))
      && KeySet(r) <= {"brief_text", "conclusion_audio_base64"}
  {
    var r := ResponseData(brief, audio);
    assert r[0] == ("brief_text", brief);
    if Truthy(audio) {
      assert r == Cons("brief_text", brief, [("conclusion_audio_base64", audio)]);
      GetCons("brief_text", brief, [("conclusion_audio_base64", audio)], "conclusion_audio_base64");
    }
  }

  /** The language agent's answer to a question, up to the brief check. */
  function AskLanguageAgent(question: Json, portfolio: Fields, ag: Agents): (r: Result<Fields, Raised>)
    ensures !question.Str? ==> r == Err(RaisedOther(ag.invalidQuestion(question)))
  {
    if !question.Str? then Err(RaisedOther(ag.invalidQuestion(question)))
    else
      match ag.language(LanguageAgentRequest(question.s, portfolio))
      case Err(re) => Err(RaisedRequest(re))
      case Ok(output) =>
        match PyGet(output, "brief", Str(""))
        case Err(m) => Err(RaisedOther(m))
        case Ok(brief) =>
          var audio := GetOr(output.fields, "conclusion_audio_base64", Null);
          if !Truthy(brief) then Err(RaisedHttp(HttpError(500, NoBrief)))
          else Ok(ResponseData(brief, audio))
  }

  /** The `try` block: the question, then the language agent. */
  function TryBlock(q: UserQuery, ag: Agents): Result<Fields, Raised>
  {
    match Question(q, ag)
    case Err(x) => Err(x)
    case Ok(question) => AskLanguageAgent(question, q.portfolio, ag)
  }

  /**
   * The detail of the HTTP error built from a `requests` exception, or the message of
   * the TypeError that `"detail" in body` or `body['detail']` raises when the agent's
   * body is not a dictionary.
   */
  function AgentErrorDetail(re: RequestError, fmt: Formats): (r: Result<string, string>)
    ensures re.response.None? ==> r == Ok(Unavailable + re.msg)
    ensures re.response.Some? && re.response.value.body.None? ==>
      r == Ok("Agent error (" + IntToDecimal(re.response.value.status) + "): " + re.response.value.text)
  {
    match re.response
    case None => Ok(Unavailable + re.msg)
    case Some(resp) =>
      match resp.body
      case None => Ok("Agent error (" + IntToDecimal(resp.status) + "): " + resp.text)
      case Some(body) =>
        match PyContains(body, "detail")
        case Err(m) => Err(m)
        case Ok(has) =>
          if !has then Ok(Unavailable + re.msg)
          else
            match PyIndex(body, "detail")
            case Err(m) => Err(m)
            case Ok(d) => Ok("Agent error (" + IntToDecimal(resp.status) + "): " + Show(d, fmt))
  }

  /** An agent's dictionary body with a "detail" key gives "Agent error (<code>): <detail>". */
  lemma AgentDetail(re: RequestError, fmt: Formats)
    requires re.response.Some? && re.response.value.body.Some?
    requires var body := re.response.value.body.value; body.Obj? && "detail" in KeySet(body.fields)
    ensures var resp := re.response.value;
      AgentErrorDetail(re, fmt)
        == Ok("Agent error (" + IntToDecimal(resp.status) + "): " + Show(GetOr(resp.body.value.fields, "detail", Null), fmt))
  {
  }

  /** A dictionary body without "detail" keeps the generic message. */
  lemma AgentNoDetail(re: RequestError, fmt: Formats)
    requires re.response.Some? && re.response.value.body.Some?
    requires var body := re.response.value.body.value; body.Obj? && "detail" !in KeySet(body.fields)
    ensures AgentErrorDetail(re, fmt) == Ok(Unavailable + re.msg)
  {
  }

  /**
   * Error bodies that are not dictionaries: one that `in` cannot search (a number or
   * None) raises, so does a list or string that contains "detail" (it cannot be indexed
   * by a string), and a list or string without "detail" keeps the generic message.
   */
  lemma AgentDetailBodies(re: RequestError, fmt: Formats)
    requires re.response.Some? && re.response.value.body.Some?
    ensures var body := re.response.value.body.value;
      AgentErrorDetail(re, fmt).Err?
      <==> (PyContains(body, "detail").Err? || (!body.Obj? && PyContains(body, "detail") == Ok(true)))
    ensures var body := re.response.value.body.value;
      PyContains(body, "detail") == Ok(false) ==> AgentErrorDetail(re, fmt) == Ok(Unavailable + re.msg)
  {
  }

  /** `bool(response)` is `response.ok`: false exactly for a 4xx or 5xx status. */
  predicate ResponseOk(resp: Response)
  {
    !(400 <= resp.status < 600)
  }

  /** The status of the error, as line 97 computes it: the response's truth value decides. */
  function ErrorStatusAsWritten(re: RequestError): (status: int)
    ensures re.response.Some? && !ResponseOk(re.response.value) ==> status == 503
  {
    if re.response.Some? && ResponseOk(re.response.value) then re.response.value.status else 503
  }

  /** The status of the error as intended: the agent's own status whenever a response came back. */
  function ErrorStatus(re: RequestError): (status: int)
    ensures re.response.Some? ==> status == re.response.value.status
    ensures re.response.None? ==> status == 503
  {
    if re.response.Some? then re.response.value.status else 503
  }

  /** The error that an agent's 500 with a "detail" body raises. */
  function Agent500(detail: string): RequestError
  {
    RequestError("500 Server Error", Some(Response(500, Some(Obj([("detail", Str(detail))])), "")))
  }

  /** The prefix of an agent's error detail for status 500. */
  lemma AgentError500()
    ensures "Agent error (" + IntToDecimal(500) + "): " == "Agent error (500): "
  {
    assert IntToDecimal(500) == "500" by {
      assert NatToDecimal(50) == "50";
    }
  }

  /** As written, an agent's HTTP 500 is reported as 503, although its detail is kept. */
  lemma AgentStatusLost(detail: string, fmt: Formats)
    ensures ErrorStatusAsWritten(Agent500(detail)) == 503
    ensures ErrorStatus(Agent500(detail)) == 500
    ensures AgentErrorDetail(Agent500(detail), fmt) == Ok("Agent error (500): " + detail)
  {
    var f: Fields := [("detail", Str(detail))];
    GetAt(f, 0, "detail");
    AgentDetail(Agent500(detail), fmt);
    AgentError500();
  }

  /** As written, no error response an agent sends keeps its status. */
  lemma AsWrittenHidesEveryErrorStatus(re: RequestError)
    requires re.response.Some? && 400 <= re.response.value.status < 600
    ensures ErrorStatusAsWritten(re) == 503
    ensures ErrorStatus(re) == ErrorStatusAsWritten(re) <==> re.response.value.status == 503
  {
  }

  /**
   * The handlers, given the rule that picks the status of a `requests` error: HTTP errors
   * pass through, other exceptions become an orchestration error, and a `requests` error
   * becomes an HTTP error with that status and the agent's detail, unless reading the
   * detail raises, which escapes the handler as a bare 500.
   */
  function HandleBy(x: Raised, fmt: Formats, status: RequestError -> int): (e: HttpError)
    ensures x.RaisedHttp? ==> e == x.e
    ensures x.RaisedOther? ==> e == HttpError(500, "Orchestration Error: " + x.msg)
    ensures x.RaisedRequest? && AgentErrorDetail(x.re, fmt).Ok? ==>
      e == HttpError(status(x.re), AgentErrorDetail(x.re, fmt).value)
    ensures x.RaisedRequest? && AgentErrorDetail(x.re, fmt).Err? ==> e == InternalServerError
  {
    match x
    case RaisedHttp(e) => e
    case RaisedOther(m) => HttpError(500, "Orchestration Error: " + m)
    case RaisedRequest(re) =>
      match AgentErrorDetail(re, fmt)
      case Err(_) => InternalServerError
      case Ok(detail) => HttpError(status(re), detail)
  }

  /** The handlers as written, with line 97's status. */
  function Handle(x: Raised, fmt: Formats): HttpError
  {
    HandleBy(x, fmt, ErrorStatusAsWritten)
  }

  /** The handlers as intended, keeping the agent's status. */
  function HandleIntended(x: Raised, fmt: Formats): HttpError
  {
    HandleBy(x, fmt, ErrorStatus)
  }

  /**
   * As written, every error response of an agent whose detail can be read reaches the
   * client as a 503; as intended it keeps the agent's status.  The two agree on
   * everything else.
   */
  lemma HandleLosesAgentStatus(x: Raised, fmt: Formats)
    ensures (x.RaisedRequest? && x.re.response.Some? && !ResponseOk(x.re.response.value)
             && AgentErrorDetail(x.re, fmt).Ok?) ==>
      && Handle(x, fmt) == HttpError(503, AgentErrorDetail(x.re, fmt).value)
      && HandleIntended(x, fmt) == HttpError(x.re.response.value.status, AgentErrorDetail(x.re, fmt).value)
    ensures !(x.RaisedRequest? && x.re.response.Some? && !ResponseOk(x.re.response.value)) ==>
      Handle(x, fmt) == HandleIntended(x, fmt)
  {
  }

  /** `orchestrate_market_brief`, given the status rule of its `requests` handler. */
  function OrchestrateBy(q: UserQuery, ag: Agents, fmt: Formats, status: RequestError -> int)
    : Result<Fields, HttpError>
  {
    match TryBlock(q, ag)
    case Ok(body) => Ok(body)
    case Err(x) => Err(HandleBy(x, fmt, status))
  }

  /** `orchestrate_market_brief` as written: the response body, or the HTTP error the client receives. */
  function Orchestrate(q: UserQuery, ag: Agents, fmt: Formats): Result<Fields, HttpError>
  {
    OrchestrateBy(q, ag, fmt, ErrorStatusAsWritten)
  }

  /** `orchestrate_market_brief` with line 97 corrected. */
  function OrchestrateIntended(q: UserQuery, ag: Agents, fmt: Formats): Result<Fields, HttpError>
  {
    OrchestrateBy(q, ag, fmt, ErrorStatus)
  }

  /** When audio is given the text is never looked at. */
  lemma AudioWins(q: UserQuery, text: Option<string>, ag: Agents, fmt: Formats)
    requires Given(q.audio)
    ensures Orchestrate(q.(queryText := text), ag, fmt) == Orchestrate(q, ag, fmt)
  {
  }

  /** Without audio the text is the question, and with neither the request is a 400. */
  lemma TextOrNothing(q: UserQuery, ag: Agents, fmt: Formats)
    requires !Given(q.audio)
    ensures Given(q.queryText) ==>
      Orchestrate(q, ag, fmt) == Orchestrate(q.(audio := None, queryText := q.queryText), ag, fmt)
    ensures Given(q.queryText) ==> TryBlock(q, ag) == AskLanguageAgent(Str(q.queryText.value), q.portfolio, ag)
    ensures !Given(q.queryText) ==> Orchestrate(q, ag, fmt) == Err(HttpError(400, NoInput))
  {
  }

  /** An empty (or missing) transcription is a 400; the language agent is not asked. */
  lemma EmptyTranscription(q: UserQuery, ag: Agents, fmt: Formats)
    requires Given(q.audio) && ag.transcribe(q.audio.value).Ok?
    requires var data := ag.transcribe(q.audio.value).value;
      data.Obj? && !Truthy(GetOr(data.fields, "transcribed_text", Str("")))
    ensures Orchestrate(q, ag, fmt) == Err(HttpError(400, NotTranscribed))
  {
  }

  /**
   * The endpoint succeeds exactly when a question was found as a string and the language
   * agent answered with a dictionary whose brief is truthy; the body is then that brief
   * and, when truthy, the conclusion audio.
   */
  lemma OrchestrateOutcome(q: UserQuery, ag: Agents, fmt: Formats)
    ensures var r := Orchestrate(q, ag, fmt);
      var question := Question(q, ag);
      && (r.Ok? <==>
            && question.Ok? && question.value.Str?
            && var out := ag.language(LanguageAgentRequest(question.value.s, q.portfolio));
               out.Ok? && out.value.Obj? && Truthy(GetOr(out.value.fields, "brief", Str(""))))
      && (r.Ok? ==>
            var out := ag.language(LanguageAgentRequest(question.value.s, q.portfolio)).value;
            r.value == ResponseData(GetOr(out.fields, "brief", Str("")),
                                    GetOr(out.fields, "conclusion_audio_base64", Null)))
  {
  }

  /** A dictionary answer without a truthy brief is a 500 of the orchestrator's own. */
  lemma EmptyBriefIs500(q: UserQuery, ag: Agents, fmt: Formats, s: string)
    requires Question(q, ag) == Ok(Str(s))
    requires var out := ag.language(LanguageAgentRequest(s, q.portfolio));
      out.Ok? && out.value.Obj? && !Truthy(GetOr(out.value.fields, "brief", Str("")))
    ensures Orchestrate(q, ag, fmt) == Err(HttpError(500, NoBrief))
  {
  }

  /**
   * What `requests` gives the orchestrator for the language agent's answer: the body of
   * a success, or, for an HTTPException, the error `raise_for_status` raises, carrying
   * the response with FastAPI's `{"detail": ...}` body.
   */
  function LanguageReply(r: Result<Json, HttpError>, msg: string, text: string): Result<Json, RequestError>
  {
    match r
    case Ok(body) => Ok(body)
    case Err(e) => Err(RequestError(msg, Some(Response(e.status, Some(Obj([("detail", Str(e.detail))])), text))))
  }

  /** The language agent's failures are always 500s. */
  lemma LanguageAgentStatus(question: string, portfolio: Fields, sv: LanguageAgent.Services, fmt: Formats)
    requires LanguageAgent.GenerateBrief(question, portfolio, sv, fmt).Err?
    ensures LanguageAgent.GenerateBrief(question, portfolio, sv, fmt).error.status == 500
  {
  }

  /**
   * Wired to an agent whose successes are a single non-empty "brief" and whose failures
   * are 500s: the brief comes through as `brief_text` with no audio key, so the
   * orchestrator's own "no brief" 500 never fires, and a failure comes through with the
   * agent's detail: as a 503 as written, as the agent's 500 as intended.
   */
  lemma ThroughAgent(q: UserQuery, ag: Agents, fmt: Formats, s: string,
                     g: Result<Json, HttpError>, msg: string, text: string)
    requires Question(q, ag) == Ok(Str(s))
    requires ag.language(LanguageAgentRequest(s, q.portfolio)) == LanguageReply(g, msg, text)
    requires g.Ok? ==> var r := g.value;
      r.Obj? && |r.fields| == 1 && r.fields[0].0 == "brief" && r.fields[0].1.Str? && r.fields[0].1.s != ""
    requires g.Err? ==> g.error.status == 500
    ensures g.Ok? ==> Orchestrate(q, ag, fmt) == Ok([("brief_text", g.value.fields[0].1)])
    ensures g.Ok? ==> OrchestrateIntended(q, ag, fmt) == Orchestrate(q, ag, fmt)
    ensures g.Err? ==> Orchestrate(q, ag, fmt) == Err(HttpError(503, "Agent error (500): " + g.error.detail))
    ensures g.Err? ==> OrchestrateIntended(q, ag, fmt) == Err(HttpError(500, "Agent error (500): " + g.error.detail))
  {
    if g.Ok? {
      var out := g.value;
      assert GetOr(out.fields, "brief", Str("")) == out.fields[0].1 by {
        GetAt(out.fields, 0, "brief");
      }
      assert GetOr(out.fields, "conclusion_audio_base64", Null) == Null by {
        assert "conclusion_audio_base64" !in KeySet(out.fields);
      }
      assert ResponseData(out.fields[0].1, Null) == [("brief_text", g.value.fields[0].1)];
    } else {
      var f: Fields := [("detail", Str(g.error.detail))];
      var re := RequestError(msg, Some(Response(500, Some(Obj(f)), text)));
      assert ag.language(LanguageAgentRequest(s, q.portfolio)) == Err(re);
      GetAt(f, 0, "detail");
      AgentDetail(re, fmt);
      AgentError500();
    }
  }

  /** The same, for the language agent's endpoint itself. */
  lemma ThroughLanguageAgent(q: UserQuery, ag: Agents, fmt: Formats, s: string,
                             sv: LanguageAgent.Services, fmt2: Formats, msg: string, text: string)
    requires Question(q, ag) == Ok(Str(s))
    requires ag.language(LanguageAgentRequest(s, q.portfolio))
      == LanguageReply(LanguageAgent.GenerateBrief(s, q.portfolio, sv, fmt2), msg, text)
    ensures var g := LanguageAgent.GenerateBrief(s, q.portfolio, sv, fmt2);
      && (g.Ok? ==> var body := g.value;
            && body.Obj? && |body.fields| == 1 && body.fields[0].1.Str? && body.fields[0].1.s != ""
            && Orchestrate(q, ag, fmt) == Ok([("brief_text", body.fields[0].1)]))
      && (g.Ok? ==> OrchestrateIntended(q, ag, fmt) == Orchestrate(q, ag, fmt))
      && (g.Err? ==> Orchestrate(q, ag, fmt) == Err(HttpError(503, "Agent error (500): " + g.error.detail)))
      && (g.Err? ==> OrchestrateIntended(q, ag, fmt) == Err(HttpError(500, "Agent error (500): " + g.error.detail)))
  {
    var g := LanguageAgent.GenerateBrief(s, q.portfolio, sv, fmt2);
    if g.Ok? {
      LanguageAgent.BriefNeverEmpty(s, q.portfolio, sv, fmt2);
    } else {
      LanguageAgentStatus(s, q.portfolio, sv, fmt2);
    }
    ThroughAgent(q, ag, fmt, s, g, msg, text);
  }

  /** The `try` block, step by step. */
  method TryBlockNode(q: UserQuery, ag: Agents) returns (r: Result<Fields, Raised>)
    ensures r == TryBlock(q, ag)
  {
    var question: Json := Str("");
    if Given(q.audio) {
      var transcribed := ag.transcribe(q.audio.value);
      if transcribed.Err? {
        return Err(RaisedRequest(transcribed.error));
      }
      var got := PyGet(transcribed.value, "transcribed_text", Str(""));
      if got.Err? {
        return Err(RaisedOther(got.error));
      }
      question := got.value;
      if !Truthy(question) {
        return Err(RaisedHttp(HttpError(400, NotTranscribed)));
      }
    } else if Given(q.queryText) {
      question := Str(q.queryText.value);
    } else {
      return Err(RaisedHttp(HttpError(400, NoInput)));
    }
    if !question.Str? {
      return Err(RaisedOther(ag.invalidQuestion(question)));
    }
    var language := ag.language(LanguageAgentRequest(question.s, q.portfolio));
    if language.Err? {
      return Err(RaisedRequest(language.error));
    }
    var output := language.value;
    var brief := PyGet(output, "brief", Str(""));
    if brief.Err? {
      return Err(RaisedOther(brief.error));
    }
    var audio := PyGet(output, "conclusion_audio_base64", Null).value;
    if !Truthy(brief.value) {
      return Err(RaisedHttp(HttpError(500, NoBrief)));
    }
    var responseData: Fields := [("brief_text", brief.value)];
    if Truthy(audio) {
      assert "conclusion_audio_base64" !in KeySet(responseData);
      responseData := Put(responseData, "conclusion_audio_base64", audio);
    }
    assert responseData == ResponseData(brief.value, audio);
    return Ok(responseData);
  }

  /** The endpoint with its handlers, as written. */
  method OrchestrateMarketBrief(q: UserQuery, ag: Agents, fmt: Formats) returns (r: Result<Fields, HttpError>)
    ensures r == Orchestrate(q, ag, fmt)
  {
    var outcome := TryBlockNode(q, ag);
    if outcome.Ok? {
      return Ok(outcome.value);
    }
    match outcome.error
    case RaisedHttp(e) =>
      r := Err(e);
    case RaisedOther(m) =>
      r := Err(HttpError(500, "Orchestration Error: " + m));
    case RaisedRequest(re) =>
      var detail := Unavailable + re.msg;
      if re.response.Some? {
        var resp := re.response.value;
        if resp.body.None? {
          detail := "Agent error (" + IntToDecimal(resp.status) + "): " + resp.text;
        } else {
          var has := PyContains(resp.body.value, "detail");
          if has.Err? {
            return Err(InternalServerError);
          }
          if has.value {
            var d := PyIndex(resp.body.value, "detail");
            if d.Err? {
              return Err(InternalServerError);
            }
            detail := "Agent error (" + IntToDecimal(resp.status) + "): " + Show(d.value, fmt);
          }
        }
      }
      var status := if re.response.Some? && ResponseOk(re.response.value) then re.response.value.status else 503;
      r := Err(HttpError(status, detail));
  }
}
