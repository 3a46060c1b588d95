/**
 * The OpenRouter provider: the chat-completions request it posts and how it
 * reads the HTTP result into content, a rate limit or an API error.
 */
module OpenRouter {

  import opened Wrappers
  import opened PyValue
  import opened BaseProvider

  const DefaultApiUrl := "https://openrouter.ai/api/v1/chat/completions"

  /** `api_url or DEFAULT`: a missing or empty URL falls back to the public endpoint. */
  function ApiUrl(configured: Option<string>): (url: string)
    ensures configured.Some? && configured.value != [] ==> url == configured.value
    ensures configured.None? || configured.value == [] ==> url == DefaultApiUrl
  {
    if configured.Some? && configured.value != [] then configured.value else DefaultApiUrl
  }

  /** `OpenRouterProvider(api_key, models, api_url)`. */
  method NewProvider(apiKey: string, models: seq<string>, apiUrl: Option<string>) returns (p: Provider)
    ensures fresh(p) && p.Valid()
    ensures p.kind == OpenRouterKind && p.apiKey == apiKey && p.models == models && p.endpoint == ApiUrl(apiUrl)
    ensures p.currentModelIndex == 0 && p.requestCount == 0 && p.errorCount == 0
  {
    p := new Provider(OpenRouterKind, apiKey, models, ApiUrl(apiUrl));
  }

  function Headers(apiKey: string): map<string, string> {
    map[
      "Authorization" := "Bearer " + apiKey,
      "Content-Type" := "application/json",
      "HTTP-Referer" := "https://github.com/ki-browser",
      "X-Title" := "KI-Browser Automation"]
  }

  /** The JSON body: one user message with the prompt and the screenshot as a data URL. */
  function Payload(model: string, prompt: string, imageB64: string): Value {
    Obj(map[
      "model" := Str(model),
      "messages" := Arr([UserMessage(prompt, imageB64)]),
      "max_tokens" := Num(500.0),
      "temperature" := Num(0.1)])
  }

  function UserMessage(prompt: string, imageB64: string): Value {
    Obj(map["role" := Str("user"), "content" := Arr([TextPart(prompt), ImagePart(imageB64)])])
  }

  function TextPart(prompt: string): Value {
    Obj(map["type" := Str("text"), "text" := Str(prompt)])
  }

  function ImagePart(imageB64: string): Value {
    Obj(map["type" := Str("image_url"), "image_url" := Obj(map["url" := Str("data:image/png;base64," + imageB64)])])
  }

  /** The body names the current model. */
  lemma PayloadNamesModel(model: string, prompt: string, imageB64: string)
    ensures Lookup(Payload(model, prompt, imageB64), [Key("model")]) == Success(Str(model))
  {
    assert Lookup(Payload(model, prompt, imageB64), [Key("model")]) == Lookup(Str(model), []);
  }

  /** The first part of the message is the prompt text. */
  lemma PayloadCarriesPrompt(model: string, prompt: string, imageB64: string)
    ensures Lookup(Payload(model, prompt, imageB64), [Key("messages"), Pos(0), Key("content"), Pos(0), Key("text")])
      == Success(Str(prompt))
  {
    var content := Arr([TextPart(prompt), ImagePart(imageB64)]);
    assert Lookup(Payload(model, prompt, imageB64), [Key("messages"), Pos(0), Key("content"), Pos(0), Key("text")])
      == Lookup(content, [Pos(0), Key("text")]);
    assert Lookup(content, [Pos(0), Key("text")]) == Lookup(TextPart(prompt), [Key("text")]);
  }

  /** The second part sends the screenshot as a PNG data URL. */
  lemma PayloadCarriesImage(model: string, prompt: string, imageB64: string)
    ensures Lookup(Payload(model, prompt, imageB64), [Key("messages"), Pos(0), Key("content"), Pos(1), Key("image_url"), Key("url")])
      == Success(Str("data:image/png;base64," + imageB64))
  {
    var content := Arr([TextPart(prompt), ImagePart(imageB64)]);
    assert Lookup(Payload(model, prompt, imageB64), [Key("messages"), Pos(0), Key("content"), Pos(1), Key("image_url"), Key("url")])
      == Lookup(content, [Pos(1), Key("image_url"), Key("url")]);
    assert Lookup(content, [Pos(1), Key("image_url"), Key("url")])
      == Lookup(ImagePart(imageB64), [Key("image_url"), Key("url")]);
  }

  /** Where the content sits inside `choices`. */
  const ContentPath := [Pos(0), Key("message"), Key("content")]

  /**
   * The checks after a 200 with a JSON body: `choices` must be present and
   * truthy, then `choices[0]['message']['content']` is read; the debug
   * message takes its `len`. Any built-in exception on the way escapes.
   */
  function ReadContent(v: Value): (r: Result<Value, SendError>)
    ensures r.Success? ==> Sized(r.value)
    ensures r.Failure? ==> r.error == ApiError(InvalidStructure) || r.error.Unexpected?
  {
    match In("choices", v)
    case Failure(e) => Failure(Unexpected(e))
    case Success(false) => Failure(ApiError(InvalidStructure))
    case Success(true) =>
      match Subscript(v, Key("choices"))
      case Failure(e) => Failure(Unexpected(e))
      case Success(choices) =>
        if !Truthy(choices) then Failure(ApiError(InvalidStructure))
        else match Lookup(choices, ContentPath)
          case Failure(e) => Failure(Unexpected(e))
          case Success(content) =>
            if Sized(content) then Success(content) else Failure(Unexpected(TypeError))
  }

  /**
   * `send_request` over an HTTP result: its outcome and its `_log_request`
   * flags. Every call logs one or two requests, the first one a success
   * exactly for a 200, and content comes only from a 200 with a JSON body.
   */
  function Classify(http: HttpOutcome): (r: Classified)
    ensures 1 <= |r.logs| <= 2
    ensures r.logs[0] <==> http.Response? && http.status == 200
    ensures r.outcome == Failure(RateLimited) ==> r.logs == [false]
    ensures r.outcome.Success? ==> http.Response? && http.status == 200 && http.body.Some? && Sized(r.outcome.value)
  {
    match http
    case Timeout => Classified(Failure(ApiError(TimedOut)), [false])
    case ConnectionFailed => Classified(Failure(ApiError(RequestFailed)), [false])
    case Response(status, body) =>
      if status == 429 then Classified(Failure(RateLimited), [false])
      else if status != 200 then Classified(Failure(ApiError(BadStatus(status))), [false])
      else match body
        case None => Classified(Failure(ApiError(InvalidJson)), [true, false])
        case Some(v) => Classified(ReadContent(v), [true])
  }

  /**
   * The content is returned exactly when the body is an object whose
   * `choices` is truthy and holds a sized `choices[0].message.content`.
   */
  lemma ReadContentIff(v: Value, c: Value)
    ensures ReadContent(v) == Success(c) <==>
      && v.Obj? && "choices" in v.fields && Truthy(v.fields["choices"])
      && Lookup(v.fields["choices"], ContentPath) == Success(c) && Sized(c)
  {
  }

  /**
   * A 200 whose body has no `choices` (a dict without the key, or a list or
   * string that does not contain it), or whose `choices` is falsy, is the
   * `APIError` for an invalid structure, logged once as a success. No other
   * body gives an `APIError`: the rest either answer or let a built-in
   * exception escape.
   */
  lemma InvalidStructureIff(v: Value)
    ensures Classify(Response(200, Some(v))) == Classified(Failure(ApiError(InvalidStructure)), [true]) <==>
      || In("choices", v) == Success(false)
      || (v.Obj? && "choices" in v.fields && !Truthy(v.fields["choices"]))
    ensures Classify(Response(200, Some(v))).outcome.Failure? && Classify(Response(200, Some(v))).outcome.error.ApiError? ==>
      Classify(Response(200, Some(v))).outcome.error.reason == InvalidStructure
  {
  }

  /**
   * Status handling: 429 and only 429 is a rate limit; any other status but
   * 200 is an API error; a response is logged with `success == (status ==
   * 200)` first, and a 200 whose body is not JSON is logged a second time,
   * as a failure.
   */
  lemma ClassifyStatus(http: HttpOutcome)
    ensures Classify(http).outcome == Failure(RateLimited) <==> http.Response? && http.status == 429
    ensures http.Response? && http.status != 200 && http.status != 429 ==>
      Classify(http).outcome == Failure(ApiError(BadStatus(http.status)))
    ensures http.Response? ==> |Classify(http).logs| >= 1 && Classify(http).logs[0] == (http.status == 200)
    ensures http == Response(200, None) ==> Classify(http).logs == [true, false]
    ensures !http.Response? ==> Classify(http).logs == [false]
    ensures Classify(http).outcome.Success? ==> http.Response? && http.status == 200 && http.body.Some?
  {
  }

  /** A KeyError while reading the content is not turned into an API error: it escapes as it is. */
  lemma KeyErrorEscapes()
    ensures Classify(Response(200, Some(Obj(map["choices" := Arr([Obj(map[])])])))) ==
      Classified(Failure(Unexpected(KeyError)), [true])
  {
    var body := Obj(map["choices" := Arr([Obj(map[])])]);
    assert Lookup(Arr([Obj(map[])]), ContentPath) == Failure(KeyError);
  }

  /**
   * `send_request`. The model is read before the request is built, so an
   * empty roster raises IndexError before anything is sent or logged.
   * `sent` is the request that was posted.
   */
  method SendRequest(p: Provider, prompt: string, imageB64: string, http: HttpOutcome)
    returns (r: Result<Value, SendError>, sent: Option<Request>)
    requires p.Valid()
    modifies p
    ensures p.Valid() && p.currentModelIndex == old(p.currentModelIndex)
    ensures old(p.CurrentModel()).Failure? ==>
      r == Failure(Unexpected(IndexError)) && sent == None
      && p.requestCount == old(p.requestCount) && p.errorCount == old(p.errorCount)
    ensures old(p.CurrentModel()).Success? ==>
      && r == Classify(http).outcome
      && sent == Some(Request(p.endpoint, Headers(p.apiKey), map[], Payload(old(p.CurrentModel()).value, prompt, imageB64)))
      && p.requestCount == old(p.requestCount) + |Classify(http).logs|
      && p.errorCount == old(p.errorCount) + Failures(Classify(http).logs)
  {
    var model := p.CurrentModel();
    if model.Failure? {
      return Failure(Unexpected(IndexError)), None;
    }
    var payload := Payload(model.value, prompt, imageB64);
    sent := Some(Request(p.endpoint, Headers(p.apiKey), map[], payload));
    match http {
      case Timeout =>
        p.LogRequest(false);
        r := Failure(ApiError(TimedOut));
      case ConnectionFailed =>
        p.LogRequest(false);
        r := Failure(ApiError(RequestFailed));
      case Response(status, body) =>
        p.LogRequest(status == 200);
        if status == 429 {
          r := Failure(RateLimited);
        } else if status != 200 {
          r := Failure(ApiError(BadStatus(status)));
        } else if body.None? {
          p.LogRequest(false);
          assert [true, false][1..] == [false];
          r := Failure(ApiError(InvalidJson));
        } else {
          r := ReadContent(body.value);
        }
    }
  }
}
