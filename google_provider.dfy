/**
 * The Google Gemini provider: the `generateContent` request (its URL is a
 * template with the model name filled in) and how it reads the HTTP result.
 * Unlike OpenRouter it turns a KeyError in the body into an API error.
 */
module Google {

  import opened Wrappers
  import opened Text
  import opened PyValue
  import opened BaseProvider

  const Placeholder := "{model}"
  /** `https://generativelanguage.googleapis.com/v1beta/models/`, in pieces short enough for the verifier to see it holds no brace. */
  const DefaultUrlPrefix := "https://" + "generativelanguage." + "googleapis.com" + "/v1beta/models/"
  const DefaultUrlSuffix := ":generateContent"
  const DefaultUrlTemplate := DefaultUrlPrefix + Placeholder + DefaultUrlSuffix

  /** `api_url_template or DEFAULT`. */
  function UrlTemplate(configured: Option<string>): (t: string)
    ensures configured.Some? && configured.value != [] ==> t == configured.value
    ensures configured.None? || configured.value == [] ==> t == DefaultUrlTemplate
  {
    if configured.Some? && configured.value != [] then configured.value else DefaultUrlTemplate
  }

  /** `GoogleProvider(api_key, models, api_url_template)`. */
  method NewProvider(apiKey: string, models: seq<string>, urlTemplate: Option<string>) returns (p: Provider)
    ensures fresh(p) && p.Valid()
    ensures p.kind == GoogleKind && p.apiKey == apiKey && p.models == models && p.endpoint == UrlTemplate(urlTemplate)
    ensures p.currentModelIndex == 0 && p.requestCount == 0 && p.errorCount == 0
  {
    p := new Provider(GoogleKind, apiKey, models, UrlTemplate(urlTemplate));
  }

  /** `_get_api_url`: `template.format(model=...)`, for a template whose only braces are `{model}` placeholders. */
  function ApiUrl(template: string, model: string): (url: string)
    ensures '{' !in template ==> url == template
  {
    ReplaceAll(template, Placeholder, model)
  }

  /** A template with one placeholder and no other brace gets exactly the model name in its place. */
  lemma ApiUrlFillsPlaceholder(prefix: string, suffix: string, model: string)
    requires '{' !in prefix && '{' !in suffix
    ensures ApiUrl(prefix + Placeholder + suffix, model) == prefix + model + suffix
  {
    SubstituteOnce(prefix, suffix, Placeholder, model);
  }

  /** With the default template the URL names the current model's `generateContent` method. */
  lemma DefaultApiUrl(model: string)
    ensures ApiUrl(DefaultUrlTemplate, model) == DefaultUrlPrefix + model + DefaultUrlSuffix
  {
    assert '{' !in "https://" && '{' !in "generativelanguage." && '{' !in "googleapis.com" && '{' !in "/v1beta/models/";
    ApiUrlFillsPlaceholder(DefaultUrlPrefix, DefaultUrlSuffix, model);
  }

  /** The JSON body: the prompt and the screenshot as inline PNG data, with the generation settings. */
  function Payload(prompt: string, imageB64: string): Value {
    Obj(map[
      "contents" := Arr([Obj(map["parts" := Arr([
        Obj(map["text" := Str(prompt)]),
        Obj(map["inline_data" := Obj(map["mime_type" := Str("image/png"), "data" := Str(imageB64)])])])])]),
      "generationConfig" := Obj(map["maxOutputTokens" := Num(500.0), "temperature" := Num(0.1)])])
  }

  const Headers := map["Content-Type" := "application/json"]

  /** The API key travels as the `key` query parameter. */
  function Params(apiKey: string): map<string, string> {
    map["key" := apiKey]
  }

  /** Where the text sits inside a candidate. */
  const TextPath := [Key("content"), Key("parts"), Pos(0), Key("text")]

  /**
   * The checks after a 200 with a JSON body: `candidates` present and
   * truthy, its first element having `content` and `content` having
   * `parts`, then `['content']['parts'][0]['text']` is read and its `len`
   * taken. A built-in exception on the way is passed on as it is; the
   * KeyError among them is converted afterwards by `Classify`.
   */
  function ReadContent(v: Value): (r: Result<Value, SendError>)
    ensures r.Success? ==> Sized(r.value)
    ensures r.Failure? ==> r.error == ApiError(InvalidStructure) || r.error == ApiError(MissingContent) || r.error.Unexpected?
  {
    match In("candidates", v)
    case Failure(e) => Failure(Unexpected(e))
    case Success(false) => Failure(ApiError(InvalidStructure))
    case Success(true) =>
      match Subscript(v, Key("candidates"))
      case Failure(e) => Failure(Unexpected(e))
      case Success(candidates) =>
        if !Truthy(candidates) then Failure(ApiError(InvalidStructure))
        else match Subscript(candidates, Pos(0))
          case Failure(e) => Failure(Unexpected(e))
          case Success(candidate) => ReadCandidate(candidate)
  }

  /** The `content` / `parts` checks on the first candidate and the read of its text. */
  function ReadCandidate(candidate: Value): (r: Result<Value, SendError>)
    ensures r.Success? ==> Sized(r.value)
    ensures r.Failure? ==> r.error == ApiError(MissingContent) || r.error.Unexpected?
  {
    match In("content", candidate)
    case Failure(e) => Failure(Unexpected(e))
    case Success(false) => Failure(ApiError(MissingContent))
    case Success(true) =>
      match Subscript(candidate, Key("content"))
      case Failure(e) => Failure(Unexpected(e))
      case Success(content) =>
        match In("parts", content)
        case Failure(e) => Failure(Unexpected(e))
        case Success(false) => Failure(ApiError(MissingContent))
        case Success(true) =>
          match Lookup(candidate, TextPath)
          case Failure(e) => Failure(Unexpected(e))
          case Success(text) =>
            if Sized(text) then Success(text) else Failure(Unexpected(TypeError))
  }

  /**
   * `send_request` over an HTTP result: its outcome and its `_log_request`
   * flags. Every call logs one or two requests, the first one a success
   * exactly for a 200, and content comes only from a 200 with a JSON
   * body; a KeyError never escapes, it becomes an API error.
   */
  function Classify(http: HttpOutcome): (r: Classified)
    ensures 1 <= |r.logs| <= 2
    ensures r.logs[0] <==> http.Response? && http.status == 200
    ensures r.outcome == Failure(RateLimited) ==> r.logs == [false]
    ensures r.outcome.Success? ==> http.Response? && http.status == 200 && http.body.Some? && Sized(r.outcome.value)
    ensures r.outcome != Failure(Unexpected(KeyError))
  {
    match http
    case Timeout => Classified(Failure(ApiError(TimedOut)), [false])
    case ConnectionFailed => Classified(Failure(ApiError(RequestFailed)), [false])
    case Response(status, body) =>
      if status == 429 then Classified(Failure(RateLimited), [false])
      else if status != 200 then Classified(Failure(ApiError(BadStatus(status))), [false])
      else match body
        case None => Classified(Failure(ApiError(InvalidJson)), [true, false])
        case Some(v) =>
          if ReadContent(v) == Failure(Unexpected(KeyError))
          then Classified(Failure(ApiError(MissingKey)), [true, false])
          else Classified(ReadContent(v), [true])
  }

  /**
   * Status handling as in OpenRouter: 429 and only 429 is a rate limit, any
   * other status but 200 an API error, the first log flag is `status ==
   * 200`, and a 200 whose body is not JSON is logged twice.
   */
  lemma ClassifyStatus(http: HttpOutcome)
    ensures Classify(http).outcome == Failure(RateLimited) <==> http.Response? && http.status == 429
    ensures http.Response? && http.status != 200 && http.status != 429 ==>
      Classify(http).outcome == Failure(ApiError(BadStatus(http.status)))
    ensures http.Response? ==> |Classify(http).logs| >= 1 && Classify(http).logs[0] == (http.status == 200)
    ensures http == Response(200, None) ==> Classify(http).logs == [true, false]
    ensures !http.Response? ==> Classify(http).logs == [false]
    ensures Classify(http).outcome.Success? ==> http.Response? && http.status == 200 && http.body.Some?
  {
  }

  /**
   * A KeyError never escapes: it becomes `APIError` and is logged as a
   * second, failed request; any other error or the content passes through
   * with the single log of the 200.
   */
  lemma KeyErrorBecomesApiError(v: Value)
    ensures Classify(Response(200, Some(v))).outcome != Failure(Unexpected(KeyError))
    ensures Classify(Response(200, Some(v))).outcome == Failure(ApiError(MissingKey)) <==>
      ReadContent(v) == Failure(Unexpected(KeyError))
    ensures ReadContent(v) == Failure(Unexpected(KeyError)) ==> Classify(Response(200, Some(v))).logs == [true, false]
    ensures ReadContent(v) != Failure(Unexpected(KeyError)) ==>
      Classify(Response(200, Some(v))) == Classified(ReadContent(v), [true])
  {
  }

  /** A candidate whose only part has no `text` is the KeyError case. */
  lemma MissingTextIsApiError()
    ensures var part := Obj(map[]);
      var body := Obj(map["candidates" := Arr([Obj(map["content" := Obj(map["parts" := Arr([part])])])])]);
      Classify(Response(200, Some(body))) == Classified(Failure(ApiError(MissingKey)), [true, false])
  {
    var part := Obj(map[]);
    var content := Obj(map["parts" := Arr([part])]);
    var candidate := Obj(map["content" := content]);
    assert Lookup(candidate, TextPath) == Lookup(part, [Key("text")]);
    assert ReadCandidate(candidate) == Failure(Unexpected(KeyError));
  }

  /**
   * The text is returned exactly when: the body is an object with a
   * non-empty `candidates` list; its first element is an object with
   * `content`, which is an object with `parts`; and the text found there is
   * sized. Every other body gives an error.
   */
  lemma ReadContentIff(v: Value, c: Value)
    ensures ReadContent(v) == Success(c) <==>
      && v.Obj? && "candidates" in v.fields
      && v.fields["candidates"].Arr? && |v.fields["candidates"].items| > 0
      && var cand := v.fields["candidates"].items[0];
         && cand.Obj? && "content" in cand.fields
         && cand.fields["content"].Obj? && "parts" in cand.fields["content"].fields
         && Lookup(cand, TextPath) == Success(c) && Sized(c)
  {
  }

  /**
   * A 200 whose body has no `candidates` (a dict without the key, or a list
   * or string that does not contain it), or whose `candidates` is falsy, is
   * the `APIError` for an invalid structure, logged once as a success.
   */
  lemma InvalidStructureIff(v: Value)
    ensures Classify(Response(200, Some(v))) == Classified(Failure(ApiError(InvalidStructure)), [true]) <==>
      || In("candidates", v) == Success(false)
      || (v.Obj? && "candidates" in v.fields && !Truthy(v.fields["candidates"]))
  {
  }

  /**
   * A 200 whose first candidate lacks `content`, or whose `content` lacks
   * `parts`, is the `APIError` for missing content, logged once as a
   * success.
   */
  lemma MissingContentIff(v: Value)
    ensures Classify(Response(200, Some(v))) == Classified(Failure(ApiError(MissingContent)), [true]) <==>
      && v.Obj? && "candidates" in v.fields && Truthy(v.fields["candidates"])
      && Subscript(v.fields["candidates"], Pos(0)).Success?
      && var cand := Subscript(v.fields["candidates"], Pos(0)).value;
         || In("content", cand) == Success(false)
         || (cand.Obj? && "content" in cand.fields && In("parts", cand.fields["content"]) == Success(false))
  {
  }

  /**
   * `send_request`. The model is read (for the debug message and the URL)
   * before anything is posted, so an empty roster raises IndexError with
   * nothing sent or logged. `sent` is the request that was posted.
   */
  method SendRequest(p: Provider, prompt: string, imageB64: string, http: HttpOutcome)
    returns (r: Result<Value, SendError>, sent: Option<Request>)
    requires p.Valid()
    modifies p
    ensures p.Valid() && p.currentModelIndex == old(p.currentModelIndex)
    ensures old(p.CurrentModel()).Failure? ==>
      r == Failure(Unexpected(IndexError)) && sent == None
      && p.requestCount == old(p.requestCount) && p.errorCount == old(p.errorCount)
    ensures old(p.CurrentModel()).Success? ==>
      && r == Classify(http).outcome
      && sent == Some(Request(ApiUrl(p.endpoint, old(p.CurrentModel()).value), Headers, Params(p.apiKey), Payload(prompt, imageB64)))
      && p.requestCount == old(p.requestCount) + |Classify(http).logs|
      && p.errorCount == old(p.errorCount) + Failures(Classify(http).logs)
  {
    var payload := Payload(prompt, imageB64);
    var model := p.CurrentModel();
    if model.Failure? {
      return Failure(Unexpected(IndexError)), None;
    }
    sent := Some(Request(ApiUrl(p.endpoint, model.value), Headers, Params(p.apiKey), payload));
    match http {
      case Timeout =>
        p.LogRequest(false);
        r := Failure(ApiError(TimedOut));
      case ConnectionFailed =>
        p.LogRequest(false);
        r := Failure(ApiError(RequestFailed));
      case Response(status, body) =>
        p.LogRequest(status == 200);
        assert [true, false][1..] == [false];
        if status == 429 {
          r := Failure(RateLimited);
        } else if status != 200 {
          r := Failure(ApiError(BadStatus(status)));
        } else if body.None? {
          p.LogRequest(false);
          r := Failure(ApiError(InvalidJson));
        } else {
          var content := ReadContent(body.value);
          if content == Failure(Unexpected(KeyError)) {
            p.LogRequest(false);
            r := Failure(ApiError(MissingKey));
          } else {
            r := content;
          }
        }
    }
  }
}
