/**
 * The backend's Ollama routes: the status route, which reports the health
 * check field by field, and the generate route, which builds the request for
 * Ollama's `/api/generate` and maps Ollama's answer, a timeout or any other
 * failure to a response or an HTTP error.  The outgoing HTTP call is an input.
 */
module OllamaEndpoints {
  import opened Base
  import opened Text
  import opened PyModels
  import OllamaHealth

  /** `GenerateRequest` after validation; the meta-prompt is a free-form dict. */
  datatype GenerateRequest = GenerateRequest(
    mode: string,
    provider: string,
    model: string,
    inputText: string,
    metaPrompt: Option<MetaDict>,
    temperature: Option<real>,
    maxTokens: Option<int>)

  /** The body posted to Ollama: model, prompt, `stream: False` and the `temperature` option. */
  datatype OllamaRequest = OllamaRequest(model: string, prompt: string, stream: bool, temperature: Option<real>)

  datatype GenerateResponse = GenerateResponse(content: string, error: Option<string>)

  /** `meta.get('purpose', '')` inside the f-string. */
  function PurposeText(f: Field<string>): (text: string)
    ensures f.Missing? ==> text == ""
    ensures f.Given? ==> text == f.value
  {
    if f.Missing? then "" else FormatValue(f)
  }

  /** `chr(10).join(meta.get('instructions', []))`: joining `None` raises a `TypeError`. */
  function InstructionsText(f: Field<seq<string>>): (r: Result<string, string>)
    ensures r.Err? <==> f.Null?
    ensures f.Missing? ==> r == Ok("")
    ensures f.Given? ==> r == Ok(Join(f.value, "\n"))
  {
    match f
    case Missing => Ok("")
    case Null => Err("can only join an iterable")
    case Given(lines) => Ok(Join(lines, "\n"))
  }

  /** The tagged prompt built from a meta-prompt dict; sections and variables are not used. */
  function FormatPrompt(meta: MetaDict, input: string): (r: Result<string, string>)
    ensures r.Err? <==> meta.instructions.Null?
    ensures r.Ok? ==> |r.value| > |input|
  {
    var instructions := InstructionsText(meta.instructions);
    if instructions.Err? then Err(instructions.error)
    else Ok("<purpose>\n" + PurposeText(meta.purpose) + "\n</purpose>\n\n<instructions>\n"
            + instructions.value + "\n</instructions>\n\n<input>\n" + input + "\n</input>")
  }

  /** The body for Ollama: the input itself, unless a non-empty meta-prompt dict asks for the tagged prompt. */
  function BuildOllamaRequest(request: GenerateRequest): (r: Result<OllamaRequest, string>)
    ensures r.Ok? ==> r.value.model == request.model && !r.value.stream && r.value.temperature == request.temperature
    ensures request.metaPrompt.None? || !Truthy(request.metaPrompt.value) ==> r.Ok? && r.value.prompt == request.inputText
    ensures request.metaPrompt.Some? && Truthy(request.metaPrompt.value) ==>
      (r.Err? <==> request.metaPrompt.value.instructions.Null?)
      && (r.Ok? ==> Ok(r.value.prompt) == FormatPrompt(request.metaPrompt.value, request.inputText))
    ensures r.Ok? ==> (r.value.prompt == request.inputText <==> request.metaPrompt.None? || !Truthy(request.metaPrompt.value))
  {
    var plain := OllamaRequest(request.model, request.inputText, false, request.temperature);
    if request.metaPrompt.Some? && Truthy(request.metaPrompt.value) then
      var formatted := FormatPrompt(request.metaPrompt.value, request.inputText);
      if formatted.Err? then Err(formatted.error) else Ok(plain.(prompt := formatted.value))
    else Ok(plain)
  }

  /** The tagged prompt written out for a dict holding a purpose and instructions. */
  lemma TaggedPrompt(request: GenerateRequest, purpose: string, instructions: seq<string>, rest: MetaDict)
    requires request.metaPrompt == Some(rest.(purpose := Given(purpose), instructions := Given(instructions)))
    ensures BuildOllamaRequest(request)
         == Ok(OllamaRequest(request.model,
                 "<purpose>\n" + purpose + "\n</purpose>\n\n<instructions>\n" + Join(instructions, "\n")
                 + "\n</instructions>\n\n<input>\n" + request.inputText + "\n</input>",
                 false, request.temperature))
  {
  }

  /** How the POST to Ollama ended: a reply (with its `response` field, if present), a timeout, or another exception's text. */
  datatype Upstream = Replied(statusCode: nat, text: string, response: Option<string>) | TimedOut | Raised(message: string)

  /** What the route sent to Ollama, if it got that far, and how it answered. */
  datatype GenerateCall = GenerateCall(sent: Option<OllamaRequest>, result: Result<GenerateResponse, HttpError>)

  const TimeoutDetail: string := "Request to Ollama timed out"
  const GenericPrefix: string := "Error generating text: "
  const UpstreamPrefix: string := "Ollama API error: "

  /** `str()` of an `HTTPException`: its status code in decimal, then `: ` and its detail. */
  function HttpExceptionText(e: HttpError): (r: string)
    ensures StartsWith(r, NatToString(e.statusCode) + ": ")
    ensures EndsWith(r, ": " + e.detail)
  {
    var code := NatToString(e.statusCode);
    StartsWithAppend(code + ": ", e.detail);
    assert code + ": " + e.detail == code + (": " + e.detail);
    EndsWithAppend(code, ": " + e.detail, ": " + e.detail);
    code + ": " + e.detail
  }

  /**
   * The generate route as written: the `HTTPException` raised for a non-200
   * reply is inside the `try`, so the generic handler turns it into a 500
   * whose detail embeds the exception's text.
   */
  function GenerateText(request: GenerateRequest, upstream: Upstream): (c: GenerateCall)
    ensures c.sent.None? <==> BuildOllamaRequest(request).Err?
    ensures c.sent.Some? ==> c.sent == Some(BuildOllamaRequest(request).value)
    ensures c.sent.None? ==> c.result == Err(HttpError(500, GenericPrefix + BuildOllamaRequest(request).error))
    ensures c.sent.Some? && upstream.TimedOut? ==> c.result == Err(HttpError(504, TimeoutDetail))
    ensures c.sent.Some? && upstream.Raised? ==> c.result == Err(HttpError(500, GenericPrefix + upstream.message))
    ensures c.sent.Some? && upstream.Replied? && upstream.statusCode == 200 ==>
      c.result == Ok(GenerateResponse(upstream.response.GetOr(""), None))
    ensures c.sent.Some? && upstream.Replied? && upstream.statusCode != 200 ==>
      c.result == Err(HttpError(500, GenericPrefix
                       + HttpExceptionText(HttpError(upstream.statusCode, UpstreamPrefix + upstream.text))))
  {
    var built := BuildOllamaRequest(request);
    if built.Err? then GenerateCall(None, Err(HttpError(500, GenericPrefix + built.error)))
    else
      var result := match upstream
        case TimedOut => Err(HttpError(504, TimeoutDetail))
        case Raised(message) => Err(HttpError(500, GenericPrefix + message))
        case Replied(code, text, response) =>
          if code != 200
          then Err(HttpError(500, GenericPrefix + HttpExceptionText(HttpError(code, UpstreamPrefix + text))))
          else Ok(GenerateResponse(response.GetOr(""), None));
      GenerateCall(Some(built.value), result)
  }

  /** Every error of the route as written is a 500, except a timeout: the upstream status is lost. */
  lemma GenerateTextErrorsAre500(request: GenerateRequest, upstream: Upstream)
    ensures var c := GenerateText(request, upstream);
            c.result.Err? ==> ((c.result.error.statusCode == 504 <==> c.sent.Some? && upstream.TimedOut?)
                               && (c.result.error.statusCode != 504 ==> c.result.error.statusCode == 500))
  {
  }

  /** A concrete case: Ollama's 404 for an unknown model reaches the client as a 500. */
  lemma UpstreamNotFoundBecomes500(model: string)
    ensures var request := GenerateRequest("expansion", "ollama", model, "hi", None, Some(0.7), Some(1000));
            GenerateText(request, Replied(404, "model not found", None)).result
            == Err(HttpError(500, GenericPrefix + "404" + ": " + UpstreamPrefix + "model not found"))
  {
    var request := GenerateRequest("expansion", "ollama", model, "hi", None, Some(0.7), Some(1000));
    assert BuildOllamaRequest(request).Ok?;
    assert NatToString(4) == "4";
    assert NatToString(40) == NatToString(4) + "0";
    assert NatToString(404) == NatToString(40) + "4";
    assert NatToString(404) == "404";
    var e := HttpError(404, UpstreamPrefix + "model not found");
    assert HttpExceptionText(e) == "404" + ": " + (UpstreamPrefix + "model not found");
    assert GenericPrefix + HttpExceptionText(e) == GenericPrefix + "404" + ": " + UpstreamPrefix + "model not found";
    assert GenerateText(request, Replied(404, "model not found", None)).result == Err(HttpError(500, GenericPrefix + HttpExceptionText(e)));
  }

  /** The generate route as evidently intended: a non-200 reply keeps Ollama's status code. */
  function GenerateTextIntended(request: GenerateRequest, upstream: Upstream): (c: GenerateCall)
    ensures c.sent.None? <==> BuildOllamaRequest(request).Err?
    ensures c.sent.Some? && upstream.Replied? && upstream.statusCode != 200 ==>
      c.result == Err(HttpError(upstream.statusCode, UpstreamPrefix + upstream.text))
    ensures c.sent.Some? && !(upstream.Replied? && upstream.statusCode != 200) ==>
      c == GenerateText(request, upstream)
  {
    var written := GenerateText(request, upstream);
    if written.sent.Some? && upstream.Replied? && upstream.statusCode != 200
    then written.(result := Err(HttpError(upstream.statusCode, UpstreamPrefix + upstream.text)))
    else written
  }

  /** With the intended handling, an error's status code is Ollama's own whenever Ollama answered. */
  lemma IntendedKeepsUpstreamStatus(request: GenerateRequest, upstream: Upstream)
    requires BuildOllamaRequest(request).Ok? && upstream.Replied?
    ensures var c := GenerateTextIntended(request, upstream);
            c.result.Err? <==> upstream.statusCode != 200
    ensures var c := GenerateTextIntended(request, upstream);
            c.result.Err? ==> c.result.error.statusCode == upstream.statusCode
  {
  }

  /** The record the status route returns. */
  datatype StatusRecord = StatusRecord(status: string, lastChecked: string, models: seq<string>, error: Option<string>)

  /** `get_ollama_status`: the health check's fields, with the status as its string value. */
  function GetOllamaStatus(h: OllamaHealth.HealthResponse): (r: StatusRecord)
    ensures r.status == OllamaHealth.StatusText(h.status)
    ensures r.lastChecked == h.lastChecked && r.models == h.models && r.error == h.error
  {
    StatusRecord(OllamaHealth.StatusText(h.status), h.lastChecked, h.models, h.error)
  }

  /** The status route never reports models unless it also reports `available`, nor an error together with `available`. */
  lemma StatusRouteConsistent(outcome: OllamaHealth.TagsOutcome, now: string)
    ensures var r := GetOllamaStatus(OllamaHealth.HealthOf(outcome, now));
            (|r.models| > 0 ==> r.status == "available")
            && (r.status == "available" <==> r.error.None?)
            && r.status in {"available", "unavailable"}
  {
  }
}
