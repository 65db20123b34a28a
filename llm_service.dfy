/**
 * The client transport `sendPrompt`: which endpoint a request is posted to, and
 * how the outcome of the HTTP exchange becomes a `{content, error}` value.
 * The exchange itself (`fetch` and `response.json()`) is an input.
 */
module LlmService {
  import opened Base
  import Js

  /** The structured part of a request; the last two fields are optional. */
  datatype MetaPromptConfig = MetaPromptConfig(
    purpose: string,
    instructions: seq<string>,
    sections: Option<seq<string>>,
    variables: Option<seq<string>>)

  /** The JSON body posted to the backend. */
  datatype PromptRequest = PromptRequest(
    mode: string,
    provider: string,
    model: string,
    inputText: string,
    metaPrompt: Option<MetaPromptConfig>,
    temperature: Option<real>,
    maxTokens: Option<int>)

  /** What `sendPrompt` resolves to: `{content}` or `{content: '', error}`. */
  datatype SendResult = SendResult(content: string, error: Option<string>)

  /**
   * The `detail` of an error body: FastAPI sends a text for an `HTTPException`
   * and a list of error objects (`count` of them) for a request that fails validation.
   */
  datatype Detail = TextDetail(text: string) | ErrorList(count: nat)

  /** How the POST ended, as far as `sendPrompt` can observe it. */
  datatype PostOutcome =
    /** `response.ok`, and the body's `content` field. */
    | Succeeded(content: string)
    /** Not `response.ok`; the error body's `detail` field, if it has one. */
    | Rejected(detail: Option<Detail>)
    /** `fetch` or `response.json()` threw. */
    | Threw(thrown: Js.Thrown)

  const GeneratePath: string := "/api/ollama/generate"
  const PromptPath: string := "/api/prompt"
  const RejectedFallback: string := "Failed to generate response"
  const ThrownFallback: string := "An error occurred while processing your request"

  /** The URL `sendPrompt` posts to, below the configured API base URL. */
  function ApiUrl(apiBase: string, provider: string): (url: string)
    ensures url == apiBase + GeneratePath || url == apiBase + PromptPath
    ensures url == apiBase + GeneratePath <==> provider == "ollama"
  {
    apiBase + (if provider == "ollama" then GeneratePath else PromptPath)
  }

  /** The value `sendPrompt` returns; it never throws, every outcome maps to a result. */
  function SendPrompt(outcome: PostOutcome): (r: SendResult)
    ensures r.error.None? <==> outcome.Succeeded?
    ensures outcome.Succeeded? ==> r.content == outcome.content
    ensures !outcome.Succeeded? ==> r.content == ""
    ensures outcome.Rejected? && outcome.detail.Some? && outcome.detail.value.TextDetail?
            && outcome.detail.value.text != ""
            ==> r.error == Some(outcome.detail.value.text)
    ensures outcome.Rejected? && (outcome.detail.None? || outcome.detail == Some(TextDetail("")))
            ==> r.error == Some(RejectedFallback)
    ensures outcome.Rejected? && outcome.detail.Some? && outcome.detail.value.ErrorList?
            ==> r.error == Some(Js.ObjectArrayText(outcome.detail.value.count))
    ensures outcome.Threw? && outcome.thrown.ErrorObject? ==> r.error == Some(outcome.thrown.message)
    ensures outcome.Threw? && outcome.thrown.OtherValue? ==> r.error == Some(ThrownFallback)
  {
    match outcome
    case Succeeded(content) => SendResult(content, None)
    case Rejected(detail) =>
      // `throw new Error(errorData.detail || 'Failed to generate response')`, caught below;
      // a list is truthy even when empty, and `new Error` renders it with `String`
      var message := match detail
        case None => RejectedFallback
        case Some(TextDetail(text)) => if text != "" then text else RejectedFallback
        case Some(ErrorList(count)) => Js.ObjectArrayText(count);
      SendResult("", Some(message))
    case Threw(thrown) => SendResult("", Some(Js.MessageOr(thrown, ThrownFallback)))
  }

  /** A rejected response yields an empty error text, which the editor does not show, only for an empty error list. */
  lemma RejectedErrorEmptyIff(detail: Option<Detail>)
    ensures SendPrompt(Rejected(detail)).error.Some?
    ensures SendPrompt(Rejected(detail)).error.value == "" <==> detail == Some(ErrorList(0))
  {
  }

  /** A validation failure with one error reaches the editor as the text `[object Object]`. */
  lemma ValidationFailureText()
    ensures SendPrompt(Rejected(Some(ErrorList(1)))) == SendResult("", Some("[object Object]"))
  {
  }
}
