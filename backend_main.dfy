/**
 * The provider-factory backend: the system prompt it derives from the dict form
 * of a meta-prompt, the call it makes to each provider, and how the provider's
 * reply or failure becomes a response.  The provider SDKs and HTTP calls are
 * inputs: only their replies are modelled.
 */
module BackendMain {
  import opened Base
  import opened Text
  import opened PyModels
  import PromptAgent

  /** The sections part for a dict: heading and items when `meta.get('sections')` is a non-empty list. */
  function DictSectionsParts(meta: MetaDict): seq<string> {
    if NonEmptyList(meta.sections)
    then [PromptAgent.SectionsHeading] + Prefixed(PromptAgent.ItemPrefix, meta.sections.value)
    else []
  }

  /** The list `prompt_parts` of `create_prompt`, for a dict whose purpose and instructions are there. */
  function MainParts(meta: MetaDict): seq<string>
    requires !meta.purpose.Missing? && meta.instructions.Given?
  {
    ["Purpose: " + FormatValue(meta.purpose)]
    + ([PromptAgent.InstructionsHeading] + Prefixed(PromptAgent.ItemPrefix, meta.instructions.value))
    + DictSectionsParts(meta)
  }

  /**
   * `LLMFactory.create_prompt`.  An error is the text of the exception
   * raised: `KeyError` for a missing key, `TypeError` for iterating `None`.
   * The mode is not used.
   */
  function CreatePrompt(mode: string, meta: Option<MetaDict>): (r: Result<string, string>)
    ensures meta.None? || !Truthy(meta.value) ==> r == Ok("")
    ensures meta.Some? && Truthy(meta.value) && meta.value.purpose.Missing? ==> r == Err("'purpose'")
    ensures meta.Some? && Truthy(meta.value) && !meta.value.purpose.Missing? && meta.value.instructions.Missing?
            ==> r == Err("'instructions'")
    ensures meta.Some? && Truthy(meta.value) && !meta.value.purpose.Missing? && meta.value.instructions.Null?
            ==> r == Err("'NoneType' object is not iterable")
    ensures r == Ok("") <==> meta.None? || !Truthy(meta.value)
  {
    if meta.None? || !Truthy(meta.value) then Ok("")
    else if meta.value.purpose.Missing? then Err("'purpose'")
    else if meta.value.instructions.Missing? then Err("'instructions'")
    else if meta.value.instructions.Null? then Err("'NoneType' object is not iterable")
    else
      var parts := MainParts(meta.value);
      JoinLongerThanHead(parts, "\n");
      Ok(Join(parts, "\n"))
  }

  /** A join is at least as long as its first part. */
  lemma {:induction false} JoinLongerThanHead(parts: seq<string>, sep: string)
    requires parts != [] && parts[0] != ""
    ensures Join(parts, sep) != ""
  {
    if |parts| > 1 {
      assert Join(parts, sep) == parts[0] + sep + Join(parts[1..], sep);
      assert |Join(parts, sep)| >= |parts[0]|;
    }
  }

  /** The text the sections part adds: a newline, the heading and the item lines, or nothing. */
  function DictSectionsText(meta: MetaDict): string {
    if NonEmptyList(meta.sections)
    then "\n" + PromptAgent.SectionsHeading + Lines(PromptAgent.ItemPrefix, meta.sections.value)
    else ""
  }

  /** The joined parts written out, sections block included when there is one. */
  lemma MainPartsJoin(meta: MetaDict)
    requires !meta.purpose.Missing? && meta.instructions.Given?
    ensures Join(MainParts(meta), "\n")
         == "Purpose: " + FormatValue(meta.purpose) + "\n" + PromptAgent.InstructionsHeading
            + Lines(PromptAgent.ItemPrefix, meta.instructions.value) + DictSectionsText(meta)
  {
    var head := ["Purpose: " + FormatValue(meta.purpose)];
    var main := head + ([PromptAgent.InstructionsHeading] + Prefixed(PromptAgent.ItemPrefix, meta.instructions.value));
    JoinHeadingAfter(head, PromptAgent.InstructionsHeading, PromptAgent.ItemPrefix, meta.instructions.value);
    if NonEmptyList(meta.sections) {
      JoinHeadingAfter(main, PromptAgent.SectionsHeading, PromptAgent.ItemPrefix, meta.sections.value);
    } else {
      assert MainParts(meta) == main;
    }
  }

  /** The prompt written out: the purpose line, a blank line, the instruction lines, then any sections. */
  lemma DictPromptText(mode: string, meta: MetaDict)
    requires Truthy(meta) && !meta.purpose.Missing? && meta.instructions.Given?
    ensures CreatePrompt(mode, Some(meta))
         == Ok("Purpose: " + FormatValue(meta.purpose) + "\n" + PromptAgent.InstructionsHeading
               + Lines(PromptAgent.ItemPrefix, meta.instructions.value) + DictSectionsText(meta))
  {
    MainPartsJoin(meta);
  }

  /** A piece put in front of the first part of a join goes in front of the whole join. */
  lemma JoinPrependFirst(front: string, first: string, rest: seq<string>, sep: string)
    ensures Join([front + first] + rest, sep) == front + Join([first] + rest, sep)
  {
    if rest != [] {
      assert ([front + first] + rest)[1..] == rest;
      assert ([first] + rest)[1..] == rest;
    }
  }

  /**
   * The two backends build the same text after their first line: the agent's
   * system prompt is its expert line, a blank line, and this backend's prompt
   * of the same meta-prompt.
   */
  lemma AgentPromptExtendsFactoryPrompt(mode: string, c: MetaPromptConfig, date: string)
    ensures CreatePrompt(mode, Some(AsDict(c))).Ok?
    ensures PromptAgent.CreateSystemPrompt(mode, Some(c), date)
         == PromptAgent.BasePrompt(mode, date) + "\n" + ("\n" + CreatePrompt(mode, Some(AsDict(c))).value)
  {
    var base := PromptAgent.BasePrompt(mode, date);
    var rest := ([PromptAgent.InstructionsHeading] + Prefixed(PromptAgent.ItemPrefix, c.instructions))
                + PromptAgent.SectionsParts(c);
    var factory := ["Purpose: " + c.purpose] + rest;
    assert MainParts(AsDict(c)) == factory;
    assert "\nPurpose: " + c.purpose == "\n" + ("Purpose: " + c.purpose) by {
      assert "\nPurpose: " == "\n" + "Purpose: ";
    }
    assert PromptAgent.PromptParts(base, c) == [base] + ([("\n" + ("Purpose: " + c.purpose))] + rest);
    JoinPrependFirst("\n", "Purpose: " + c.purpose, rest, "\n");
  }

  /** The system prompt `get_completion` uses: the meta-prompt's dict form, or none. */
  function SystemPromptFor(request: PromptRequest): (system: string)
    ensures request.metaPrompt.None? ==> system == ""
    ensures request.metaPrompt.Some? ==> Ok(system) == CreatePrompt(ModeValue(request.mode), Some(AsDict(request.metaPrompt.value)))
    ensures request.metaPrompt.Some? ==> system != ""
  {
    var r := CreatePrompt(ModeValue(request.mode),
                          if request.metaPrompt.Some? then Some(AsDict(request.metaPrompt.value)) else None);
    r.value
  }

  const OllamaGenerateUrl: string := "http://localhost:11434/api/generate"
  const LmStudioChatUrl: string := "http://localhost:1234/v1/chat/completions"

  /** The call `get_completion` makes, one shape per provider. */
  datatype ProviderCall =
    | ChatCompletion(model: string, system: string, user: string, temperature: Option<real>, maxTokens: Option<int>)
    | AnthropicMessage(model: string, system: string, user: string, maxTokens: Option<int>, temperature: Option<real>)
    | GeminiContent(model: string, prompt: string, temperature: Option<real>, maxOutputTokens: Option<int>)
    | OllamaGenerate(url: string, model: string, prompt: string, temperature: Option<real>)
    | LmStudioChat(url: string, system: string, user: string, temperature: Option<real>, maxTokens: Option<int>)

  /** The prompt of the single-text providers: the system prompt, a blank line, the input. */
  function Combined(system: string, input: string): string {
    system + "\n\n" + input
  }

  /** The call for each provider. */
  function ProviderCallFor(request: PromptRequest, system: string): (call: ProviderCall)
    ensures request.provider == OpenAI <==> call.ChatCompletion?
    ensures request.provider == Anthropic <==> call.AnthropicMessage?
    ensures request.provider == Google <==> call.GeminiContent?
    ensures request.provider == Ollama <==> call.OllamaGenerate?
    ensures request.provider == LMStudio <==> call.LmStudioChat?
  {
    match request.provider
    case OpenAI => ChatCompletion(request.model, system, request.inputText, request.temperature, request.maxTokens)
    case Anthropic => AnthropicMessage(request.model, system, request.inputText, request.maxTokens, request.temperature)
    case Google => GeminiContent(request.model, Combined(system, request.inputText), request.temperature, request.maxTokens)
    case Ollama => OllamaGenerate(OllamaGenerateUrl, request.model, Combined(system, request.inputText), request.temperature)
    case LMStudio => LmStudioChat(LmStudioChatUrl, system, request.inputText, request.temperature, request.maxTokens)
  }

  /** What each call carries: the user text and system prompt, the model except for LM Studio, the limit except for Ollama. */
  lemma ProviderCallCarries(request: PromptRequest, system: string)
    ensures var call := ProviderCallFor(request, system);
      && (call.GeminiContent? || call.OllamaGenerate? ==> call.prompt == system + "\n\n" + request.inputText)
      && (call.ChatCompletion? || call.AnthropicMessage? || call.LmStudioChat? ==>
            call.system == system && call.user == request.inputText)
      && (!call.LmStudioChat? ==> call.model == request.model)
      && call.temperature == request.temperature
      && (call.ChatCompletion? || call.AnthropicMessage? || call.LmStudioChat? ==> call.maxTokens == request.maxTokens)
      && (call.GeminiContent? ==> call.maxOutputTokens == request.maxTokens)
  {
  }

  /** How the provider answered: the reply's text, its usage figures and total token count, or the text of the exception. */
  datatype ProviderReply = Reply(text: string, usage: Option<Usage>, totalTokens: int) | Failure(message: string)

  datatype Completion = Completion(call: ProviderCall, result: Result<PromptResponse, HttpError>)

  /** The usage record of each provider's response. */
  function UsageFor(provider: LLMProvider, reply: ProviderReply): (u: Option<Usage>)
    requires reply.Reply?
    ensures provider == Google || provider == Ollama ==> u.None?
    ensures provider == Anthropic ==> u == Some(Usage(map["total_tokens" := reply.totalTokens]))
    ensures provider == OpenAI || provider == LMStudio ==> u == reply.usage
  {
    match provider
    case OpenAI => reply.usage
    case Anthropic => Some(Usage(map["total_tokens" := reply.totalTokens]))
    case Google => None
    case Ollama => None
    case LMStudio => reply.usage
  }

  /** `LLMFactory.get_completion`: every failure inside the provider branch becomes a 500 with the exception text. */
  function GetCompletion(request: PromptRequest, reply: ProviderReply): (c: Completion)
    ensures c.call == ProviderCallFor(request, SystemPromptFor(request))
    ensures c.result.Err? <==> reply.Failure?
    ensures reply.Failure? ==> c.result.error == HttpError(500, reply.message)
    ensures reply.Reply? ==> c.result.value.content == reply.text && c.result.value.error.None?
    ensures reply.Reply? ==> c.result.value.usage == UsageFor(request.provider, reply)
  {
    var call := ProviderCallFor(request, SystemPromptFor(request));
    match reply
    case Failure(message) => Completion(call, Err(HttpError(500, message)))
    case Reply(text, _, _) => Completion(call, Ok(PromptResponse(text, UsageFor(request.provider, reply), None)))
  }

  /** Without a meta-prompt the Google and Ollama prompts start with the blank separator line. */
  lemma NoMetaCombinedPrompt(request: PromptRequest, reply: ProviderReply)
    requires request.metaPrompt.None? && (request.provider == Google || request.provider == Ollama)
    ensures GetCompletion(request, reply).call.prompt == "\n\n" + request.inputText
  {
  }
}
