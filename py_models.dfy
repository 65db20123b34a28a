/**
 * The backend's request and response records: the two enumerations, the
 * pydantic models with their field defaults, and the two prompt schemas whose
 * `response` property builds a prompt response.  JSON bodies and Python dicts
 * are modelled field by field, since a key may be absent, `null` or given.
 */
module PyModels {
  import opened Base

  /** One field of a JSON object or Python dict: no such key, a `null`/`None` value, or a value. */
  datatype Field<T> = Missing | Null | Given(value: T)

  datatype PromptMode = Expansion | Compression | Conversion | Seeker | Action | Reasoning

  /** The string value of each `PromptMode` member. */
  function ModeValue(m: PromptMode): string {
    match m
    case Expansion => "expansion"
    case Compression => "compression"
    case Conversion => "conversion"
    case Seeker => "seeker"
    case Action => "action"
    case Reasoning => "reasoning"
  }

  /** `PromptMode(s)`: the member with that value, if there is one. */
  function ParseMode(s: string): (r: Option<PromptMode>)
    ensures r.Some? ==> ModeValue(r.value) == s
    ensures r.None? ==> forall m :: ModeValue(m) != s
  {
    if s == "expansion" then Some(Expansion)
    else if s == "compression" then Some(Compression)
    else if s == "conversion" then Some(Conversion)
    else if s == "seeker" then Some(Seeker)
    else if s == "action" then Some(Action)
    else if s == "reasoning" then Some(Reasoning)
    else None
  }

  /** The values are distinct, so each member is recovered from its value. */
  lemma ModeRoundTrip(m: PromptMode)
    ensures ParseMode(ModeValue(m)) == Some(m)
  {
  }

  /** Exactly six strings are modes. */
  lemma ModeValues(s: string)
    ensures ParseMode(s).Some? <==> s in {"expansion", "compression", "conversion", "seeker", "action", "reasoning"}
  {
  }

  datatype LLMProvider = OpenAI | Anthropic | Google | Ollama | LMStudio

  /** The string value of each `LLMProvider` member. */
  function ProviderValue(p: LLMProvider): string {
    match p
    case OpenAI => "openai"
    case Anthropic => "anthropic"
    case Google => "google"
    case Ollama => "ollama"
    case LMStudio => "lmstudio"
  }

  /** `LLMProvider(s)`: the member with that value, if there is one. */
  function ParseProvider(s: string): (r: Option<LLMProvider>)
    ensures r.Some? ==> ProviderValue(r.value) == s
    ensures r.None? ==> forall p :: ProviderValue(p) != s
  {
    if s == "openai" then Some(OpenAI)
    else if s == "anthropic" then Some(Anthropic)
    else if s == "google" then Some(Google)
    else if s == "ollama" then Some(Ollama)
    else if s == "lmstudio" then Some(LMStudio)
    else None
  }

  lemma ProviderRoundTrip(p: LLMProvider)
    ensures ParseProvider(ProviderValue(p)) == Some(p)
  {
  }

  /** Exactly five strings are providers. */
  lemma ProviderValues(s: string)
    ensures ParseProvider(s).Some? <==> s in {"openai", "anthropic", "google", "ollama", "lmstudio"}
  {
  }

  datatype MetaPromptConfig = MetaPromptConfig(
    purpose: string,
    instructions: seq<string>,
    sections: Option<seq<string>>,
    variables: Option<seq<string>>)

  datatype PromptRequest = PromptRequest(
    mode: PromptMode,
    provider: LLMProvider,
    model: string,
    inputText: string,
    metaPrompt: Option<MetaPromptConfig>,
    temperature: Option<real>,
    maxTokens: Option<int>)

  /** Token counts by name, as reported by a provider. */
  datatype Usage = Usage(counts: map<string, int>)

  datatype PromptResponse = PromptResponse(content: string, usage: Option<Usage>, error: Option<string>)

  /** A structured meta-prompt as a JSON object. */
  datatype MetaBody = MetaBody(
    purpose: Field<string>,
    instructions: Field<seq<string>>,
    sections: Field<seq<string>>,
    variables: Field<seq<string>>)

  /** A prompt request as a JSON object, before validation. */
  datatype RequestBody = RequestBody(
    mode: Field<string>,
    provider: Field<string>,
    model: Field<string>,
    inputText: Field<string>,
    metaPrompt: Field<MetaBody>,
    temperature: Field<real>,
    maxTokens: Field<int>)

  /** An `Optional[...] = default` field: absent takes the default, `null` is `None`. */
  function OptionalOr<T>(f: Field<T>, default: Option<T>): (r: Option<T>)
    ensures f.Missing? ==> r == default
    ensures f.Null? ==> r.None?
    ensures f.Given? ==> r == Some(f.value)
  {
    match f
    case Missing => default
    case Null => None
    case Given(v) => Some(v)
  }

  /** Validation of a `MetaPromptConfig`: purpose and instructions are required, the lists default to `None`. */
  function ValidateMeta(b: MetaBody): (r: Option<MetaPromptConfig>)
    ensures r.Some? <==> b.purpose.Given? && b.instructions.Given?
    ensures r.Some? ==> r.value.purpose == b.purpose.value && r.value.instructions == b.instructions.value
    ensures r.Some? ==> r.value.sections == OptionalOr(b.sections, None)
    ensures r.Some? ==> r.value.variables == OptionalOr(b.variables, None)
  {
    if b.purpose.Given? && b.instructions.Given?
    then Some(MetaPromptConfig(b.purpose.value, b.instructions.value,
                               OptionalOr(b.sections, None), OptionalOr(b.variables, None)))
    else None
  }

  /** Validation of a `PromptRequest`: the enumerations must parse, the optional fields take their declared defaults. */
  function ValidateRequest(b: RequestBody): (r: Option<PromptRequest>)
    ensures r.Some? <==>
      && b.mode.Given? && ParseMode(b.mode.value).Some?
      && b.provider.Given? && ParseProvider(b.provider.value).Some?
      && b.model.Given? && b.inputText.Given?
      && (b.metaPrompt.Given? ==> ValidateMeta(b.metaPrompt.value).Some?)
    ensures r.Some? ==>
      && ModeValue(r.value.mode) == b.mode.value
      && ProviderValue(r.value.provider) == b.provider.value
      && r.value.model == b.model.value && r.value.inputText == b.inputText.value
      && r.value.temperature == OptionalOr(b.temperature, Some(0.7))
      && r.value.maxTokens == OptionalOr(b.maxTokens, Some(1000))
      && (b.metaPrompt.Given? ==> r.value.metaPrompt == ValidateMeta(b.metaPrompt.value))
      && (!b.metaPrompt.Given? ==> r.value.metaPrompt.None?)
  {
    if b.mode.Given? && ParseMode(b.mode.value).Some?
       && b.provider.Given? && ParseProvider(b.provider.value).Some?
       && b.model.Given? && b.inputText.Given?
       && (b.metaPrompt.Given? ==> ValidateMeta(b.metaPrompt.value).Some?)
    then
      var meta := if b.metaPrompt.Given? then ValidateMeta(b.metaPrompt.value) else None;
      Some(PromptRequest(ParseMode(b.mode.value).value, ParseProvider(b.provider.value).value,
                         b.model.value, b.inputText.value, meta,
                         OptionalOr(b.temperature, Some(0.7)), OptionalOr(b.maxTokens, Some(1000))))
    else None
  }

  /** A body that leaves out every optional field gets temperature 0.7, 1000 tokens and no meta-prompt. */
  lemma RequestDefaults(mode: PromptMode, provider: LLMProvider, model: string, input: string)
    ensures ValidateRequest(RequestBody(Given(ModeValue(mode)), Given(ProviderValue(provider)),
                                        Given(model), Given(input), Missing, Missing, Missing))
         == Some(PromptRequest(mode, provider, model, input, None, Some(0.7), Some(1000)))
  {
    ModeRoundTrip(mode);
    ProviderRoundTrip(provider);
  }

  /** A meta-prompt as a Python dict: the four known keys, and how many other keys it has. */
  datatype MetaDict = MetaDict(
    purpose: Field<string>,
    instructions: Field<seq<string>>,
    sections: Field<seq<string>>,
    variables: Field<seq<string>>,
    otherKeys: nat)

  function Present<T>(f: Field<T>): nat {
    if f.Missing? then 0 else 1
  }

  /** `len(d)`. */
  function KeyCount(d: MetaDict): nat {
    Present(d.purpose) + Present(d.instructions) + Present(d.sections) + Present(d.variables) + d.otherKeys
  }

  /** `if d:` holds for a dict with at least one key. */
  predicate Truthy(d: MetaDict) {
    KeyCount(d) > 0
  }

  /** `config.dict()`: every field becomes a key, an absent list a `None` value. */
  function AsDict(c: MetaPromptConfig): (d: MetaDict)
    ensures KeyCount(d) == 4 && Truthy(d)
    ensures d.purpose == Given(c.purpose) && d.instructions == Given(c.instructions)
    ensures c.sections.Some? ==> d.sections == Given(c.sections.value)
    ensures c.sections.None? ==> d.sections == Null
    ensures c.variables.Some? ==> d.variables == Given(c.variables.value)
    ensures c.variables.None? ==> d.variables == Null
  {
    MetaDict(Given(c.purpose), Given(c.instructions),
             if c.sections.Some? then Given(c.sections.value) else Null,
             if c.variables.Some? then Given(c.variables.value) else Null, 0)
  }

  /** A dict value inside an f-string: `None` prints as `None`. */
  function FormatValue(f: Field<string>): string
    requires !f.Missing?
  {
    if f.Given? then f.value else "None"
  }

  /** `d.get(key)` is truthy: the key holds a non-empty list. */
  predicate NonEmptyList(f: Field<seq<string>>) {
    f.Given? && |f.value| > 0
  }

  /** The `ExpansionPrompt` schema. */
  datatype ExpansionPrompt = ExpansionPrompt(expandedContent: string, sections: map<string, string>) {
    /** The `response` property: the expanded text, with no usage and no error. */
    function Response(): (r: PromptResponse)
      ensures r.content == expandedContent && r.usage.None? && r.error.None?
    {
      PromptResponse(expandedContent, None, None)
    }
  }

  /** The `CompressionPrompt` schema. */
  datatype CompressionPrompt = CompressionPrompt(compressedContent: string, keyPoints: seq<string>) {
    /** The `response` property: the compressed text, with no usage and no error. */
    function Response(): (r: PromptResponse)
      ensures r.content == compressedContent && r.usage.None? && r.error.None?
    {
      PromptResponse(compressedContent, None, None)
    }
  }

  /** The response ignores the per-section and key-point parts of the schemas. */
  lemma ResponseIgnoresParts(e: ExpansionPrompt, c: CompressionPrompt)
    requires e.expandedContent == c.compressedContent
    ensures e.Response() == c.Response()
    ensures forall s: map<string, string> :: e.(sections := s).Response() == e.Response()
  {
  }
}
